/** internal/evaluation/report.go, 107-121: references to findings. */
module FindingRef {
  import opened Text
  import opened Wrappers

  datatype Reference = Reference(kind: string, source: string, finding: string)

  const CANDIDATE := "candidate"
  const BASELINE := "baseline"

  function Print(r: Reference): string {
    r.kind + [':'] + r.source + [':'] + r.finding
  }

  /** strings.SplitN with a limit of three, then the checks. */
  function Parse(ref: string): Option<Reference> {
    var i := IndexOf(ref, ':');
    if i == |ref| then None
    else
      var rest := ref[i + 1..];
      var j := IndexOf(rest, ':');
      if j == |rest| then None
      else
        var r := Reference(ref[..i], rest[..j], rest[j + 1..]);
        if r.source == "" || r.finding == "" || (r.kind != CANDIDATE && r.kind != BASELINE) then None else Some(r)
  }

  predicate Printable(r: Reference) {
    (r.kind == CANDIDATE || r.kind == BASELINE) && r.source != "" && r.finding != "" && ':' !in r.source
  }

  /** A printed reference reads back as itself exactly when its source has no colon, nothing is
      empty and the kind is known; the finding may hold colons. */
  lemma RoundTripIsExact(r: Reference)
    ensures Parse(Print(r)) == Some(r) <==> Printable(r)
  {
    var s := Print(r);
    if Printable(r) {
      PrintsBack(r);
    }
    if Parse(s) == Some(r) {
      ParsedIsPrintable(s);
    }
  }

  lemma PrintsBack(r: Reference)
    requires ':' !in r.kind && ':' !in r.source
    ensures var s := Print(r);
      IndexOf(s, ':') == |r.kind| && s[..|r.kind|] == r.kind && s[|r.kind| + 1..] == r.source + [':'] + r.finding
    ensures var rest := r.source + [':'] + r.finding;
      IndexOf(rest, ':') == |r.source| && rest[..|r.source|] == r.source && rest[|r.source| + 1..] == r.finding
  {
    assert Print(r) == r.kind + [':'] + (r.source + [':'] + r.finding);
    IndexOfFirst(r.kind, ':', r.source + [':'] + r.finding);
    IndexOfFirst(r.source, ':', r.finding);
  }

  lemma SplitAt(s: string, n: nat)
    requires n < |s|
    ensures s == s[..n] + [s[n]] + s[n + 1..]
  {}

  lemma Regroup(a: string, b: string, c: string)
    ensures a + [':'] + (b + [':'] + c) == a + [':'] + b + [':'] + c
  {}

  lemma ParsedIsPrintable(ref: string)
    requires Parse(ref).Some?
    ensures Printable(Parse(ref).value) && Print(Parse(ref).value) == ref
  {
    var i := IndexOf(ref, ':');
    var rest := ref[i + 1..];
    var j := IndexOf(rest, ':');
    SplitAt(ref, i);
    SplitAt(rest, j);
    assert ':' !in rest[..j];
    Regroup(ref[..i], rest[..j], rest[j + 1..]);
  }
}
