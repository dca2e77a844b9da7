/** internal/forge/feedback.go, 307-398 and 767-772: what a comment is, and the replies that
    acknowledge one. */
module Feedback {
  import opened Wrappers
  import opened Text
  import opened Marker

  /** The whitespace the recognizer looks for in a token. */
  predicate HasBlank(s: string) {
    exists i :: 0 <= i < |s| && s[i] in " \t\r\n"
  }

  function UpperAscii(c: char): char {
    if 'a' <= c <= 'z' then (c as int - 32) as char else c
  }

  const APPROVED := "APPROVED"

  /** isReviewerApproval. */
  predicate IsReviewerApproval(body: string) {
    var msg := AgentCommentMessage(body);
    |msg| >= |APPROVED| && forall i :: 0 <= i < |APPROVED| ==> UpperAscii(msg[i]) == APPROVED[i]
  }

  /** isActionableGlobalComment. */
  predicate IsActionable(body: string) {
    match AgentCommentRole(body)
    case None => true
    case Some(role) => role == REVIEWER && !IsReviewerApproval(body)
  }

  const ADDRESSED := "addressed in "
  const SEE := " (see comment "
  const DISPUTED := "disputed (see comment "

  /** strings.Index, with the length standing for "not found". */
  function Find(s: string, sub: string): (n: nat)
    ensures n <= |s|
  {
    if sub <= s then 0 else if s == "" then 0 else 1 + Find(s[1..], sub)
  }

  /** Whether sub was found where Find says. */
  predicate Found(s: string, sub: string) {
    sub <= s[Find(s, sub)..]
  }

  /** bodyAcknowledgesComment. */
  predicate Acknowledges(body: string, target: string) {
    var msg := AgentCommentMessage(body);
    var marker := SEE + target + ")";
    if ADDRESSED <= msg then
      var rest := msg[|ADDRESSED|..];
      var sha := rest[..Find(rest, marker)];
      Found(rest, marker) && sha != "" && !HasBlank(sha)
    else if DISPUTED <= msg then
      var rest := msg[|DISPUTED|..];
      var n := IndexOf(rest, ')');
      n < |rest| && rest[..n] != "" && !HasBlank(rest[..n]) && rest[..n] == target
    else false
  }

  /** The two replies that postCommentReply writes. */
  function AddressedReply(model: string, sha: string, id: string): string {
    MarkerPrefix(model, WORKER) + AddressedMessage(sha, id)
  }

  function AddressedMessage(sha: string, id: string): string {
    ADDRESSED + sha + SEE + id + ")"
  }

  function DisputedReply(model: string, id: string): string {
    MarkerPrefix(model, WORKER) + DisputedMessage(id)
  }

  const REASON := ": finding disputed with source evidence in this round's submission; not fixed"

  function DisputedMessage(id: string): string {
    DISPUTED + id + [')'] + REASON
  }

  ghost predicate IsId(s: string) {
    s != "" && ')' !in s && !HasBlank(s)
  }

  lemma {:induction false} FindBounds(s: string, sub: string, k: nat)
    requires k <= |s| && sub <= s[k..]
    ensures Find(s, sub) <= k && Found(s, sub)
    decreases |s|
  {
    if !(sub <= s) {
      assert s[1..][k - 1..] == s[k..];
      FindBounds(s[1..], sub, k - 1);
      assert s[1..][Find(s[1..], sub)..] == s[Find(s, sub)..];
    }
  }

  lemma AddressedReadsBack(model: string, sha: string, id: string)
    requires IsToken(model)
    ensures AgentCommentRole(AddressedReply(model, sha, id)) == Some(WORKER)
    ensures AgentCommentMessage(AddressedReply(model, sha, id)) == AddressedMessage(sha, id)
  {
    PrefixReadsBack(model, WORKER, AddressedMessage(sha, id));
  }

  lemma DisputedReadsBack(model: string, id: string)
    requires IsToken(model)
    ensures AgentCommentRole(DisputedReply(model, id)) == Some(WORKER)
    ensures AgentCommentMessage(DisputedReply(model, id)) == DisputedMessage(id)
  {
    var m := DisputedMessage(id);
    assert m[|m| - 1] == REASON[|REASON| - 1] == 'd';
    PrefixReadsBack(model, WORKER, m);
  }

  /** Two ids closed by a parenthesis agree only if they are equal. */
  lemma ClosedIdsAgree(a: string, b: string)
    requires ')' !in b && a + ")" <= b + ")"
    ensures a == b
  {
    assert (a + ")")[|a|] == (b + ")")[|a|];
    assert forall i :: 0 <= i < |b| ==> (b + ")")[i] == b[i];
    assert |a| == |b|;
    assert a == (b + ")")[..|a|];
  }

  lemma Regroup(a: string, b: string, c: string, d: string)
    ensures a + b + c + d == a + (b + c + d)
    ensures a + b + c + d == a + b + (c + d)
    ensures (a + b)[|a|..] == b && (a + b)[..|a|] == a
  {}

  lemma Drop(a: string, b: string)
    ensures (a + b)[|a|..] == b && (a + b)[..|a|] == a && a <= a + b
  {}

  /** What the recognizer sees behind the prefix of an addressed reply. */
  lemma AddressedRest(sha: string, id: string)
    ensures AddressedMessage(sha, id) == ADDRESSED + (sha + (SEE + id + ")"))
    ensures ADDRESSED <= AddressedMessage(sha, id)
    ensures AddressedMessage(sha, id)[|ADDRESSED|..] == sha + (SEE + id + ")")
  {
    Regroup(ADDRESSED, sha, SEE + id, ")");
    Regroup(sha, SEE, id, ")");
    assert ADDRESSED + sha + SEE + id == ADDRESSED + sha + (SEE + id);
    Drop(ADDRESSED, sha + (SEE + id + ")"));
  }

  /** An addressed reply acknowledges the comment it names and no other. */
  lemma AddressedIsExact(model: string, sha: string, id: string, target: string)
    requires IsToken(model) && sha != "" && !HasBlank(sha) && ')' !in id
    ensures Acknowledges(AddressedReply(model, sha, id), target) <==> target == id
  {
    AddressedReadsBack(model, sha, id);
    AddressedRest(sha, id);
    FoundBehindSha(sha, id, target);
  }

  /** A parenthesis in the id is all that can go wrong: the id up to it is acknowledged as well. */
  lemma AddressedNeedsNoParenthesis(model: string, sha: string, id: string)
    requires IsToken(model) && sha != "" && !HasBlank(sha)
    ensures (forall target :: Acknowledges(AddressedReply(model, sha, id), target) <==> target == id) <==> ')' !in id
  {
    if ')' !in id {
      forall target
        ensures Acknowledges(AddressedReply(model, sha, id), target) <==> target == id
      {
        AddressedIsExact(model, sha, id, target);
      }
    } else {
      var part := ParenthesisCutsId(model, sha, id);
    }
  }

  lemma ParenthesisCutsId(model: string, sha: string, id: string) returns (part: string)
    requires IsToken(model) && sha != "" && !HasBlank(sha) && ')' in id
    ensures part != id && Acknowledges(AddressedReply(model, sha, id), part)
  {
    var i :| 0 <= i < |id| && id[i] == ')';
    part := id[..i];
    assert id[..i + 1] == part + ")";
    AddressedReadsBack(model, sha, id);
    AddressedRest(sha, id);
    BeginningFound(sha, id, part);
  }

  lemma BeginningFound(sha: string, id: string, part: string)
    requires sha != "" && !HasBlank(sha) && part + ")" <= id
    ensures var rest, marker := sha + (SEE + id + ")"), SEE + part + ")";
      Found(rest, marker) && rest[..Find(rest, marker)] != "" && !HasBlank(rest[..Find(rest, marker)])
  {
    var tail, marker := SEE + id + ")", SEE + part + ")";
    var rest := sha + tail;
    assert marker[0] == ' ';
    Drop(sha, tail);
    assert id == part + ")" + id[|part| + 1..];
    assert tail == marker + (id[|part| + 1..] + ")");
    FindBounds(rest, marker, |sha|);
    MarkerNotInSha(sha, tail, marker);
    assert rest[..Find(rest, marker)] == sha;
  }

  lemma FoundBehindSha(sha: string, id: string, target: string)
    requires sha != "" && !HasBlank(sha) && ')' !in id
    ensures var rest, marker := sha + (SEE + id + ")"), SEE + target + ")";
      Found(rest, marker) && rest[..Find(rest, marker)] != "" && !HasBlank(rest[..Find(rest, marker)]) <==> target == id
  {
    var tail, marker := SEE + id + ")", SEE + target + ")";
    var rest := sha + tail;
    var n := Find(rest, marker);
    assert marker[0] == ' ' && tail[0] == ' ';
    Drop(sha, tail);
    MarkerNotInSha(sha, tail, marker);
    if target == id {
      FindBounds(rest, marker, |sha|);
      assert rest[..n] == sha;
    } else if Found(rest, marker) {
      if n == |sha| {
        SameMarker(target, id);
      } else {
        assert rest[..n][|sha|] == tail[0];
      }
    }
  }

  lemma SameMarker(a: string, b: string)
    requires ')' !in b && SEE + a + ")" <= SEE + b + ")"
    ensures a == b
  {
    var s, t := SEE + a + ")", SEE + b + ")";
    assert a + ")" == s[|SEE|..] && b + ")" == t[|SEE|..];
    ClosedIdsAgree(a, b);
  }

  /** The marker starts with a blank, so it is not found within a sha. */
  lemma MarkerNotInSha(sha: string, tail: string, marker: string)
    requires !HasBlank(sha) && marker != "" && marker[0] == ' '
    ensures Found(sha + tail, marker) ==> Find(sha + tail, marker) >= |sha|
  {
    var rest := sha + tail;
    assert forall i :: 0 <= i < |sha| ==> rest[i] == sha[i] != ' ';
    assert Found(rest, marker) ==> rest[Find(rest, marker)] == marker[0];
  }

  /** A disputed reply acknowledges exactly the comment it names, if the name is an id; a name that
      is empty, blank or has a parenthesis is acknowledged by nothing it could stand for. */
  lemma DisputedIsExact(model: string, id: string, target: string)
    requires IsToken(model) && IsId(id)
    ensures Acknowledges(DisputedReply(model, id), target) <==> target == id
  {
    DisputedReadsBack(model, id);
    ClosedToken(DISPUTED, id, REASON);
    NotAddressed(DisputedMessage(id));
  }

  /** The shape of a disputed message, whatever its prefix and its reason say. */
  lemma ClosedToken(prefix: string, id: string, reason: string)
    ensures var msg, rest := prefix + id + [')'] + reason, id + [')'] + reason;
      prefix <= msg && msg[|prefix|..] == rest && rest[..|id|] == id
    ensures ')' !in id ==> IndexOf(id + [')'] + reason, ')') == |id|
    ensures ')' in id ==> IndexOf(id + [')'] + reason, ')') < |id|
  {
    var rest := id + [')'] + reason;
    Regroup(prefix, id, [')'], reason);
    Drop(prefix, rest);
    if ')' !in id {
      IndexOfFirst(id, ')', reason);
    } else {
      var i :| 0 <= i < |id| && id[i] == ')';
      assert rest[i] == ')';
    }
  }

  lemma NotAddressed(msg: string)
    requires DISPUTED <= msg
    ensures !(ADDRESSED <= msg)
  {
    assert msg[0] == DISPUTED[0] != ADDRESSED[0];
  }

  lemma DisputedNeedsAnId(model: string, id: string)
    requires IsToken(model)
    ensures Acknowledges(DisputedReply(model, id), id) <==> IsId(id)
  {
    DisputedReadsBack(model, id);
    ClosedToken(DISPUTED, id, REASON);
    NotAddressed(DisputedMessage(id));
  }
}
