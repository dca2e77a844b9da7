/** internal/evaluation/muse.go, 821-838: what the groups hold, said of the strings of the events. */
module EventGroups {
  import opened Wrappers
  import opened JsonStrings
  import opened EventStream
  import opened EventChunks

  /** The values at one path, in the order they come. */
  function ValuesAt(texts: seq<EventString>, path: string): seq<string> {
    if texts == [] then []
    else (if texts[0].path == path then [texts[0].value] else []) + ValuesAt(texts[1..], path)
  }

  /** The strings of all events among the lines, one line after the other. */
  function AllStrings(lines: seq<seq<Byte>>, read: Reader): seq<EventString> {
    if lines == [] then [] else LineStrings(lines[0], read) + AllStrings(lines[1..], read)
  }

  function LineStrings(line: seq<Byte>, read: Reader): seq<EventString> {
    match read(line)
    case Event(members) => Strings(Obj(members), [])
    case _ => []
  }

  function EventCount(lines: seq<seq<Byte>>, read: Reader): nat {
    if lines == [] then 0 else EventCount(lines[1..], read) + if read(lines[0]).Event? then 1 else 0
  }

  function At(groups: map<string, seq<string>>, path: string): seq<string> {
    if path in groups then groups[path] else []
  }

  lemma {:induction false} ValuesConcat(a: seq<EventString>, b: seq<EventString>, path: string)
    ensures ValuesAt(a + b, path) == ValuesAt(a, path) + ValuesAt(b, path)
    decreases |a|
  {
    if a == [] {
      assert a + b == b;
    } else {
      assert (a + b)[1..] == a[1..] + b;
      ValuesConcat(a[1..], b, path);
    }
  }

  lemma {:induction false} GroupedAt(groups: map<string, seq<string>>, texts: seq<EventString>, path: string)
    ensures At(Grouped(groups, texts), path) == At(groups, path) + ValuesAt(texts, path)
    ensures path in Grouped(groups, texts) <==> path in groups || ValuesAt(texts, path) != []
    decreases |texts|
  {
    if texts != [] {
      var n := |texts| - 1;
      GroupedAt(groups, texts[..n], path);
      GroupedSnoc(groups, texts[..n], texts[n], path);
      ValuesSnoc(texts[..n], texts[n], path);
      assert texts == texts[..n] + [texts[n]];
    }
  }

  lemma GroupedSnoc(groups: map<string, seq<string>>, texts: seq<EventString>, t: EventString, path: string)
    ensures At(Grouped(groups, texts + [t]), path) == At(Grouped(groups, texts), path) + if t.path == path then [t.value] else []
    ensures path in Grouped(groups, texts + [t]) <==> path in Grouped(groups, texts) || t.path == path
  {
    assert (texts + [t])[..|texts|] == texts;
  }

  lemma ValuesSnoc(texts: seq<EventString>, t: EventString, path: string)
    ensures ValuesAt(texts + [t], path) == ValuesAt(texts, path) + if t.path == path then [t.value] else []
  {
    ValuesConcat(texts, [t], path);
    assert [t][1..] == [];
  }

  /** What has been read so far: so many events, and at each path its values in document order. */
  ghost predicate Holds(r: Record, lines: nat, texts: seq<EventString>) {
    && r.fatal.None? && r.lines == lines
    && (forall path :: At(r.groups, path) == ValuesAt(texts, path))
    && (forall path :: path in r.groups <==> ValuesAt(texts, path) != [])
  }

  lemma LineHolds(r: Record, line: seq<Byte>, read: Reader, lines: nat, texts: seq<EventString>)
    requires Holds(r, lines, texts) && !read(line).Malformed?
    ensures Holds(ReadLine(r, line, read), lines + (if read(line).Event? then 1 else 0), texts + LineStrings(line, read))
  {
    forall path
      ensures At(ReadLine(r, line, read).groups, path) == ValuesAt(texts + LineStrings(line, read), path)
      ensures path in ReadLine(r, line, read).groups <==> ValuesAt(texts + LineStrings(line, read), path) != []
    {
      ValuesConcat(texts, LineStrings(line, read), path);
      assert At(r.groups, path) == ValuesAt(texts, path);
      GroupedAt(r.groups, LineStrings(line, read), path);
    }
  }

  lemma InOrder(a: seq<EventString>, b: seq<EventString>, c: seq<EventString>)
    ensures a + b + c == a + (b + c)
  {
  }

  lemma {:induction false} LinesHold(r: Record, rest: seq<seq<Byte>>, read: Reader, lines: nat, texts: seq<EventString>)
    requires Holds(r, lines, texts) && forall line :: line in rest ==> !read(line).Malformed?
    ensures Holds(Batch(r, rest, read), lines + EventCount(rest, read), texts + AllStrings(rest, read))
    decreases |rest|
  {
    if rest == [] {
      assert texts + [] == texts;
    } else {
      LineHolds(r, rest[0], read, lines, texts);
      LinesHold(ReadLine(r, rest[0], read), rest[1..], read,
                lines + (if read(rest[0]).Event? then 1 else 0), texts + LineStrings(rest[0], read));
      InOrder(texts, LineStrings(rest[0], read), AllStrings(rest[1..], read));
    }
  }

  /** Lines that are blank or objects are counted and grouped: the number of events, and under each
      path exactly the values with that path of all their strings, in document order. */
  lemma GroupsAreInDocumentOrder(lines: seq<seq<Byte>>, read: Reader)
    requires forall line :: line in lines ==> !read(line).Malformed?
    ensures var r := Batch(NOTHING, lines, read);
      && r.fatal.None? && r.lines == EventCount(lines, read)
      && (forall path :: path in r.groups <==> ValuesAt(AllStrings(lines, read), path) != [])
      && (forall path :: path in r.groups ==> r.groups[path] == ValuesAt(AllStrings(lines, read), path))
  {
    LinesHold(NOTHING, lines, read, 0, []);
    assert [] + AllStrings(lines, read) == AllStrings(lines, read);
    var r := Batch(NOTHING, lines, read);
    forall path | path in r.groups
      ensures r.groups[path] == ValuesAt(AllStrings(lines, read), path)
    {
      assert At(r.groups, path) == r.groups[path];
    }
  }

  lemma {:induction false} BatchStops(
    r: Record, rest: seq<seq<Byte>>, bad: seq<Byte>, more: seq<seq<Byte>>, read: Reader, lines: nat, texts: seq<EventString>)
    requires Holds(r, lines, texts) && forall line :: line in rest ==> !read(line).Malformed?
    requires read(bad).Malformed?
    ensures Batch(r, rest + [bad] + more, read).fatal == Some(NotAnObject(lines + EventCount(rest, read) + 1))
    decreases |rest|
  {
    var all := rest + [bad] + more;
    if rest == [] {
      assert all[0] == bad;
      assert ReadLine(r, bad, read).fatal.Some?;
    } else {
      LineHolds(r, rest[0], read, lines, texts);
      assert all[0] == rest[0] && all[1..] == rest[1..] + [bad] + more;
      BatchStops(ReadLine(r, rest[0], read), rest[1..], bad, more, read,
                 lines + (if read(rest[0]).Event? then 1 else 0), texts + LineStrings(rest[0], read));
    }
  }

  /** The first line that is no object is the fault, named by its number among the events. */
  lemma FirstMalformedIsTheFault(before: seq<seq<Byte>>, bad: seq<Byte>, more: seq<seq<Byte>>, read: Reader)
    requires (forall line :: line in before ==> !read(line).Malformed?) && read(bad).Malformed?
    ensures Batch(NOTHING, before + [bad] + more, read).fatal == Some(NotAnObject(EventCount(before, read) + 1))
  {
    BatchStops(NOTHING, before, bad, more, read, 0, []);
  }
}
