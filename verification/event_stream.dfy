/** internal/evaluation/muse.go, 770-838: the reader of the child's JSONL output. */
module EventStream {
  import opened Wrappers
  import opened JsonStrings

  type Byte = b: int | 0 <= b < 256

  const NEWLINE: Byte := 10
  const MAX_OUTPUT := 16 * 1024 * 1024
  const MAX_LINE := 4 * 1024 * 1024

  /** What one line is, once trimmed and decoded: nothing, no JSON object, or the members of one. */
  datatype Line = Blank | Malformed | Event(members: Members)

  /** Stands for bytes.TrimSpace, json.Valid and the decoder. Only what trimming does to an empty
      line matters here. */
  type Reader = seq<Byte> -> Line

  predicate ReadsBlank(read: Reader) {
    read([]) == Blank
  }

  datatype Fault = OutputTooLong | LineTooLong | NotAnObject(event: nat)

  /** What reading lines has produced so far. */
  datatype Record = Record(lines: nat, groups: map<string, seq<string>>, fatal: Option<Fault>)

  datatype Events = Events(buf: seq<Byte>, total: nat, record: Record)

  const NOTHING := Record(0, map[], None)
  const EMPTY := Events([], 0, NOTHING)

  function Grouped(groups: map<string, seq<string>>, texts: seq<EventString>): map<string, seq<string>> {
    if texts == [] then groups
    else
      var rest := Grouped(groups, texts[..|texts| - 1]);
      var t := texts[|texts| - 1];
      rest[t.path := (if t.path in rest then rest[t.path] else []) + [t.value]]
  }

  function Failed(r: Record, fault: Fault): Record {
    if r.fatal.None? then r.(fatal := Some(fault)) else r
  }

  function ReadLine(r: Record, raw: seq<Byte>, read: Reader): Record {
    match read(raw)
    case Blank => r
    case Malformed => Failed(r, NotAnObject(r.lines + 1))
    case Event(members) => r.(lines := r.lines + 1, groups := Grouped(r.groups, Strings(Obj(members), [])))
  }

  /** The index of the first newline, or the length if there is none. */
  function FirstNewline(b: seq<Byte>): (n: nat)
    ensures n <= |b|
    ensures forall i :: 0 <= i < n ==> b[i] != NEWLINE
    ensures n < |b| ==> b[n] == NEWLINE
  {
    if b == [] || b[0] == NEWLINE then 0 else 1 + FirstNewline(b[1..])
  }

  /** The loop of Write: read every complete line of the buffer, and keep the rest. */
  datatype Drained = Drained(record: Record, rest: seq<Byte>)

  function Drain(r: Record, buf: seq<Byte>, read: Reader): Drained
    decreases |buf|
  {
    var n := FirstNewline(buf);
    if r.fatal.Some? || n == |buf| then Drained(r, buf)
    else Drain(ReadLine(r, buf[..n], read), buf[n + 1..], read)
  }

  function CheckRest(d: Drained): Record {
    if d.record.fatal.None? && |d.rest| > MAX_LINE then Failed(d.record, LineTooLong) else d.record
  }

  function Written(e: Events, p: seq<Byte>, read: Reader): Events {
    if e.record.fatal.Some? then e
    else
      var total := e.total + |p|;
      if total > MAX_OUTPUT then Events(e.buf, total, Failed(e.record, OutputTooLong))
      else
        var d := Drain(e.record, e.buf + p, read);
        Events(d.rest, total, CheckRest(d))
  }

  function Flushed(e: Events, read: Reader): Events {
    var last := if e.record.fatal.None? && |e.buf| > 0 then ReadLine(e.record, e.buf, read) else e.record;
    Events([], e.total, last)
  }

  function WrittenAll(e: Events, chunks: seq<seq<Byte>>, read: Reader): Events
    decreases |chunks|
  {
    if chunks == [] then e else WrittenAll(Written(e, chunks[0], read), chunks[1..], read)
  }

  function Joined(chunks: seq<seq<Byte>>): seq<Byte> {
    if chunks == [] then [] else chunks[0] + Joined(chunks[1..])
  }

  /** The reader itself. kills counts calls of the kill function. */
  class MuseEvents {
    const read: Reader
    var buf: seq<Byte>
    var total: nat
    var lines: nat
    var groups: map<string, seq<string>>
    var fatal: Option<Fault>
    var kills: nat

    constructor (read: Reader)
      ensures State() == EMPTY && kills == 0 && this.read == read
    {
      this.read := read;
      buf, total, lines, groups, fatal, kills := [], 0, 0, map[], None, 0;
    }

    function State(): Events
      reads this
    {
      Events(buf, total, Record(lines, groups, fatal))
    }

    /** The run is killed once, when the first fault is recorded. */
    ghost predicate Valid()
      reads this
    {
      kills == if fatal.Some? then 1 else 0
    }

    method Fail(fault: Fault)
      requires Valid()
      modifies this
      ensures Valid() && State() == old(State()).(record := Failed(old(State()).record, fault))
    {
      if fatal.None? {
        fatal := Some(fault);
        kills := kills + 1;
      }
    }

    method Line(raw: seq<Byte>)
      requires Valid()
      modifies this
      ensures Valid() && State() == old(State()).(record := ReadLine(old(State()).record, raw, read))
    {
      match read(raw) {
        case Blank =>
        case Malformed =>
          Fail(NotAnObject(lines + 1));
        case Event(members) =>
          var texts := JsonlEventStrings(Tokens(Obj(members)), Obj(members));
          lines := lines + 1;
          for i := 0 to |texts|
            invariant Valid()
            invariant buf == old(buf) && total == old(total) && lines == old(lines) + 1 && fatal == old(fatal)
            invariant groups == Grouped(old(groups), texts[..i])
          {
            var t := texts[i];
            assert texts[..i + 1][..i] == texts[..i];
            groups := groups[t.path := (if t.path in groups then groups[t.path] else []) + [t.value]];
          }
          assert texts[..|texts|] == texts;
      }
    }

    method Write(p: seq<Byte>)
      requires Valid()
      modifies this
      ensures Valid() && State() == Written(old(State()), p, read)
    {
      if fatal.Some? {
        return;
      }
      total := total + |p|;
      if total > MAX_OUTPUT {
        Fail(OutputTooLong);
        return;
      }
      buf := buf + p;
      ReadLines();
      if fatal.None? && |buf| > MAX_LINE {
        Fail(LineTooLong);
      }
    }

    /** The loop of Write. */
    method ReadLines()
      requires Valid()
      modifies this
      ensures Valid() && total == old(total)
      ensures Drained(State().record, buf) == Drain(old(State()).record, old(buf), read)
    {
      ghost var drained := Drain(State().record, buf, read);
      while fatal.None?
        invariant Valid() && total == old(total)
        invariant Drain(State().record, buf, read) == drained
        decreases |buf|, fatal.None?
      {
        var i := FirstNewline(buf);
        if i == |buf| {
          break;
        }
        var line := buf[..i];
        buf := buf[i + 1..];
        Line(line);
      }
    }

    method Flush()
      requires Valid()
      modifies this
      ensures Valid() && State() == Flushed(old(State()), read)
    {
      if fatal.None? && |buf| > 0 {
        Line(buf);
      }
      buf := [];
    }
  }
}
