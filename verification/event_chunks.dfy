/** The event reader does not see how the pipe cuts its input, up to the one check that does: the
    length of an unfinished line. */
module EventChunks {
  import opened Wrappers
  import opened EventStream

  /** What the caller uses: a rejected run, or what was read. */
  datatype Outcome = Rejected(fault: Fault) | Accepted(lines: nat, groups: map<string, seq<string>>)

  function OutcomeOf(r: Record): Outcome {
    if r.fatal.Some? then Rejected(r.fatal.value) else Accepted(r.lines, r.groups)
  }

  function Result(chunks: seq<seq<Byte>>, read: Reader): Outcome {
    OutcomeOf(Flushed(WrittenAll(EMPTY, chunks, read), read).record)
  }

  lemma {:induction false} DrainLeavesNoNewline(r: Record, buf: seq<Byte>, read: Reader)
    ensures var d := Drain(r, buf, read); d.record.fatal.None? ==> FirstNewline(d.rest) == |d.rest|
    ensures Drain(r, buf, read).record.fatal == Some(LineTooLong) ==> r.fatal == Some(LineTooLong)
    decreases |buf|
  {
    var n := FirstNewline(buf);
    if r.fatal.None? && n < |buf| {
      DrainLeavesNoNewline(ReadLine(r, buf[..n], read), buf[n + 1..], read);
    }
  }

  lemma FirstNewlineStays(a: seq<Byte>, b: seq<Byte>)
    ensures FirstNewline(a) < |a| ==> FirstNewline(a + b) == FirstNewline(a)
    ensures FirstNewline(a) == |a| ==> FirstNewline(a + b) == |a| + FirstNewline(b)
  {
    var n, m, k := FirstNewline(a), FirstNewline(a + b), FirstNewline(b);
    if n < |a| {
      assert (a + b)[n] == NEWLINE;
      assert m < |a| ==> a[m] == NEWLINE;
    } else {
      assert k < |b| ==> (a + b)[|a| + k] == NEWLINE;
      assert forall i :: |a| <= i < |a| + k ==> (a + b)[i] == b[i - |a|];
    }
  }

  /** The first line of a is the first line of a + b. */
  lemma LineStays(a: seq<Byte>, b: seq<Byte>)
    requires FirstNewline(a) < |a|
    ensures var n := FirstNewline(a);
      FirstNewline(a + b) == n && (a + b)[..n] == a[..n] && (a + b)[n + 1..] == a[n + 1..] + b
  {
    FirstNewlineStays(a, b);
  }

  lemma DrainFirst(r: Record, a: seq<Byte>, b: seq<Byte>, read: Reader)
    requires r.fatal.None? && FirstNewline(a) < |a|
    ensures var n := FirstNewline(a); var next, rest := ReadLine(r, a[..n], read), a[n + 1..];
      Drain(r, a, read) == Drain(next, rest, read) && Drain(r, a + b, read) == Drain(next, rest + b, read)
  {
    LineStays(a, b);
  }

  /** Reading what is complete now and the rest later is reading it all at once. */
  lemma {:induction false} DrainAppend(r: Record, a: seq<Byte>, b: seq<Byte>, read: Reader)
    ensures var d := Drain(r, a, read);
      if d.record.fatal.Some? then Drain(r, a + b, read).record == d.record
      else Drain(r, a + b, read) == Drain(d.record, d.rest + b, read)
    decreases |a|
  {
    var n := FirstNewline(a);
    if r.fatal.None? && n < |a| {
      DrainFirst(r, a, b, read);
      DrainAppend(ReadLine(r, a[..n], read), a[n + 1..], b, read);
    }
  }

  /** Everything complete in x read. */
  function At(x: seq<Byte>, read: Reader): Drained {
    Drain(NOTHING, x, read)
  }

  /** The unfinished line after the bytes x is already too long. */
  ghost predicate Overlong(x: seq<Byte>, read: Reader) {
    At(x, read).record.fatal.None? && |At(x, read).rest| > MAX_LINE
  }

  /** After the bytes x, however they were cut, the reader stands where reading them at once leaves
      it, unless some beginning of x was overlong. */
  ghost predicate Tracks(s: Events, x: seq<Byte>, read: Reader) {
    if s.record.fatal == Some(LineTooLong) then exists k :: 0 <= k <= |x| && Overlong(x[..k], read)
    else
      && s.record.fatal == At(x, read).record.fatal
      && (s.record.fatal.None? ==> s == Events(At(x, read).rest, |x|, At(x, read).record) && |s.buf| <= MAX_LINE)
  }

  lemma WriteTracks(s: Events, x: seq<Byte>, p: seq<Byte>, read: Reader)
    requires Tracks(s, x, read) && |x| + |p| <= MAX_OUTPUT
    ensures Tracks(Written(s, p, read), x + p, read)
  {
    DrainAppend(NOTHING, x, p, read);
    if s.record.fatal == Some(LineTooLong) {
      var k :| 0 <= k <= |x| && Overlong(x[..k], read);
      assert (x + p)[..k] == x[..k];
    } else if s.record.fatal.None? {
      DrainLeavesNoNewline(s.record, s.buf + p, read);
      if Overlong(x + p, read) {
        assert (x + p)[..|x + p|] == x + p;
      }
    }
  }

  lemma {:induction false} WriteAllTracks(s: Events, x: seq<Byte>, chunks: seq<seq<Byte>>, read: Reader)
    requires Tracks(s, x, read) && |x| + |Joined(chunks)| <= MAX_OUTPUT
    ensures Tracks(WrittenAll(s, chunks, read), x + Joined(chunks), read)
    decreases |chunks|
  {
    if chunks == [] {
      assert x + [] == x;
    } else {
      WriteTracks(s, x, chunks[0], read);
      WriteAllTracks(Written(s, chunks[0], read), x + chunks[0], chunks[1..], read);
      assert x + chunks[0] + Joined(chunks[1..]) == x + Joined(chunks);
    }
  }

  lemma SplitTracks(chunks: seq<seq<Byte>>, read: Reader)
    requires |Joined(chunks)| <= MAX_OUTPUT
    ensures Tracks(WrittenAll(EMPTY, chunks, read), Joined(chunks), read)
  {
    WriteAllTracks(EMPTY, [], chunks, read);
    assert [] + Joined(chunks) == Joined(chunks);
  }

  /** One Write of all the bytes. */
  function Whole(bytes: seq<Byte>, read: Reader): Outcome {
    Result([bytes], read)
  }

  lemma WholeResult(bytes: seq<Byte>, read: Reader)
    requires |bytes| <= MAX_OUTPUT
    ensures Whole(bytes, read) ==
      if Overlong(bytes, read) then Rejected(LineTooLong)
      else OutcomeOf(Flushed(Events(At(bytes, read).rest, |bytes|, At(bytes, read).record), read).record)
  {
    assert [] + bytes == bytes;
    assert WrittenAll(EMPTY, [bytes], read) == WrittenAll(Written(EMPTY, bytes, read), [], read);
  }

  /** However the bytes are cut, the result is that of one Write or a rejection for a line that was
      too long while unfinished. */
  lemma SplitIsWholeOrTooLong(chunks: seq<seq<Byte>>, read: Reader)
    requires |Joined(chunks)| <= MAX_OUTPUT
    ensures Result(chunks, read) == Whole(Joined(chunks), read) || Result(chunks, read) == Rejected(LineTooLong)
    ensures Result(chunks, read) == Rejected(LineTooLong) ==>
      exists k :: 0 <= k <= |Joined(chunks)| && Overlong(Joined(chunks)[..k], read)
  {
    var bytes := Joined(chunks);
    SplitTracks(chunks, read);
    WholeResult(bytes, read);
    DrainLeavesNoNewline(NOTHING, bytes, read);
  }

  /** Every newline-terminated line that is read, up to the first that is malformed, fits the limit.
      */
  predicate LinesFit(r: Record, buf: seq<Byte>, read: Reader)
    decreases |buf|
  {
    var n := FirstNewline(buf);
    r.fatal.Some? || n == |buf| || (n <= MAX_LINE && LinesFit(ReadLine(r, buf[..n], read), buf[n + 1..], read))
  }

  predicate Fits(bytes: seq<Byte>, read: Reader) {
    LinesFit(NOTHING, bytes, read)
  }

  lemma {:induction false} FitsAppend(r: Record, a: seq<Byte>, b: seq<Byte>, read: Reader)
    requires LinesFit(r, a + b, read)
    ensures var d := Drain(r, a, read); d.record.fatal.None? ==> LinesFit(d.record, d.rest + b, read)
    decreases |a|
  {
    var n := FirstNewline(a);
    if r.fatal.None? && n < |a| {
      LineStays(a, b);
      FitsAppend(ReadLine(r, a[..n], read), a[n + 1..], b, read);
    }
  }

  /** An overlong beginning means a long terminated line, or that the last line is too long however
      the bytes are cut. */
  lemma OverlongShows(bytes: seq<Byte>, k: nat, read: Reader)
    requires k <= |bytes| <= MAX_OUTPUT && Overlong(bytes[..k], read) && Fits(bytes, read)
    ensures Whole(bytes, read) == Rejected(LineTooLong)
  {
    var x, y := bytes[..k], bytes[k..];
    assert bytes == x + y;
    FitsAppend(NOTHING, x, y, read);
    DrainAppend(NOTHING, x, y, read);
    DrainLeavesNoNewline(NOTHING, x, read);
    FirstNewlineStays(At(x, read).rest, y);
    WholeResult(bytes, read);
  }

  /** A terminated line that is too long gives a beginning that is overlong. */
  lemma {:induction false} LongLineShows(r: Record, buf: seq<Byte>, read: Reader) returns (cut: seq<Byte>, more: seq<Byte>)
    requires r.fatal.None? && !LinesFit(r, buf, read)
    ensures buf == cut + more
    ensures var d := Drain(r, cut, read); d.record.fatal.None? && |d.rest| > MAX_LINE
    decreases |buf|
  {
    var n := FirstNewline(buf);
    if n > MAX_LINE {
      cut, more := buf[..n], buf[n..];
      NoNewlineIn(cut);
    } else {
      var line := buf[..n];
      var rest;
      rest, more := LongLineShows(ReadLine(r, line, read), buf[n + 1..], read);
      DrainLine(r, line, rest, read);
      PutBack(buf, n, rest, more);
      cut := line + [NEWLINE] + rest;
    }
  }

  lemma PutBack(buf: seq<Byte>, n: nat, rest: seq<Byte>, more: seq<Byte>)
    requires n < |buf| && buf[n + 1..] == rest + more
    ensures buf == buf[..n] + [buf[n]] + rest + more
  {
    var front := buf[..n] + [buf[n]];
    assert buf == front + buf[n + 1..];
    assert front + (rest + more) == front + rest + more;
  }

  lemma NoNewlineIn(line: seq<Byte>)
    requires forall i :: 0 <= i < |line| ==> line[i] != NEWLINE
    ensures FirstNewline(line) == |line|
  {
  }

  /** Reading a first line that ends, and what is behind it. */
  lemma DrainLine(r: Record, line: seq<Byte>, rest: seq<Byte>, read: Reader)
    requires r.fatal.None? && forall i :: 0 <= i < |line| ==> line[i] != NEWLINE
    ensures Drain(r, line + [NEWLINE] + rest, read) == Drain(ReadLine(r, line, read), rest, read)
  {
    var first := line + [NEWLINE];
    FirstNewlineStays(line, [NEWLINE]);
    NoNewlineIn(line);
    assert first[..|line|] == line && first[|line| + 1..] == [] && [] + rest == rest;
    DrainFirst(r, first, rest, read);
  }

  lemma TwoChunks(e: Events, x: seq<Byte>, y: seq<Byte>, read: Reader)
    ensures Joined([x, y]) == x + y
    ensures WrittenAll(e, [x, y], read) == Written(Written(e, x, read), y, read)
  {
    var both, last := [x, y], [y];
    assert both[1..] == last && last[1..] == [];
    assert Joined(last) == y + [] == y;
    assert WrittenAll(e, both, read) == WrittenAll(Written(e, x, read), last, read);
    assert WrittenAll(Written(e, x, read), last, read) == WrittenAll(Written(Written(e, x, read), y, read), last[1..], read);
  }

  lemma CutAtLongLine(cut: seq<Byte>, more: seq<Byte>, read: Reader)
    requires |cut| <= MAX_OUTPUT && Overlong(cut, read)
    ensures Joined([cut, more]) == cut + more
    ensures Result([cut, more], read) == Rejected(LineTooLong)
  {
    TwoChunks(EMPTY, cut, more, read);
    assert [] + cut == cut;
    assert Written(EMPTY, cut, read).record.fatal == Some(LineTooLong);
  }

  ghost predicate ChunkIndependent(bytes: seq<Byte>, read: Reader) {
    forall chunks :: Joined(chunks) == bytes ==> Result(chunks, read) == Whole(bytes, read)
  }

  /** One Write of everything is rejected for its length exactly if the unfinished line at the end is
      too long. */
  lemma WholeTooLongIffOverlong(bytes: seq<Byte>, read: Reader)
    requires |bytes| <= MAX_OUTPUT
    ensures Whole(bytes, read) == Rejected(LineTooLong) <==> Overlong(bytes, read)
  {
    WholeResult(bytes, read);
    DrainLeavesNoNewline(NOTHING, bytes, read);
  }

  /** One batch, split on newlines. */
  function Lines(b: seq<Byte>): (lines: seq<seq<Byte>>)
    ensures |lines| > 0
  {
    var n := FirstNewline(b);
    if n == |b| then [b] else [b[..n]] + Lines(b[n + 1..])
  }

  /** All lines before the i-th are blank or JSON objects, so that it is reached. */
  predicate Reached(lines: seq<seq<Byte>>, i: nat, read: Reader)
    requires i <= |lines|
  {
    forall j :: 0 <= j < i ==> !read(lines[j]).Malformed?
  }

  /** The newline-terminated lines, up to the first malformed one, fit the limit. */
  predicate TerminatedFit(lines: seq<seq<Byte>>, read: Reader) {
    forall i :: 0 <= i < |lines| - 1 && Reached(lines, i, read) ==> |lines[i]| <= MAX_LINE
  }

  /** The unfinished last line is reached, and exceeds it. */
  predicate LastTooLong(lines: seq<seq<Byte>>, read: Reader)
    requires lines != []
  {
    Reached(lines, |lines| - 1, read) && |lines[|lines| - 1]| > MAX_LINE
  }

  lemma ReachedBehind(x: seq<Byte>, rest: seq<seq<Byte>>, i: nat, read: Reader)
    requires i <= |rest|
    ensures Reached([x] + rest, i + 1, read) <==> !read(x).Malformed? && Reached(rest, i, read)
  {
    var all := [x] + rest;
    assert all[0] == x && all[1..] == rest;
    if Reached(all, i + 1, read) {
      forall j | 0 <= j < i
        ensures !read(rest[j]).Malformed?
      {
        assert rest[j] == all[j + 1];
      }
    }
  }

  lemma FitBehind(x: seq<Byte>, rest: seq<seq<Byte>>, read: Reader)
    requires rest != []
    ensures TerminatedFit([x] + rest, read) <==> |x| <= MAX_LINE && (read(x).Malformed? || TerminatedFit(rest, read))
    ensures LastTooLong([x] + rest, read) <==> !read(x).Malformed? && LastTooLong(rest, read)
  {
    var all := [x] + rest;
    ReachedBehind(x, rest, |rest| - 1, read);
    if TerminatedFit(all, read) {
      assert Reached(all, 0, read) && |all[0]| <= MAX_LINE;
      if !read(x).Malformed? {
        forall i | 0 <= i < |rest| - 1 && Reached(rest, i, read)
          ensures |rest[i]| <= MAX_LINE
        {
          ReachedBehind(x, rest, i, read);
          assert rest[i] == all[i + 1];
        }
      }
    }
    if |x| <= MAX_LINE && (read(x).Malformed? || TerminatedFit(rest, read)) {
      forall i | 0 <= i < |all| - 1 && Reached(all, i, read)
        ensures |all[i]| <= MAX_LINE
      {
        if i > 0 { ReachedBehind(x, rest, i - 1, read); }
      }
    }
  }

  /** What the loop finds, said of the lines. */
  lemma {:induction false} LinesSay(r: Record, b: seq<Byte>, read: Reader)
    requires r.fatal.None?
    ensures LinesFit(r, b, read) <==> TerminatedFit(Lines(b), read)
    ensures var d := Drain(r, b, read); d.record.fatal.None? && |d.rest| > MAX_LINE <==> LastTooLong(Lines(b), read)
    decreases |b|
  {
    var n := FirstNewline(b);
    if n < |b| {
      var next, rest := ReadLine(r, b[..n], read), b[n + 1..];
      FitBehind(b[..n], Lines(rest), read);
      if !read(b[..n]).Malformed? { LinesSay(next, rest, read); }
    }
  }

  /** The exact condition, for any bytes within the output limit: all ways to cut them give the same
      result exactly when every terminated line up to the first malformed one fits, or the last line
      is reached and too long however the bytes are cut. */
  lemma IndependentIffFits(bytes: seq<Byte>, read: Reader)
    requires |bytes| <= MAX_OUTPUT
    ensures ChunkIndependent(bytes, read) <==> Fits(bytes, read) || Overlong(bytes, read)
    ensures ChunkIndependent(bytes, read) <==> TerminatedFit(Lines(bytes), read) || LastTooLong(Lines(bytes), read)
  {
    LinesSay(NOTHING, bytes, read);
    if Fits(bytes, read) || Overlong(bytes, read) {
      FittingIsIndependent(bytes, read);
    } else {
      LongLineIsSeen(bytes, read);
    }
  }

  lemma FittingIsIndependent(bytes: seq<Byte>, read: Reader)
    requires |bytes| <= MAX_OUTPUT && (Fits(bytes, read) || Overlong(bytes, read))
    ensures ChunkIndependent(bytes, read)
  {
    WholeTooLongIffOverlong(bytes, read);
    forall chunks | Joined(chunks) == bytes
      ensures Result(chunks, read) == Whole(bytes, read)
    {
      FittingIsWhole(chunks, read);
    }
  }

  lemma LongLineIsSeen(bytes: seq<Byte>, read: Reader)
    requires |bytes| <= MAX_OUTPUT && !Fits(bytes, read) && !Overlong(bytes, read)
    ensures !ChunkIndependent(bytes, read)
  {
    WholeTooLongIffOverlong(bytes, read);
    var cut, more := LongLineShows(NOTHING, bytes, read);
    CutAtLongLine(cut, more, read);
    assert Result([cut, more], read) != Whole(bytes, read);
  }

  /** An input whose result depends on the cut: one overlong line that ends, whatever it says. */
  lemma LongLineDepends(line: seq<Byte>, read: Reader)
    requires |line| == MAX_LINE + 1 && NEWLINE !in line
    ensures !ChunkIndependent(line + [NEWLINE], read)
  {
    var bytes := line + [NEWLINE];
    FirstNewlineStays(line, [NEWLINE]);
    assert bytes[..|line|] == line && bytes[|line| + 1..] == [];
    assert Lines(bytes) == [line] + Lines([]);
    FitBehind(line, Lines([]), read);
    IndependentIffFits(bytes, read);
  }

  lemma FittingIsWhole(chunks: seq<seq<Byte>>, read: Reader)
    requires |Joined(chunks)| <= MAX_OUTPUT
    requires Fits(Joined(chunks), read) || Whole(Joined(chunks), read) == Rejected(LineTooLong)
    ensures Result(chunks, read) == Whole(Joined(chunks), read)
  {
    var bytes := Joined(chunks);
    SplitIsWholeOrTooLong(chunks, read);
    if Result(chunks, read) == Rejected(LineTooLong) && Fits(bytes, read) {
      var k :| 0 <= k <= |bytes| && Overlong(bytes[..k], read);
      OverlongShows(bytes, k, read);
    } else if Whole(bytes, read) == Rejected(LineTooLong) {
      WholeResult(bytes, read);
      DrainLeavesNoNewline(NOTHING, bytes, read);
      SplitTracks(chunks, read);
    }
  }

  function Unsplit(lines: seq<seq<Byte>>): seq<Byte> {
    if lines == [] then []
    else if |lines| == 1 then lines[0]
    else lines[0] + [NEWLINE] + Unsplit(lines[1..])
  }

  lemma {:induction false} LinesAreTheSplit(b: seq<Byte>)
    ensures Unsplit(Lines(b)) == b
    ensures forall line :: line in Lines(b) ==> NEWLINE !in line
    decreases |b|
  {
    var n := FirstNewline(b);
    if n < |b| {
      LinesAreTheSplit(b[n + 1..]);
      UnsplitBehind(b[..n], Lines(b[n + 1..]));
      BackTogether(b, n);
      NoNewlineBehind(b[..n], Lines(b[n + 1..]));
    } else {
      assert Unsplit([b]) == b;
    }
  }

  lemma BackTogether(b: seq<Byte>, n: nat)
    requires n < |b|
    ensures b[..n] + [b[n]] + b[n + 1..] == b
  {
  }

  lemma UnsplitBehind(x: seq<Byte>, rest: seq<seq<Byte>>)
    requires rest != []
    ensures Unsplit([x] + rest) == x + [NEWLINE] + Unsplit(rest)
  {
    assert ([x] + rest)[1..] == rest;
  }

  lemma NoNewlineBehind(x: seq<Byte>, rest: seq<seq<Byte>>)
    requires NEWLINE !in x && forall line :: line in rest ==> NEWLINE !in line
    ensures forall line :: line in [x] + rest ==> NEWLINE !in line
  {
  }

  function Batch(r: Record, lines: seq<seq<Byte>>, read: Reader): Record
    decreases |lines|
  {
    if lines == [] || r.fatal.Some? then r else Batch(ReadLine(r, lines[0], read), lines[1..], read)
  }

  lemma BatchOne(r: Record, line: seq<Byte>, read: Reader)
    requires r.fatal.None?
    ensures Batch(r, [line], read) == ReadLine(r, line, read)
  {
    assert [line][1..] == [];
  }

  lemma {:induction false} DrainIsBatch(r: Record, buf: seq<Byte>, read: Reader)
    ensures var d := Drain(r, buf, read);
      Batch(r, Lines(buf), read) == if d.record.fatal.None? then ReadLine(d.record, d.rest, read) else d.record
    decreases |buf|
  {
    var n := FirstNewline(buf);
    if r.fatal.Some? {
    } else if n == |buf| {
      BatchOne(r, buf, read);
    } else {
      assert Lines(buf)[1..] == Lines(buf[n + 1..]);
      DrainIsBatch(ReadLine(r, buf[..n], read), buf[n + 1..], read);
    }
  }

  predicate AllShort(lines: seq<seq<Byte>>) {
    forall i :: 0 <= i < |lines| ==> |lines[i]| <= MAX_LINE
  }

  lemma {:induction false} ShortLinesFit(r: Record, buf: seq<Byte>, read: Reader)
    requires AllShort(Lines(buf))
    ensures LinesFit(r, buf, read)
    ensures var d := Drain(r, buf, read); d.record.fatal.None? ==> |d.rest| <= MAX_LINE
    decreases |buf|
  {
    var n := FirstNewline(buf);
    assert |Lines(buf)[0]| == n;
    if r.fatal.None? && n < |buf| {
      assert Lines(buf)[1..] == Lines(buf[n + 1..]);
      ShortLinesFit(ReadLine(r, buf[..n], read), buf[n + 1..], read);
    }
  }

  /** Within both limits, any way to cut the bytes into Writes, followed by a flush, reads what one
      batch split on newlines reads: the same number of lines, the same groups, or the same fault. */
  lemma ChunksAreBatch(chunks: seq<seq<Byte>>, read: Reader)
    requires ReadsBlank(read) && |Joined(chunks)| <= MAX_OUTPUT
    requires AllShort(Lines(Joined(chunks)))
    ensures Result(chunks, read) == OutcomeOf(Batch(NOTHING, Lines(Joined(chunks)), read))
  {
    var bytes := Joined(chunks);
    ShortLinesFit(NOTHING, bytes, read);
    FittingIsWhole(chunks, read);
    WholeResult(bytes, read);
    DrainIsBatch(NOTHING, bytes, read);
  }
}
