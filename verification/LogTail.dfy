/** Following a reverse proxy's access log (cmd/agent/proxytail.go): polling, reading complete
    lines once each, and the bounded queue the reporter drains. Decoding a line is abstract. */
module LogTail {

  import opened Wrappers

  type Line = seq<Byte>

  const NL: Byte := 10
  const MAX_QUEUE := 2000
  const LINE_MAX := 65536

  // ---- lines --------------------------------------------------------------------------------

  /** The non-empty complete lines read so far and the unfinished rest. */
  datatype Scanned = Scanned(lines: seq<Line>, rest: Line)

  function Next(s: Scanned, c: Byte): Scanned {
    if c != NL then Scanned(s.lines, s.rest + [c])
    else Scanned(if s.rest == [] then s.lines else s.lines + [s.rest], [])
  }

  function Scan(text: seq<Byte>): Scanned {
    if text == [] then Scanned([], []) else Next(Scan(text[..|text| - 1]), text[|text| - 1])
  }

  /** Text after a line end is scanned as if it stood alone. */
  lemma {:induction false} ScanAppend(a: seq<Byte>, b: seq<Byte>)
    requires Scan(a).rest == []
    ensures Scan(a + b) == Scanned(Scan(a).lines + Scan(b).lines, Scan(b).rest)
  {
    if b == [] {
      assert a + b == a;
    } else {
      var init := b[..|b| - 1];
      ScanAppend(a, init);
      assert (a + b)[..|a + b| - 1] == a + init;
    }
  }

  lemma {:induction false} ScanUnfinished(b: seq<Byte>)
    requires NL !in b
    ensures Scan(b) == Scanned([], b)
  {
    if b != [] {
      var init, last := b[..|b| - 1], b[|b| - 1];
      assert b == init + [last] && last in b;
      ScanUnfinished(init);
    }
  }

  lemma ScanStep(text: seq<Byte>, i: nat)
    requires i < |text|
    ensures Scan(text[..i + 1]) == Next(Scan(text[..i]), text[i])
  {
    assert text[..i + 1][..i] == text[..i];
  }

  // ---- polling ------------------------------------------------------------------------------

  /** Where the follower stands (-1 before it is positioned) and every line given to ingest. */
  datatype Tail = Tail(offset: int, given: seq<Line>)

  /** One more than the last index of a newline, 0 when there is none. */
  function AfterLastNewline(data: seq<Byte>): (n: nat)
    ensures n <= |data| && NL !in data[n..] && (n > 0 ==> data[n - 1] == NL)
  {
    if data == [] then 0
    else if data[|data| - 1] == NL then |data|
    else
      var n := AfterLastNewline(data[..|data| - 1]);
      assert data[n..] == data[..|data| - 1][n..] + [data[|data| - 1]];
      n
  }

  function ReadFrom(t: Tail, file: seq<Byte>): Tail
    requires 0 <= t.offset <= |file|
  {
    var data := file[t.offset..];
    var n := AfterLastNewline(data);
    Tail(t.offset + n, t.given + Scan(data[..n]).lines)
  }

  /** The file as a poll finds it, if it is there; the open after it may fail. */
  datatype Look = Look(file: Option<seq<Byte>>, canOpen: bool)

  function Poll(t: Tail, look: Look): Tail {
    if look.file.None? then t.(offset := -1)
    else
      var file := look.file.value;
      if t.offset < 0 then t.(offset := |file|)
      else
        var from := if |file| < t.offset then 0 else t.offset;
        if from == |file| && from == t.offset then t
        else if !look.canOpen then t.(offset := from)
        else ReadFrom(t.(offset := from), file)
  }

  function Run(looks: seq<Look>): Tail {
    if looks == [] then Tail(-1, []) else Poll(Run(looks[..|looks| - 1]), looks[|looks| - 1])
  }

  /** Where the follower last positioned itself, and the lines given before that. */
  datatype Mark = Mark(start: nat, base: seq<Line>)

  /** It positions itself at the end of a file that has come back, and at the start of one that
      has shrunk below what was read. */
  function LastMark(looks: seq<Look>): Mark {
    if looks == [] then Mark(0, [])
    else
      var before, file := Run(looks[..|looks| - 1]), looks[|looks| - 1].file;
      if file.Some? && before.offset < 0 then Mark(|file.value|, before.given)
      else if file.Some? && |file.value| < before.offset then Mark(0, before.given)
      else LastMark(looks[..|looks| - 1])
  }

  /** Between two looks the log goes missing or comes back, or is only appended to, or shrinks
      below what was read, which is how a rotation in place shows. */
  ghost predicate Regular(looks: seq<Look>) {
    |looks| > 1 ==>
      var n := |looks| - 1;
      && Regular(looks[..n])
      && (looks[n].file.None? || looks[n - 1].file.None? || looks[n - 1].file.value <= looks[n].file.value
          || |looks[n].file.value| < Run(looks[..n]).offset)
  }

  /** Everything between the mark and the offset has been given to ingest, in whole lines. */
  ghost predicate Exact(t: Tail, m: Mark, file: seq<Byte>) {
    && m.start <= t.offset <= |file| && m.base <= t.given
    && Scan(file[m.start..t.offset]) == Scanned(t.given[|m.base|..], [])
  }

  lemma ScanEnded(text: seq<Byte>)
    requires text == [] || text[|text| - 1] == NL
    ensures Scan(text).rest == []
  {
  }

  lemma ReadExact(t: Tail, m: Mark, file: seq<Byte>)
    requires Exact(t, m, file)
    ensures Exact(ReadFrom(t, file), m, file)
  {
    var data := file[t.offset..];
    var n := AfterLastNewline(data);
    ScanEnded(data[..n]);
    var done := file[m.start..t.offset];
    assert done + data[..n] == file[m.start..t.offset + n];
    ScanAppend(done, data[..n]);
    var more := Scan(data[..n]).lines;
    assert (t.given + more)[|m.base|..] == t.given[|m.base|..] + more;
  }

  lemma NothingLeft(t: Tail, m: Mark, file: seq<Byte>)
    requires Exact(t, m, file) && NL !in file[t.offset..]
    ensures t.given == m.base + Scan(file[m.start..]).lines
  {
    var done, rest := file[m.start..t.offset], file[t.offset..];
    assert Scan(done + rest).lines == Scan(done).lines by {
      ScanUnfinished(rest);
      ScanAppend(done, rest);
    }
    assert done + rest == file[m.start..];
    assert t.given == m.base + t.given[|m.base|..];
  }

  lemma JustMarked(t: Tail, file: seq<Byte>)
    requires 0 <= t.offset <= |file|
    ensures Exact(t, Mark(t.offset, t.given), file)
  {
    assert file[t.offset..t.offset] == [];
  }

  lemma Extended(t: Tail, m: Mark, before: seq<Byte>, file: seq<Byte>)
    requires Exact(t, m, before) && before <= file
    ensures Exact(t, m, file)
  {
    assert file[m.start..t.offset] == before[m.start..t.offset];
  }

  /** Reading from an exact position leaves an exact one, with nothing complete behind it. */
  lemma PollExact(t: Tail, m: Mark, look: Look)
    requires look.file.Some? && Exact(t, m, look.file.value)
    ensures Exact(Poll(t, look), m, look.file.value)
    ensures look.canOpen ==> NL !in look.file.value[Poll(t, look).offset..]
  {
    var file := look.file.value;
    ReadExact(t, m, file);
    if t.offset != |file| {
      var data := file[t.offset..];
      assert data[AfterLastNewline(data)..] == file[t.offset + AfterLastNewline(data)..];
    }
  }

  lemma PositionExact(t: Tail, look: Look)
    requires look.file.Some? && t.offset < 0
    ensures Exact(Poll(t, look), Mark(|look.file.value|, t.given), look.file.value)
    ensures NL !in look.file.value[Poll(t, look).offset..]
  {
    JustMarked(Poll(t, look), look.file.value);
  }

  lemma RewindExact(t: Tail, look: Look)
    requires look.file.Some? && |look.file.value| < t.offset
    ensures Exact(Poll(t, look), Mark(0, t.given), look.file.value)
    ensures look.canOpen ==> NL !in look.file.value[Poll(t, look).offset..]
  {
    var file := look.file.value;
    var rewound := t.(offset := 0);
    JustMarked(rewound, file);
    ReadExact(rewound, Mark(0, t.given), file);
    assert file[0..] == file;
    var n := AfterLastNewline(file);
    assert file[0..][n..] == file[n..];
  }

  /** At every point of every run, missing and rotated files included, the lines given since the
      follower last positioned itself are exactly the non-empty complete lines after that
      position, in order and once each; those given before are kept in front of them. */
  lemma {:induction false} EachLineOnce(looks: seq<Look>)
    requires looks != [] && Regular(looks) && looks[|looks| - 1].file.Some?
    ensures Exact(Run(looks), LastMark(looks), looks[|looks| - 1].file.value)
    ensures looks[|looks| - 1].canOpen ==>
              var m := LastMark(looks);
              Run(looks).given == m.base + Scan(looks[|looks| - 1].file.value[m.start..]).lines
  {
    var rest, last := looks[..|looks| - 1], looks[|looks| - 1];
    var t, file := Run(rest), last.file.value;
    if t.offset < 0 {
      PositionExact(t, last);
    } else if |file| < t.offset {
      RewindExact(t, last);
    } else {
      PositionedBefore(rest);
      EachLineOnce(rest);
      Extended(t, LastMark(rest), rest[|rest| - 1].file.value, file);
      PollExact(t, LastMark(rest), last);
    }
    if last.canOpen {
      NothingLeft(Run(looks), LastMark(looks), file);
    }
  }

  lemma PositionedBefore(looks: seq<Look>)
    requires Run(looks).offset >= 0
    ensures looks != [] && looks[|looks| - 1].file.Some?
  {
  }

  /** For a log that is there from the start and only grows, that is every line after the size
      it had at first. */
  lemma {:induction false} OneStretch(looks: seq<Look>)
    requires looks != [] && forall i :: 0 <= i < |looks| ==> looks[i].file.Some?
    requires forall i, j :: 0 <= i < j < |looks| ==> looks[i].file.value <= looks[j].file.value
    ensures Regular(looks) && Run(looks).offset >= 0 && LastMark(looks) == Mark(|looks[0].file.value|, [])
  {
    if |looks| > 1 {
      var rest := looks[..|looks| - 1];
      OneStretch(rest);
      EachLineOnce(rest);
    }
  }

  // ---- the queue ----------------------------------------------------------------------------

  /** An accepted event that has left the queue: drained, or dropped by overflow. */
  datatype Gone<E> = Gone(event: E, drained: bool)

  function Events<E>(gone: seq<Gone<E>>): seq<E> {
    seq(|gone|, i requires 0 <= i < |gone| => gone[i].event)
  }

  function Drained<E>(gone: seq<Gone<E>>): seq<E> {
    if gone == [] then []
    else
      var before, g := Drained(gone[..|gone| - 1]), gone[|gone| - 1];
      if g.drained then before + [g.event] else before
  }

  function Taken<E>(out: seq<E>): seq<Gone<E>> {
    seq(|out|, i requires 0 <= i < |out| => Gone(out[i], true))
  }

  lemma {:induction false} DrainedAppend<E>(gone: seq<Gone<E>>, out: seq<E>)
    ensures Drained(gone + Taken(out)) == Drained(gone) + out
  {
    if out == [] {
      assert gone + Taken(out) == gone;
    } else {
      var init, last := out[..|out| - 1], out[|out| - 1];
      DrainedAppend(gone, init);
      assert (gone + Taken(out))[..|gone| + |init|] == gone + Taken(init);
      assert out == init + [last];
    }
  }

  /** Drained events followed by the queue are the accepted events in order, except for the
      dropped ones, and each dropped one has at least 2000 accepted behind it. */
  ghost predicate QueueOk<E>(accepted: seq<E>, gone: seq<Gone<E>>, drained: seq<E>, queue: seq<E>) {
    && |queue| <= MAX_QUEUE
    && Events(gone) + queue == accepted
    && Drained(gone) == drained
    && (forall i :: 0 <= i < |gone| && !gone[i].drained ==> i + MAX_QUEUE < |accepted|)
  }

  function Pushed<E>(queue: seq<E>, e: E): seq<E> {
    (if |queue| >= MAX_QUEUE then queue[|queue| - MAX_QUEUE + 1..] else queue) + [e]
  }

  /** The queue holds 2000 events; one more drops the oldest. */
  lemma PushedExactly<E>(queue: seq<E>, e: E)
    requires |queue| <= 2000
    ensures Pushed(queue, e) == (if |queue| == 2000 then queue[1..] else queue) + [e]
  {
  }

  lemma PushOk<E>(accepted: seq<E>, gone: seq<Gone<E>>, drained: seq<E>, queue: seq<E>, e: E)
    returns (gone2: seq<Gone<E>>)
    requires QueueOk(accepted, gone, drained, queue)
    ensures QueueOk(accepted + [e], gone2, drained, Pushed(queue, e))
  {
    if |queue| < MAX_QUEUE {
      gone2 := gone;
      assert Events(gone) + (queue + [e]) == accepted + [e];
    } else {
      gone2 := gone + [Gone(queue[0], false)];
      assert gone2[..|gone|] == gone;
      assert Events(gone2) == Events(gone) + [queue[0]];
      assert queue == [queue[0]] + queue[1..];
      assert Events(gone2) + Pushed(queue, e) == accepted + [e];
    }
  }

  lemma DrainOk<E>(accepted: seq<E>, gone: seq<Gone<E>>, drained: seq<E>, queue: seq<E>, n: nat)
    requires QueueOk(accepted, gone, drained, queue) && n <= |queue|
    ensures QueueOk(accepted, gone + Taken(queue[..n]), drained + queue[..n], queue[n..])
  {
    DrainedAppend(gone, queue[..n]);
    assert Events(gone + Taken(queue[..n])) == Events(gone) + queue[..n];
    assert Events(gone) + queue[..n] + queue[n..] == Events(gone) + queue;
  }

  /** The events at positions outside `lost`, in order. */
  function Without<E>(events: seq<E>, lost: set<nat>): seq<E> {
    if events == [] then []
    else
      var before, n := Without(events[..|events| - 1], lost), |events| - 1;
      if n in lost then before else before + [events[n]]
  }

  function Overflowed<E>(gone: seq<Gone<E>>): set<nat> {
    set i: nat | i < |gone| && !gone[i].drained
  }

  lemma {:induction false} DrainedIsRest<E>(gone: seq<Gone<E>>, lost: set<nat>)
    requires forall i: nat :: i < |gone| ==> (i in lost <==> !gone[i].drained)
    ensures Without(Events(gone), lost) == Drained(gone)
  {
    if gone != [] {
      var init := gone[..|gone| - 1];
      DrainedIsRest(init, lost);
      assert Events(gone)[..|gone| - 1] == Events(init);
    }
  }

  lemma {:induction false} QueueStays<E>(a: seq<E>, queue: seq<E>, lost: set<nat>)
    requires forall i <- lost :: i < |a|
    ensures Without(a + queue, lost) == Without(a, lost) + queue
  {
    if queue == [] {
      assert a + queue == a;
    } else {
      var init, last := queue[..|queue| - 1], queue[|queue| - 1];
      QueueStays(a, init, lost);
      assert (a + queue)[..|a + queue| - 1] == a + init;
      assert queue == init + [last];
    }
  }

  /** What was drained followed by what is queued is everything accepted, in order, less events
      that overflowed, and each of those has at least 2000 accepted ones behind it. */
  lemma QueueMeans<E>(accepted: seq<E>, gone: seq<Gone<E>>, drained: seq<E>, queue: seq<E>)
    requires QueueOk(accepted, gone, drained, queue)
    ensures drained + queue == Without(accepted, Overflowed(gone))
    ensures forall i <- Overflowed(gone) :: i + MAX_QUEUE < |accepted|
    ensures |queue| <= MAX_QUEUE
  {
    DrainedIsRest(gone, Overflowed(gone));
    QueueStays(Events(gone), queue, Overflowed(gone));
  }

  // ---- what is recognized -------------------------------------------------------------------

  /** The events of the lines that are not over-long and that `parse` recognizes. */
  function Recognized<E>(parse: Line -> Option<E>, lines: seq<Line>): seq<E> {
    if lines == [] then []
    else
      var before, last := Recognized(parse, lines[..|lines| - 1]), lines[|lines| - 1];
      if |last| <= LINE_MAX && parse(last).Some? then before + [parse(last).value] else before
  }

  lemma RecognizedOne<E>(parse: Line -> Option<E>, lines: seq<Line>, line: Line)
    ensures Recognized(parse, lines + [line]) ==
            var before := Recognized(parse, lines);
            if |line| <= LINE_MAX && parse(line).Some? then before + [parse(line).value] else before
  {
    assert (lines + [line])[..|lines|] == lines;
  }

  method LastNewline(data: seq<Byte>) returns (n: nat)
    ensures n == AfterLastNewline(data)
  {
    n := |data|;
    assert data[..n] == data;
    while n > 0 && data[n - 1] != NL
      invariant 0 <= n <= |data| && AfterLastNewline(data) == AfterLastNewline(data[..n])
    {
      assert data[..n][..n - 1] == data[..n - 1];
      n := n - 1;
    }
  }

  /** The non-empty pieces between newlines. */
  method CutLines(data: seq<Byte>) returns (lines: seq<Line>)
    requires Scan(data).rest == []
    ensures lines == Scan(data).lines
  {
    lines := [];
    var start := 0;
    for i := 0 to |data|
      invariant 0 <= start <= i && Scan(data[..i]) == Scanned(lines, data[start..i])
    {
      ScanStep(data, i);
      if data[i] == NL {
        if start < i {
          lines := lines + [data[start..i]];
        }
        start := i + 1;
      }
    }
    assert data[..|data|] == data;
  }

  class ProxyTailer<E> {
    /** The event of a recognizable access-log line. */
    const parse: Line -> Option<E>

    var offset: int
    var queue: seq<E>

    /** Every poll so far, every line given to ingest, and the fate of every accepted event. */
    ghost var looks: seq<Look>
    ghost var given: seq<Line>
    ghost var gone: seq<Gone<E>>
    ghost var drained: seq<E>

    ghost predicate Accounted()
      reads `queue, `given, `gone, `drained
    {
      QueueOk(Recognized(parse, given), gone, drained, queue)
    }

    ghost predicate Valid()
      reads this
    {
      Accounted() && Tail(offset, given) == Run(looks)
    }

    constructor (parse: Line -> Option<E>)
      ensures Valid() && this.parse == parse && looks == [] && queue == [] && drained == []
    {
      this.parse := parse;
      offset, queue, looks, given, gone, drained := -1, [], [], [], [], [];
      new;
      assert Events(gone) + queue == Recognized(parse, given);
    }

    /** After any polls and drains, the drained events followed by the queue are the events of the
        lines logged since the follower last positioned itself, behind those of the lines before,
        in order and once each, less overflowed oldest ones. */
    lemma Delivers()
      requires Valid() && looks != [] && Regular(looks)
      requires looks[|looks| - 1].file.Some? && looks[|looks| - 1].canOpen
      ensures var m, file := LastMark(looks), looks[|looks| - 1].file.value;
              && m.start <= |file|
              && var events := Recognized(parse, m.base + Scan(file[m.start..]).lines);
              && drained + queue == Without(events, Overflowed(gone))
              && (forall i <- Overflowed(gone) :: i + MAX_QUEUE < |events|)
              && |queue| <= MAX_QUEUE
    {
      EachLineOnce(looks);
      QueueMeans(Recognized(parse, given), gone, drained, queue);
    }

    method Ingest(line: Line)
      requires Accounted()
      modifies `queue, `given, `gone
      ensures Accounted() && given == old(given) + [line]
    {
      RecognizedOne(parse, given, line);
      ghost var accepted := Recognized(parse, given);
      given := given + [line];
      if |line| > LINE_MAX {
        return;
      }
      var e := parse(line);
      if e.None? {
        return;
      }
      gone := PushOk(accepted, gone, drained, queue, e.value);
      if |queue| >= MAX_QUEUE {
        queue := queue[|queue| - MAX_QUEUE + 1..];
      }
      queue := queue + [e.value];
    }

    /** Removes and returns up to max events, oldest first. */
    method Drain(max: nat) returns (out: seq<E>)
      requires Valid()
      modifies `queue, `gone, `drained
      ensures Valid() && out + queue == old(queue) && drained == old(drained) + out
      ensures |out| == if max < |old(queue)| then max else |old(queue)|
    {
      var n := if max > |queue| then |queue| else max;
      DrainOk(Recognized(parse, given), gone, drained, queue, n);
      out := queue[..n];
      gone, drained := gone + Taken(out), drained + out;
      queue := queue[n..];
    }

    method IngestLines(lines: seq<Line>)
      requires Accounted()
      modifies `queue, `given, `gone
      ensures Accounted() && given == old(given) + lines
    {
      for i := 0 to |lines|
        invariant Accounted() && given == old(given) + lines[..i]
      {
        Ingest(lines[i]);
      }
      assert lines[..|lines|] == lines;
    }

    method ReadNew(file: seq<Byte>)
      requires Accounted() && 0 <= offset <= |file|
      modifies `offset, `queue, `given, `gone
      ensures Accounted() && Tail(offset, given) == ReadFrom(old(Tail(offset, given)), file)
    {
      var data := file[offset..];
      var n := LastNewline(data);
      ScanEnded(data[..n]);
      var lines := CutLines(data[..n]);
      IngestLines(lines);
      offset := offset + n;
    }

    method Follow(look: Look)
      requires Accounted()
      modifies `offset, `queue, `given, `gone
      ensures Accounted() && Tail(offset, given) == Poll(old(Tail(offset, given)), look)
    {
      if look.file.None? {
        offset := -1;
        return;
      }
      var size := |look.file.value|;
      if offset < 0 {
        offset := size;
        return;
      }
      if size < offset {
        offset := 0;
      } else if size == offset {
        return;
      }
      if look.canOpen {
        ReadNew(look.file.value);
      }
    }

    method PollFile(look: Look)
      requires Valid()
      modifies `offset, `queue, `looks, `given, `gone
      ensures Valid() && looks == old(looks) + [look]
    {
      assert (looks + [look])[..|looks|] == looks;
      Follow(look);
      looks := looks + [look];
    }
  }
}
