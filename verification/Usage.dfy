/**
  The incremental reader of an upstream message's reported usage. Bytes arrive in chunks of any size; each complete
  line that starts with "data:" is one event of the stream. Trimming and JSON decoding are parameters.
 */
module Usage {
  import opened Records

  newtype byte = x: int | 0 <= x < 256

  datatype EventKind = MessageStart | MessageDelta | MessageStop | ErrorEvent | OtherEvent

  /** A decoded data event: its type, whether message.type is "message", and usage.output_tokens. */
  datatype Payload = Payload(kind: EventKind, isMessage: bool, output: Option<int>)

  /** A decoded complete response body. */
  datatype Message = Message(isMessage: bool, stopped: bool, output: Option<int>)

  datatype Reader = Reader(
    trim: seq<byte> -> seq<byte>, decode: seq<byte> -> Option<Payload>, message: seq<byte> -> Option<Message>)

  datatype State = State(
    streaming: bool, invalid: bool, started: bool, stopped: bool,
    line: seq<byte>, body: seq<byte>, last: int, ceiling: int)

  const NEWLINE: byte := 10
  const DATA: seq<byte> := [100, 97, 116, 97, 58]
  const MAX_LINE := 0x1_0000

  function Fresh(streaming: bool, ceiling: int): State {
    State(streaming, false, false, false, [], [], 0, ceiling)
  }

  function ReadEvent(u: State, event: Option<Payload>): State {
    if event.None? || u.stopped then u.(invalid := true)
    else match event.value.kind
      case MessageStart =>
        if u.started || !event.value.isMessage then u.(invalid := true) else u.(started := true)
      case MessageDelta =>
        if !u.started || event.value.output.None? || event.value.output.value < u.last || event.value.output.value > u.ceiling
        then u.(invalid := true)
        else u.(last := event.value.output.value)
      case MessageStop => u.(stopped := u.started)
      case ErrorEvent => u.(invalid := true)
      case OtherEvent => u
  }

  function ReadLine(rd: Reader, u: State, line: seq<byte>): State {
    if DATA <= line then ReadEvent(u, rd.decode(rd.trim(line[5..]))) else u
  }

  /** Scanning goes on after an invalid event and stops at a line over the limit. */
  function Scan(rd: Reader, u: State, chunk: seq<byte>): State
    decreases |chunk|
  {
    if chunk == [] then u
    else if chunk[0] == NEWLINE then Scan(rd, ReadLine(rd, u, rd.trim(u.line)).(line := []), chunk[1..])
    else if |u.line| + 1 > MAX_LINE then u.(invalid := true, line := [])
    else Scan(rd, u.(line := u.line + [chunk[0]]), chunk[1..])
  }

  function Write(rd: Reader, u: State, chunk: seq<byte>): State {
    if u.invalid then u
    else if !u.streaming then u.(body := u.body + chunk)
    else Scan(rd, u, chunk)
  }

  function WriteAll(rd: Reader, u: State, chunks: seq<seq<byte>>): State
    decreases |chunks|
  {
    if chunks == [] then u else WriteAll(rd, Write(rd, u, chunks[0]), chunks[1..])
  }

  function Flatten(chunks: seq<seq<byte>>): seq<byte> {
    if chunks == [] then [] else chunks[0] + Flatten(chunks[1..])
  }

  lemma FlattenNone()
    ensures Flatten([]) == []
  {}

  lemma FlattenPush(chunk: seq<byte>, chunks: seq<seq<byte>>)
    ensures Flatten([chunk] + chunks) == chunk + Flatten(chunks)
    ensures [chunk] + [] == [chunk]
  {
    assert ([chunk] + chunks)[1..] == chunks;
  }

  lemma WriteAllNone(rd: Reader, u: State)
    ensures WriteAll(rd, u, []) == u
  {}

  /** An unterminated last line is read when the refund is asked for. */
  function Finish(rd: Reader, u: State): State {
    if u.invalid || u.line == [] then u else ReadLine(rd, u, rd.trim(u.line))
  }

  function Refund(rd: Reader, u: State): int {
    if u.invalid then 0
    else if u.streaming then
      var f := Finish(rd, u);
      if f.invalid || !f.stopped || f.last <= 0 then 0 else f.ceiling - f.last
    else
      var m := rd.message(u.body);
      if m.None? || !m.value.isMessage || !m.value.stopped || m.value.output.None? || m.value.output.value <= 0
         || m.value.output.value > u.ceiling
      then 0
      else u.ceiling - m.value.output.value
  }

  predicate Alike(u: State, v: State) { u == v || (u.invalid && v.invalid) }

  lemma {:induction false} InvalidStays(rd: Reader, u: State, chunk: seq<byte>)
    requires u.invalid
    ensures Scan(rd, u, chunk).invalid
    decreases |chunk|
  {
    if chunk == [] {
    } else if chunk[0] == NEWLINE {
      InvalidStays(rd, ReadLine(rd, u, rd.trim(u.line)).(line := []), chunk[1..]);
    } else if |u.line| + 1 <= MAX_LINE {
      InvalidStays(rd, u.(line := u.line + [chunk[0]]), chunk[1..]);
    }
  }

  lemma {:induction false} ScanSplit(rd: Reader, u: State, a: seq<byte>, b: seq<byte>)
    ensures Alike(Scan(rd, u, a + b), if Scan(rd, u, a).invalid then Scan(rd, u, a) else Scan(rd, Scan(rd, u, a), b))
    decreases |a|
  {
    if a == [] {
      assert a + b == b;
      if u.invalid { InvalidStays(rd, u, b); }
    } else {
      assert (a + b)[1..] == a[1..] + b && (a + b)[0] == a[0];
      if a[0] == NEWLINE {
        ScanSplit(rd, ReadLine(rd, u, rd.trim(u.line)).(line := []), a[1..], b);
      } else if |u.line| + 1 <= MAX_LINE {
        ScanSplit(rd, u.(line := u.line + [a[0]]), a[1..], b);
      }
    }
  }

  lemma {:induction false} ScanKind(rd: Reader, u: State, chunk: seq<byte>)
    ensures Scan(rd, u, chunk).streaming == u.streaming && Scan(rd, u, chunk).ceiling == u.ceiling
    ensures Scan(rd, u, chunk).body == u.body
    decreases |chunk|
  {
    if chunk == [] {
    } else if chunk[0] == NEWLINE {
      ScanKind(rd, ReadLine(rd, u, rd.trim(u.line)).(line := []), chunk[1..]);
    } else if |u.line| + 1 <= MAX_LINE {
      ScanKind(rd, u.(line := u.line + [chunk[0]]), chunk[1..]);
    }
  }

  lemma WriteSplit(rd: Reader, u: State, a: seq<byte>, b: seq<byte>)
    ensures Alike(Write(rd, u, a + b), Write(rd, Write(rd, u, a), b))
  {
    ScanSplit(rd, u, a, b);
    ScanKind(rd, u, a);
    if u.streaming && !u.invalid && Scan(rd, u, a).invalid { InvalidStays(rd, Scan(rd, u, a), b); }
    assert u.body + (a + b) == u.body + a + b;
  }

  lemma {:induction false} WriteAlike(rd: Reader, u: State, v: State, chunks: seq<seq<byte>>)
    requires Alike(u, v)
    ensures Alike(WriteAll(rd, u, chunks), WriteAll(rd, v, chunks))
    decreases |chunks|
  {
    if chunks != [] { WriteAlike(rd, Write(rd, u, chunks[0]), Write(rd, v, chunks[0]), chunks[1..]); }
  }

  /** However a stream is split into reads, the reader ends as if it had come in one piece, or is invalid both times. */
  lemma {:induction false} ChunkIndependence(rd: Reader, u: State, chunks: seq<seq<byte>>)
    ensures Alike(WriteAll(rd, u, chunks), Write(rd, u, Flatten(chunks)))
    decreases |chunks|
  {
    if chunks == [] {
      assert u.body + [] == u.body;
    } else {
      ChunkIndependence(rd, Write(rd, u, chunks[0]), chunks[1..]);
      WriteSplit(rd, u, chunks[0], Flatten(chunks[1..]));
    }
  }

  /** So the refund depends on the whole stream alone. */
  lemma RefundOfStream(rd: Reader, u: State, a: seq<seq<byte>>, b: seq<seq<byte>>)
    requires Flatten(a) == Flatten(b)
    ensures Refund(rd, WriteAll(rd, u, a)) == Refund(rd, WriteAll(rd, u, b))
  {
    ChunkIndependence(rd, u, a);
    ChunkIndependence(rd, u, b);
  }

  // ---- what a refund means ----

  /** The stream's lines, the last one without its newline, after a pending prefix. */
  function Lines(pending: seq<byte>, stream: seq<byte>): seq<seq<byte>>
    decreases |stream|
  {
    if stream == [] then if pending == [] then [] else [pending]
    else if stream[0] == NEWLINE then [pending] + Lines([], stream[1..])
    else Lines(pending + [stream[0]], stream[1..])
  }

  predicate AllFit(lines: seq<seq<byte>>) { forall i | 0 <= i < |lines| :: |lines[i]| <= 65536 }

  /** The line begins with "data:". */
  predicate IsData(line: seq<byte>) {
    |line| >= 5 && line[0] == 100 && line[1] == 97 && line[2] == 116 && line[3] == 97 && line[4] == 58
  }

  /** The data events of the lines, in order; None is an event that does not decode. */
  function Events(rd: Reader, lines: seq<seq<byte>>): seq<Option<Payload>> {
    if lines == [] then []
    else
      var line := rd.trim(lines[0]);
      (if IsData(line) then [rd.decode(rd.trim(line[5..]))] else []) + Events(rd, lines[1..])
  }

  function Fold(u: State, es: seq<Option<Payload>>): State {
    if es == [] then u else ReadEvent(Fold(u, es[..|es| - 1]), es[|es| - 1])
  }

  lemma {:induction false} FoldConcat(u: State, a: seq<Option<Payload>>, b: seq<Option<Payload>>)
    ensures Fold(u, a + b) == Fold(Fold(u, a), b)
    decreases |b|
  {
    if b == [] {
      assert a + b == a;
    } else {
      assert (a + b)[..|a + b| - 1] == a + b[..|b| - 1];
      FoldConcat(u, a, b[..|b| - 1]);
    }
  }

  lemma {:induction false} FoldKeeps(u: State, es: seq<Option<Payload>>, line: seq<byte>)
    ensures Fold(u.(line := line), es) == Fold(u, es).(line := line)
    ensures u.invalid ==> Fold(u, es).invalid
    ensures Fold(u, es).ceiling == u.ceiling && Fold(u, es).line == u.line
    decreases |es|
  {
    if es != [] { FoldKeeps(u, es[..|es| - 1], line); }
  }

  lemma {:induction false} LongPending(pending: seq<byte>, stream: seq<byte>)
    requires |pending| > MAX_LINE
    ensures !AllFit(Lines(pending, stream))
    decreases |stream|
  {
    if stream != [] && stream[0] != NEWLINE {
      LongPending(pending + [stream[0]], stream[1..]);
    } else if stream != [] {
      assert Lines(pending, stream)[0] == pending;
    } else {
      assert Lines(pending, stream)[0] == pending;
    }
  }

  function HeadEvent(rd: Reader, line: seq<byte>): seq<Option<Payload>> {
    var text := rd.trim(line);
    if IsData(text) then [rd.decode(rd.trim(text[5..]))] else []
  }

  /** Reading a line is folding its event, if it has one. */
  lemma LineFolds(rd: Reader, u: State, line: seq<byte>, rest: seq<seq<byte>>)
    ensures ReadLine(rd, u, rd.trim(line)) == Fold(u, HeadEvent(rd, line))
    ensures Events(rd, [line] + rest) == HeadEvent(rd, line) + Events(rd, rest)
    ensures AllFit([line] + rest) <==> |line| <= MAX_LINE && AllFit(rest)
  {
    var lines := [line] + rest;
    assert lines[0] == line && lines[1..] == rest;
    assert forall i | 0 <= i < |rest| :: rest[i] == lines[i + 1];
  }

  /** Reading a stream byte by byte is folding its data events, provided every line fits. */
  lemma {:induction false} ScanFolds(rd: Reader, u: State, stream: seq<byte>)
    requires |u.line| <= MAX_LINE
    ensures var f := Finish(rd, Scan(rd, u, stream)).(line := []);
      var lines := Lines(u.line, stream);
      Alike(f, if AllFit(lines) then Fold(u.(line := []), Events(rd, lines)) else f.(invalid := true))
    decreases |stream|
  {
    hide ReadEvent, Fold, Events, AllFit;
    if stream == [] {
      if u.line != [] {
        LineFolds(rd, u, u.line, []);
        assert Lines(u.line, stream) == [u.line] + [];
        assert Events(rd, []) == [] by { EventsNone(rd); }
        assert HeadEvent(rd, u.line) + [] == HeadEvent(rd, u.line);
        FoldKeeps(u, HeadEvent(rd, u.line), []);
      } else {
        EventsNone(rd);
        FoldNone(u);
      }
      EventsNone(rd);
      if u.invalid { FoldKeeps(u.(line := []), Events(rd, Lines(u.line, stream)), []); }
    } else if stream[0] == NEWLINE {
      var rest := Lines([], stream[1..]);
      LineFolds(rd, u.(line := []), u.line, rest);
      LineKeeps(rd, u, u.line);
      ScanFolds(rd, ReadLine(rd, u, rd.trim(u.line)).(line := []), stream[1..]);
      FoldConcat(u.(line := []), HeadEvent(rd, u.line), Events(rd, rest));
    } else if |u.line| + 1 > MAX_LINE {
      LongPending(u.line + [stream[0]], stream[1..]);
    } else {
      ScanFolds(rd, u.(line := u.line + [stream[0]]), stream[1..]);
    }
  }

  lemma EventsNone(rd: Reader)
    ensures Events(rd, []) == [] && AllFit([])
  {}

  lemma FoldNone(u: State)
    ensures Fold(u, []) == u
  {}

  lemma LineKeeps(rd: Reader, u: State, line: seq<byte>)
    ensures ReadLine(rd, u.(line := []), rd.trim(line)) == ReadLine(rd, u, rd.trim(line)).(line := [])
  {}

  /** The count reported last, or zero. */
  function Reported(es: seq<Option<Payload>>): int {
    if es == [] then 0
    else
      var e := es[|es| - 1];
      if e.Some? && e.value.kind.MessageDelta? && e.value.output.Some? then e.value.output.value else Reported(es[..|es| - 1])
  }

  predicate Preamble(es: seq<Option<Payload>>) {
    forall k | 0 <= k < |es| :: es[k].Some? && (es[k].value.kind.MessageStop? || es[k].value.kind.OtherEvent?)
  }

  /** One message start at `i`, and after it only non-decreasing counts within the ceiling and unrelated events. */
  predicate Message1(es: seq<Option<Payload>>, i: nat, ceiling: int) {
    && i < |es| && Preamble(es[..i])
    && es[i].Some? && es[i].value.kind.MessageStart? && es[i].value.isMessage
    && forall k | i < k < |es| :: es[k].Some? &&
         (es[k].value.kind.OtherEvent? ||
          (es[k].value.kind.MessageDelta? && es[k].value.output.Some?
           && Reported(es[..k]) <= es[k].value.output.value <= ceiling))
  }

  predicate InMessage(es: seq<Option<Payload>>, ceiling: int) {
    exists i: nat | i < |es| :: Message1(es, i, ceiling)
  }

  /** A whole message: the last data event is the stop of a started message. */
  predicate Complete(es: seq<Option<Payload>>, ceiling: int) {
    && es != [] && es[|es| - 1].Some? && es[|es| - 1].value.kind.MessageStop?
    && InMessage(es[..|es| - 1], ceiling)
  }

  predicate Phase(u: State, es: seq<Option<Payload>>) {
    && (!u.invalid && !u.started <==> Preamble(es))
    && (!u.invalid && u.started && !u.stopped <==> InMessage(es, u.ceiling))
    && (!u.invalid && u.stopped <==> Complete(es, u.ceiling))
    && (!u.invalid ==> u.last == Reported(es))
    && (u.stopped ==> u.started)
  }

  lemma {:induction false} ReportedPreamble(es: seq<Option<Payload>>)
    requires Preamble(es)
    ensures Reported(es) == 0
  {
    if es != [] { ReportedPreamble(es[..|es| - 1]); }
  }

  lemma MessageGrows(es: seq<Option<Payload>>, e: Option<Payload>, i: nat, ceiling: int)
    requires i < |es|
    ensures Message1(es + [e], i, ceiling) <==>
      Message1(es, i, ceiling) && e.Some? &&
      (e.value.kind.OtherEvent? ||
       (e.value.kind.MessageDelta? && e.value.output.Some? && Reported(es) <= e.value.output.value <= ceiling))
  {
    var w := es + [e];
    assert w[..i] == es[..i] && w[i] == es[i] && w[|es|] == e && w[..|es|] == es;
    forall k | i < k < |es| ensures w[k] == es[k] && w[..k] == es[..k] {}
  }

  lemma MessageStarts(es: seq<Option<Payload>>, e: Option<Payload>, ceiling: int)
    ensures Message1(es + [e], |es|, ceiling) <==> Preamble(es) && e.Some? && e.value.kind.MessageStart? && e.value.isMessage
  {
    assert (es + [e])[..|es|] == es && (es + [e])[|es|] == e;
  }

  /** The phases before, during and after a message, one event at a time. */
  lemma PhaseStep(u: State, es: seq<Option<Payload>>, e: Option<Payload>)
    requires Phase(u, es)
    ensures Phase(ReadEvent(u, e), es + [e])
  {
    var w := es + [e];
    var v := ReadEvent(u, e);
    assert w[..|w| - 1] == es && w[|w| - 1] == e;
    assert Preamble(w) <==> Preamble(es) && e.Some? && (e.value.kind.MessageStop? || e.value.kind.OtherEvent?) by {
      assert Preamble(w) ==> Preamble(es) by { assert forall k | 0 <= k < |es| :: w[k] == es[k]; }
    }
    MessageStarts(es, e, u.ceiling);
    assert (exists i: nat | i < |w| :: Message1(w, i, u.ceiling)) <==>
      Message1(w, |es|, u.ceiling) || exists i: nat | i < |es| :: Message1(w, i, u.ceiling);
    forall i: nat | i < |es|
      ensures Message1(w, i, u.ceiling) <==>
        Message1(es, i, u.ceiling) && e.Some? && (e.value.kind.OtherEvent? || (e.value.kind.MessageDelta?
          && e.value.output.Some? && Reported(es) <= e.value.output.value <= u.ceiling))
    {
      MessageGrows(es, e, i, u.ceiling);
    }
    assert Complete(w, u.ceiling) <==>
      e.Some? && e.value.kind.MessageStop? && InMessage(es, u.ceiling);
    if Preamble(w) { ReportedPreamble(w); }
  }

  lemma {:induction false} Phases(ceiling: int, es: seq<Option<Payload>>)
    ensures Phase(Fold(Fresh(true, ceiling), es), es) && Fold(Fresh(true, ceiling), es).ceiling == ceiling
    decreases |es|
  {
    if es != [] {
      var front := es[..|es| - 1];
      Phases(ceiling, front);
      PhaseStep(Fold(Fresh(true, ceiling), front), front, es[|es| - 1]);
      assert es == front + [es[|es| - 1]];
    }
  }

  /** A streamed response earns a refund exactly when it is one complete message within its ceiling. */
  lemma RefundMeaning(rd: Reader, ceiling: int, stream: seq<byte>)
    ensures var lines := Lines([], stream);
      var es := Events(rd, lines);
      Refund(rd, Write(rd, Fresh(true, ceiling), stream)) ==
      if AllFit(lines) && Complete(es, ceiling) && Reported(es) > 0 then ceiling - Reported(es) else 0
  {
    var u := Fresh(true, ceiling);
    var es := Events(rd, Lines([], stream));
    ScanFolds(rd, u, stream);
    ScanKind(rd, u, stream);
    Phases(ceiling, es);
    FoldKeeps(u, es, []);
  }

  lemma {:induction false} ReportedBounded(es: seq<Option<Payload>>, i: nat, ceiling: int)
    requires Message1(es, i, ceiling)
    ensures 0 <= Reported(es) && (Reported(es) == 0 || Reported(es) <= ceiling)
    decreases |es|
  {
    if i == |es| - 1 {
      ReportedPreamble(es[..i]);
      assert es[..|es| - 1] == es[..i];
    } else {
      var front := es[..|es| - 1];
      assert es == front + [es[|es| - 1]];
      MessageGrows(front, es[|es| - 1], i, ceiling);
      ReportedBounded(front, i, ceiling);
    }
  }

  /** What a response stands for: the count a complete message reported, and the whole reservation otherwise. */
  function Owed(rd: Reader, streaming: bool, ceiling: int, response: seq<byte>): int {
    if streaming then
      var lines := Lines([], response);
      var es := Events(rd, lines);
      if AllFit(lines) && Complete(es, ceiling) && Reported(es) > 0 then Reported(es) else ceiling
    else match rd.message(response)
      case Some(m) =>
        if m.isMessage && m.stopped && m.output.Some? && 0 < m.output.value <= ceiling then m.output.value else ceiling
      case None => ceiling
  }

  /** A refund leaves exactly what the whole response owes, which is at least one token and at most the reservation. */
  lemma RefundSettles(rd: Reader, streaming: bool, ceiling: int, chunks: seq<seq<byte>>)
    requires 1 <= ceiling
    ensures var owed := Owed(rd, streaming, ceiling, Flatten(chunks));
      Refund(rd, WriteAll(rd, Fresh(streaming, ceiling), chunks)) == ceiling - owed && 1 <= owed <= ceiling
  {
    hide Message1, Scan;
    var response := Flatten(chunks);
    ChunkIndependence(rd, Fresh(streaming, ceiling), chunks);
    if streaming {
      RefundMeaning(rd, ceiling, response);
      var es := Events(rd, Lines([], response));
      if Complete(es, ceiling) {
        var i: nat :| i < |es[..|es| - 1]| && Message1(es[..|es| - 1], i, ceiling);
        ReportedBounded(es[..|es| - 1], i, ceiling);
      }
    } else {
      assert [] + response == response;
    }
  }

  /**
    A plain response earns a refund exactly when it is one complete message with a positive count within the ceiling.
   */
  lemma PlainRefundMeaning(rd: Reader, ceiling: int, chunks: seq<seq<byte>>)
    ensures var m := rd.message(Flatten(chunks));
      var whole := m.Some? && m.value.isMessage && m.value.stopped && m.value.output.Some? && 0 < m.value.output.value <= ceiling;
      Refund(rd, WriteAll(rd, Fresh(false, ceiling), chunks)) == if whole then ceiling - m.value.output.value else 0
  {
    ChunkIndependence(rd, Fresh(false, ceiling), chunks);
    assert [] + Flatten(chunks) == Flatten(chunks);
  }

  lemma {:induction false} WriteAllAppend(rd: Reader, u: State, chunks: seq<seq<byte>>, chunk: seq<byte>)
    ensures WriteAll(rd, u, chunks + [chunk]) == Write(rd, WriteAll(rd, u, chunks), chunk)
    decreases |chunks|
  {
    if chunks == [] {
      assert chunks + [chunk] == [chunk] && [chunk][1..] == [];
    } else {
      assert (chunks + [chunk])[0] == chunks[0] && (chunks + [chunk])[1..] == chunks[1..] + [chunk];
      WriteAllAppend(rd, Write(rd, u, chunks[0]), chunks[1..], chunk);
    }
  }

  class AnthropicUsage {
    const rd: Reader
    const streaming: bool
    const ceiling: int
    var invalid: bool
    var started: bool
    var stopped: bool
    var line: seq<byte>
    var body: seq<byte>
    var last: int

    function View(): State reads this {
      State(streaming, invalid, started, stopped, line, body, last, ceiling)
    }

    constructor (rd: Reader, streaming: bool, ceiling: int)
      ensures View() == Fresh(streaming, ceiling) && this.rd == rd
    {
      this.rd, this.streaming, this.ceiling := rd, streaming, ceiling;
      invalid, started, stopped, line, body, last := false, false, false, [], [], 0;
    }

    method Consume(text: seq<byte>)
      modifies this
      ensures View() == ReadLine(rd, old(View()), text)
    {
      if !(DATA <= text) { return; }
      var event := rd.decode(rd.trim(text[5..]));
      if event.None? || stopped {
        invalid := true;
        return;
      }
      match event.value.kind {
        case MessageStart =>
          if started || !event.value.isMessage { invalid := true; } else { started := true; }
        case MessageDelta =>
          if !started || event.value.output.None? || event.value.output.value < last || event.value.output.value > ceiling {
            invalid := true;
          } else {
            last := event.value.output.value;
          }
        case MessageStop => stopped := started;
        case ErrorEvent => invalid := true;
        case OtherEvent =>
      }
    }

    method Feed(chunk: seq<byte>)
      modifies this
      ensures View() == Write(rd, old(View()), chunk)
    {
      if invalid { return; }
      if !streaming {
        body := body + chunk;
        return;
      }
      ghost var goal := Scan(rd, View(), chunk);
      for i := 0 to |chunk|
        invariant Scan(rd, View(), chunk[i..]) == goal
      {
        assert chunk[i..][0] == chunk[i] && chunk[i..][1..] == chunk[i + 1..];
        if chunk[i] == NEWLINE {
          Consume(rd.trim(line));
          line := [];
        } else {
          line := line + [chunk[i]];
          if |line| > MAX_LINE {
            invalid, line := true, [];
            return;
          }
        }
      }
    }

    method Settle() returns (refund: int)
      modifies this
      ensures refund == Refund(rd, old(View()))
    {
      if invalid { return 0; }
      if streaming {
        if |line| > 0 { Consume(rd.trim(line)); }
        if invalid || !stopped || last <= 0 { return 0; }
        return ceiling - last;
      }
      var m := rd.message(body);
      if m.None? || !m.value.isMessage || !m.value.stopped || m.value.output.None? || m.value.output.value <= 0
         || m.value.output.value > ceiling {
        return 0;
      }
      return ceiling - m.value.output.value;
    }
  }
}
