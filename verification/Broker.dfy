/**
  The per-job model broker: three budgets reserved before every upstream send, bounded retries, a latch that keeps
  the first failure, and refunds from the reported usage. Requests are serialized by the broker's request lock, so a
  run is a sequence of handler calls. `sends`, `reserved`, `overflowed` and `ledger` record what happened.
 */
module Broker {
  import opened Records
  import Usage

  const REQUEST_LIMIT := 24
  const TOTAL_TOKENS := 65536
  const TOTAL_BYTES := 0x10_0000
  const RETRIES := 2
  const RESPONSE_BYTES := 0x100_0000
  const BUFFER := 0x8000

  datatype Observation = Observation(status: int, errorType: string)

  const NOTHING := Observation(0, "")
  const TRANSPORT := Observation(-1, "transport_error")
  const EXHAUSTED := Observation(429, "")

  /** One reservation of output tokens, what was given back of it, and what the response to it stands for. */
  datatype Entry = Entry(ceiling: int, refund: int, owed: int)

  datatype State = State(
    requests: int, tokens: int, bytes: int, upstreamStatus: int, observation: Observation,
    blocked: bool, blockedObservation: Observation,
    sends: nat, reserved: nat, overflowed: bool, ledger: seq<Entry>)

  const START := State(0, 0, 0, 0, NOTHING, false, NOTHING, 0, 0, false, [])

  function Block(b: State, o: Observation): State {
    b.(blocked := true, blockedObservation := if b.blocked then b.blockedObservation else o)
  }

  function Observe(b: State, o: Observation): State {
    var c := b.(upstreamStatus := o.status, observation := o);
    if 300 <= o.status < 500 && o.status != 429 then Block(c, o) else c
  }

  function BlockedUpstream(b: State): Observation {
    if b.blocked then b.blockedObservation else NOTHING
  }

  function LastUpstream(b: State): Observation {
    if b.blocked then b.blockedObservation else b.observation
  }

  // ---- retries ----

  /** The Retry-After field of section 10.2.3 of RFC 9110; a date is given by its distance from now, in milliseconds. */
  datatype RetryAfter = Absent | Seconds(n: nat) | Date(ms: int) | Unreadable

  predicate Transient(status: int) {
    status == 429 || status == 500 || status == 502 || status == 503 || status == 504 || status == 529
  }

  function Backoff(retry: nat): int {
    if retry == 0 then 250 else 2 * Backoff(retry - 1)
  }

  function Max(a: int, b: int): int { if a < b then b else a }

  function RetryDelay(status: int, after: RetryAfter, retry: nat): Option<int> {
    if !Transient(status) then None
    else match after
      case Absent => Some(Backoff(retry))
      case Seconds(n) => if n > 5 then None else Some(Max(Backoff(retry), n * 1000))
      case Date(ms) => if ms > 5000 then None else Some(Max(Backoff(retry), ms))
      case Unreadable => None
  }

  /** The wait that a Retry-After asks for. */
  function Asked(after: RetryAfter): int {
    match after
    case Absent => 0
    case Seconds(n) => 1000 * n
    case Date(ms) => ms
    case Unreadable => 5001
  }

  /**
    A status is retried exactly when it is transient and Retry-After is absent or readable and asks for at most five
    seconds; the wait is the larger of the backoff and what is asked for.
   */
  lemma RetryBounded(status: int, after: RetryAfter, retry: nat)
    requires retry <= 2
    ensures var d := RetryDelay(status, after, retry);
      var backoff := [250, 500, 1000][retry];
      && (d.Some? <==>
            && (status == 429 || status == 500 || status == 502 || status == 503 || status == 504 || status == 529)
            && Asked(after) <= 5000)
      && (d.Some? ==> backoff <= d.value <= 5000 && Asked(after) <= d.value && (d.value == backoff || d.value == Asked(after)))
  {
    assert Backoff(0) == 250 && Backoff(1) == 500 && Backoff(2) == 1000;
  }

  // ---- reservations ----

  /** The counters are added in order and the first one over its limit stops the addition. */
  function Reserve(b: State, tokens: int, bytes: int): State {
    var c := b.(requests := b.requests + 1);
    if c.requests > REQUEST_LIMIT then c.(overflowed := true) else ReserveTokens(c, tokens, bytes)
  }

  function ReserveTokens(c: State, tokens: int, bytes: int): State {
    var d := c.(tokens := c.tokens + tokens, ledger := c.ledger + [Entry(tokens, 0, tokens)]);
    if d.tokens > TOTAL_TOKENS then d.(overflowed := true)
    else
      var e := d.(bytes := d.bytes + bytes);
      if e.bytes > TOTAL_BYTES then e.(overflowed := true) else e.(reserved := e.reserved + 1)
  }

  /**
    What the provider answers to one send: a status, its error type and Retry-After, and whether the caller left
    during the wait.
   */
  datatype Exchange = Lost | Answer(status: int, errorType: string, after: RetryAfter, gone: bool)

  datatype Sent = NoResponse | Response(status: int)

  datatype Sending = Sending(b: State, sent: Sent)

  datatype Try = Done(b: State, sent: Sent) | Again(b: State)

  /** One send and what becomes of it: a retry has its own reservation, or there is none. */
  function TryOnce(b: State, x: Exchange, tokens: int, bytes: int, retry: nat): Try {
    var s := b.(sends := b.sends + 1);
    match x
    case Lost => Done(Block(Observe(s, TRANSPORT), TRANSPORT), NoResponse)
    case Answer(status, errorType, after, gone) =>
      var o := Observation(status, if status >= 300 then errorType else "");
      var t := Observe(s, o);
      if RetryDelay(status, after, retry).None? || retry >= RETRIES then
        Done(if status >= 300 then Block(t, o) else t, Response(status))
      else
        var r := Reserve(t, tokens, bytes);
        if r.overflowed then Done(Block(r, o), Response(status))
        else if gone then Done(r, NoResponse)
        else Again(r)
  }

  function Send(b: State, exchange: nat -> Exchange, tokens: int, bytes: int, retry: nat): Sending
    decreases RETRIES - retry
  {
    match TryOnce(b, exchange(retry), tokens, bytes, retry)
    case Done(c, sent) => Sending(c, sent)
    case Again(c) => if retry < RETRIES then Send(c, exchange, tokens, bytes, retry + 1) else Sending(c, NoResponse)
  }

  // ---- handler calls ----

  /** One read of the response body: what it brought, whether the child took it, and how it ended. */
  datatype Ending = More | Eof | Failed
  datatype Read = Read(chunk: seq<Usage.byte>, delivered: bool, ending: Ending)

  datatype Outcome = Broken | ClientGone | TooLong | Whole
  datatype Copy = Copy(chunks: seq<seq<Usage.byte>>, outcome: Outcome)

  /** A read fills at most the buffer, and at most what is left of the response budget. */
  function Filled(chunk: seq<Usage.byte>, remaining: int): (filled: seq<Usage.byte>)
    requires remaining > 0
    ensures |filled| <= 32768 && |filled| <= remaining && filled <= chunk
    ensures |filled| == |chunk| || |filled| == 32768 || |filled| == remaining
  {
    var room := if remaining < BUFFER then remaining else BUFFER;
    if |chunk| <= room then chunk else chunk[..room]
  }

  /** Copying the response body to the child; a read that never comes is a broken connection. */
  function CopyBody(input: seq<Read>, remaining: int): Copy
    decreases |input|
  {
    if remaining <= 0 then Copy([], TooLong)
    else if input == [] then Copy([], Broken)
    else
      var chunk := Filled(input[0].chunk, remaining);
      if chunk != [] && !input[0].delivered then Copy([chunk], ClientGone)
      else match input[0].ending
        case Eof => Copy([chunk], Whole)
        case Failed => Copy([chunk], Broken)
        case More =>
          var c := CopyBody(input[1..], remaining - |chunk|);
          Copy([chunk] + c.chunks, c.outcome)
  }

  lemma CopyAt(input: seq<Read>, i: nat, remaining: int)
    requires i < |input| && remaining > 0
    ensures var chunk := Filled(input[i].chunk, remaining);
      var here := CopyBody(input[i..], remaining);
      var rest := CopyBody(input[i + 1..], remaining - |chunk|);
      if chunk != [] && !input[i].delivered then here == Copy([chunk], ClientGone)
      else match input[i].ending
        case Eof => here == Copy([chunk], Whole)
        case Failed => here == Copy([chunk], Broken)
        case More => here == Copy([chunk] + rest.chunks, rest.outcome)
  {
    assert input[i..][0] == input[i] && input[i..][1..] == input[i + 1..];
  }

  lemma CopyEnds(remaining: int)
    ensures CopyBody([], remaining) == Copy([], if remaining <= 0 then TooLong else Broken)
  {}

  lemma CopyFull(input: seq<Read>, remaining: int)
    requires remaining <= 0
    ensures CopyBody(input, remaining) == Copy([], TooLong)
  {}

  /** The room left for the read after `chunks`. */
  function Room(chunks: seq<seq<Usage.byte>>, remaining: int): int { remaining - |Usage.Flatten(chunks)| }

  /**
    The copied chunks are the reads in their order, each filled to the room that was left, and none was refused before
    the last.
   */
  predicate CopiesReads(input: seq<Read>, remaining: int, c: Copy) {
    && |c.chunks| <= |input|
    && (forall i | 0 <= i < |c.chunks| ::
          Room(c.chunks[..i], remaining) > 0 && c.chunks[i] == Filled(input[i].chunk, Room(c.chunks[..i], remaining)))
    && (forall i | 0 <= i < |c.chunks| - 1 :: input[i].ending.More? && (c.chunks[i] != [] ==> input[i].delivered))
  }

  lemma RoomPush(chunk: seq<Usage.byte>, chunks: seq<seq<Usage.byte>>, i: nat, remaining: int)
    requires 0 < i <= |chunks| + 1
    ensures Room(([chunk] + chunks)[..i], remaining) == Room(chunks[..i - 1], remaining - |chunk|)
  {
    assert ([chunk] + chunks)[..i] == [chunk] + chunks[..i - 1];
    Usage.FlattenPush(chunk, chunks[..i - 1]);
  }

  lemma RoomNone(chunks: seq<seq<Usage.byte>>, remaining: int)
    ensures Room(chunks[..0], remaining) == remaining
  {}

  lemma CopiesPush(input: seq<Read>, remaining: int, c: Copy)
    requires input != [] && remaining > 0
    requires var chunk := Filled(input[0].chunk, remaining);
      CopiesReads(input[1..], remaining - |chunk|, c) && input[0].ending.More? && (chunk != [] ==> input[0].delivered)
    ensures CopiesReads(input, remaining, Copy([Filled(input[0].chunk, remaining)] + c.chunks, c.outcome))
  {
    hide Room, Filled;
    var chunk := Filled(input[0].chunk, remaining);
    var all := [chunk] + c.chunks;
    RoomNone(all, remaining);
    forall i | 0 <= i < |all|
      ensures Room(all[..i], remaining) > 0 && all[i] == Filled(input[i].chunk, Room(all[..i], remaining))
    {
      if i > 0 {
        RoomPush(chunk, c.chunks, i, remaining);
        assert input[1..][i - 1] == input[i] && all[i] == c.chunks[i - 1];
      }
    }
    forall i | 0 <= i < |all| - 1 ensures input[i].ending.More? && (all[i] != [] ==> input[i].delivered) {
      if i > 0 { assert input[1..][i - 1] == input[i] && all[i] == c.chunks[i - 1]; }
    }
  }

  lemma CopiesFew(input: seq<Read>, remaining: int, o: Outcome)
    ensures CopiesReads(input, remaining, Copy([], o))
    ensures remaining > 0 && input != [] ==> CopiesReads(input, remaining, Copy([Filled(input[0].chunk, remaining)], o))
  {
    if remaining > 0 && input != [] { RoomNone([Filled(input[0].chunk, remaining)], remaining); }
  }

  lemma {:induction false} CopyReads(input: seq<Read>, remaining: int)
    ensures CopiesReads(input, remaining, CopyBody(input, remaining))
    decreases |input|
  {
    hide CopiesReads;
    CopiesFew(input, remaining, CopyBody(input, remaining).outcome);
    if remaining > 0 && input != [] && input[0].ending.More? {
      var chunk := Filled(input[0].chunk, remaining);
      CopyReads(input[1..], remaining - |chunk|);
      if chunk == [] || input[0].delivered { CopiesPush(input, remaining, CopyBody(input[1..], remaining - |chunk|)); }
    }
  }

  /** The last copied read of a whole response. */
  predicate EndsWith(input: seq<Read>, c: Copy) {
    && 0 < |c.chunks| <= |input| && input[|c.chunks| - 1].ending.Eof?
    && (c.chunks[|c.chunks| - 1] != [] ==> input[|c.chunks| - 1].delivered)
  }

  lemma {:induction false} WholeEnds(input: seq<Read>, remaining: int)
    requires CopyBody(input, remaining).outcome.Whole?
    ensures EndsWith(input, CopyBody(input, remaining))
    decreases |input|
  {
    hide Filled;
    if input[0].ending.More? {
      var chunk := Filled(input[0].chunk, remaining);
      var c := CopyBody(input[1..], remaining - |chunk|);
      WholeEnds(input[1..], remaining - |chunk|);
      assert input[1..][|c.chunks| - 1] == input[|c.chunks|] && ([chunk] + c.chunks)[|c.chunks|] == c.chunks[|c.chunks| - 1];
    }
  }

  lemma {:induction false} CopyFits(input: seq<Read>, remaining: int)
    requires 0 <= remaining
    ensures |Usage.Flatten(CopyBody(input, remaining).chunks)| <= remaining
    decreases |input|
  {
    hide Usage.Flatten;
    Usage.FlattenNone();
    if remaining > 0 && input != [] {
      var chunk := Filled(input[0].chunk, remaining);
      Usage.FlattenPush(chunk, []);
      Usage.FlattenPush(chunk, CopyBody(input[1..], remaining - |chunk|).chunks);
      CopyFits(input[1..], remaining - |chunk|);
    }
  }

  /**
    The child never receives more than the response budget, it receives the reads in order, and a whole response is
    all of the reads up to the one that ended the body.
   */
  lemma CopyBounded(input: seq<Read>, remaining: int)
    requires 0 <= remaining
    ensures var c := CopyBody(input, remaining);
      |Usage.Flatten(c.chunks)| <= remaining && CopiesReads(input, remaining, c) && (c.outcome.Whole? ==> EndsWith(input, c))
  {
    hide CopyBody, CopiesReads, EndsWith;
    CopyFits(input, remaining);
    CopyReads(input, remaining);
    if CopyBody(input, remaining).outcome.Whole? { WholeEnds(input, remaining); }
  }

  datatype Call = Call(
    valid: bool, wanted: nat, bytes: nat, encoded: Option<nat>, exchange: nat -> Exchange,
    declaredTooLong: bool, streaming: bool, input: seq<Read>)

  /** The wire protocol: the clamp of one answer's output tokens, and the usage reader where refunds exist. */
  datatype Wire = Responses | Anthropic(rd: Usage.Reader)

  function Clamp(w: Wire): int { if w.Responses? then 8192 else 4096 }

  function Ceiling(w: Wire, wanted: nat): (ceiling: int)
    ensures 1 <= ceiling <= (if w.Responses? then 8192 else 4096) && (1 <= wanted <= Clamp(w) ==> ceiling == wanted)
    ensures wanted == 0 || wanted > Clamp(w) ==> ceiling == if w.Responses? then 8192 else 4096
  {
    if wanted == 0 || wanted > Clamp(w) then Clamp(w) else wanted
  }

  /** The last reservation gets its refund; what the response owes is recorded beside it. */
  function Give(b: State, refund: int, owed: int): State {
    b.(tokens := b.tokens - refund, ledger := SettleLast(b.ledger, refund, owed))
  }

  function SettleLast(ledger: seq<Entry>, refund: int, owed: int): seq<Entry> {
    var n := |ledger| - 1;
    if n < 0 then ledger else ledger[n := Entry(ledger[n].ceiling, refund, owed)]
  }

  function Settle(b: State, rd: Usage.Reader, streaming: bool, ceiling: int, chunks: seq<seq<Usage.byte>>): State {
    Give(b, Usage.Refund(rd, Usage.WriteAll(rd, Usage.Fresh(streaming, ceiling), chunks)),
         Usage.Owed(rd, streaming, ceiling, Usage.Flatten(chunks)))
  }

  function Relay(w: Wire, b: State, call: Call, status: int): State {
    if 300 <= status < 400 || call.declaredTooLong then b
    else
      var copy := CopyBody(call.input, RESPONSE_BYTES);
      match copy.outcome
      case Broken => Block(Observe(b, TRANSPORT), TRANSPORT)
      case ClientGone => b
      case TooLong => b
      case Whole =>
        if status == 200 && w.Anthropic? then Settle(b, w.rd, call.streaming, Ceiling(w, call.wanted), copy.chunks) else b
  }

  function Forward(w: Wire, r: State, call: Call): State
    requires call.encoded.Some?
  {
    var s := Send(r, call.exchange, Ceiling(w, call.wanted), call.encoded.value, 0);
    if s.sent.NoResponse? then s.b else Relay(w, s.b, call, s.sent.status)
  }

  function Handle(w: Wire, b: State, call: Call): State {
    if BlockedUpstream(b).status != 0 then b
    else
      var c := b.(requests := b.requests + 1);
      if c.requests > REQUEST_LIMIT then Block(c.(overflowed := true), EXHAUSTED)
      else if !call.valid then c
      else
        var r := ReserveTokens(c, Ceiling(w, call.wanted), call.bytes);
        if r.overflowed then Block(r, EXHAUSTED)
        else if call.encoded.None? then r
        else Forward(w, r, call)
  }

  function HandleAll(w: Wire, b: State, calls: seq<Call>): State
    decreases |calls|
  {
    if calls == [] then b else HandleAll(w, Handle(w, b, calls[0]), calls[1..])
  }

  // ---- the ledger ----

  function Charge(ledger: seq<Entry>): int {
    if ledger == [] then 0
    else Charge(ledger[..|ledger| - 1]) + ledger[|ledger| - 1].ceiling - ledger[|ledger| - 1].refund
  }

  /** The sum of what the responses stand for: reported usage where a message settled, the ceiling everywhere else. */
  function Owing(ledger: seq<Entry>): int {
    if ledger == [] then 0 else Owing(ledger[..|ledger| - 1]) + ledger[|ledger| - 1].owed
  }

  predicate Sound(e: Entry) { 1 <= e.owed <= e.ceiling && e.refund == e.ceiling - e.owed }

  predicate AllSound(ledger: seq<Entry>) { forall i | 0 <= i < |ledger| :: Sound(ledger[i]) }

  predicate Within(b: State) {
    b.requests <= REQUEST_LIMIT && b.tokens <= TOTAL_TOKENS && b.bytes <= TOTAL_BYTES
  }

  /** Accounting: the counters are what was charged, and every send had its own reservation. */
  predicate Accounted(b: State) {
    && b.tokens == Charge(b.ledger) && AllSound(b.ledger) && 0 <= b.bytes
    && b.reserved <= b.requests <= REQUEST_LIMIT + 1 && b.reserved <= REQUEST_LIMIT && b.sends <= b.reserved <= |b.ledger|
  }

  /** The latch holds exactly when a failure is recorded, and an overflow is a latched failure. */
  predicate Latched(b: State) {
    && (b.blocked <==> BlockedUpstream(b).status != 0)
    && (b.overflowed ==> b.blocked)
    && (b.overflowed <==> !Within(b))
  }

  predicate Inv(b: State) { Accounted(b) && Latched(b) }

  lemma ChargeAppend(ledger: seq<Entry>, e: Entry)
    ensures Charge(ledger + [e]) == Charge(ledger) + e.ceiling - e.refund
  {
    assert (ledger + [e])[..|ledger + [e]| - 1] == ledger;
  }

  lemma ReserveAccounts(c: State, tokens: int, bytes: int)
    requires c.tokens == Charge(c.ledger) && AllSound(c.ledger) && 0 <= c.bytes && 1 <= tokens && 0 <= bytes
    requires c.reserved < c.requests <= REQUEST_LIMIT && c.sends <= c.reserved <= |c.ledger|
    requires !c.overflowed && Within(c) && !c.blocked
    ensures var r := ReserveTokens(c, tokens, bytes);
      && Accounted(r) && (r.overflowed <==> !Within(r)) && !r.blocked && r.ledger == c.ledger + [Entry(tokens, 0, tokens)]
      && r.sends == c.sends && (!r.overflowed ==> r.reserved == c.reserved + 1)
  {
    ChargeAppend(c.ledger, Entry(tokens, 0, tokens));
  }

  lemma ReserveBoth(b: State, tokens: int, bytes: int)
    requires Accounted(b) && !b.overflowed && Within(b) && !b.blocked && 1 <= tokens && 0 <= bytes
    ensures var r := Reserve(b, tokens, bytes);
      && Accounted(r) && (r.overflowed <==> !Within(r)) && !r.blocked && r.sends == b.sends && |b.ledger| <= |r.ledger|
      && (!r.overflowed ==> r.reserved == b.reserved + 1 && r.ledger == b.ledger + [Entry(tokens, 0, tokens)])
  {
    var c := b.(requests := b.requests + 1);
    if c.requests <= REQUEST_LIMIT { ReserveAccounts(c, tokens, bytes); }
  }

  /** A reservation that has not been used yet. */
  predicate Prepared(b: State, tokens: int) {
    && Accounted(b) && !b.overflowed && Within(b) && !b.blocked && b.sends < b.reserved
    && b.ledger != [] && b.ledger[|b.ledger| - 1] == Entry(tokens, 0, tokens)
  }

  lemma TryAccounts(b: State, x: Exchange, tokens: int, bytes: int, retry: nat)
    requires 1 <= tokens && 0 <= bytes && Prepared(b, tokens)
    ensures match TryOnce(b, x, tokens, bytes, retry)
      case Done(c, sent) =>
        Inv(c) && c.sends == b.sends + 1
        && (sent == Response(200) ==> !c.blocked && c.ledger != [] && c.ledger[|c.ledger| - 1] == Entry(tokens, 0, tokens))
      case Again(c) => Prepared(c, tokens) && c.sends == b.sends + 1 && retry < RETRIES
  {
    hide AllSound, Charge, RetryDelay, Reserve;
    match x
    case Lost =>
    case Answer(status, errorType, after, gone) =>
      var t := Observe(b.(sends := b.sends + 1), Observation(status, if status >= 300 then errorType else ""));
      if RetryDelay(status, after, retry).Some? && retry < RETRIES {
        RetryBounded(status, after, retry);
        ReserveBoth(t, tokens, bytes);
      }
  }

  /** Sending with retries: at most three sends, each on its own reservation, and what is left is accounted for. */
  lemma {:induction false} SendAccounts(b: State, exchange: nat -> Exchange, tokens: int, bytes: int, retry: nat)
    requires retry <= RETRIES && 1 <= tokens && 0 <= bytes && Prepared(b, tokens)
    ensures var s := Send(b, exchange, tokens, bytes, retry);
      && Inv(s.b) && b.sends < s.b.sends <= b.sends + 1 + RETRIES - retry
      && (s.sent == Response(200) ==>
            !s.b.blocked && s.b.ledger != [] && s.b.ledger[|s.b.ledger| - 1] == Entry(tokens, 0, tokens))
    decreases RETRIES - retry
  {
    hide TryOnce, Prepared;
    TryAccounts(b, exchange(retry), tokens, bytes, retry);
    match TryOnce(b, exchange(retry), tokens, bytes, retry)
    case Done(_, _) =>
    case Again(c) => SendAccounts(c, exchange, tokens, bytes, retry + 1);
  }

  /**
    What a send came to latches or not: an answer from 300 on and a lost transport do, and only the caller leaving
    during a wait escapes.
   */
  predicate Settled(c: State, sent: Sent, exchange: nat -> Exchange) {
    match sent
    case Response(status) => (c.blocked <==> status >= 300) && (c.blocked ==> c.blockedObservation.status == status)
    case NoResponse =>
      if c.blocked then c.blockedObservation == TRANSPORT && exists k: nat | k <= RETRIES :: exchange(k).Lost?
      else exists k: nat | k < RETRIES :: exchange(k).Answer? && exchange(k).gone && Transient(exchange(k).status)
  }

  lemma TryLatches(b: State, exchange: nat -> Exchange, tokens: int, bytes: int, retry: nat)
    requires retry <= RETRIES && !b.blocked && !b.overflowed
    ensures match TryOnce(b, exchange(retry), tokens, bytes, retry)
      case Done(c, sent) => Settled(c, sent, exchange)
      case Again(c) => !c.blocked && !c.overflowed && retry < RETRIES
  {
    hide RetryDelay, ReserveTokens;
    var x := exchange(retry);
    if x.Answer? {
      RetryBounded(x.status, x.after, retry);
      var t := Observe(b.(sends := b.sends + 1), Observation(x.status, if x.status >= 300 then x.errorType else ""));
      ReserveFrame(t.(requests := t.requests + 1), tokens, bytes);
    }
  }

  lemma ReserveFrame(c: State, tokens: int, bytes: int)
    ensures ReserveTokens(c, tokens, bytes).blocked == c.blocked
  {}

  /** The latch is set exactly by a final failure, and it records that failure. */
  lemma {:induction false} SendLatches(b: State, exchange: nat -> Exchange, tokens: int, bytes: int, retry: nat)
    requires retry <= RETRIES && !b.blocked && !b.overflowed
    ensures var s := Send(b, exchange, tokens, bytes, retry); Settled(s.b, s.sent, exchange)
    decreases RETRIES - retry
  {
    hide TryOnce, Settled;
    TryLatches(b, exchange, tokens, bytes, retry);
    match TryOnce(b, exchange(retry), tokens, bytes, retry)
    case Done(_, _) =>
    case Again(c) => SendLatches(c, exchange, tokens, bytes, retry + 1);
  }

  // ---- how many sends there are ----

  /** The answer is one that may be retried, as the third send never is. */
  predicate Retryable(exchange: nat -> Exchange, i: nat) {
    && i < 2 && exchange(i).Answer? && Asked(exchange(i).after) <= 5000
    && var s := exchange(i).status; (s == 429 || s == 500 || s == 502 || s == 503 || s == 504 || s == 529)
  }

  /** The three budgets have room for `n` more reservations. */
  predicate HasRoomFor(b: State, tokens: int, bytes: int, n: nat) {
    && b.requests + n <= REQUEST_LIMIT && b.tokens + n * tokens <= TOTAL_TOKENS && b.bytes + n * bytes <= TOTAL_BYTES
  }

  /** The i-th send is followed by another one. */
  predicate Continues(b: State, exchange: nat -> Exchange, tokens: int, bytes: int, i: nat) {
    Retryable(exchange, i) && !exchange(i).gone && HasRoomFor(b, tokens, bytes, i + 1)
  }

  predicate RoomForOne(b: State, tokens: int, bytes: int) {
    b.requests + 1 <= REQUEST_LIMIT && b.tokens + tokens <= TOTAL_TOKENS && b.bytes + bytes <= TOTAL_BYTES
  }

  /** What one send does to the counters and whether another follows. */
  lemma TryExactly(b: State, exchange: nat -> Exchange, tokens: int, bytes: int, i: nat)
    requires i <= 2 && !b.overflowed && !b.blocked
    ensures match TryOnce(b, exchange(i), tokens, bytes, i)
      case Again(c) =>
        && Retryable(exchange, i) && !exchange(i).gone && RoomForOne(b, tokens, bytes) && !c.overflowed && !c.blocked
        && c.sends == b.sends + 1 && c.requests == b.requests + 1 && c.tokens == b.tokens + tokens && c.bytes == b.bytes + bytes
      case Done(c, sent) =>
        && !(Retryable(exchange, i) && !exchange(i).gone && RoomForOne(b, tokens, bytes)) && c.sends == b.sends + 1
        && (sent == NoResponse <==>
              exchange(i).Lost? || (Retryable(exchange, i) && exchange(i).gone && RoomForOne(b, tokens, bytes)))
        && (sent.Response? ==> sent.status == exchange(i).status)
        && (!Retryable(exchange, i) ==> c.requests == b.requests && c.tokens == b.tokens && c.bytes == b.bytes)
  {
    hide RetryDelay, Asked;
    if exchange(i).Answer? { RetryBounded(exchange(i).status, exchange(i).after, i); }
  }

  /** From send `i` on, in a state that has reserved for the sends before it. */
  lemma {:induction false} SendFrom(
      b: State, c: State, exchange: nat -> Exchange, tokens: int, bytes: int, i: nat, k: nat)
    requires i <= k <= 2 && !c.overflowed && !c.blocked && 0 <= tokens && 0 <= bytes
    requires c.requests == b.requests + i && c.tokens == b.tokens + i * tokens && c.bytes == b.bytes + i * bytes
    requires (forall j | i <= j < k :: Continues(b, exchange, tokens, bytes, j))
    requires !Continues(b, exchange, tokens, bytes, k)
    ensures var s := Send(c, exchange, tokens, bytes, i);
      && s.b.sends == c.sends + k - i + 1
      && (s.sent == NoResponse <==>
            exchange(k).Lost? || (Retryable(exchange, k) && exchange(k).gone && HasRoomFor(b, tokens, bytes, k + 1)))
      && (s.sent.Response? ==> s.sent.status == exchange(k).status)
      && (!Retryable(exchange, k) ==>
            s.b.requests == b.requests + k && s.b.tokens == b.tokens + k * tokens && s.b.bytes == b.bytes + k * bytes)
    decreases k - i
  {
    hide TryOnce, Retryable;
    TryExactly(c, exchange, tokens, bytes, i);
    RoomHere(b, c, tokens, bytes, i);
    if i < k {
      assert Continues(b, exchange, tokens, bytes, i);
      var d := TryOnce(c, exchange(i), tokens, bytes, i).b;
      SendFrom(b, d, exchange, tokens, bytes, i + 1, k);
    }
  }

  lemma RoomHere(b: State, c: State, tokens: int, bytes: int, i: nat)
    requires c.requests == b.requests + i && c.tokens == b.tokens + i * tokens && c.bytes == b.bytes + i * bytes
    ensures RoomForOne(c, tokens, bytes) <==> HasRoomFor(b, tokens, bytes, i + 1)
    ensures (i + 1) * tokens == i * tokens + tokens && (i + 1) * bytes == i * bytes + bytes
  {}

  /**
    Exactly how often a request is sent: as long as the answer is transient and retryable, the caller waits and all
    three budgets have room, and never more than three times; and what becomes of it is decided by the last send.
   */
  lemma SendsExactly(b: State, exchange: nat -> Exchange, tokens: int, bytes: int) returns (k: nat)
    requires !b.overflowed && !b.blocked && 0 <= tokens && 0 <= bytes
    ensures k <= 2 && (forall j | 0 <= j < k :: Continues(b, exchange, tokens, bytes, j))
    ensures !Continues(b, exchange, tokens, bytes, k)
    ensures var s := Send(b, exchange, tokens, bytes, 0);
      && s.b.sends == b.sends + k + 1
      && (s.sent == NoResponse <==>
            exchange(k).Lost? || (Retryable(exchange, k) && exchange(k).gone && HasRoomFor(b, tokens, bytes, k + 1)))
      && (s.sent.Response? ==> s.sent.status == exchange(k).status)
      && (!Retryable(exchange, k) ==>
            s.b.requests == b.requests + k && s.b.tokens == b.tokens + k * tokens && s.b.bytes == b.bytes + k * bytes)
  {
    hide HasRoomFor, Send;
    k := 0;
    if Continues(b, exchange, tokens, bytes, 0) { k := if Continues(b, exchange, tokens, bytes, 1) then 2 else 1; }
    hide Continues, Retryable;
    SendFrom(b, b, exchange, tokens, bytes, 0, k);
  }

  /** For instance, a 503 without Retry-After and then a 200, with room: the second answer counts, after two sends. */
  lemma RetrySucceeds(b: State, exchange: nat -> Exchange, tokens: int, bytes: int)
    requires !b.overflowed && !b.blocked && 0 <= tokens && 0 <= bytes && HasRoomFor(b, tokens, bytes, 1)
    requires exchange(0).Answer? && exchange(0).status == 503 && exchange(0).after.Absent? && !exchange(0).gone
    requires exchange(1).Answer? && exchange(1).status == 200
    ensures var s := Send(b, exchange, tokens, bytes, 0); s.sent == Response(200) && s.b.sends == b.sends + 2 && !s.b.blocked
  {
    hide Send;
    var k := SendsExactly(b, exchange, tokens, bytes);
    assert Continues(b, exchange, tokens, bytes, 0) && !Continues(b, exchange, tokens, bytes, 1);
    assert k == 1;
    SendLatches(b, exchange, tokens, bytes, 0);
  }

  lemma GiveAccounts(b: State, refund: int, owed: int)
    requires Inv(b) && !b.blocked && b.ledger != []
    requires var e := b.ledger[|b.ledger| - 1]; e.refund == 0 && 1 <= owed <= e.ceiling && refund == e.ceiling - owed
    ensures Inv(Give(b, refund, owed)) && Give(b, refund, owed).sends == b.sends
  {
    var n := |b.ledger| - 1;
    assert b.ledger[n := Entry(b.ledger[n].ceiling, refund, owed)][..n] == b.ledger[..n];
  }

  lemma ForwardKeeps(w: Wire, r: State, call: Call)
    requires call.encoded.Some? && Prepared(r, Ceiling(w, call.wanted))
    ensures Inv(Forward(w, r, call)) && r.sends <= Forward(w, r, call).sends <= r.sends + 3
  {
    hide Send, Accounted, Usage.Refund, Usage.WriteAll, Usage.Owed, Give, CopyBody, Block, Observe;
    var ceiling := Ceiling(w, call.wanted);
    SendAccounts(r, call.exchange, ceiling, call.encoded.value, 0);
    var s := Send(r, call.exchange, ceiling, call.encoded.value, 0);
    var copy := CopyBody(call.input, RESPONSE_BYTES);
    if s.sent == Response(200) && copy.outcome.Whole? && w.Anthropic? {
      Usage.RefundSettles(w.rd, call.streaming, ceiling, copy.chunks);
      GiveAccounts(s.b, ceiling - Usage.Owed(w.rd, call.streaming, ceiling, Usage.Flatten(copy.chunks)),
                   Usage.Owed(w.rd, call.streaming, ceiling, Usage.Flatten(copy.chunks)));
    } else if s.sent.Response? {
      RelayKeeps(s.b);
    }
  }

  lemma RelayKeeps(b: State)
    requires Inv(b)
    ensures Inv(Block(Observe(b, TRANSPORT), TRANSPORT)) && Block(Observe(b, TRANSPORT), TRANSPORT).sends == b.sends
  {}

  /** One handler call keeps every budget, the ledger and the latch, and sends at most three times. */
  lemma HandleKeeps(w: Wire, b: State, call: Call)
    requires Inv(b)
    ensures Inv(Handle(w, b, call))
    ensures b.sends <= Handle(w, b, call).sends <= b.sends + 3
  {
    hide Forward, Charge, AllSound;
    if !b.blocked {
      var c := b.(requests := b.requests + 1);
      if c.requests <= REQUEST_LIMIT && call.valid {
        var ceiling := Ceiling(w, call.wanted);
        ReserveAccounts(c, ceiling, call.bytes);
        var r := ReserveTokens(c, ceiling, call.bytes);
        if !r.overflowed && call.encoded.Some? { ForwardKeeps(w, r, call); }
      }
    }
  }

  /** The budget invariant over every sequence of handler calls. */
  lemma {:induction false} BudgetInvariant(w: Wire, b: State, calls: seq<Call>)
    requires Inv(b)
    ensures Inv(HandleAll(w, b, calls))
    decreases |calls|
  {
    if calls != [] {
      HandleKeeps(w, b, calls[0]);
      BudgetInvariant(w, Handle(w, b, calls[0]), calls[1..]);
    }
  }

  /** What the budgets promise of a job: unlatched counters are within their limits, and there are at most 24 sends. */
  lemma BudgetsHold(w: Wire, calls: seq<Call>)
    ensures var b := HandleAll(w, START, calls);
      && (!b.blocked ==> b.requests <= 24 && b.tokens <= 65536 && b.bytes <= 0x10_0000)
      && b.sends <= b.reserved <= 24 && b.tokens == Charge(b.ledger)
  {
    BudgetInvariant(w, START, calls);
  }

  /** Once latched, nothing changes: the first failure, the counters and the number of sends are kept forever. */
  lemma {:induction false} LatchForever(w: Wire, b: State, calls: seq<Call>)
    requires Inv(b) && b.blocked
    ensures HandleAll(w, b, calls) == b
    decreases |calls|
  {
    if calls != [] { LatchForever(w, b, calls[1..]); }
  }

  // ---- what a call costs ----

  /** A call that is not forwarded: what it costs, and when it latches with status 429. */
  lemma RefusalCosts(w: Wire, b: State, call: Call)
    requires Inv(b) && !b.blocked
    ensures var c := Handle(w, b, call);
      var ceiling := Ceiling(w, call.wanted);
      && (b.requests >= 24 ==>
            c.blocked && c.blockedObservation == Observation(429, "") && c.tokens == b.tokens && c.sends == b.sends)
      && (b.requests < 24 && !call.valid ==> c == b.(requests := b.requests + 1))
      && (b.requests < 24 && call.valid && (b.tokens + ceiling > 65536 || b.bytes + call.bytes > 0x10_0000) ==>
            c.blocked && c.blockedObservation == Observation(429, "") && c.sends == b.sends)
      && (b.requests < 24 && call.valid && b.tokens + ceiling <= 65536 && b.bytes + call.bytes <= 0x10_0000
          && call.encoded.None? ==>
            && !c.blocked && c.sends == b.sends && c.requests == b.requests + 1
            && c.tokens == b.tokens + ceiling && c.bytes == b.bytes + call.bytes)
  {
    hide Forward, Charge, AllSound;
  }

  /** The response is handed on to its end and settles its reservation. */
  predicate Settles(w: Wire, call: Call, sent: Sent) {
    w.Anthropic? && sent == Response(200) && !call.declaredTooLong && CopyBody(call.input, RESPONSE_BYTES).outcome.Whole?
  }

  /** The connection broke while the response was handed on. */
  predicate Breaks(call: Call, sent: Sent) {
    && sent.Response? && !(300 <= sent.status < 400) && !call.declaredTooLong
    && CopyBody(call.input, RESPONSE_BYTES).outcome.Broken?
  }

  /**
    A forwarded call: nothing is given back unless the response settles, and then exactly what it does not owe; a
    broken connection latches, and nothing else after the sending does.
   */
  lemma ForwardCosts(w: Wire, r: State, call: Call)
    requires call.encoded.Some? && Prepared(r, Ceiling(w, call.wanted))
    ensures var c := Forward(w, r, call);
      var ceiling := Ceiling(w, call.wanted);
      var s := Send(r, call.exchange, ceiling, call.encoded.value, 0);
      && c.sends == s.b.sends && c.requests == s.b.requests && c.bytes == s.b.bytes
      && (!Settles(w, call, s.sent) ==> c.tokens == s.b.tokens && c.ledger == s.b.ledger)
      && (Settles(w, call, s.sent) ==>
            var response := Usage.Flatten(CopyBody(call.input, RESPONSE_BYTES).chunks);
            c.tokens == s.b.tokens - ceiling + Usage.Owed(w.rd, call.streaming, ceiling, response))
      && (c.blocked <==> s.b.blocked || Breaks(call, s.sent))
      && (Breaks(call, s.sent) && !s.b.blocked ==> c.blockedObservation == TRANSPORT)
      && (s.b.blocked ==> c.blockedObservation == s.b.blockedObservation)
      && |Usage.Flatten(CopyBody(call.input, RESPONSE_BYTES).chunks)| <= 16 * 1048576
  {
    hide Send, Accounted, Usage.Refund, Usage.WriteAll, Usage.Owed, CopyBody, Charge, AllSound;
    var ceiling := Ceiling(w, call.wanted);
    CopyFits(call.input, RESPONSE_BYTES);
    Usage.RefundSettles((if w.Anthropic? then w.rd else NO_READER), call.streaming, ceiling,
      CopyBody(call.input, RESPONSE_BYTES).chunks);
  }

  const NO_READER := Usage.Reader(b => b, b => None, b => None)

  // ---- diagnostics ----

  datatype Failure =
    | NoFailure
    | Plain
    | Upstream(status: int, errorType: string)
    | BudgetExhausted(requests: int, tokens: int, bytes: int)

  /** The classification of a coding phase that ended with or without an error of its own. */
  function CodingFailure(failed: bool, b: State): Failure {
    if !failed && BlockedUpstream(b).status == 0 then NoFailure
    else if Within(b) then
      var o := LastUpstream(b);
      var status := if o.status == 0 then b.upstreamStatus else o.status;
      if status == -1 || 300 <= status <= 599 then Upstream(status, o.errorType) else Plain
    else BudgetExhausted(b.requests, b.tokens, b.bytes)
  }

  /** A latched broker is always a failure, and it is a budget failure exactly when an overflow latched it. */
  lemma LatchDiagnosed(w: Wire, calls: seq<Call>, failed: bool)
    ensures var b := HandleAll(w, START, calls);
      && (b.blocked ==> !CodingFailure(failed, b).NoFailure?)
      && (CodingFailure(failed, b).BudgetExhausted? <==> b.overflowed)
      && (!b.blocked && !failed ==> CodingFailure(failed, b).NoFailure?)
      && (b.blocked <==> BlockedUpstream(b).status != 0)
  {
    BudgetInvariant(w, START, calls);
  }

  lemma {:induction false} Observed(w: Wire, b: State, calls: seq<Call>)
    requires b.upstreamStatus == b.observation.status
    ensures var c := HandleAll(w, b, calls); c.upstreamStatus == c.observation.status
    decreases |calls|
  {
    hide Handle;
    if calls != [] {
      ObservedCall(w, b, calls[0]);
      Observed(w, Handle(w, b, calls[0]), calls[1..]);
    }
  }

  lemma ObservedCall(w: Wire, b: State, call: Call)
    requires b.upstreamStatus == b.observation.status
    ensures Handle(w, b, call).upstreamStatus == Handle(w, b, call).observation.status
  {
    hide Send, CopyBody, Usage.Refund, Usage.WriteAll, Usage.Owed;
    var c := b.(requests := b.requests + 1);
    var ceiling := Ceiling(w, call.wanted);
    var r := ReserveTokens(c, ceiling, call.bytes);
    if call.encoded.Some? { ObservedSend(r, call.exchange, ceiling, call.encoded.value, 0); }
  }

  lemma {:induction false} ObservedSend(b: State, exchange: nat -> Exchange, tokens: int, bytes: int, retry: nat)
    requires b.upstreamStatus == b.observation.status
    ensures var s := Send(b, exchange, tokens, bytes, retry); s.b.upstreamStatus == s.b.observation.status
    decreases 2 - retry
  {
    hide RetryDelay;
    match TryOnce(b, exchange(retry), tokens, bytes, retry)
    case Done(_, _) =>
    case Again(c) => if retry < RETRIES { ObservedSend(c, exchange, tokens, bytes, retry + 1); }
  }

  predicate Telling(o: Observation) { o.status == -1 || 300 <= o.status <= 599 }

  /**
    What is diagnosed: the counters after an overflow, the first failure of a latched broker, and the last answer where
    the coding phase failed by itself; a status that tells nothing gives no status.
   */
  lemma DiagnosisMeans(w: Wire, calls: seq<Call>, failed: bool)
    ensures var b := HandleAll(w, START, calls);
      var f := CodingFailure(failed, b);
      && (b.overflowed ==> f == BudgetExhausted(b.requests, b.tokens, b.bytes))
      && (b.blocked && !b.overflowed ==>
            var o := b.blockedObservation; f == if Telling(o) then Upstream(o.status, o.errorType) else Plain)
      && (!b.blocked && failed ==>
            var o := b.observation; f == if Telling(o) then Upstream(o.status, o.errorType) else Plain)
      && (f.NoFailure? <==> !b.blocked && !failed)
  {
    BudgetInvariant(w, START, calls);
    Observed(w, START, calls);
  }

  lemma {:induction false} ChargeIsOwed(ledger: seq<Entry>)
    requires AllSound(ledger)
    ensures Charge(ledger) == Owing(ledger)
  {
    if ledger != [] { ChargeIsOwed(ledger[..|ledger| - 1]); }
  }

  /**
    The ledger over every run: the reserved tokens are the ceilings minus the refunds, and that is the reported usage
    of the settled messages plus the full ceilings of all the other sends.
   */
  lemma ReservedIsOwed(w: Wire, calls: seq<Call>)
    ensures var b := HandleAll(w, START, calls); b.tokens == Charge(b.ledger) == Owing(b.ledger)
  {
    BudgetInvariant(w, START, calls);
    ChargeIsOwed(HandleAll(w, START, calls).ledger);
  }

  /** A call that is answered at once by a whole 200 response costs exactly what the response owes. */
  lemma WholeAnswerCharged(rd: Usage.Reader, b: State, call: Call)
    requires Inv(b) && !b.blocked && call.valid && call.encoded.Some? && !call.declaredTooLong
    requires var w := Anthropic(rd);
      b.requests < REQUEST_LIMIT && b.tokens + Ceiling(w, call.wanted) <= TOTAL_TOKENS && b.bytes + call.bytes <= TOTAL_BYTES
    requires call.exchange(0).Answer? && call.exchange(0).status == 200
    requires CopyBody(call.input, RESPONSE_BYTES).outcome.Whole?
    ensures var w := Anthropic(rd);
      var c := Handle(w, b, call);
      var response := Usage.Flatten(CopyBody(call.input, RESPONSE_BYTES).chunks);
      var owed := Usage.Owed(rd, call.streaming, Ceiling(w, call.wanted), response);
      && c.tokens == b.tokens + owed && c.requests == b.requests + 1 && c.bytes == b.bytes + call.bytes
      && c.sends == b.sends + 1 && !c.blocked
  {
    hide CopyBody, Usage.Refund, Usage.Owed, Usage.WriteAll, Usage.Flatten, Charge, AllSound;
    var ceiling := Ceiling(Anthropic(rd), call.wanted);
    Usage.RefundSettles(rd, call.streaming, ceiling, CopyBody(call.input, RESPONSE_BYTES).chunks);
    var r := ReserveTokens(b.(requests := b.requests + 1), ceiling, call.bytes);
    assert Send(r, call.exchange, ceiling, call.encoded.value, 0).sent == Response(200);
  }

  // ---- the broker's fields, updated in place ----

  class ModelBroker {
    const w: Wire
    var requests: int
    var outputTokens: int
    var requestBytes: int
    var upstreamStatus: int
    var observation: Observation
    var blocked: bool
    var blockedObservation: Observation
    ghost var sends: nat
    ghost var reserved: nat
    ghost var overflowed: bool
    ghost var ledger: seq<Entry>

    ghost function View(): State reads this {
      State(requests, outputTokens, requestBytes, upstreamStatus, observation, blocked, blockedObservation,
            sends, reserved, overflowed, ledger)
    }

    constructor (w: Wire)
      ensures View() == START && this.w == w
    {
      this.w := w;
      requests, outputTokens, requestBytes, upstreamStatus, blocked := 0, 0, 0, 0, false;
      observation, blockedObservation := NOTHING, NOTHING;
      sends, reserved, overflowed, ledger := 0, 0, false, [];
    }

    method BlockUpstream(o: Observation)
      modifies this
      ensures View() == Block(old(View()), o)
    {
      if !blocked { blockedObservation := o; }
      blocked := true;
    }

    method ObserveUpstream(o: Observation)
      modifies this
      ensures View() == Observe(old(View()), o) && overflowed == old(overflowed)
    {
      upstreamStatus, observation := o.status, o;
      if o.status >= 300 && o.status < 500 && o.status != 429 { BlockUpstream(o); }
    }

    /** The short-circuit of the two additions after the request count. */
    method AddReservation(tokens: int, bytes: int) returns (over: bool)
      requires !overflowed
      modifies this
      ensures View() == ReserveTokens(old(View()), tokens, bytes) && over == overflowed
    {
      ledger := ledger + [Entry(tokens, 0, tokens)];
      outputTokens := outputTokens + tokens;
      over := outputTokens > TOTAL_TOKENS;
      if !over {
        requestBytes := requestBytes + bytes;
        over := requestBytes > TOTAL_BYTES;
        if !over { reserved := reserved + 1; }
      }
      overflowed := over;
    }

    /** One pass through the retry loop. */
    method SendOnce(x: Exchange, tokens: int, bytes: int, retry: nat) returns (again: bool, sent: Sent)
      requires !overflowed
      modifies this
      ensures match TryOnce(old(View()), x, tokens, bytes, retry)
        case Done(c, s) => !again && View() == c && sent == s
        case Again(c) => again && View() == c && !overflowed && retry < RETRIES
    {
      hide RetryDelay, Block, Observe, ReserveTokens;
      sends := sends + 1;
      if x.Lost? {
        ObserveUpstream(TRANSPORT);
        BlockUpstream(TRANSPORT);
        return false, NoResponse;
      }
      var o := Observation(x.status, if x.status >= 300 then x.errorType else "");
      ObserveUpstream(o);
      if RetryDelay(x.status, x.after, retry).None? || retry >= RETRIES {
        if x.status >= 300 { BlockUpstream(o); }
        return false, Response(x.status);
      }
      requests := requests + 1;
      var over := requests > REQUEST_LIMIT;
      overflowed := over;
      if !over { over := AddReservation(tokens, bytes); }
      if over {
        BlockUpstream(o);
        return false, Response(x.status);
      }
      return !x.gone, NoResponse;
    }

    method SendModelRequest(exchange: nat -> Exchange, tokens: int, bytes: int) returns (sent: Sent)
      requires !overflowed
      modifies this
      ensures Sending(View(), sent) == Send(old(View()), exchange, tokens, bytes, 0)
    {
      hide TryOnce;
      var retry := 0;
      ghost var goal := Send(View(), exchange, tokens, bytes, 0);
      while true
        invariant 0 <= retry <= RETRIES && !overflowed
        invariant Send(View(), exchange, tokens, bytes, retry) == goal
        decreases RETRIES - retry
      {
        var again;
        again, sent := SendOnce(exchange(retry), tokens, bytes, retry);
        if !again { return; }
        retry := retry + 1;
      }
    }

    /** Reading the response and copying it to the child, with the usage reader beside it. */
    method RelayBody(input: seq<Read>, status: int, streaming: bool, ceiling: int)
      modifies this
      ensures var copy := CopyBody(input, RESPONSE_BYTES);
        View() ==
        if copy.outcome.Broken? then Block(Observe(old(View()), TRANSPORT), TRANSPORT)
        else if copy.outcome.Whole? && status == 200 && w.Anthropic? then
          Settle(old(View()), w.rd, streaming, ceiling, copy.chunks)
        else old(View())
    {
      hide Usage.Refund, Usage.Owed, Usage.Write, Usage.WriteAll, Usage.Flatten, Block, Observe, Filled, CopyBody;
      var rd := if w.Anthropic? then w.rd else NO_READER;
      var usage := new Usage.AnthropicUsage(rd, streaming, ceiling);
      var remaining, i := RESPONSE_BYTES, 0;
      ghost var done: seq<seq<Usage.byte>> := [];
      ghost var copy := CopyBody(input, RESPONSE_BYTES);
      Usage.WriteAllNone(rd, Usage.Fresh(streaming, ceiling));
      assert input[0..] == input;
      while remaining > 0
        invariant 0 <= i <= |input| && View() == old(View())
        invariant copy.outcome == CopyBody(input[i..], remaining).outcome
        invariant copy.chunks == done + CopyBody(input[i..], remaining).chunks
        invariant usage.View() == Usage.WriteAll(rd, Usage.Fresh(streaming, ceiling), done)
        invariant usage.rd == rd
        decreases |input| - i
      {
        if i == |input| {
          CopyEnds(remaining);
          assert input[i..] == [];
          ObserveUpstream(TRANSPORT);
          BlockUpstream(TRANSPORT);
          return;
        }
        var chunk := Filled(input[i].chunk, remaining);
        CopyAt(input, i, remaining);
        Usage.WriteAllAppend(rd, Usage.Fresh(streaming, ceiling), done, chunk);
        usage.Feed(chunk);
        done := done + [chunk];
        if chunk != [] && !input[i].delivered { return; }
        remaining := remaining - |chunk|;
        match input[i].ending {
          case Eof =>
            if status == 200 && w.Anthropic? {
              var refund := usage.Settle();
              outputTokens := outputTokens - refund;
              ledger := SettleLast(ledger, refund, Usage.Owed(rd, streaming, ceiling, Usage.Flatten(done)));
            }
            return;
          case Failed =>
            ObserveUpstream(TRANSPORT);
            BlockUpstream(TRANSPORT);
            return;
          case More =>
        }
        i := i + 1;
      }
      CopyFull(input[i..], remaining);
    }

    method HandleRequest(call: Call)
      requires Latched(View())
      modifies this
      ensures View() == Handle(w, old(View()), call)
    {
      hide CopyBody, Send, RetryDelay;
      if (if blocked then blockedObservation else NOTHING).status != 0 { return; }
      requests := requests + 1;
      if requests > REQUEST_LIMIT {
        overflowed := true;
        BlockUpstream(EXHAUSTED);
        return;
      }
      if !call.valid { return; }
      var ceiling := Ceiling(w, call.wanted);
      var over := AddReservation(ceiling, call.bytes);
      if over {
        BlockUpstream(EXHAUSTED);
        return;
      }
      if call.encoded.None? { return; }
      var sent := SendModelRequest(call.exchange, ceiling, call.encoded.value);
      if sent.NoResponse? { return; }
      if 300 <= sent.status < 400 || call.declaredTooLong { return; }
      RelayBody(call.input, sent.status, call.streaming, ceiling);
    }
  }
}
