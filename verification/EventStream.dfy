/** What a streamed response means to the shim (cmd/shim/sse.go): lines, events and
    the telemetry they add up to, as a one-shot reading of the whole byte stream.
    The event-stream format is that of section 9.2 of the WHATWG HTML standard, read more
    simply: only a newline ends a line, a data field needs its colon, a leading byte order
    mark is not stripped, long lines and events are dropped, and an event still pending at
    the end of the stream is dispatched. `StandardReading.dfy` says when the two agree. */
module EventStream {

  newtype Byte = b: int | 0 <= b < 256

  type Bytes = seq<Byte>

  const LF: Byte := 10
  const CR: Byte := 13
  const SPACE: Byte := 32
  const DATA_PREFIX: Bytes := [100, 97, 116, 97, 58]
  const DONE: Bytes := [91, 68, 79, 78, 69, 93]
  const MAX_LINE := 0x10_0000

  /** What JSON decoding makes of a payload: nothing usable, or a frame with perhaps a
      completion count and perhaps generated text. */
  datatype Frame = Malformed | Frame(usage: Usage, hasToken: bool)

  datatype Usage = NoUsage | Usage(completionTokens: int)

  /** What the shim is given: the decoder, the clock's readings in the order they are
      taken, the request's start and whether gaps are reported. */
  datatype Env = Env(decode: Bytes -> Frame, clock: nat -> int, start: int, sink: bool)

  /** What one streamed response adds up to (requestState). */
  datatype Telemetry = Telemetry(
    sawFirstToken: bool, ttft: int, tokens: nat, sawDone: bool, lastContent: int,
    gaps: seq<int>, reportedTokens: int, hasUsage: bool)

  const BLANK := Telemetry(false, 0, 0, false, 0, [], 0, false)

  // ---- Lines -------------------------------------------------------------

  /** The newline-terminated lines of a stream. */
  function Lines(s: Bytes): seq<Bytes>
  {
    if s == [] then []
    else
      var init := s[..|s| - 1];
      if s[|s| - 1] == LF then Lines(init) + [Tail(init)] else Lines(init)
  }

  /** What follows the last newline. */
  function Tail(s: Bytes): Bytes
  {
    if s == [] || s[|s| - 1] == LF then [] else Tail(s[..|s| - 1]) + [s[|s| - 1]]
  }

  function TrimCr(line: Bytes): Bytes
  {
    if line != [] && line[|line| - 1] == CR then line[..|line| - 1] else line
  }

  predicate IsBlank(line: Bytes) { |line| <= MAX_LINE && TrimCr(line) == [] }

  predicate IsData(line: Bytes) { DATA_PREFIX <= TrimCr(line) }

  /** The value of a data line, without the one optional leading space. */
  function PayloadOf(line: Bytes): Bytes
    requires IsData(line)
  {
    var rest := TrimCr(line)[|DATA_PREFIX|..];
    if rest != [] && rest[0] == SPACE then rest[1..] else rest
  }

  // ---- Events ------------------------------------------------------------

  datatype Content = Dropped | Content(data: Bytes)

  /** The data of one event from its lines: lost if any line is over the cap, or if the
      joined data would be. */
  function ContentOf(block: seq<Bytes>): Content
  {
    if block == [] then Content([]) else Extended(ContentOf(block[..|block| - 1]), block[|block| - 1])
  }

  /** What a line that does not end the event adds to its content. */
  function Extended(c: Content, line: Bytes): Content
  {
    match c
    case Dropped => Dropped
    case Content(data) =>
      if |line| > MAX_LINE then Dropped
      else if !IsData(line) then c
      else if |data| + |PayloadOf(line)| + 1 > MAX_LINE then Dropped
      else Content(Joined(data, PayloadOf(line)))
  }

  function Joined(data: Bytes, payload: Bytes): Bytes
  {
    if data == [] then payload else data + [LF] + payload
  }

  /** The lines after the last blank one. */
  function OpenBlock(lines: seq<Bytes>): seq<Bytes>
  {
    if lines == [] || IsBlank(lines[|lines| - 1]) then []
    else OpenBlock(lines[..|lines| - 1]) + [lines[|lines| - 1]]
  }

  /** The blocks that a blank line ended. */
  function ClosedBlocks(lines: seq<Bytes>): seq<seq<Bytes>>
  {
    if lines == [] then []
    else
      var init := lines[..|lines| - 1];
      if IsBlank(lines[|lines| - 1]) then ClosedBlocks(init) + [OpenBlock(init)] else ClosedBlocks(init)
  }

  // ---- Telemetry ---------------------------------------------------------

  predicate IsSpace(b: Byte) { b == 9 || b == 10 || b == 11 || b == 12 || b == 13 || b == 32 }

  function TrimLeft(s: Bytes): Bytes
  {
    if s != [] && IsSpace(s[0]) then TrimLeft(s[1..]) else s
  }

  function TrimRight(s: Bytes): Bytes
  {
    if s != [] && IsSpace(s[|s| - 1]) then TrimRight(s[..|s| - 1]) else s
  }

  function TrimSpace(s: Bytes): Bytes { TrimRight(TrimLeft(s)) }

  function ObserveUsage(t: Telemetry, u: Usage): Telemetry
  {
    if u.Usage? && u.completionTokens >= 0 then t.(reportedTokens := u.completionTokens, hasUsage := true) else t
  }

  /** One piece of generated content, at the next reading of the clock. */
  function ObserveToken(env: Env, t: Telemetry): Telemetry
  {
    var now := env.clock(t.tokens);
    var timed :=
      if !t.sawFirstToken then t.(sawFirstToken := true, ttft := now - env.start)
      else if env.sink then t.(gaps := t.gaps + [if now < t.lastContent then 0 else now - t.lastContent])
      else t;
    timed.(lastContent := now, tokens := t.tokens + 1)
  }

  /** handleEvent. */
  function Dispatch(env: Env, t: Telemetry, payload: Bytes): Telemetry
  {
    var p := TrimSpace(payload);
    if p == [] then t
    else if p == DONE then t.(sawDone := true)
    else match env.decode(p)
      case Malformed => t
      case Frame(usage, hasToken) =>
        var counted := ObserveUsage(t, usage);
        if hasToken then ObserveToken(env, counted) else counted
  }

  function DispatchBlock(env: Env, t: Telemetry, block: seq<Bytes>): Telemetry
  {
    match ContentOf(block)
    case Dropped => t
    case Content(data) => Dispatch(env, t, data)
  }

  function DispatchAll(env: Env, blocks: seq<seq<Bytes>>): Telemetry
  {
    if blocks == [] then BLANK
    else DispatchBlock(env, DispatchAll(env, blocks[..|blocks| - 1]), blocks[|blocks| - 1])
  }

  /** Every line of a finished stream, its unterminated last one included. */
  function AllLines(s: Bytes): seq<Bytes>
  {
    if Tail(s) == [] then Lines(s) else Lines(s) + [Tail(s)]
  }

  /** The one-shot reading of a finished stream. */
  function OneShot(env: Env, s: Bytes): Telemetry
  {
    var lines := AllLines(s);
    DispatchAll(env, ClosedBlocks(lines) + [OpenBlock(lines)])
  }

  /** An event keeps its data only if none of its lines was over the cap, and then the
      data is within the cap too. */
  lemma {:induction false} KeptContentIsCapped(block: seq<Bytes>)
    ensures ContentOf(block) != Dropped ==>
      |ContentOf(block).data| <= 0x10_0000 && forall i :: 0 <= i < |block| ==> |block[i]| <= 0x10_0000
  {
    if block != [] {
      var init := block[..|block| - 1];
      KeptContentIsCapped(init);
      assert forall i :: 0 <= i < |block| - 1 ==> block[i] == init[i];
    }
  }

  // ---- How a stream grows ------------------------------------------------

  lemma {:induction false} GrowTail(s: Bytes, chunk: Bytes)
    requires LF !in chunk
    ensures Tail(s + chunk) == Tail(s) + chunk && Lines(s + chunk) == Lines(s)
  {
    if chunk == [] {
      assert s + chunk == s;
    } else {
      var init := chunk[..|chunk| - 1];
      assert (s + chunk)[..|s + chunk| - 1] == s + init;
      GrowTail(s, init);
      assert Tail(s) + init + [chunk[|chunk| - 1]] == Tail(s) + chunk;
    }
  }

  lemma GrowLine(s: Bytes, line: Bytes)
    requires LF !in line
    ensures Tail(s + line + [LF]) == [] && Lines(s + line + [LF]) == Lines(s) + [Tail(s) + line]
  {
    var t := s + line + [LF];
    assert t[..|t| - 1] == s + line;
    GrowTail(s, line);
  }

  // ---- Accounting --------------------------------------------------------

  function Total(gaps: seq<int>): int
  {
    if gaps == [] then 0 else Total(gaps[..|gaps| - 1]) + gaps[|gaps| - 1]
  }

  ghost predicate ForwardClock(clock: nat -> int)
  {
    forall i: nat, j: nat :: i <= j ==> clock(i) <= clock(j)
  }

  /** Time to first token plus the reported gaps is the time to the last token. */
  ghost predicate Accounted(env: Env, t: Telemetry)
  {
    && (t.sawFirstToken <==> t.tokens > 0)
    && (t.tokens == 0 ==> t.gaps == [])
    && (t.tokens > 0 ==> t.ttft == env.clock(0) - env.start && t.lastContent == env.clock(t.tokens - 1))
    && (t.tokens > 0 && env.sink ==>
          && |t.gaps| == t.tokens - 1
          && (forall i :: 0 <= i < |t.gaps| ==> t.gaps[i] == env.clock(i + 1) - env.clock(i) >= 0)
          && t.ttft + Total(t.gaps) == t.lastContent - env.start)
    && (t.hasUsage ==> t.reportedTokens >= 0)
  }

  lemma TokenAccounted(env: Env, t: Telemetry)
    requires ForwardClock(env.clock) && Accounted(env, t)
    ensures Accounted(env, ObserveToken(env, t))
  {
    var u := ObserveToken(env, t);
    if t.tokens > 0 && env.sink {
      assert env.clock(t.tokens - 1) <= env.clock(t.tokens);
      assert u.gaps[..|u.gaps| - 1] == t.gaps;
    }
  }

  lemma {:induction false} DispatchAccounted(env: Env, blocks: seq<seq<Bytes>>)
    requires ForwardClock(env.clock)
    ensures Accounted(env, DispatchAll(env, blocks))
  {
    hide TrimSpace, ContentOf, Accounted;
    if blocks == [] {
      BlankAccounted(env);
    } else {
      var init := blocks[..|blocks| - 1];
      DispatchAccounted(env, init);
      DispatchOneAccounted(env, DispatchAll(env, init), blocks[|blocks| - 1]);
    }
  }

  lemma BlankAccounted(env: Env)
    ensures Accounted(env, BLANK)
  {
  }

  lemma DispatchOneAccounted(env: Env, t: Telemetry, block: seq<Bytes>)
    requires ForwardClock(env.clock) && Accounted(env, t)
    ensures Accounted(env, DispatchBlock(env, t, block))
  {
    hide TrimSpace, ContentOf, ForwardClock;
    match ContentOf(block) {
      case Dropped =>
      case Content(data) =>
        match env.decode(TrimSpace(data)) {
          case Malformed =>
          case Frame(usage, hasToken) =>
            UsageAccounted(env, t, usage);
            TokenAccounted(env, ObserveUsage(t, usage));
        }
    }
  }

  lemma UsageAccounted(env: Env, t: Telemetry, u: Usage)
    requires Accounted(env, t)
    ensures Accounted(env, ObserveUsage(t, u))
  {
  }

  /** For every stream: once a token is seen exactly tokens - 1 gaps are reported, and
      time to first token plus the gaps is the time from the start to the last token. */
  lemma StreamIsAccounted(env: Env, s: Bytes)
    requires ForwardClock(env.clock)
    ensures Accounted(env, OneShot(env, s))
  {
    DispatchAccounted(env, ClosedBlocks(AllLines(s)) + [OpenBlock(AllLines(s))]);
  }
}
