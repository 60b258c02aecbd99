/** The writer's side of a streamed response. A server encodes events as field lines,
    with either line ending, and the shim's reading of those bytes (cmd/shim/sse.go:
    239-303) gives back what the events carried. */
module StreamEncoding {
  import opened EventStream

  /** One line of an event: a data field, with or without a space before its value, or any
      other field or comment. */
  datatype Field = Data(value: Bytes, spaced: bool) | Other(text: Bytes)

  type Event = seq<Field>

  function Text(f: Field): Bytes
  {
    match f
    case Data(value, spaced) => DATA_PREFIX + (if spaced then [32] else []) + value
    case Other(text) => text
  }

  function Ending(crlf: bool): Bytes { if crlf then [13] else [] }

  function Line(f: Field, crlf: bool): Bytes { Text(f) + Ending(crlf) }

  /** The field has an encoding at all: it holds no newline, its line is within the cap,
      and nothing in it passes for a line ending, a blank line, a data line or the
      optional space. */
  predicate Encodable(f: Field, crlf: bool)
  {
    && Text(f) != [] && LF !in Text(f) && |Line(f, crlf)| <= 0x10_0000
    && (crlf || Text(f)[|Text(f)| - 1] != CR)
    && (f.Other? ==> !(DATA_PREFIX <= f.text))
    && (f.Data? && !f.spaced && f.value != [] ==> f.value[0] != SPACE)
  }

  function Values(ev: Event): seq<Bytes>
  {
    if ev == [] then []
    else
      var f := ev[|ev| - 1];
      Values(ev[..|ev| - 1]) + if f.Data? then [f.value] else []
  }

  /** The data of an event as the standard defines it: its values, newlines between. */
  function Payload(values: seq<Bytes>): Bytes
  {
    if values == [] then []
    else if |values| == 1 then values[0]
    else Payload(values[..|values| - 1]) + [LF] + values[|values| - 1]
  }

  predicate Fits(ev: Event, crlf: bool)
  {
    && (forall i :: 0 <= i < |ev| ==> Encodable(ev[i], crlf))
    && |Payload(Values(ev))| <= 0x10_0000
  }

  function EventLines(ev: Event, crlf: bool): seq<Bytes>
  {
    if ev == [] then [] else EventLines(ev[..|ev| - 1], crlf) + [Line(ev[|ev| - 1], crlf)]
  }

  /** Every event's lines, each event closed by an empty one. */
  function StreamLines(evs: seq<Event>, crlf: bool): seq<Bytes>
  {
    if evs == [] then []
    else StreamLines(evs[..|evs| - 1], crlf) + EventLines(evs[|evs| - 1], crlf) + [Ending(crlf)]
  }

  function Terminated(lines: seq<Bytes>): Bytes
  {
    if lines == [] then [] else Terminated(lines[..|lines| - 1]) + lines[|lines| - 1] + [10]
  }

  function Encode(evs: seq<Event>, crlf: bool): Bytes { Terminated(StreamLines(evs, crlf)) }

  /** What the events themselves add up to. */
  function Meaning(env: Env, evs: seq<Event>): Telemetry
  {
    if evs == [] then BLANK
    else Dispatch(env, Meaning(env, evs[..|evs| - 1]), Payload(Values(evs[|evs| - 1])))
  }

  // ---- Lines come back ---------------------------------------------------

  lemma NothingHasNoLines()
    ensures Lines([]) == [] && Tail([]) == []
  {
  }

  lemma TerminatedSnoc(lines: seq<Bytes>, line: Bytes)
    ensures Terminated([]) == [] && Terminated(lines + [line]) == Terminated(lines) + line + [LF]
  {
    assert (lines + [line])[..|lines|] == lines;
  }

  lemma {:induction false} LinesComeBack(lines: seq<Bytes>)
    requires forall i :: 0 <= i < |lines| ==> LF !in lines[i]
    ensures Lines(Terminated(lines)) == lines && Tail(Terminated(lines)) == []
  {
    hide Lines, Tail, Terminated;
    NothingHasNoLines();
    if lines == [] {
      TerminatedSnoc([], []);
    } else {
      var init, line := lines[..|lines| - 1], lines[|lines| - 1];
      LinesComeBack(init);
      TerminatedSnoc(init, line);
      GrowLine(Terminated(init), line);
      assert [] + line == line && init + [line] == lines;
    }
  }

  lemma {:induction false} EventLinesAreFields(ev: Event, crlf: bool)
    ensures |EventLines(ev, crlf)| == |ev|
    ensures forall i :: 0 <= i < |ev| ==> EventLines(ev, crlf)[i] == Line(ev[i], crlf)
  {
    if ev != [] {
      EventLinesAreFields(ev[..|ev| - 1], crlf);
    }
  }

  lemma {:induction false} NoLineHoldsANewline(evs: seq<Event>, crlf: bool)
    requires forall k :: 0 <= k < |evs| ==> Fits(evs[k], crlf)
    ensures forall i :: 0 <= i < |StreamLines(evs, crlf)| ==> LF !in StreamLines(evs, crlf)[i]
  {
    if evs != [] {
      var last := evs[|evs| - 1];
      NoLineHoldsANewline(evs[..|evs| - 1], crlf);
      EventLinesAreFields(last, crlf);
      assert Fits(last, crlf);
      forall i | 0 <= i < |last| ensures LF !in EventLines(last, crlf)[i] {
        assert Encodable(last[i], crlf);
      }
    }
  }

  // ---- Fields come back --------------------------------------------------

  lemma FieldComesBack(f: Field, crlf: bool)
    requires Encodable(f, crlf)
    ensures TrimCr(Line(f, crlf)) == Text(f) && !IsBlank(Line(f, crlf))
    ensures IsData(Line(f, crlf)) <==> f.Data?
    ensures f.Data? ==> PayloadOf(Line(f, crlf)) == f.value
  {
    assert TrimCr(Line(f, crlf)) == Text(f);
    if f.Data? {
      assert Text(f)[|DATA_PREFIX|..] == (if f.spaced then [SPACE] else []) + f.value;
    }
  }

  /** White space: tab, newline, vertical tab, form feed, carriage return and space. */
  ghost predicate Blank(s: Bytes) { forall i :: 0 <= i < |s| ==> 9 <= s[i] <= 13 || s[i] == 32 }

  predicate Visible(b: Byte) { !(9 <= b <= 13 || b == 32) }

  lemma {:induction false} TrimLeftIsExact(s: Bytes) returns (n: int)
    ensures 0 <= n <= |s| && Blank(s[..n]) && TrimLeft(s) == s[n..]
    ensures n < |s| ==> Visible(s[n])
  {
    if s != [] && IsSpace(s[0]) {
      var m := TrimLeftIsExact(s[1..]);
      n := m + 1;
      assert s[1..][m..] == s[n..];
      assert forall i :: 0 < i < n ==> s[i] == s[1..][..m][i - 1];
    } else {
      n := 0;
    }
  }

  lemma {:induction false} TrimRightIsExact(s: Bytes) returns (n: int)
    ensures 0 <= n <= |s| && Blank(s[n..]) && TrimRight(s) == s[..n]
    ensures n > 0 ==> Visible(s[n - 1])
  {
    var last := |s| - 1;
    if s != [] && IsSpace(s[last]) {
      n := TrimRightIsExact(s[..last]);
      assert s[..last][..n] == s[..n];
      assert forall i :: n <= i < last ==> s[i] == s[..last][n..][i - n];
    } else {
      n := |s|;
    }
  }

  /** Trimming takes white space off both ends, all of it and nothing else. */
  lemma TrimIsExact(s: Bytes) returns (a: int, b: int)
    ensures 0 <= a <= b <= |s| && TrimSpace(s) == s[a..b] && Blank(s[..a]) && Blank(s[b..])
    ensures a < b ==> Visible(s[a]) && Visible(s[b - 1])
  {
    hide TrimLeft, TrimRight, Blank;
    a := TrimLeftIsExact(s);
    var n := TrimRightIsExact(s[a..]);
    b := a + n;
    assert s[a..][n..] == s[b..] && s[a..][..n] == s[a..b];
  }

  lemma {:induction false} TrimLeftOfAppend(s: Bytes, t: Bytes)
    ensures TrimLeft(s + t) == if TrimLeft(s) == [] then TrimLeft(t) else TrimLeft(s) + t
  {
    if s == [] {
      assert s + t == t;
    } else {
      assert (s + t)[1..] == s[1..] + t;
      TrimLeftOfAppend(s[1..], t);
    }
  }

  lemma JoinedAlike(data: Bytes, payload: Bytes, value: Bytes)
    requires TrimLeft(data) == TrimLeft(payload)
    ensures TrimLeft(Joined(data, value)) == TrimLeft(payload + [LF] + value)
  {
    var more := [LF] + value;
    assert more[1..] == value;
    TrimLeftOfAppend(payload, more);
    TrimLeftOfAppend(data, more);
    assert payload + [LF] + value == payload + more && data + [LF] + value == data + more;
  }

  /** The shim writes no newline before the first non-empty value, so its data can lack
      the newlines that the standard's starts with: no trimmed payload shows it. */
  lemma {:induction false} PayloadComesBack(ev: Event, crlf: bool)
    requires Fits(ev, crlf)
    ensures var c := ContentOf(EventLines(ev, crlf));
      && c.Content?
      && TrimLeft(c.data) == TrimLeft(Payload(Values(ev)))
      && |c.data| <= |Payload(Values(ev))|
  {
    hide TrimCr, IsData, PayloadOf, TrimLeft, Text, Line, Values, Payload, ContentOf, Joined;
    NothingComesBack(crlf);
    if ev != [] {
      var init, f := ev[..|ev| - 1], ev[|ev| - 1];
      FieldComesBack(f, crlf);
      ContentGrows(EventLines(init, crlf), Line(f, crlf));
      FieldIsAppended(init, f);
      assert ev == init + [f];
      PayloadComesBack(init, crlf);
      if f.Data? {
        DataLineIsLonger(f, crlf);
        JoinedIsNotLonger(ContentOf(EventLines(init, crlf)).data, f.value);
        JoinedAlike(ContentOf(EventLines(init, crlf)).data, Payload(Values(init)), f.value);
      }
    }
  }

  lemma NothingComesBack(crlf: bool)
    ensures ContentOf(EventLines([], crlf)) == Content([]) && Values([]) == [] && Payload([]) == []
  {
  }

  lemma ContentGrows(block: seq<Bytes>, line: Bytes)
    ensures ContentOf(block + [line]) == Extended(ContentOf(block), line)
  {
    assert (block + [line])[..|block|] == block;
  }

  lemma JoinedIsNotLonger(data: Bytes, value: Bytes)
    ensures |Joined(data, value)| <= |data| + 1 + |value|
    ensures data == [] ==> Joined(data, value) == value
  {
  }

  lemma DataLineIsLonger(f: Field, crlf: bool)
    requires f.Data?
    ensures |Line(f, crlf)| > |f.value|
  {
  }

  lemma FieldIsAppended(ev: Event, f: Field)
    ensures Values(ev + [f]) == if f.Data? then Values(ev) + [f.value] else Values(ev)
    ensures Payload(Values(ev + [f])) ==
            if f.Other? then Payload(Values(ev))
            else if Values(ev) == [] then f.value
            else Payload(Values(ev)) + [LF] + f.value
  {
    assert (ev + [f])[..|ev|] == ev;
    if f.Data? {
      assert (Values(ev) + [f.value])[..|Values(ev)|] == Values(ev);
    }
  }

  // ---- Events come back --------------------------------------------------

  lemma LineIsFramed(lines: seq<Bytes>, line: Bytes)
    ensures OpenBlock(lines + [line]) == if IsBlank(line) then [] else OpenBlock(lines) + [line]
    ensures ClosedBlocks(lines + [line]) ==
            if IsBlank(line) then ClosedBlocks(lines) + [OpenBlock(lines)] else ClosedBlocks(lines)
  {
    assert (lines + [line])[..|lines|] == lines;
  }

  lemma {:induction false} EventComesBack(lines: seq<Bytes>, ev: Event, crlf: bool)
    requires OpenBlock(lines) == [] && forall i :: 0 <= i < |ev| ==> Encodable(ev[i], crlf)
    ensures OpenBlock(lines + EventLines(ev, crlf)) == EventLines(ev, crlf)
    ensures ClosedBlocks(lines + EventLines(ev, crlf)) == ClosedBlocks(lines)
  {
    hide IsBlank, Line, Encodable, OpenBlock, ClosedBlocks;
    if ev == [] {
      assert lines + [] == lines;
    } else {
      var init, f := ev[..|ev| - 1], ev[|ev| - 1];
      EventComesBack(lines, init, crlf);
      FieldComesBack(f, crlf);
      LineIsFramed(lines + EventLines(init, crlf), Line(f, crlf));
      assert lines + EventLines(ev, crlf) == lines + EventLines(init, crlf) + [Line(f, crlf)];
    }
  }

  lemma {:induction false} EventsComeBack(env: Env, evs: seq<Event>, crlf: bool)
    requires forall k :: 0 <= k < |evs| ==> Fits(evs[k], crlf)
    ensures OpenBlock(StreamLines(evs, crlf)) == []
    ensures DispatchAll(env, ClosedBlocks(StreamLines(evs, crlf))) == Meaning(env, evs)
  {
    hide Dispatch, Encodable, ContentOf, IsBlank, Payload, TrimLeft, OpenBlock, ClosedBlocks, EventLines, DispatchAll;
    if evs == [] {
      NothingIsFramed(env);
    } else {
      var init, last := evs[..|evs| - 1], evs[|evs| - 1];
      var lines := StreamLines(init, crlf);
      assert Fits(last, crlf);
      EventsComeBack(env, init, crlf);
      EventComesBack(lines, last, crlf);
      EndingIsBlank(crlf);
      LineIsFramed(lines + EventLines(last, crlf), Ending(crlf));
      BlockIsDispatched(env, ClosedBlocks(lines), EventLines(last, crlf));
      PayloadComesBack(last, crlf);
      SameTrimSameDispatch(env, Meaning(env, init), ContentOf(EventLines(last, crlf)).data, Payload(Values(last)));
    }
  }

  lemma NothingIsFramed(env: Env)
    ensures OpenBlock([]) == [] && ClosedBlocks([]) == [] && DispatchAll(env, []) == BLANK
  {
  }

  lemma BlockIsDispatched(env: Env, blocks: seq<seq<Bytes>>, block: seq<Bytes>)
    ensures DispatchAll(env, blocks + [block]) == DispatchBlock(env, DispatchAll(env, blocks), block)
  {
    assert (blocks + [block])[..|blocks|] == blocks;
  }

  lemma EndingIsBlank(crlf: bool)
    ensures IsBlank(Ending(crlf))
  {
  }

  lemma SameTrimSameDispatch(env: Env, t: Telemetry, a: Bytes, b: Bytes)
    requires TrimLeft(a) == TrimLeft(b)
    ensures Dispatch(env, t, a) == Dispatch(env, t, b)
  {
  }

  /** Reading what was written: for every sequence of events, with either line ending,
      the telemetry is that of the events' own data. */
  lemma EncodedStreamIsUnderstood(env: Env, evs: seq<Event>, crlf: bool)
    requires forall k :: 0 <= k < |evs| ==> Fits(evs[k], crlf)
    ensures OneShot(env, Encode(evs, crlf)) == Meaning(env, evs)
  {
    hide Fits, Dispatch, DispatchAll, DispatchBlock, Lines, Tail, OpenBlock, ClosedBlocks, StreamLines, Terminated;
    NoLineHoldsANewline(evs, crlf);
    LinesComeBack(StreamLines(evs, crlf));
    EventsComeBack(env, evs, crlf);
    BlockIsDispatched(env, ClosedBlocks(StreamLines(evs, crlf)), []);
    NothingToDispatch(env, Meaning(env, evs));
  }

  lemma NothingToDispatch(env: Env, t: Telemetry)
    ensures DispatchBlock(env, t, []) == t
  {
  }

  /** An event still open when the stream ends counts like any other, where the standard
      would discard it. */
  lemma OpenEventIsUnderstood(env: Env, evs: seq<Event>, last: Event, crlf: bool)
    requires Fits(last, crlf) && forall k :: 0 <= k < |evs| ==> Fits(evs[k], crlf)
    ensures OneShot(env, Encode(evs, crlf) + Terminated(EventLines(last, crlf))) == Meaning(env, evs + [last])
  {
    hide Encodable, Dispatch, DispatchAll, Lines, Tail, OpenBlock, ClosedBlocks, StreamLines, EventLines;
    hide Terminated, ContentOf, TrimLeft, Payload;
    var closed, open := StreamLines(evs, crlf), EventLines(last, crlf);
    NoLineHoldsANewline(evs, crlf);
    NoLineHoldsANewline([last], crlf);
    OneEventStream(last, crlf);
    TerminatedAppend(closed, open);
    LinesComeBack(closed + open);
    EventsComeBack(env, evs, crlf);
    EventComesBack(closed, last, crlf);
    BlockIsDispatched(env, ClosedBlocks(closed), open);
    PayloadComesBack(last, crlf);
    SameTrimSameDispatch(env, Meaning(env, evs), ContentOf(open).data, Payload(Values(last)));
    assert (evs + [last])[..|evs|] == evs;
  }

  lemma OneEventStream(ev: Event, crlf: bool)
    ensures EventLines(ev, crlf) <= StreamLines([ev], crlf)
  {
    assert [ev][..0] == [];
    assert StreamLines([], crlf) + EventLines(ev, crlf) == EventLines(ev, crlf);
  }

  lemma {:induction false} TerminatedAppend(a: seq<Bytes>, b: seq<Bytes>)
    ensures Terminated(a + b) == Terminated(a) + Terminated(b)
  {
    if b == [] {
      assert a + b == a;
    } else {
      assert (a + b)[..|a + b| - 1] == a + b[..|b| - 1];
      TerminatedAppend(a, b[..|b| - 1]);
    }
  }

  // ---- Where a stream may end --------------------------------------------

  /** The last newline of a stream is optional. */
  lemma LastNewlineIsOptional(env: Env, s: Bytes)
    ensures OneShot(env, s) == OneShot(env, s + [LF])
  {
    hide DispatchAll, DispatchBlock, Lines, Tail, OpenBlock, ClosedBlocks, IsBlank;
    assert s + [] + [LF] == s + [LF] && Tail(s) + [] == Tail(s);
    GrowLine(s, []);
    if Tail(s) == [] {
      var lines := Lines(s);
      EndingIsBlank(false);
      LineIsFramed(lines, []);
      BlockIsDispatched(env, ClosedBlocks(lines) + [OpenBlock(lines)], []);
      NothingToDispatch(env, DispatchAll(env, ClosedBlocks(lines) + [OpenBlock(lines)]));
    }
  }

  /** So an event cut off right before it counts like any other. */
  lemma CutEventIsUnderstood(env: Env, evs: seq<Event>, last: Event, crlf: bool)
    requires Fits(last, crlf) && last != [] && forall k :: 0 <= k < |evs| ==> Fits(evs[k], crlf)
    ensures var w := Terminated(EventLines(last, crlf));
      |w| > 0 && OneShot(env, Encode(evs, crlf) + w[..|w| - 1]) == Meaning(env, evs + [last])
  {
    hide OneShot, Fits, Meaning;
    var w := Terminated(EventLines(last, crlf));
    var cut := Encode(evs, crlf) + w[..|w| - 1];
    assert cut + [LF] == Encode(evs, crlf) + w;
    LastNewlineIsOptional(env, cut);
    OpenEventIsUnderstood(env, evs, last, crlf);
  }

  /** A line over the cap takes its event with it, even as the last of a stream and without
      a newline. */
  lemma LongLineDropsItsEvent(env: Env, evs: seq<Event>, last: Event, long: Bytes, crlf: bool)
    requires Fits(last, crlf) && forall k :: 0 <= k < |evs| ==> Fits(evs[k], crlf)
    requires LF !in long && |long| > 0x10_0000
    ensures OneShot(env, Encode(evs, crlf) + Terminated(EventLines(last, crlf)) + long) == Meaning(env, evs)
  {
    hide Encodable, Dispatch, DispatchAll, Lines, Tail, OpenBlock, ClosedBlocks, StreamLines, EventLines;
    hide Terminated, ContentOf, Payload;
    var closed, open := StreamLines(evs, crlf), EventLines(last, crlf);
    NoLineHoldsANewline(evs, crlf);
    NoLineHoldsANewline([last], crlf);
    OneEventStream(last, crlf);
    TerminatedAppend(closed, open);
    LinesComeBack(closed + open);
    GrowTail(Terminated(closed + open), long);
    assert [] + long == long;
    EventsComeBack(env, evs, crlf);
    EventComesBack(closed, last, crlf);
    LineIsFramed(closed + open, long);
    ContentGrows(open, long);
    BlockIsDispatched(env, ClosedBlocks(closed), open + [long]);
  }

  // ---- What is counted ---------------------------------------------------

  function Trimmed(ev: Event): Bytes { TrimSpace(Payload(Values(ev))) }

  predicate IsDone(ev: Event) { Trimmed(ev) == [91, 68, 79, 78, 69, 93] }

  predicate IsFrame(env: Env, ev: Event)
  {
    Trimmed(ev) != [] && !IsDone(ev) && env.decode(Trimmed(ev)).Frame?
  }

  predicate CarriesToken(env: Env, ev: Event) { IsFrame(env, ev) && env.decode(Trimmed(ev)).hasToken }

  predicate ReportsUsage(env: Env, ev: Event)
  {
    && IsFrame(env, ev) && env.decode(Trimmed(ev)).usage.Usage?
    && env.decode(Trimmed(ev)).usage.completionTokens >= 0
  }

  function TokenEvents(env: Env, evs: seq<Event>): set<int>
  {
    set k | 0 <= k < |evs| && CarriesToken(env, evs[k])
  }

  lemma NoTokenEvents(env: Env)
    ensures TokenEvents(env, []) == {}
  {
  }

  lemma OneMoreTokenEvent(env: Env, evs: seq<Event>)
    requires evs != []
    ensures |TokenEvents(env, evs)| ==
            |TokenEvents(env, evs[..|evs| - 1])| + if CarriesToken(env, evs[|evs| - 1]) then 1 else 0
  {
    hide CarriesToken;
    var n := |evs| - 1;
    var earlier := TokenEvents(env, evs[..n]);
    assert TokenEvents(env, evs) == if CarriesToken(env, evs[n]) then earlier + {n} else earlier;
  }

  /** The position of the last event that reports usage, -1 if there is none. */
  ghost predicate LastReport(env: Env, evs: seq<Event>, k: int)
  {
    && -1 <= k < |evs|
    && (k >= 0 ==> ReportsUsage(env, evs[k]))
    && forall j :: k < j < |evs| ==> !ReportsUsage(env, evs[j])
  }

  /** One token per event that carries one, done iff some event says so, and the usage
      last reported. */
  lemma {:induction false} WhatIsCounted(env: Env, evs: seq<Event>, last: int)
    requires LastReport(env, evs, last)
    ensures var t := Meaning(env, evs);
      && t.tokens == |TokenEvents(env, evs)|
      && (t.sawDone <==> exists k :: 0 <= k < |evs| && IsDone(evs[k]))
      && (t.hasUsage <==> last >= 0)
      && (last >= 0 ==> t.reportedTokens == env.decode(Trimmed(evs[last])).usage.completionTokens)
  {
    hide Dispatch, Trimmed, CarriesToken, IsDone, ReportsUsage;
    hide TokenEvents;
    NoTokenEvents(env);
    if evs != [] {
      var n := |evs| - 1;
      var init := evs[..n];
      if last < n {
        WhatIsCounted(env, init, last);
      } else {
        WhatIsCounted(env, init, LastReportOf(env, init));
      }
      OneMoreTokenEvent(env, evs);
      OneEvent(env, Meaning(env, init), evs[n]);
    }
  }

  lemma OneEvent(env: Env, t: Telemetry, ev: Event)
    ensures var u := Dispatch(env, t, Payload(Values(ev)));
      && u.tokens == t.tokens + (if CarriesToken(env, ev) then 1 else 0)
      && u.sawDone == (t.sawDone || IsDone(ev))
      && u.hasUsage == (t.hasUsage || ReportsUsage(env, ev))
      && u.reportedTokens ==
         if ReportsUsage(env, ev) then env.decode(Trimmed(ev)).usage.completionTokens else t.reportedTokens
  {
    hide TrimSpace, Payload, Values;
  }

  ghost function LastReportOf(env: Env, evs: seq<Event>): (k: int)
    ensures LastReport(env, evs, k)
  {
    if evs == [] then -1
    else if ReportsUsage(env, evs[|evs| - 1]) then |evs| - 1
    else LastReportOf(env, evs[..|evs| - 1])
  }
}
