/** The event stream as section 9.2 of the WHATWG HTML standard reads it, and the streams on
    which the shim's simpler reading (cmd/shim/sse.go:190-270) agrees with it. */
module StandardReading {
  import opened EventStream
  import opened StreamEncoding

  const COLON: Byte := 58
  const DATA: Bytes := [100, 97, 116, 97]
  const BOM: Bytes := [239, 187, 191]

  // ---- The standard ------------------------------------------------------

  predicate EndsIn(s: Bytes, b: Byte) { s != [] && s[|s| - 1] == b }

  /** A line ends at a carriage return, a newline, or a pair of them. */
  function StandardLines(s: Bytes): seq<Bytes>
  {
    if s == [] then []
    else
      var init, b := s[..|s| - 1], s[|s| - 1];
      if b == CR || (b == LF && !EndsIn(init, CR)) then StandardLines(init) + [StandardTail(init)]
      else StandardLines(init)
  }

  function StandardTail(s: Bytes): Bytes
  {
    if s == [] || EndsIn(s, CR) || EndsIn(s, LF) then [] else StandardTail(s[..|s| - 1]) + [s[|s| - 1]]
  }

  /** Where the field name of a line ends. */
  function NameEnd(line: Bytes): nat
  {
    if line == [] || line[0] == COLON then 0 else 1 + NameEnd(line[1..])
  }

  lemma {:induction false} NameEndIsColon(line: Bytes)
    ensures NameEnd(line) <= |line|
    ensures COLON !in line[..NameEnd(line)]
    ensures NameEnd(line) < |line| ==> line[NameEnd(line)] == COLON
  {
    if line != [] && line[0] != COLON {
      NameEndIsColon(line[1..]);
      assert line[..NameEnd(line)] == [line[0]] + line[1..][..NameEnd(line[1..])];
    }
  }

  predicate HasName(line: Bytes, name: Bytes) { NameEnd(line) == |name| <= |line| && line[..NameEnd(line)] == name }

  function ValueOf(line: Bytes): Bytes
  {
    if NameEnd(line) >= |line| then []
    else
      var rest := line[NameEnd(line) + 1..];
      if rest != [] && rest[0] == SPACE then rest[1..] else rest
  }

  /** The data buffer after these lines: every value since the last empty line, each
      followed by a newline. */
  function Buffer(lines: seq<Bytes>): Bytes
  {
    if lines == [] then []
    else
      var init, line := lines[..|lines| - 1], lines[|lines| - 1];
      if line == [] then []
      else if HasName(line, DATA) then Buffer(init) + ValueOf(line) + [LF]
      else Buffer(init)
  }

  /** The events dispatched by these lines: the buffer without its last newline, unless
      there is none. */
  function ReadLines(env: Env, lines: seq<Bytes>): Telemetry
  {
    if lines == [] then BLANK
    else
      var init, line := lines[..|lines| - 1], lines[|lines| - 1];
      var t, data := ReadLines(env, init), Buffer(init);
      if line == [] && data != [] then Dispatch(env, t, data[..|data| - 1]) else t
  }

  /** What is pending at the end of the stream is discarded. */
  function Standard(env: Env, s: Bytes): Telemetry
  {
    ReadLines(env, StandardLines(if BOM <= s then s[|BOM|..] else s))
  }

  // ---- Lines agree -------------------------------------------------------

  /** Carriage returns occur in front of newlines only, except perhaps at the end. */
  ghost predicate Paired(s: Bytes) { forall i :: 0 <= i < |s| - 1 && s[i] == CR ==> s[i + 1] == LF }

  function WithoutCr(lines: seq<Bytes>): seq<Bytes>
  {
    if lines == [] then [] else WithoutCr(lines[..|lines| - 1]) + [TrimCr(lines[|lines| - 1])]
  }

  lemma WithoutCrSnoc(lines: seq<Bytes>, line: Bytes)
    ensures WithoutCr(lines + [line]) == WithoutCr(lines) + [TrimCr(line)]
  {
    assert (lines + [line])[..|lines|] == lines;
  }

  lemma {:induction false} LinesAgree(s: Bytes)
    requires Paired(s)
    ensures if EndsIn(s, CR) then StandardLines(s) == WithoutCr(Lines(s)) + [TrimCr(Tail(s))] && EndsIn(Tail(s), CR)
            else StandardLines(s) == WithoutCr(Lines(s)) && StandardTail(s) == Tail(s) && !EndsIn(Tail(s), CR)
  {
    if s != [] {
      var init, b := s[..|s| - 1], s[|s| - 1];
      assert EndsIn(init, CR) ==> s[|init| - 1] == CR;
      LinesAgree(init);
      if b == LF {
        WithoutCrSnoc(Lines(init), Tail(init));
      } else if b == CR {
        assert TrimCr(Tail(init) + [CR]) == Tail(init);
      }
    }
  }

  // ---- Fields agree ------------------------------------------------------

  /** A data field by the standard: with its colon, or the bare name. */
  lemma DataByName(line: Bytes)
    ensures HasName(line, DATA) <==> DATA_PREFIX <= line || line == DATA
    ensures DATA_PREFIX <= line ==> NameEnd(line) == |DATA|
  {
    NameEndIsColon(line);
    if DATA_PREFIX <= line {
      assert line[4] == COLON && forall k :: 0 <= k < 4 ==> line[k] == DATA_PREFIX[k] != COLON;
      assert line[..4] == DATA_PREFIX[..4] == DATA;
    }
    if HasName(line, DATA) && |line| > 4 {
      assert line[..5] == line[..4] + [line[4]];
      assert DATA + [COLON] == DATA_PREFIX;
    }
  }

  lemma ValuesAgree(line: Bytes)
    requires IsData(line)
    ensures ValueOf(TrimCr(line)) == PayloadOf(line)
  {
    DataByName(TrimCr(line));
  }

  // ---- Events agree ------------------------------------------------------

  /** No line, and no event's data, is over the cap. */
  ghost predicate WithinCaps(lines: seq<Bytes>)
  {
    forall n :: 0 <= n < |lines| ==> |lines[n]| <= 0x10_0000 && |Buffer(WithoutCr(lines[..n + 1]))| <= 0x10_0000
  }

  ghost predicate NoBareData(lines: seq<Bytes>)
  {
    forall n :: 0 <= n < |lines| ==> TrimCr(lines[n]) != DATA
  }

  /** The shim's data and the standard's buffer hold the same payload. */
  predicate Alike(c: Content, buffer: Bytes)
  {
    && c.Content?
    && if buffer == [] then c.data == []
       else |c.data| < |buffer| && EndsIn(buffer, LF) && TrimLeft(c.data) == TrimLeft(buffer[..|buffer| - 1])
  }

  lemma LineAlike(c: Content, buffer: Bytes, line: Bytes)
    requires Alike(c, buffer) && |line| <= MAX_LINE && IsData(line)
    requires |buffer + PayloadOf(line) + [LF]| <= MAX_LINE
    ensures Alike(Extended(c, line), buffer + PayloadOf(line) + [LF])
  {
    hide TrimLeft, IsData, PayloadOf;
    var v := PayloadOf(line);
    var longer := buffer + v + [LF];
    if buffer == [] {
      assert longer[..|longer| - 1] == v;
    } else {
      var before := buffer[..|buffer| - 1];
      JoinedAlike(c.data, before, v);
      JoinedIsNotLonger(c.data, v);
      assert longer[..|longer| - 1] == before + [LF] + v;
    }
  }

  lemma ReadSnoc(env: Env, lines: seq<Bytes>, line: Bytes)
    ensures ReadLines(env, lines + [line]) ==
            var t, data := ReadLines(env, lines), Buffer(lines);
            if line == [] && data != [] then Dispatch(env, t, data[..|data| - 1]) else t
    ensures Buffer(lines + [line]) ==
            if line == [] then []
            else if HasName(line, DATA) then Buffer(lines) + ValueOf(line) + [LF]
            else Buffer(lines)
  {
    assert (lines + [line])[..|lines|] == lines;
  }

  /** Dispatching the shim's data, or the standard's buffer. */
  lemma SameEvent(env: Env, t: Telemetry, c: Content, buffer: Bytes)
    requires Alike(c, buffer)
    ensures Dispatch(env, t, c.data) == if buffer == [] then t else Dispatch(env, t, buffer[..|buffer| - 1])
  {
    if buffer != [] {
      SameTrimSameDispatch(env, t, c.data, buffer[..|buffer| - 1]);
    }
  }

  lemma PrefixIsWithinCaps(lines: seq<Bytes>)
    requires WithinCaps(lines) && NoBareData(lines) && lines != []
    ensures WithinCaps(lines[..|lines| - 1]) && NoBareData(lines[..|lines| - 1])
  {
    hide Buffer, WithoutCr;
    var init := lines[..|lines| - 1];
    forall n | 0 <= n < |init|
      ensures |init[n]| <= MAX_LINE && |Buffer(WithoutCr(init[..n + 1]))| <= MAX_LINE && TrimCr(init[n]) != DATA
    {
      assert init[..n + 1] == lines[..n + 1] && init[n] == lines[n];
    }
  }

  lemma {:induction false} EventsAgree(env: Env, lines: seq<Bytes>)
    requires WithinCaps(lines) && NoBareData(lines)
    ensures DispatchAll(env, ClosedBlocks(lines)) == ReadLines(env, WithoutCr(lines))
    ensures Alike(ContentOf(OpenBlock(lines)), Buffer(WithoutCr(lines)))
  {
    hide Dispatch, DispatchAll, ClosedBlocks, OpenBlock, ContentOf, ReadLines, Buffer, HasName, ValueOf, Extended, Alike;
    hide WithoutCr, IsData;
    if lines == [] {
      NothingRead(env);
    } else {
      var init, line := lines[..|lines| - 1], lines[|lines| - 1];
      assert lines == init + [line] && lines[..|lines|] == lines;
      PrefixIsWithinCaps(lines);
      EventsAgree(env, init);
      WithoutCrSnoc(init, line);
      LineIsFramed(init, line);
      ReadSnoc(env, WithoutCr(init), TrimCr(line));
      if IsBlank(line) {
        BlockIsDispatched(env, ClosedBlocks(init), OpenBlock(init));
        BlankAlike(env, ContentOf(OpenBlock(init)), Buffer(WithoutCr(init)));
      } else {
        ContentGrows(OpenBlock(init), line);
        NextLineAlike(ContentOf(OpenBlock(init)), Buffer(WithoutCr(init)), line);
      }
    }
  }

  lemma NothingRead(env: Env)
    ensures DispatchAll(env, ClosedBlocks([])) == ReadLines(env, WithoutCr([]))
    ensures Alike(ContentOf(OpenBlock([])), Buffer(WithoutCr([])))
  {
  }

  lemma BlankAlike(env: Env, c: Content, buffer: Bytes)
    requires Alike(c, buffer)
    ensures Alike(ContentOf([]), []) && c.Content?
    ensures forall t :: Dispatch(env, t, c.data) == if buffer == [] then t else Dispatch(env, t, buffer[..|buffer| - 1])
  {
    forall t
      ensures Dispatch(env, t, c.data) == if buffer == [] then t else Dispatch(env, t, buffer[..|buffer| - 1])
    {
      SameEvent(env, t, c, buffer);
    }
  }

  lemma NextLineAlike(c: Content, buffer: Bytes, line: Bytes)
    requires Alike(c, buffer) && |line| <= MAX_LINE && TrimCr(line) != DATA
    requires HasName(TrimCr(line), DATA) ==> |buffer + ValueOf(TrimCr(line)) + [LF]| <= MAX_LINE
    ensures Alike(Extended(c, line),
                  if HasName(TrimCr(line), DATA) then buffer + ValueOf(TrimCr(line)) + [LF] else buffer)
  {
    DataByName(TrimCr(line));
    if IsData(line) {
      ValuesAgree(line);
      LineAlike(c, buffer, line);
    }
  }

  // ---- The readings agree ------------------------------------------------

  /** A stream of terminated lines that uses none of what the shim reads differently. */
  ghost predicate Conventional(s: Bytes)
  {
    && !(BOM <= s) && Paired(s) && Tail(s) == [] && !EndsIn(s, CR)
    && WithinCaps(Lines(s)) && NoBareData(Lines(s))
  }

  /** On every such stream the shim's reading is the standard's, and in addition the event
      pending at the end, if there is one. */
  lemma ReadingsAgree(env: Env, s: Bytes)
    requires Conventional(s)
    ensures var data := Buffer(StandardLines(s));
      OneShot(env, s) ==
        if data == [] then Standard(env, s) else Dispatch(env, Standard(env, s), data[..|data| - 1])
  {
    hide Dispatch, DispatchAll, ClosedBlocks, OpenBlock, ContentOf, ReadLines, Buffer, Lines, Tail, StandardLines;
    hide StandardTail, WithoutCr, Alike, WithinCaps, NoBareData;
    LinesAgree(s);
    EventsAgree(env, Lines(s));
    BlockIsDispatched(env, ClosedBlocks(Lines(s)), OpenBlock(Lines(s)));
    BlankAlike(env, ContentOf(OpenBlock(Lines(s))), Buffer(StandardLines(s)));
  }

  /** A stream that ends before the blank line: the shim sees the end marker, the standard
      does not. */
  lemma PendingEventIsExtra(env: Env)
    ensures var s := Terminated([DATA_PREFIX + [SPACE] + DONE]);
      Conventional(s) && OneShot(env, s).sawDone && !Standard(env, s).sawDone
  {
    var line := DATA_PREFIX + [SPACE] + DONE;
    var s := Terminated([line]);
    hide Dispatch, ReadLines, Buffer, Terminated, Lines, Tail, OneShot, StandardLines, WithoutCr, Paired, Conventional;
    MarkerStream(line);
    LinesComeBack([line]);
    MarkerBuffer(env, line);
    MarkerIsConventional(s, line);
    LinesAgree(s);
    ReadingsAgree(env, s);
  }

  lemma MarkerIsConventional(s: Bytes, line: Bytes)
    requires Lines(s) == [line] && Tail(s) == [] && !(BOM <= s) && Paired(s) && !EndsIn(s, CR)
    requires |line| < MAX_LINE && TrimCr(line) != DATA && |Buffer(WithoutCr([line]))| < MAX_LINE
    ensures Conventional(s)
  {
    hide Buffer, Lines, Tail, WithoutCr, Paired;
    assert [line][..1] == [line];
  }

  lemma MarkerStream(line: Bytes)
    requires line == DATA_PREFIX + [SPACE] + DONE
    ensures var s := Terminated([line]); s == line + [LF] && !(BOM <= s) && Paired(s) && !EndsIn(s, CR)
    ensures LF !in line && TrimCr(line) == line != DATA && |line| < MAX_LINE && line != []
  {
    assert [line][..0] == [];
    assert Terminated([line]) == line + [LF];
    assert (line + [LF])[0] != BOM[0];
  }

  lemma MarkerBuffer(env: Env, line: Bytes)
    requires line == DATA_PREFIX + [SPACE] + DONE && TrimCr(line) == line
    ensures WithoutCr([line]) == [line] && Buffer([line]) == DONE + [LF] && (DONE + [LF])[..|DONE|] == DONE
    ensures ReadLines(env, [line]) == BLANK && Dispatch(env, BLANK, DONE).sawDone
  {
    hide Dispatch, HasName, ValueOf;
    assert [] + [line] == [line];
    WithoutCrSnoc([], line);
    ReadSnoc(env, [], line);
    MarkerValue(line);
    MarkerIsDone(env);
  }

  lemma MarkerValue(line: Bytes)
    requires line == DATA_PREFIX + [SPACE] + DONE
    ensures HasName(line, DATA) && ValueOf(line) == DONE && line != []
  {
    DataByName(line);
    assert line[5..] == [SPACE] + DONE;
  }

  lemma MarkerIsDone(env: Env)
    ensures Dispatch(env, BLANK, DONE).sawDone
  {
    assert TrimLeft(DONE) == DONE && TrimRight(DONE) == DONE;
  }
}
