/** The incremental observer of a streamed response (cmd/shim/sse.go:129-303): bytes
    arrive in arbitrary reads, lines and events are reassembled under a memory cap, and
    the telemetry is that of the one-shot reading, however the reads were cut. */
module StreamObserver {
  import opened EventStream

  /** How a read from upstream ended. */
  datatype ReadEnd = More | Eof | Broken

  // ---- The framing invariant ---------------------------------------------

  /** The event buffer after exactly these lines. */
  ghost predicate Framed(env: Env, lines: seq<Bytes>, data: Bytes, drop: bool, t: Telemetry)
  {
    && t == DispatchAll(env, ClosedBlocks(lines))
    && |data| <= MAX_LINE
    && (drop <==> ContentOf(OpenBlock(lines)) == Dropped)
    && (!drop ==> ContentOf(OpenBlock(lines)) == Content(data))
  }

  lemma FrameBlank(env: Env, lines: seq<Bytes>, data: Bytes, drop: bool, t: Telemetry, line: Bytes)
    requires Framed(env, lines, data, drop, t) && IsBlank(line)
    ensures Framed(env, lines + [line], [], false, if drop then t else Dispatch(env, t, data))
  {
  }

  lemma FrameLine(env: Env, lines: seq<Bytes>, data: Bytes, drop: bool, t: Telemetry, line: Bytes, data': Bytes, drop': bool)
    requires Framed(env, lines, data, drop, t) && !IsBlank(line) && |data'| <= MAX_LINE
    requires Extended(if drop then Dropped else Content(data), line) == if drop' then Dropped else Content(data')
    ensures Framed(env, lines + [line], data', drop', t)
  {
  }

  lemma NothingFramed(env: Env)
    ensures Framed(env, [], [], false, BLANK)
  {
  }

  // ---- The observer ------------------------------------------------------

  class Observer {
    const env: Env

    var buf: Bytes
    var overlong: bool
    var data: Bytes
    var dropEvent: bool
    var finished: bool
    var readErr: bool
    var state: Telemetry

    /** Every byte that came from upstream so far. */
    ghost var seen: Bytes

    /** The line buffer after exactly the bytes of `s`. */
    ghost predicate Buffered(s: Bytes)
      reads this
    {
      overlong == (|Tail(s)| > MAX_LINE) && buf == if overlong then [] else Tail(s)
    }

    ghost predicate Valid()
      reads this
    {
      && |buf| <= MAX_LINE && |data| <= MAX_LINE
      && (if finished then state == OneShot(env, seen)
          else Buffered(seen) && Framed(env, Lines(seen), data, dropEvent, state))
    }

    constructor (env: Env)
      ensures Valid() && this.env == env && seen == [] && !finished
    {
      this.env := env;
      buf, overlong, data, dropEvent, finished, readErr := [], false, [], false, false, false;
      state := BLANK;
      seen := [];
      new;
      NothingFramed(env);
    }

    /** Read: what upstream returned passes through unchanged. No bytes follow the end
        of the stream. */
    method Read(chunk: Bytes, end: ReadEnd) returns (passed: Bytes, passedEnd: ReadEnd)
      requires Valid() && (finished ==> chunk == [])
      modifies this
      ensures Valid() && passed == chunk && passedEnd == end
      ensures seen == old(seen) + chunk
      ensures finished == (old(finished) || end == Eof)
      ensures readErr == (old(readErr) || end == Broken)
      ensures finished ==> state == OneShot(env, seen)
    {
      hide OneShot, Framed, Lines, Tail;
      if |chunk| > 0 {
        Scan(chunk);
      } else {
        assert seen + chunk == seen;
      }
      if end == Eof && !finished {
        Finish();
      }
      if end == Broken {
        readErr := true;
      }
      return chunk, end;
    }

    /** The end-of-stream branch of Read: flush the unterminated line and event. */
    method Finish()
      requires Valid() && !finished
      modifies this
      ensures Valid() && finished && seen == old(seen) && readErr == old(readErr)
    {
      hide Framed, Lines, Tail, ContentOf, Dispatch, IsBlank, OpenBlock, ClosedBlocks, DispatchAll;
      finished := true;
      if overlong {
        LongIsNotBlank(Tail(seen));
        FrameLine(env, Lines(seen), data, dropEvent, state, Tail(seen), data, true);
        dropEvent := true;
      }
      if !overlong && |buf| > 0 {
        HandleLine(buf, Lines(seen));
      }
      buf := [];
      assert Framed(env, AllLines(seen), data, dropEvent, state);
      FlushMeaning(env, AllLines(seen), data, dropEvent, state);
      if !dropEvent && |data| > 0 {
        HandleEvent(data);
      }
      data := [];
      dropEvent := false;
    }

    /** scan: split off complete lines, keep the rest. */
    method Scan(chunk: Bytes)
      requires Valid() && !finished
      modifies this`buf, this`overlong, this`data, this`dropEvent, this`state, this`seen
      ensures Valid() && seen == old(seen) + chunk
    {
      hide Framed, Lines, Tail;
      var rest := chunk;
      while |rest| > 0
        invariant Valid()
        invariant seen + rest == old(seen) + chunk
        decreases |rest|
      {
        var idx := IndexOfNewline(rest);
        if idx < 0 {
          AppendPartial(rest);
          assert seen + [] == seen;
          return;
        }
        var line := rest[..idx];
        assert rest == line + [LF] + rest[idx + 1..];
        TakeLine(line);
        rest := rest[idx + 1..];
      }
      assert seen + [] == seen;
    }

    static method IndexOfNewline(s: Bytes) returns (idx: int)
      ensures -1 <= idx < |s|
      ensures idx < 0 ==> LF !in s
      ensures idx >= 0 ==> s[idx] == LF && LF !in s[..idx]
    {
      for i := 0 to |s|
        invariant LF !in s[..i]
      {
        if s[i] == LF {
          return i;
        }
      }
      return -1;
    }

    /** The body of scan's loop once a newline was found. */
    method TakeLine(line: Bytes)
      requires Valid() && !finished && LF !in line
      modifies this`buf, this`overlong, this`data, this`dropEvent, this`state, this`seen
      ensures Valid() && seen == old(seen) + line + [LF]
    {
      hide Framed, Lines, Tail, ContentOf, Dispatch, IsBlank, OpenBlock, ClosedBlocks, DispatchAll;
      ghost var whole := Tail(seen) + line;
      ghost var lines := Lines(seen);
      GrowLine(seen, line);
      seen := seen + line + [LF];
      if overlong || |buf| + |line| > MAX_LINE {
        LongIsNotBlank(whole);
        FrameLine(env, lines, data, dropEvent, state, whole, data, true);
        overlong := false;
        buf := [];
        dropEvent := true;
      } else {
        assert buf + line == whole;
        HandleLine(buf + line, lines);
        buf := [];
      }
    }

    method AppendPartial(chunk: Bytes)
      requires Valid() && !finished && LF !in chunk
      modifies this`buf, this`overlong, this`seen
      ensures Valid() && seen == old(seen) + chunk
    {
      hide Framed, Lines, Tail;
      GrowTail(seen, chunk);
      seen := seen + chunk;
      if overlong {
        return;
      }
      if |buf| + |chunk| > MAX_LINE {
        overlong := true;
        buf := [];
        return;
      }
      buf := buf + chunk;
    }

    /** handleLine, on the line that follows `lines`. */
    method HandleLine(line: Bytes, ghost lines: seq<Bytes>)
      requires |line| <= MAX_LINE && Framed(env, lines, data, dropEvent, state)
      modifies this`data, this`dropEvent, this`state
      ensures Framed(env, lines + [line], data, dropEvent, state) && |data| <= MAX_LINE
    {
      hide ContentOf, Dispatch, OpenBlock, ClosedBlocks, DispatchAll;
      var trimmed := TrimCr(line);
      if |trimmed| == 0 {
        FrameBlank(env, lines, data, dropEvent, state, line);
        if !dropEvent {
          HandleEvent(data);
        }
        data := [];
        dropEvent := false;
        return;
      }
      ghost var data0, drop0 := data, dropEvent;
      if IsData(line) && !dropEvent {
        var payload := PayloadOf(line);
        if |data| + |payload| + 1 > MAX_LINE {
          dropEvent := true;
          data := [];
        } else {
          data := Joined(data, payload);
        }
      }
      FrameLine(env, lines, data0, drop0, state, line, data, dropEvent);
    }

    /** handleEvent. */
    method HandleEvent(payload: Bytes)
      modifies this`state
      ensures state == Dispatch(env, old(state), payload)
    {
      var p := TrimSpace(payload);
      if |p| == 0 {
        return;
      }
      if p == DONE {
        state := state.(sawDone := true);
        return;
      }
      var frame := env.decode(p);
      if frame.Malformed? {
        return;
      }
      if frame.usage.Usage? && frame.usage.completionTokens >= 0 {
        state := state.(reportedTokens := frame.usage.completionTokens, hasUsage := true);
      }
      if !frame.hasToken {
        return;
      }
      var now := env.clock(state.tokens);
      if !state.sawFirstToken {
        state := state.(sawFirstToken := true, ttft := now - env.start);
      } else if env.sink {
        state := state.(gaps := state.gaps + [if now < state.lastContent then 0 else now - state.lastContent]);
      }
      state := state.(lastContent := now, tokens := state.tokens + 1);
    }
  }

  lemma LongIsNotBlank(line: Bytes)
    ensures |line| > MAX_LINE ==> !IsBlank(line)
  {
  }

  /** Dispatching what is pending at the end of the stream completes the one-shot
      reading; with nothing pending there is nothing to dispatch. */
  lemma FlushMeaning(env: Env, lines: seq<Bytes>, data: Bytes, drop: bool, t: Telemetry)
    requires Framed(env, lines, data, drop, t)
    ensures DispatchAll(env, ClosedBlocks(lines) + [OpenBlock(lines)]) ==
            if !drop && |data| > 0 then Dispatch(env, t, data) else t
  {
  }

  /** The stream the given reads add up to. */
  function Flatten(chunks: seq<Bytes>): Bytes
  {
    if chunks == [] then [] else Flatten(chunks[..|chunks| - 1]) + chunks[|chunks| - 1]
  }

  /** A whole response, read in the given pieces: the telemetry depends only on the
      bytes, never on how they were cut into reads. */
  method ObserveAll(env: Env, chunks: seq<Bytes>) returns (t: Telemetry)
    ensures t == OneShot(env, Flatten(chunks))
    ensures ForwardClock(env.clock) ==> Accounted(env, t)
  {
    hide OneShot, Framed, Accounted;
    var o := new Observer(env);
    for i := 0 to |chunks|
      invariant o.Valid() && !o.finished && o.env == env && o.seen == Flatten(chunks[..i])
    {
      assert chunks[..i + 1][..i] == chunks[..i];
      var _, _ := o.Read(chunks[i], More);
    }
    assert chunks[..|chunks|] == chunks;
    var _, _ := o.Read([], Eof);
    assert o.seen == Flatten(chunks);
    if ForwardClock(env.clock) {
      StreamIsAccounted(env, o.seen);
    }
    return o.state;
  }
}
