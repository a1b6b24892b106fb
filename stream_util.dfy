/** The buffered copy loop of org.cooder.util.StreamUtil and the helpers built on it. */
module StreamUtil {
  import opened Streams

  const DEFAULT_BUFFER_SIZE: nat := 2048

  /** The length of the buffer a copy allocates for a requested `bufferSize`. */
  function EffectiveBufferSize(bufferSize: int): (n: nat)
    ensures n >= 1
    ensures bufferSize > 0 ==> n == bufferSize
    ensures bufferSize <= 0 ==> n == DEFAULT_BUFFER_SIZE
  {
    if bufferSize <= 0 then DEFAULT_BUFFER_SIZE else bufferSize
  }

  /** A copy from `source` to `dest` can complete: the source ends in end of stream rather than an
      IOException, and if there is anything to write, the destination is open and has room for it. */
  ghost predicate CopyFeasible<T>(source: Source<T>, dest: Sink<T>)
    reads source, dest
  {
    && !source.closed
    && !source.failsAtEnd
    && (source.remaining == [] || !dest.WriteFails(|source.remaining|))
  }

  /** The calls the copy loop makes on its destination: writes only, except that with
      `flushAfterPut` each single-element write is followed by a flush (unless the write is the
      last call, because it threw). */
  ghost predicate LoopCalls<T>(cs: seq<SinkCall<T>>, flushAfterPut: bool)
  {
    && (forall i :: 0 <= i < |cs| ==> IsWrite(cs[i]) || (flushAfterPut && cs[i].CallFlush?))
    && (forall i, j :: 0 <= i && j == i + 1 && j < |cs| && cs[j].CallFlush? ==> cs[i].CallWrite?)
    && (flushAfterPut ==> forall i, j :: 0 <= i && j == i + 1 && j < |cs| && cs[i].CallWrite? ==> cs[j].CallFlush?)
    && (forall i :: 0 <= i < |cs| && cs[i].CallFlush? ==> 0 < i)
  }

  /** The loop may write next unless it still owes a flush for a single-element write. */
  ghost predicate MayWrite<T>(cs: seq<SinkCall<T>>, flushAfterPut: bool)
  {
    flushAfterPut && cs != [] ==> !cs[|cs| - 1].CallWrite?
  }

  lemma LoopCallsWrite<T>(cs: seq<SinkCall<T>>, c: SinkCall<T>, flushAfterPut: bool)
    requires LoopCalls(cs, flushAfterPut) && MayWrite(cs, flushAfterPut) && IsWrite(c)
    ensures LoopCalls(cs + [c], flushAfterPut)
  {
    var all := cs + [c];
    forall i | 0 < i < |all| && all[i].CallFlush?
      ensures all[i - 1].CallWrite?
    {
      assert all[i] == cs[i];
      assert all[i - 1] == cs[i - 1];
    }
  }

  lemma LoopCallsFlush<T>(cs: seq<SinkCall<T>>)
    requires LoopCalls(cs, true) && cs != [] && cs[|cs| - 1].CallWrite?
    ensures LoopCalls(cs + [CallFlush], true) && MayWrite(cs + [CallFlush], true)
  {
    var all := cs + [CallFlush];
    forall i | 0 <= i < |all| - 1 && all[i].CallWrite?
      ensures all[i + 1].CallFlush?
    {
      if i < |cs| - 1 {
        assert all[i + 1] == cs[i + 1];
      }
    }
  }

  lemma LoopCallsThenFlush<T>(cs: seq<SinkCall<T>>, tail: seq<SinkCall<T>>)
    requires LoopCalls(cs, true)
    requires |tail| > 0 && tail[0].CallFlush? && forall i :: 0 <= i < |tail| ==> !tail[i].CallWrite?
    ensures PutsFlushed(cs + tail)
  {
    var all := cs + tail;
    forall i | 0 <= i < |cs| && all[i].CallWrite?
      ensures i + 1 < |all| && all[i + 1].CallFlush?
    {
      if i == |cs| - 1 {
        assert all[i + 1] == tail[0];
      } else {
        assert all[i + 1] == cs[i + 1];
      }
    }
  }

  lemma PrefixOfConcat<T>(a: seq<T>, b: seq<T>, c: seq<T>)
    requires b <= c
    ensures a + b <= a + c
  {
    assert (a + c)[..|a + b|] == a + c[..|b|];
  }

  lemma ConcatDropLast<T>(a: seq<T>, b: seq<T>)
    requires b != []
    ensures (a + b)[..|a + b| - 1] == a + b[..|b| - 1]
    ensures (a + b)[|a + b| - 1] == b[|b| - 1]
  {
  }

  lemma {:induction false} EmittedConcat<T>(a: seq<SinkCall<T>>, b: seq<SinkCall<T>>)
    ensures Emitted(a + b) == Emitted(a) + Emitted(b)
    decreases |b|
  {
    if b == [] {
      assert a + b == a;
    } else {
      var front, last := b[..|b| - 1], b[|b| - 1];
      EmittedConcat(a, front);
      ConcatDropLast(a, b);
      assert Emitted(a + b) == Emitted(a + front) + Handed(last);
      assert Emitted(b) == Emitted(front) + Handed(last);
    }
  }

  /** What one pass of the copy loop did, in values: it consumed from the source exactly the
      elements its calls `step` handed to the sink; the sink gained exactly those unless a call threw
      (`ok` false), and then at most those; what the sink holds fits unless nothing was added. */
  ghost predicate StepEffect<T>(rem0: seq<T>, rem1: seq<T>, written0: seq<T>, written1: seq<T>,
                                step: seq<SinkCall<T>>, ok: bool, destClosed: bool, capacity: Option<nat>)
  {
    StepValues(rem0, rem1, written0, written1, Emitted(step), ok, destClosed, capacity)
  }

  /** `StepEffect` for the elements `now` handed over. */
  ghost predicate StepValues<T>(rem0: seq<T>, rem1: seq<T>, written0: seq<T>, written1: seq<T>,
                                now: seq<T>, ok: bool, destClosed: bool, capacity: Option<nat>)
  {
    && rem0 == now + rem1
    && written0 <= written1 <= written0 + now
    && (ok ==> written1 == written0 + now)
    && (ok && now != [] ==> !destClosed && Fits(|written1|, capacity))
    && (written1 == written0 || Fits(|written1|, capacity))
  }

  /** `out.write(x)`, and with `flushAfterPut` a `flush()` once the write has succeeded. */
  method PutOne<T>(dest: Sink<T>, x: T, flushAfterPut: bool, ghost log: seq<SinkCall<T>>)
      returns (r: Outcome, ghost step: seq<SinkCall<T>>)
    requires LoopCalls(log, flushAfterPut) && MayWrite(log, flushAfterPut)
    modifies dest
    ensures dest.closed == old(dest.closed)
    ensures dest.calls == old(dest.calls) + step && LoopCalls(log + step, flushAfterPut)
    ensures Emitted(step) == [x]
    ensures dest.written == old(dest.written) || dest.written == old(dest.written) + [x]
    ensures dest.written != old(dest.written) ==> !dest.closed && Fits(|dest.written|, dest.capacity)
    ensures r.Completed? ==> dest.written == old(dest.written) + [x] && MayWrite(log + step, flushAfterPut)
    ensures r.IOFailure? ==>
              old(dest.WriteFails(1)) || (flushAfterPut && dest.flushFails)
  {
    r := dest.Put(x);
    LoopCallsWrite(log, CallWrite(x), flushAfterPut);
    step := [CallWrite(x)];
    assert Emitted(step) == [x] by { EmittedAppend([], CallWrite(x)); }
    if r.IOFailure? || !flushAfterPut {
      return;
    }
    r := dest.Flush();
    LoopCallsFlush(log + step);
    assert log + step + [CallFlush] == log + (step + [CallFlush]);
    EmittedAppend(step, CallFlush);
    step := step + [CallFlush];
  }

  /** The fallback after `read(buffer)` returned 0: `read()` one element; -1 ends the loop,
      otherwise the element goes to `PutOne`. */
  method PumpOne<T>(source: Source<T>, dest: Sink<T>, flushAfterPut: bool, ghost log: seq<SinkCall<T>>)
      returns (r: Outcome, more: bool, ghost step: seq<SinkCall<T>>)
    requires LoopCalls(log, flushAfterPut) && MayWrite(log, flushAfterPut)
    modifies source, dest
    ensures source.closed == old(source.closed) && dest.closed == old(dest.closed)
    ensures dest.calls == old(dest.calls) + step && LoopCalls(log + step, flushAfterPut)
    ensures StepEffect(old(source.remaining), source.remaining, old(dest.written), dest.written,
                       step, r.Completed?, dest.closed, dest.capacity)
    ensures more ==> r.Completed? && MayWrite(log + step, flushAfterPut)
    ensures more ==> |source.remaining| < |old(source.remaining)|
    ensures r.Completed? && !more ==> step == [] && source.remaining == [] && !source.closed && !source.failsAtEnd
    ensures r.IOFailure? ==> !more
    ensures r.IOFailure? ==>
              || old(source.ReadFails())
              || (Emitted(step) != [] && (old(dest.closed) || !Fits(|old(dest.written)| + |Emitted(step)|, dest.capacity)))
              || (flushAfterPut && dest.flushFails)
  {
    var b := source.Read();
    if b.Failure? {
      return IOFailure, false, [];
    }
    if b.value.None? {
      return Completed, false, [];
    }
    r, step := PutOne(dest, b.value.value, flushAfterPut, log);
    more := r.Completed?;
  }

  /** `out.write(buffer, 0, len)` for a positive count `len`. */
  method PutChunk<T>(dest: Sink<T>, buffer: array<T>, len: int, flushAfterPut: bool,
                     ghost log: seq<SinkCall<T>>)
      returns (r: Outcome, ghost step: seq<SinkCall<T>>)
    requires 0 < len <= buffer.Length
    requires LoopCalls(log, flushAfterPut) && MayWrite(log, flushAfterPut)
    modifies dest
    ensures dest.closed == old(dest.closed)
    ensures dest.calls == old(dest.calls) + step && LoopCalls(log + step, flushAfterPut)
    ensures Emitted(step) == buffer[..len]
    ensures r.Completed? ==> dest.written == old(dest.written) + buffer[..len] && !dest.closed
    ensures r.Completed? ==> Fits(|dest.written|, dest.capacity) && MayWrite(log + step, flushAfterPut)
    ensures r.IOFailure? ==> dest.written == old(dest.written) && old(dest.WriteFails(len))
  {
    ghost var chunk := buffer[..len];
    r := dest.PutAll(buffer, len);
    LoopCallsWrite(log, CallWriteChunk(chunk), flushAfterPut);
    step := [CallWriteChunk(chunk)];
    assert Emitted(step) == chunk by { EmittedAppend([], CallWriteChunk(chunk)); }
  }

  /** One pass of the body of the copy loop: read into `buffer`; a count of -1 ends the loop, a
      positive count n writes `buffer[0..n)`, and a count of 0 falls back to `PumpOne`.
      `more` says whether the loop goes round again; an IOException ends it with `IOFailure`. */
  method PumpStep<T>(source: Source<T>, dest: Sink<T>, buffer: array<T>, flushAfterPut: bool,
                     ghost log: seq<SinkCall<T>>)
      returns (r: Outcome, more: bool, ghost step: seq<SinkCall<T>>)
    requires LoopCalls(log, flushAfterPut) && MayWrite(log, flushAfterPut)
    modifies source, dest, buffer
    ensures source.closed == old(source.closed) && dest.closed == old(dest.closed)
    ensures dest.calls == old(dest.calls) + step && LoopCalls(log + step, flushAfterPut)
    ensures StepEffect(old(source.remaining), source.remaining, old(dest.written), dest.written,
                       step, r.Completed?, dest.closed, dest.capacity)
    ensures more ==> r.Completed? && MayWrite(log + step, flushAfterPut)
    ensures more ==> |source.remaining| < |old(source.remaining)|
    ensures r.Completed? && !more ==> step == [] && source.remaining == [] && !source.closed && !source.failsAtEnd
    ensures r.IOFailure? ==> !more
    ensures r.IOFailure? ==>
              || old(source.ReadFails())
              || (Emitted(step) != [] && (old(dest.closed) || !Fits(|old(dest.written)| + |Emitted(step)|, dest.capacity)))
              || (flushAfterPut && dest.flushFails)
  {
    var n := source.ReadInto(buffer);
    if n.Failure? {
      return IOFailure, false, [];
    }
    if n.value == -1 {
      return Completed, false, [];
    }
    if n.value == 0 {
      r, more, step := PumpOne(source, dest, flushAfterPut, log);
      return;
    }
    r, step := PutChunk(dest, buffer, n.value, flushAfterPut, log);
    assert old(source.remaining) == buffer[..n.value] + source.remaining;
    more := r.Completed?;
  }

  /** What the copy loop has achieved: the elements it handed to the sink are the start of the
      source `data`, the sink holds exactly them after its initial `w0` unless a write or flush
      threw (`ok` false), and everything the sink accepted fitted. */
  ghost predicate Progress<T>(data: seq<T>, w0: seq<T>, log: seq<SinkCall<T>>, remaining: seq<T>,
                              written: seq<T>, ok: bool, destClosed: bool, capacity: Option<nat>)
  {
    && data == Emitted(log) + remaining
    && w0 <= written <= w0 + Emitted(log)
    && (ok ==> written == w0 + Emitted(log))
    && (ok && Emitted(log) != [] ==> !destClosed && Fits(|written|, capacity))
    && (written == w0 || Fits(|written|, capacity))
  }

  lemma PrefixTransitive<T>(a: seq<T>, b: seq<T>, c: seq<T>)
    requires a <= b && b <= c
    ensures a <= c
  {
    assert c[..|a|] == b[..|a|];
  }

  /** `ProgressStep` on plain sequences: `before` is what the loop had handed over, `now` what
      this pass handed over. */
  lemma ProgressValues<T>(data: seq<T>, w0: seq<T>, before: seq<T>, now: seq<T>, rem0: seq<T>,
                          rem1: seq<T>, written0: seq<T>, written1: seq<T>, ok: bool,
                          destClosed: bool, capacity: Option<nat>)
    requires data == before + rem0 && written0 == w0 + before
    requires before != [] ==> !destClosed && Fits(|written0|, capacity)
    requires written0 == w0 || Fits(|written0|, capacity)
    requires StepValues(rem0, rem1, written0, written1, now, ok, destClosed, capacity)
    ensures data == (before + now) + rem1
    ensures w0 <= written1 <= w0 + (before + now)
    ensures ok ==> written1 == w0 + (before + now)
    ensures ok && before + now != [] ==> !destClosed && Fits(|written1|, capacity)
    ensures written1 == w0 || Fits(|written1|, capacity)
  {
    assert written0 + now == w0 + (before + now);
    PrefixOfConcat(written0, [], now);
    PrefixTransitive(w0, written0, written1);
  }

  lemma ProgressStep<T>(data: seq<T>, w0: seq<T>, log: seq<SinkCall<T>>, step: seq<SinkCall<T>>,
                        rem0: seq<T>, rem1: seq<T>, written0: seq<T>, written1: seq<T>, ok: bool,
                        destClosed: bool, capacity: Option<nat>)
    requires Progress(data, w0, log, rem0, written0, true, destClosed, capacity)
    requires StepEffect(rem0, rem1, written0, written1, step, ok, destClosed, capacity)
    ensures Progress(data, w0, log + step, rem1, written1, ok, destClosed, capacity)
  {
    EmittedConcat(log, step);
    ProgressValues(data, w0, Emitted(log), Emitted(step), rem0, rem1, written0, written1, ok,
                   destClosed, capacity);
  }

  /** A write that throws for lack of room or a closed sink shows that the whole copy could not fit. */
  lemma WriteFailureInfeasible<T>(data: seq<T>, w0: seq<T>, log: seq<SinkCall<T>>, step: seq<SinkCall<T>>,
                                  rem0: seq<T>, rem1: seq<T>, written0: seq<T>, destClosed: bool,
                                  capacity: Option<nat>)
    requires Progress(data, w0, log, rem0, written0, true, destClosed, capacity)
    requires rem0 == Emitted(step) + rem1
    requires Emitted(step) != [] && (destClosed || !Fits(|written0| + |Emitted(step)|, capacity))
    ensures data != [] && (destClosed || !Fits(|w0| + |data|, capacity))
  {
    assert |data| == |Emitted(log)| + |Emitted(step)| + |rem1|;
  }

  /** A loop that ends without an exception has copied all of `data`, which it can only do when
      the copy was feasible from the start. */
  lemma CompletionFeasible<T>(data: seq<T>, w0: seq<T>, log: seq<SinkCall<T>>, written: seq<T>,
                              destClosed: bool, capacity: Option<nat>)
    requires Progress(data, w0, log, [], written, true, destClosed, capacity)
    ensures written == w0 + data
    ensures data == [] || !(destClosed || !Fits(|w0| + |data|, capacity))
  {
    assert data == Emitted(log);
  }

  /** The `while` loop of `copyStream`: repeat the body until it ends the loop. Every pass either
      consumes at least one element of the source or ends the loop, so the loop terminates. */
  method Pump<T>(source: Source<T>, dest: Sink<T>, buffer: array<T>, flushAfterPut: bool)
      returns (r: Outcome, ghost log: seq<SinkCall<T>>)
    modifies source, dest, buffer
    ensures source.closed == old(source.closed) && dest.closed == old(dest.closed)
    ensures dest.calls == old(dest.calls) + log && LoopCalls(log, flushAfterPut)
    ensures old(source.remaining) == Emitted(log) + source.remaining
    ensures old(dest.written) <= dest.written <= old(dest.written) + Emitted(log)
    ensures dest.written == old(dest.written) || Fits(|dest.written|, dest.capacity)
    ensures r.Completed? ==> source.remaining == [] && dest.written == old(dest.written) + old(source.remaining)
    ensures r.Completed? ==> old(CopyFeasible(source, dest))
    ensures old(CopyFeasible(source, dest)) && !(flushAfterPut && dest.flushFails) ==> r.Completed?
  {
    ghost var data, w0, c0 := source.remaining, dest.written, dest.calls;
    ghost var feasible := CopyFeasible(source, dest);
    log := [];
    r := Completed;
    var reading := true;
    while reading
      invariant source.closed == old(source.closed) && dest.closed == old(dest.closed)
      invariant dest.calls == c0 + log && LoopCalls(log, flushAfterPut)
      invariant reading ==> r.Completed? && MayWrite(log, flushAfterPut)
      invariant Progress(data, w0, log, source.remaining, dest.written, r.Completed?, dest.closed, dest.capacity)
      invariant r.Completed? && !reading ==> source.remaining == [] && !source.closed && !source.failsAtEnd
      invariant r.IOFailure? ==> !reading && (!feasible || (flushAfterPut && dest.flushFails))
      decreases |source.remaining|, reading
    {
      ghost var rem0, written0 := source.remaining, dest.written;
      var more;
      ghost var step;
      r, more, step := PumpStep(source, dest, buffer, flushAfterPut, log);
      ProgressStep(data, w0, log, step, rem0, source.remaining, written0, dest.written, r.Completed?,
                   dest.closed, dest.capacity);
      if r.IOFailure? && Emitted(step) != [] && (dest.closed || !Fits(|written0| + |Emitted(step)|, dest.capacity)) {
        WriteFailureInfeasible(data, w0, log, step, rem0, source.remaining, written0, dest.closed, dest.capacity);
      }
      log := log + step;
      reading := more;
    }
    if r.Completed? {
      CompletionFeasible(data, w0, log, dest.written, dest.closed, dest.capacity);
    }
  }

  /** `copyStream(InputStream, OutputStream, int)`: the loop, then (on every path) flush the
      destination, close the source, close the destination, each ignoring its own IOException. */
  method CopyStream(source: InputStream, dest: OutputStream, bufferSize: int)
      returns (r: Outcome, ghost writes: seq<SinkCall<byte>>)
    modifies source, dest
    ensures source.closed && dest.closed && dest.flushed == !dest.flushFails
    ensures r.Completed? <==> old(CopyFeasible(source, dest))
    ensures r.Completed? ==> source.remaining == [] && dest.written == old(dest.written) + old(source.remaining)
    ensures old(dest.written) <= dest.written <= old(dest.written) + old(source.remaining)
    ensures dest.written == old(dest.written) || Fits(|dest.written|, dest.capacity)
    ensures dest.calls == old(dest.calls) + writes + [CallFlush, CallClose]
    ensures forall i :: 0 <= i < |writes| ==> IsWrite(writes[i])
    ensures Emitted(writes) <= old(source.remaining)
    ensures r.Completed? ==> Emitted(writes) == old(source.remaining)
  {
    var buffer := new byte[EffectiveBufferSize(bufferSize)];
    ghost var data, w0 := source.remaining, dest.written;
    r, writes := Pump(source, dest, buffer, false);
    PrefixOfConcat(w0, Emitted(writes), data);
    var ignored := dest.Flush();
    ignored := source.Close();
    ignored := dest.Close();
  }

  /** `copyStream(InputStream, OutputStream)`: the same with the default buffer size. */
  method CopyStreamDefault(source: InputStream, dest: OutputStream)
      returns (r: Outcome, ghost writes: seq<SinkCall<byte>>)
    modifies source, dest
    ensures source.closed && dest.closed && dest.flushed == !dest.flushFails
    ensures r.Completed? <==> old(CopyFeasible(source, dest))
    ensures r.Completed? ==> source.remaining == [] && dest.written == old(dest.written) + old(source.remaining)
    ensures old(dest.written) <= dest.written <= old(dest.written) + old(source.remaining)
    ensures dest.written == old(dest.written) || Fits(|dest.written|, dest.capacity)
    ensures dest.calls == old(dest.calls) + writes + [CallFlush, CallClose]
    ensures forall i :: 0 <= i < |writes| ==> IsWrite(writes[i])
    ensures Emitted(writes) <= old(source.remaining)
    ensures r.Completed? ==> Emitted(writes) == old(source.remaining)
  {
    r, writes := CopyStream(source, dest, DEFAULT_BUFFER_SIZE);
  }

  /** `copyStreamNoClose`: the same loop; afterwards only the destination is flushed and the source
      closed, and the destination stays as open as it was. */
  method CopyStreamNoClose(source: InputStream, dest: OutputStream, bufferSize: int)
      returns (r: Outcome, ghost writes: seq<SinkCall<byte>>)
    modifies source, dest
    ensures source.closed && dest.closed == old(dest.closed) && dest.flushed == !dest.flushFails
    ensures r.Completed? <==> old(CopyFeasible(source, dest))
    ensures r.Completed? ==> source.remaining == [] && dest.written == old(dest.written) + old(source.remaining)
    ensures old(dest.written) <= dest.written <= old(dest.written) + old(source.remaining)
    ensures dest.written == old(dest.written) || Fits(|dest.written|, dest.capacity)
    ensures dest.calls == old(dest.calls) + writes + [CallFlush]
    ensures forall i :: 0 <= i < |writes| ==> IsWrite(writes[i])
    ensures Emitted(writes) <= old(source.remaining)
    ensures r.Completed? ==> Emitted(writes) == old(source.remaining)
  {
    var buffer := new byte[EffectiveBufferSize(bufferSize)];
    ghost var data, w0 := source.remaining, dest.written;
    r, writes := Pump(source, dest, buffer, false);
    PrefixOfConcat(w0, Emitted(writes), data);
    var ignored := dest.Flush();
    ignored := source.Close();
  }

  /** `copyStream(Reader, Writer, int)`: as for byte streams, except that the writer is also flushed
      after every single-char write; a failure of that flush ends the copy with an IOException. */
  method CopyChars(reader: Reader, writer: Writer, bufferSize: int)
      returns (r: Outcome, ghost log: seq<SinkCall<char>>)
    modifies reader, writer
    ensures reader.closed && writer.closed && writer.flushed == !writer.flushFails
    ensures r.Completed? ==> old(CopyFeasible(reader, writer))
    ensures old(CopyFeasible(reader, writer)) && !writer.flushFails ==> r.Completed?
    ensures r.Completed? ==> reader.remaining == [] && writer.written == old(writer.written) + old(reader.remaining)
    ensures old(writer.written) <= writer.written <= old(writer.written) + old(reader.remaining)
    ensures writer.written == old(writer.written) || Fits(|writer.written|, writer.capacity)
    ensures writer.calls == old(writer.calls) + log + [CallFlush, CallClose]
    ensures forall i :: 0 <= i < |log| ==> IsWrite(log[i]) || log[i].CallFlush?
    ensures LoopCalls(log, true) && PutsFlushed(log + [CallFlush, CallClose])
    ensures Emitted(log) <= old(reader.remaining)
    ensures r.Completed? ==> Emitted(log) == old(reader.remaining)
  {
    var buffer := new char[EffectiveBufferSize(bufferSize)];
    ghost var data, w0 := reader.remaining, writer.written;
    r, log := Pump(reader, writer, buffer, true);
    PrefixOfConcat(w0, Emitted(log), data);
    LoopCallsThenFlush(log, [CallFlush, CallClose]);
    var ignored := writer.Flush();
    ignored := reader.Close();
    ignored := writer.Close();
  }

  /** `copyStream(Reader, Writer)`: the same with the default buffer size. */
  method CopyCharsDefault(reader: Reader, writer: Writer)
      returns (r: Outcome, ghost log: seq<SinkCall<char>>)
    modifies reader, writer
    ensures reader.closed && writer.closed && writer.flushed == !writer.flushFails
    ensures r.Completed? ==> old(CopyFeasible(reader, writer))
    ensures old(CopyFeasible(reader, writer)) && !writer.flushFails ==> r.Completed?
    ensures r.Completed? ==> reader.remaining == [] && writer.written == old(writer.written) + old(reader.remaining)
    ensures old(writer.written) <= writer.written <= old(writer.written) + old(reader.remaining)
    ensures writer.written == old(writer.written) || Fits(|writer.written|, writer.capacity)
    ensures writer.calls == old(writer.calls) + log + [CallFlush, CallClose]
    ensures forall i :: 0 <= i < |log| ==> IsWrite(log[i]) || log[i].CallFlush?
    ensures LoopCalls(log, true) && PutsFlushed(log + [CallFlush, CallClose])
    ensures Emitted(log) <= old(reader.remaining)
    ensures r.Completed? ==> Emitted(log) == old(reader.remaining)
  {
    r, log := CopyChars(reader, writer, DEFAULT_BUFFER_SIZE);
  }

  /** `writeToByteArray(InputStream, int)`: copy into a fresh in-memory stream and return its bytes. */
  method WriteToByteArray(input: InputStream, bufferSize: int) returns (r: Result<seq<byte>>)
    modifies input
    ensures input.closed
    ensures r.Ok? <==> !old(input.closed) && !input.failsAtEnd
    ensures r.Ok? ==> r.value == old(input.remaining) && input.remaining == []
  {
    var bytes := new Sink<byte>(None, false, false);
    var outcome, _ := CopyStream(input, bytes, bufferSize);
    if outcome.IOFailure? {
      return Failure;
    }
    r := Ok(bytes.written);
  }

  /** `writeToByteArray(InputStream)`: the same with the default buffer size. */
  method WriteToByteArrayDefault(input: InputStream) returns (r: Result<seq<byte>>)
    modifies input
    ensures input.closed
    ensures r.Ok? <==> !old(input.closed) && !input.failsAtEnd
    ensures r.Ok? ==> r.value == old(input.remaining) && input.remaining == []
  {
    r := WriteToByteArray(input, DEFAULT_BUFFER_SIZE);
  }

  /** `backupStream`: drain `source` and return a fresh in-memory stream over the same bytes. */
  method BackupStream(source: InputStream) returns (r: Result<InputStream>)
    modifies source
    ensures source.closed
    ensures r.Ok? <==> !old(source.closed) && !source.failsAtEnd
    ensures r.Ok? ==> fresh(r.value) && r.value.remaining == old(source.remaining)
    ensures r.Ok? ==> !r.value.closed && !r.value.failsAtEnd && !r.value.closeFails
  {
    var bytes := WriteToByteArrayDefault(source);
    if bytes.Failure? {
      return Failure;
    }
    var copy := new Source<byte>(bytes.value, false, false);
    r := Ok(copy);
  }

  /** `writeToString`: copy `reader` into a fresh in-memory writer and return its chars. */
  method WriteToString(reader: Reader) returns (r: Result<string>)
    modifies reader
    ensures reader.closed
    ensures r.Ok? <==> !old(reader.closed) && !reader.failsAtEnd
    ensures r.Ok? ==> r.value == old(reader.remaining) && reader.remaining == []
  {
    var writer := new Sink<char>(None, false, false);
    var outcome, _ := CopyCharsDefault(reader, writer);
    if outcome.IOFailure? {
      return Failure;
    }
    r := Ok(writer.written);
  }
}
