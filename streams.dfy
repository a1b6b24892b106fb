/** Abstract java.io streams: a source of elements that is read into a buffer or one element at a
    time, and a sink that accepts writes, flushes and closes. Bytes and chars share one model. */
module Streams {

  newtype byte = b: int | 0 <= b < 256

  datatype Option<T> = None | Some(value: T)

  /** How a call that `throws IOException` ends. */
  datatype Outcome = Completed | IOFailure

  /** How a call that returns a value or `throws IOException` ends. */
  datatype Result<T> = Ok(value: T) | Failure

  /** True when a sink that can hold `capacity` elements (None: unbounded) can hold `n`. */
  predicate Fits(n: nat, capacity: Option<nat>)
  {
    capacity.None? || n <= capacity.value
  }

  /** One call made on a sink: `write(int)`, `write(buf, 0, len)`, `flush()` or `close()`. */
  datatype SinkCall<T> = CallWrite(element: T) | CallWriteChunk(elements: seq<T>) | CallFlush | CallClose

  predicate IsWrite<T>(c: SinkCall<T>)
  {
    c.CallWrite? || c.CallWriteChunk?
  }

  /** The elements a call hands to the sink. */
  function Handed<T>(c: SinkCall<T>): seq<T>
  {
    match c
    case CallWrite(x) => [x]
    case CallWriteChunk(xs) => xs
    case _ => []
  }

  /** The elements handed to a sink by a run of calls, in order. */
  function Emitted<T>(cs: seq<SinkCall<T>>): seq<T>
  {
    if cs == [] then [] else Emitted(cs[..|cs| - 1]) + Handed(cs[|cs| - 1])
  }

  lemma EmittedAppend<T>(cs: seq<SinkCall<T>>, c: SinkCall<T>)
    ensures Emitted(cs + [c]) == Emitted(cs) + Handed(c)
  {
    assert (cs + [c])[..|cs|] == cs;
  }

  /** Every single-element write in `cs` is immediately followed by a flush. */
  ghost predicate PutsFlushed<T>(cs: seq<SinkCall<T>>)
  {
    && (cs != [] ==> !cs[|cs| - 1].CallWrite?)
    && forall i, j :: 0 <= i && j == i + 1 && j < |cs| && cs[i].CallWrite? ==> cs[j].CallFlush?
  }

  /** A readable stream: the elements still to be delivered, and what happens after the last one. */
  class Source<T> {
    var remaining: seq<T>
    var closed: bool
    /** Once `remaining` is exhausted, reads throw instead of reporting end of stream. */
    const failsAtEnd: bool
    /** `close()` releases the stream but then throws. */
    const closeFails: bool

    constructor (data: seq<T>, failsAtEnd: bool, closeFails: bool)
      ensures remaining == data && !closed
      ensures this.failsAtEnd == failsAtEnd && this.closeFails == closeFails
    {
      remaining := data;
      closed := false;
      this.failsAtEnd := failsAtEnd;
      this.closeFails := closeFails;
    }

    /** True when the next read throws. */
    predicate ReadFails()
      reads this
    {
      closed || (remaining == [] && failsAtEnd)
    }

    /** `read(buffer)`: -1 only at end of stream; otherwise some count n, possibly 0, of elements
        copied into `buffer[0..n)`. */
    method ReadInto(buffer: array<T>) returns (r: Result<int>)
      modifies this, buffer
      ensures closed == old(closed)
      ensures r.Failure? <==> old(ReadFails())
      ensures r.Ok? ==> -1 <= r.value <= buffer.Length && r.value <= |old(remaining)|
      ensures r == Ok(-1) ==> old(remaining) == []
      ensures r.Ok? && r.value >= 0 ==>
                buffer[..r.value] == old(remaining)[..r.value] && remaining == old(remaining)[r.value..]
      ensures !(r.Ok? && r.value >= 0) ==> remaining == old(remaining)
    {
      if ReadFails() {
        return Failure;
      }
      var n: int :| -1 <= n <= buffer.Length && n <= |remaining| && (n == -1 ==> remaining == []);
      if n > 0 {
        forall i | 0 <= i < n {
          buffer[i] := remaining[i];
        }
        remaining := remaining[n..];
      }
      r := Ok(n);
    }

    /** `read()`: the next element, or None (the -1 of java.io) at end of stream. */
    method Read() returns (r: Result<Option<T>>)
      modifies this
      ensures closed == old(closed)
      ensures r.Failure? <==> old(ReadFails())
      ensures r == Ok(None) <==> !old(ReadFails()) && old(remaining) == []
      ensures r.Ok? && r.value.Some? ==>
                old(remaining) != [] && r.value.value == old(remaining)[0] && remaining == old(remaining)[1..]
      ensures !(r.Ok? && r.value.Some?) ==> remaining == old(remaining)
    {
      if ReadFails() {
        return Failure;
      }
      if remaining == [] {
        return Ok(None);
      }
      r := Ok(Some(remaining[0]));
      remaining := remaining[1..];
    }

    method Close() returns (r: Outcome)
      modifies this
      ensures closed && remaining == old(remaining)
      ensures r.IOFailure? <==> closeFails
    {
      closed := true;
      r := if closeFails then IOFailure else Completed;
    }
  }

  /** A writable stream: what it has accepted, whether everything accepted has been flushed,
      and the log of every call made on it. */
  class Sink<T> {
    var written: seq<T>
    var flushed: bool
    var closed: bool
    var calls: seq<SinkCall<T>>
    /** Writes that would take `written` beyond this length throw (a full device). */
    const capacity: Option<nat>
    const flushFails: bool
    /** `close()` releases the stream but then throws. */
    const closeFails: bool

    constructor (capacity: Option<nat>, flushFails: bool, closeFails: bool)
      ensures written == [] && flushed && !closed && calls == []
      ensures this.capacity == capacity && this.flushFails == flushFails && this.closeFails == closeFails
    {
      written := [];
      flushed := true;
      closed := false;
      calls := [];
      this.capacity := capacity;
      this.flushFails := flushFails;
      this.closeFails := closeFails;
    }

    /** True when writing `n` more elements throws. */
    predicate WriteFails(n: nat)
      reads this
    {
      closed || !Fits(|written| + n, capacity)
    }

    /** `write(int)`: one element. */
    method Put(x: T) returns (r: Outcome)
      modifies this
      ensures closed == old(closed) && calls == old(calls) + [CallWrite(x)]
      ensures r.IOFailure? <==> old(WriteFails(1))
      ensures r.Completed? ==> written == old(written) + [x] && !flushed
      ensures r.IOFailure? ==> written == old(written) && flushed == old(flushed)
    {
      calls := calls + [CallWrite(x)];
      if WriteFails(1) {
        return IOFailure;
      }
      written := written + [x];
      flushed := false;
      r := Completed;
    }

    /** `write(buffer, 0, len)`: the first `len` elements of `buffer`. */
    method PutAll(buffer: array<T>, len: int) returns (r: Outcome)
      requires 0 <= len <= buffer.Length
      modifies this
      ensures closed == old(closed) && calls == old(calls) + [CallWriteChunk(buffer[..len])]
      ensures r.IOFailure? <==> old(WriteFails(len))
      ensures r.Completed? ==> written == old(written) + buffer[..len] && !flushed
      ensures r.IOFailure? ==> written == old(written) && flushed == old(flushed)
    {
      calls := calls + [CallWriteChunk(buffer[..len])];
      if WriteFails(len) {
        return IOFailure;
      }
      written := written + buffer[..len];
      flushed := false;
      r := Completed;
    }

    method Flush() returns (r: Outcome)
      modifies this
      ensures closed == old(closed) && written == old(written) && calls == old(calls) + [CallFlush]
      ensures flushed == !flushFails
      ensures r.IOFailure? <==> flushFails
    {
      calls := calls + [CallFlush];
      flushed := !flushFails;
      r := if flushFails then IOFailure else Completed;
    }

    method Close() returns (r: Outcome)
      modifies this
      ensures closed && written == old(written) && flushed == old(flushed) && calls == old(calls) + [CallClose]
      ensures r.IOFailure? <==> closeFails
    {
      calls := calls + [CallClose];
      closed := true;
      r := if closeFails then IOFailure else Completed;
    }
  }

  type InputStream = Source<byte>
  type OutputStream = Sink<byte>
  type Reader = Source<char>
  type Writer = Sink<char>
}
