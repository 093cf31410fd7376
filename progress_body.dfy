/**
  The progress-counting request body of ProgressRequestBody.java.

  A ProgressRequestBody decorates an outbound body: content type and
  length are passed through, and writeTo routes the bytes through a
  ProgressSink, which forwards every write to its delegate sink, adds the
  byte count to a running total and reports (total, contentLength) to the
  listener. The buffered sink built on the first writeTo is cached in a
  field and reused by every later writeTo.

  The wrapped body is a value; the delegate sink, the listener, the
  ProgressSink and the cached buffered sink are objects, as in the source.
 */
module ProgressBody {
  import opened Wrappers

  type byte = x: int | 0 <= x < 256

  datatype MediaType = MediaType(text: string)

  /** What the wrapped body's contentLength() does: return a length (-1 meaning unknown) or throw IOException. */
  datatype LengthQuery = Length(n: int) | LengthThrows

  /** The wrapped okhttp3.RequestBody: its content type, its length query and the bytes its writeTo produces. */
  datatype Body = Body(contentType: Option<MediaType>, length: LengthQuery, payload: seq<byte>)

  /** Why a write to a sink throws: an IOException, or a byte count outside the source buffer. */
  datatype SinkError = IOFailure | CountOutOfRange

  /** A sink call either returns normally or throws. */
  datatype Outcome = Done | Threw(error: SinkError)

  /** One ProgressListener.onProgress(byteWrite, contentLength) call. */
  datatype Report = Report(written: int, total: int)

  // ---------------------------------------------------------------------------
  // Specification functions
  // ---------------------------------------------------------------------------

  /** The bytes carried by a sequence of writes, in order. */
  function Concat(chunks: seq<seq<byte>>): seq<byte>
  {
    if chunks == [] then [] else Concat(chunks[..|chunks| - 1]) + chunks[|chunks| - 1]
  }

  /** The byte count of each write. */
  function Sizes(chunks: seq<seq<byte>>): seq<int>
  {
    if chunks == [] then [] else Sizes(chunks[..|chunks| - 1]) + [|chunks[|chunks| - 1]|]
  }

  function Sum(ns: seq<int>): int
  {
    if ns == [] then 0 else Sum(ns[..|ns| - 1]) + ns[|ns| - 1]
  }

  /**
    The onProgress calls made by a ProgressSink whose counter stands at
    `start` when writes of the given byte counts go through it: one per
    write, carrying the counter after that write.
   */
  function Reports(start: int, sizes: seq<int>, total: int): seq<Report>
  {
    if sizes == [] then [] else Reports(start, sizes[..|sizes| - 1], total) + [Report(start + Sum(sizes), total)]
  }

  ghost predicate NonNegative(ns: seq<int>)
  {
    forall i | 0 <= i < |ns| :: ns[i] >= 0
  }

  ghost predicate Positive(ns: seq<int>)
  {
    forall i | 0 <= i < |ns| :: ns[i] > 0
  }

  // ---------------------------------------------------------------------------
  // Lemmas about the reports and the bytes
  // ---------------------------------------------------------------------------

  /** The writes' byte counts add up to the number of bytes they carry. */
  lemma {:induction false} SumSizes(chunks: seq<seq<byte>>)
    ensures |Sizes(chunks)| == |chunks|
    ensures Sum(Sizes(chunks)) == |Concat(chunks)|
  {
    if chunks != [] {
      SumSizes(chunks[..|chunks| - 1]);
    }
  }

  /** Appending one write appends its bytes. */
  lemma ConcatSnoc(chunks: seq<seq<byte>>, i: nat)
    requires i < |chunks|
    ensures Concat(chunks[..i + 1]) == Concat(chunks[..i]) + chunks[i]
  {
    assert chunks[..i + 1][..i] == chunks[..i];
  }

  /** Appending one write appends its count. */
  lemma SizesSnoc(chunks: seq<seq<byte>>, i: nat)
    requires i < |chunks|
    ensures Sizes(chunks[..i + 1]) == Sizes(chunks[..i]) + [|chunks[i]|]
  {
    assert chunks[..i + 1][..i] == chunks[..i];
  }

  /**
    One more write of a pass, as the delegate, the counter and the
    listener see it: each gains what the next write contributes.
   */
  lemma PassSnoc(chunks: seq<seq<byte>>, i: nat, before: seq<byte>, start: int, logged: seq<Report>, total: int,
                 got: seq<byte>, counter: int, log: seq<Report>)
    requires i < |chunks|
    requires got == before + Concat(chunks[..i])
    requires counter == start + Sum(Sizes(chunks[..i]))
    requires log == logged + Reports(start, Sizes(chunks[..i]), total)
    ensures got + chunks[i][..|chunks[i]|] == before + Concat(chunks[..i + 1])
    ensures counter + |chunks[i]| == start + Sum(Sizes(chunks[..i + 1]))
    ensures log + [Report(counter + |chunks[i]|, total)] == logged + Reports(start, Sizes(chunks[..i + 1]), total)
  {
    assert chunks[i][..|chunks[i]|] == chunks[i];
    ConcatSnoc(chunks, i);
    SizesSnoc(chunks, i);
    ReportsSnoc(start, Sizes(chunks[..i]), |chunks[i]|, total);
  }

  /** Appending one write appends one report, carrying the new total. */
  lemma ReportsSnoc(start: int, sizes: seq<int>, n: int, total: int)
    ensures Sum(sizes + [n]) == Sum(sizes) + n
    ensures Reports(start, sizes + [n], total) == Reports(start, sizes, total) + [Report(start + Sum(sizes) + n, total)]
  {
    assert (sizes + [n])[..|sizes|] == sizes;
  }

  /**
    There is exactly one report per write; the k-th carries the counter
    after the first k + 1 writes, and every report carries the same total.
   */
  lemma {:induction false} ReportsAt(start: int, sizes: seq<int>, total: int, k: nat)
    requires k < |sizes|
    ensures |Reports(start, sizes, total)| == |sizes|
    ensures Reports(start, sizes, total)[k] == Report(start + Sum(sizes[..k + 1]), total)
  {
    var n := |sizes|;
    if k == n - 1 {
      assert sizes[..k + 1] == sizes;
      if n > 1 {
        ReportsAt(start, sizes[..n - 1], total, 0);
      }
    } else {
      ReportsAt(start, sizes[..n - 1], total, k);
      assert sizes[..n - 1][..k + 1] == sizes[..k + 1];
    }
  }

  /**
    With writes of non-negative size (the only ones a sink accepts), the
    reported totals never decrease, and none exceeds the final counter.
   */
  lemma {:induction false} ReportsNondecreasing(start: int, sizes: seq<int>, total: int)
    requires NonNegative(sizes)
    ensures var r := Reports(start, sizes, total);
      |r| == |sizes| &&
      (forall i | 0 <= i < |r| :: r[i].written <= start + Sum(sizes)) &&
      (forall i, j | 0 <= i <= j < |r| :: r[i].written <= r[j].written)
  {
    if sizes != [] {
      var init := sizes[..|sizes| - 1];
      ReportsNondecreasing(start, init, total);
    }
  }

  /** With writes of positive size, the reported totals strictly increase. */
  lemma {:induction false} ReportsIncreasing(start: int, sizes: seq<int>, total: int)
    requires Positive(sizes)
    ensures var r := Reports(start, sizes, total);
      |r| == |sizes| &&
      (forall i | 0 <= i < |r| :: r[i].written <= start + Sum(sizes)) &&
      (forall i, j | 0 <= i < j < |r| :: r[i].written < r[j].written)
  {
    if sizes != [] {
      var init := sizes[..|sizes| - 1];
      ReportsIncreasing(start, init, total);
    }
  }

  /**
    A complete pass over a body through a fresh ProgressSink: the last
    report carries exactly the number of bytes the body produced, and all
    reports carry the same content length.
   */
  lemma LastReportIsPayloadSize(chunks: seq<seq<byte>>, total: int)
    requires chunks != []
    ensures var r := Reports(0, Sizes(chunks), total);
      |r| == |chunks| && r[|r| - 1] == Report(|Concat(chunks)|, total)
  {
    SumSizes(chunks);
    ReportsAt(0, Sizes(chunks), total, |chunks| - 1);
    assert Sizes(chunks)[..|chunks|] == Sizes(chunks);
  }

  // ---------------------------------------------------------------------------
  // The collaborators: the delegate sink and the listener
  // ---------------------------------------------------------------------------

  /** The sink handed to writeTo (the connection's sink), as the bytes it has received. */
  class ByteSink {
    var bytes: seq<byte>
    /** A broken sink throws IOException on every write and flush. */
    const failing: bool

    constructor (failing: bool)
      ensures bytes == [] && this.failing == failing
    {
      bytes := [];
      this.failing := failing;
    }

    /** Sink.write(source, byteCount): takes the first byteCount bytes of source. */
    method Write(source: seq<byte>, byteCount: int) returns (out: Outcome)
      modifies this
      ensures out == (if !(0 <= byteCount <= |source|) then Threw(CountOutOfRange)
                      else if failing then Threw(IOFailure) else Done)
      ensures out.Done? ==> bytes == old(bytes) + source[..byteCount]
      ensures out.Threw? ==> bytes == old(bytes)
    {
      if !(0 <= byteCount <= |source|) {
        out := Threw(CountOutOfRange);
      } else if failing {
        out := Threw(IOFailure);
      } else {
        bytes := bytes + source[..byteCount];
        out := Done;
      }
    }

    method Flush() returns (out: Outcome)
      ensures out == (if failing then Threw(IOFailure) else Done)
    {
      out := if failing then Threw(IOFailure) else Done;
    }
  }

  /** A ProgressListener, as the log of the onProgress calls it has received. */
  class ProgressListener {
    var reports: seq<Report>

    constructor ()
      ensures reports == []
    {
      reports := [];
    }

    method OnProgress(byteWrite: int, contentLength: int)
      modifies this
      ensures reports == old(reports) + [Report(byteWrite, contentLength)]
    {
      reports := reports + [Report(byteWrite, contentLength)];
    }
  }

  // ---------------------------------------------------------------------------
  // ProgressRequestBody and its inner ProgressSink
  // ---------------------------------------------------------------------------

  class ProgressRequestBody {
    /** mBody and mListener: set by the constructor, never reassigned. */
    const body: Body
    const listener: ProgressListener?
    /** mProgressSink: rebuilt by every writeTo. */
    var progressSink: ProgressSink?
    /** mBufferedSink: built by the first writeTo, then reused. */
    var bufferedSink: BufferedSink?

    ghost predicate Valid()
      reads this
    {
      bufferedSink != null ==> bufferedSink.sink.outer == this
    }

    /** The objects the cached buffered sink writes into. */
    ghost function Receivers(): set<object>
      reads this
    {
      if bufferedSink == null then {} else {bufferedSink.sink, bufferedSink.sink.delegate}
    }

    constructor (body: Body, listener: ProgressListener?)
      ensures Valid()
      ensures this.body == body && this.listener == listener
      ensures progressSink == null && bufferedSink == null
    {
      this.body := body;
      this.listener := listener;
      progressSink := null;
      bufferedSink := null;
    }

    /** contentType(): the wrapped body's content type, unchanged. */
    function ContentType(): (t: Option<MediaType>)
      ensures t == body.contentType
    {
      body.contentType
    }

    /** contentLength(): the wrapped body's length, or -1 when asking for it throws IOException. */
    function ContentLength(): (n: int)
      ensures body.length.Length? ==> n == body.length.n
      ensures body.length.LengthThrows? ==> n == -1
    {
      match body.length
      case Length(n) => n
      case LengthThrows => -1
    }

    /**
      writeTo(sink): builds a new ProgressSink around `sink`, builds the
      buffered sink only if none is cached yet, then lets the wrapped body
      write into the buffered sink and flushes it. `chunks` are the writes
      the buffered sink passes down; how Okio segments the body is left
      open, only their concatenation is fixed.

      On the first call the bytes reach `sink` and are counted from 0. On a
      later call they reach the sink of the FIRST call and are counted on
      from that call's total; the new ProgressSink and `sink` stay unused.
     */
    method WriteTo(sink: ByteSink, chunks: seq<seq<byte>>) returns (out: Outcome)
      requires Valid()
      requires Concat(chunks) == body.payload
      modifies this, sink, listener, Receivers()
      ensures Valid()
      ensures fresh(progressSink) && progressSink.outer == this && progressSink.delegate == sink
      ensures old(bufferedSink) == null ==> fresh(bufferedSink) && bufferedSink.sink == progressSink
      ensures old(bufferedSink) != null ==> bufferedSink == old(bufferedSink)
      ensures out == (if bufferedSink.sink.delegate.failing then Threw(IOFailure) else Done)
      // first call: the bytes go to `sink`, counted from 0
      ensures old(bufferedSink) == null && out.Done? ==>
        && sink.bytes == old(sink.bytes) + body.payload
        && progressSink.byteWrite == |body.payload|
        && (listener != null ==> listener.reports == old(listener.reports) + Reports(0, Sizes(chunks), ContentLength()))
      // later calls: the bytes go to the first call's sink, counted on from its total
      ensures old(bufferedSink) != null && out.Done? ==>
        var first := old(bufferedSink.sink);
        && first.delegate.bytes == old(first.delegate.bytes) + body.payload
        && first.byteWrite == old(first.byteWrite) + |body.payload|
        && (listener != null ==> listener.reports == old(listener.reports) + Reports(old(first.byteWrite), Sizes(chunks), ContentLength()))
        && progressSink.byteWrite == 0
        && (sink != first.delegate ==> sink.bytes == old(sink.bytes))
      // a failing sink: nothing is delivered, counted or reported
      ensures out.Threw? ==>
        && sink.bytes == old(sink.bytes)
        && (old(bufferedSink) == null ==> progressSink.byteWrite == 0)
        && (old(bufferedSink) != null ==>
              && old(bufferedSink.sink).byteWrite == old(bufferedSink.sink.byteWrite)
              && old(bufferedSink.sink.delegate).bytes == old(bufferedSink.sink.delegate.bytes))
        && (listener != null ==> listener.reports == old(listener.reports))
    {
      progressSink := new ProgressSink(this, sink);
      if bufferedSink == null {
        bufferedSink := new BufferedSink(progressSink);
      }
      out := bufferedSink.WriteAllAndFlush(chunks);
    }

    /**
      writeTo as evidently intended: the buffered sink is rebuilt around
      the new ProgressSink on every call, so the bytes reach the sink this
      call was given and are counted from 0.
     */
    method WriteToFresh(sink: ByteSink, chunks: seq<seq<byte>>) returns (out: Outcome)
      requires Valid()
      requires Concat(chunks) == body.payload
      modifies this, sink, listener
      ensures Valid()
      ensures fresh(progressSink) && fresh(bufferedSink) && bufferedSink.sink == progressSink
      ensures progressSink.outer == this && progressSink.delegate == sink
      ensures out == (if sink.failing then Threw(IOFailure) else Done)
      ensures out.Done? ==>
        && sink.bytes == old(sink.bytes) + body.payload
        && progressSink.byteWrite == |body.payload|
        && (listener != null ==> listener.reports == old(listener.reports) + Reports(0, Sizes(chunks), ContentLength()))
      ensures out.Threw? ==>
        && sink.bytes == old(sink.bytes)
        && progressSink.byteWrite == 0
        && (listener != null ==> listener.reports == old(listener.reports))
    {
      progressSink := new ProgressSink(this, sink);
      bufferedSink := new BufferedSink(progressSink);
      out := bufferedSink.WriteAllAndFlush(chunks);
    }
  }

  /** The inner class ProgressSink: a forwarding sink that counts and reports. */
  class ProgressSink {
    /** The enclosing ProgressRequestBody, whose listener and contentLength() it uses. */
    const outer: ProgressRequestBody
    const delegate: ByteSink
    /** byteWrite: the bytes written through this sink so far. */
    var byteWrite: int

    constructor (outer: ProgressRequestBody, delegate: ByteSink)
      ensures this.outer == outer && this.delegate == delegate && byteWrite == 0
    {
      this.outer := outer;
      this.delegate := delegate;
      byteWrite := 0;
    }

    /**
      write(source, byteCount): forwards first; only when the delegate
      accepted the bytes is the counter raised and the listener (if any)
      told the new total together with contentLength().
     */
    method Write(source: seq<byte>, byteCount: int) returns (out: Outcome)
      modifies this, delegate, outer.listener
      ensures out == (if !(0 <= byteCount <= |source|) then Threw(CountOutOfRange)
                      else if delegate.failing then Threw(IOFailure) else Done)
      ensures out.Done? ==>
        && delegate.bytes == old(delegate.bytes) + source[..byteCount]
        && byteWrite == old(byteWrite) + byteCount
        && (outer.listener != null ==>
              outer.listener.reports == old(outer.listener.reports) + [Report(byteWrite, outer.ContentLength())])
      ensures out.Threw? ==>
        && delegate.bytes == old(delegate.bytes)
        && byteWrite == old(byteWrite)
        && (outer.listener != null ==> outer.listener.reports == old(outer.listener.reports))
    {
      out := delegate.Write(source, byteCount);
      if out.Threw? {
        return;
      }
      byteWrite := byteWrite + byteCount;
      if outer.listener != null {
        outer.listener.OnProgress(byteWrite, outer.ContentLength());
      }
    }

    /** flush(): forwarded to the delegate. */
    method Flush() returns (out: Outcome)
      ensures out == (if delegate.failing then Threw(IOFailure) else Done)
    {
      out := delegate.Flush();
    }
  }

  /** The buffered sink Okio.buffer builds around a ProgressSink. */
  class BufferedSink {
    const sink: ProgressSink

    constructor (sink: ProgressSink)
      ensures this.sink == sink
    {
      this.sink := sink;
    }

    /**
      The wrapped body's writeTo(this) followed by flush(): the buffered
      bytes reach the ProgressSink as the writes `chunks`, then the flush
      is passed down. The first failing call ends the pass.
     */
    method WriteAllAndFlush(chunks: seq<seq<byte>>) returns (out: Outcome)
      modifies sink, sink.delegate, sink.outer.listener
      ensures out == (if sink.delegate.failing then Threw(IOFailure) else Done)
      ensures out.Done? ==>
        && sink.delegate.bytes == old(sink.delegate.bytes) + Concat(chunks)
        && sink.byteWrite == old(sink.byteWrite) + |Concat(chunks)|
        && (sink.outer.listener != null ==>
              sink.outer.listener.reports ==
                old(sink.outer.listener.reports) + Reports(old(sink.byteWrite), Sizes(chunks), sink.outer.ContentLength()))
      ensures out.Threw? ==>
        && sink.delegate.bytes == old(sink.delegate.bytes)
        && sink.byteWrite == old(sink.byteWrite)
        && (sink.outer.listener != null ==> sink.outer.listener.reports == old(sink.outer.listener.reports))
    {
      out := WriteAll(chunks);
      if out.Done? {
        SumSizes(chunks);
        out := sink.Flush();
      }
    }

    /** The wrapped body's writeTo(this): the writes `chunks` pass to the ProgressSink in order. */
    method WriteAll(chunks: seq<seq<byte>>) returns (out: Outcome)
      modifies sink, sink.delegate, sink.outer.listener
      ensures out.Threw? <==> sink.delegate.failing && chunks != []
      ensures out.Threw? ==> out == Threw(IOFailure)
      ensures out.Done? ==>
        && sink.delegate.bytes == old(sink.delegate.bytes) + Concat(chunks)
        && sink.byteWrite == old(sink.byteWrite) + Sum(Sizes(chunks))
        && (sink.outer.listener != null ==>
              sink.outer.listener.reports ==
                old(sink.outer.listener.reports) + Reports(old(sink.byteWrite), Sizes(chunks), sink.outer.ContentLength()))
      ensures out.Threw? ==>
        && sink.delegate.bytes == old(sink.delegate.bytes)
        && sink.byteWrite == old(sink.byteWrite)
        && (sink.outer.listener != null ==> sink.outer.listener.reports == old(sink.outer.listener.reports))
    {
      var listener := sink.outer.listener;
      var total := sink.outer.ContentLength();
      var delegate := sink.delegate;
      ghost var before := delegate.bytes;
      ghost var start := sink.byteWrite;
      ghost var logged := if listener == null then [] else listener.reports;
      // the delegate's bytes, the counter and the listener's log, as the writes so far left them
      ghost var got := before;
      ghost var counter := start;
      ghost var log := logged;
      var i := 0;
      while i < |chunks|
        invariant 0 <= i <= |chunks|
        invariant delegate.failing ==> i == 0
        invariant i == 0 ==> got == before && counter == start && log == logged
        invariant got == before + Concat(chunks[..i])
        invariant counter == start + Sum(Sizes(chunks[..i]))
        invariant log == logged + Reports(start, Sizes(chunks[..i]), total)
        invariant delegate.bytes == got && sink.byteWrite == counter
        invariant listener != null ==> listener.reports == log
      {
        out := sink.Write(chunks[i], |chunks[i]|);
        if out.Threw? {
          return;
        }
        PassSnoc(chunks, i, before, start, logged, total, got, counter, log);
        got := got + chunks[i][..|chunks[i]|];
        log := log + [Report(counter + |chunks[i]|, total)];
        counter := counter + |chunks[i]|;
        i := i + 1;
      }
      out := Done;
      assert chunks[..i] == chunks;
    }
  }

  /**
    A retried upload of the source as written: the transport calls writeTo
    twice on one ProgressRequestBody, with a new sink the second time. The
    new sink receives nothing; the first receives the body twice; and the
    reports of the second pass continue from the first pass's total.
   */
  method RetriedWrite(body: Body, chunks: seq<seq<byte>>, first: ByteSink, second: ByteSink, listener: ProgressListener?)
    returns (b: ProgressRequestBody)
    requires Concat(chunks) == body.payload
    requires first != second && !first.failing
    modifies first, second, listener
    ensures b.body == body && b.listener == listener
    ensures first.bytes == old(first.bytes) + body.payload + body.payload
    ensures second.bytes == old(second.bytes)
    ensures listener != null ==>
      listener.reports == old(listener.reports)
        + Reports(0, Sizes(chunks), b.ContentLength()) + Reports(|body.payload|, Sizes(chunks), b.ContentLength())
    // the second pass ends by reporting twice the body's size
    ensures listener != null && chunks != [] ==>
      listener.reports[|listener.reports| - 1] == Report(2 * |body.payload|, b.ContentLength())
  {
    b := new ProgressRequestBody(body, listener);
    var out1 := b.WriteTo(first, chunks);
    var out2 := b.WriteTo(second, chunks);
    if chunks != [] {
      var n := |chunks|;
      SumSizes(chunks);
      ReportsAt(|body.payload|, Sizes(chunks), b.ContentLength(), n - 1);
      assert Sizes(chunks)[..n] == Sizes(chunks);
    }
  }

  /**
    An upload's first writeTo through a working sink: the listener hears
    once per write, and the last report says that all of the body's bytes
    went out, together with the content length.
   */
  method FirstWriteEndsAtPayloadSize(body: Body, chunks: seq<seq<byte>>, sink: ByteSink, listener: ProgressListener)
    returns (b: ProgressRequestBody)
    requires Concat(chunks) == body.payload && chunks != [] && !sink.failing
    modifies sink, listener
    ensures b.body == body && b.listener == listener
    ensures sink.bytes == old(sink.bytes) + body.payload
    ensures |listener.reports| == |old(listener.reports)| + |chunks|
    ensures listener.reports[|listener.reports| - 1] == Report(|body.payload|, b.ContentLength())
  {
    b := new ProgressRequestBody(body, listener);
    var out := b.WriteTo(sink, chunks);
    LastReportIsPayloadSize(chunks, b.ContentLength());
  }

  /** The same retry with the corrected writeTo: each pass goes to its own sink and counts from 0. */
  method RetriedWriteFresh(body: Body, chunks: seq<seq<byte>>, first: ByteSink, second: ByteSink, listener: ProgressListener?)
    returns (b: ProgressRequestBody)
    requires Concat(chunks) == body.payload
    requires first != second && !first.failing && !second.failing
    modifies first, second, listener
    ensures b.body == body && b.listener == listener
    ensures first.bytes == old(first.bytes) + body.payload
    ensures second.bytes == old(second.bytes) + body.payload
    ensures listener != null ==>
      listener.reports == old(listener.reports)
        + Reports(0, Sizes(chunks), b.ContentLength()) + Reports(0, Sizes(chunks), b.ContentLength())
  {
    b := new ProgressRequestBody(body, listener);
    var out1 := b.WriteToFresh(first, chunks);
    var out2 := b.WriteToFresh(second, chunks);
  }
}
