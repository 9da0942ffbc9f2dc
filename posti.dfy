/** The adapter itself: it runs a producer, which only knows how to write,
    on a thread of its own against the write end of a pipe, and hands the
    consumer the read end, as a file (get_reader) or as a sequence of
    chunks or of lines (iterator, lines_iterator).

    The two threads meet only in the pipe and in the exception slot of the
    read-side wrapper. The model runs them as one sequence of steps: the
    producer's thread advances one write (or its final step) at a time,
    and a `schedule` says how many of its steps run before each read of
    the consumer; a read that would have to wait runs the producer until
    it can return. Every interleaving of the two threads at the level of
    whole writes and whole reads is one such schedule. */
module Posti {
  import opened Sequences
  import opened Conduit
  import opened FileWrappers

  /** A producer, as the pipe sees it: the arguments of its write calls, in
      order, then either a normal return (`failure == None`) or the
      exception it raises. */
  datatype Producer<T> = Producer(writes: seq<seq<T>>, failure: Option<Exception>)

  /** Everything the producer writes, in order. */
  function Written<T>(p: Producer<T>): seq<T>
  {
    Concat(p.writes)
  }

  /** The schedule in which the producer's thread runs to its end before the
      consumer reads anything. */
  predicate ProducerFirst<T>(p: Producer<T>, schedule: seq<nat>)
  {
    |schedule| > 0 && schedule[0] > |p.writes|
  }

  /** A write that goes through keeps the pipe's contents equal to the
      writes accepted so far. */
  lemma AcceptWrite<T>(writes: seq<seq<T>>, next: nat, delivered: seq<T>, buffer: seq<T>)
    requires next < |writes| && delivered + buffer == Concat(writes[..next])
    ensures delivered + (buffer + writes[next]) == Concat(writes[..next + 1])
  {
    assert writes[..next + 1] == writes[..next] + [writes[next]];
    ConcatSnoc(writes[..next], writes[next]);
    AppendAssoc(delivered, buffer, writes[next]);
  }

  /** The producer's thread: run_writer running a producer against the
      write end of `pipe`, wrapped in `file`, and recording the producer's
      exception in `slot` (the read-side wrapper, through set_ex). `next`
      counts the writes the pipe accepted; `outcome` is the exception the
      thread ended with, if any. */
  class WriterThread<T(==)> {
    const script: Producer<T>
    const pipe: Fifo<T>
    const file: ChattyWriter<T>
    const slot: HystericalReader<T>
    var next: nat
    var done: bool
    var outcome: Option<Exception>

    /** How the thread may have ended: after all its writes, with the
        producer's own outcome, or at a write that found the read end
        closed, with a broken pipe. */
    ghost predicate Finished()
      reads this, pipe
    {
      (next == |script.writes| && outcome == script.failure) ||
      (pipe.readerClosed && next < |script.writes| && outcome == Some(BrokenPipe))
    }

    ghost predicate Valid()
      reads this, pipe, file, slot
    {
      file.sink == pipe && slot.source == pipe && file.Valid() &&
      next <= |script.writes| &&
      pipe.delivered + pipe.buffer == Concat(script.writes[..next]) &&
      (done <==> pipe.writerClosed) &&
      slot.exception == outcome &&
      (!done ==> outcome == None) &&
      (done ==> Finished())
    }

    /** The steps the thread still has to take. */
    ghost function Remaining(): nat
      reads this
    {
      (if next <= |script.writes| then |script.writes| - next else 0) + (if done then 0 else 1)
    }

    /** Thread(target=run_writer, ...): the thread over a fresh write end. */
    constructor (script: Producer<T>, pipe: Fifo<T>, slot: HystericalReader<T>)
      requires slot.source == pipe && slot.exception == None
      requires !pipe.writerClosed && pipe.buffer == [] && pipe.delivered == []
      ensures Valid() && fresh(file)
      ensures this.script == script && this.pipe == pipe && this.slot == slot
      ensures next == 0 && !done && outcome == None
    {
      this.script := script;
      this.pipe := pipe;
      this.slot := slot;
      file := new ChattyWriter(pipe);
      next, done, outcome := 0, false, None;
      new;
      assert script.writes[..0] == [];
    }

    /** One step of run_writer: the producer's next write, or, after its last
        one, its end. A write that fails ends the thread. */
    method Step()
      requires Valid() && !done
      modifies this, pipe`buffer, pipe`writerClosed, file, slot`exception
      ensures Valid()
      ensures old(next) <= next && Remaining() < old(Remaining())
      ensures if done then next == old(next) else next == old(next) + 1
    {
      if next < |script.writes| {
        AcceptWrite(script.writes, next, pipe.delivered, pipe.buffer);
        var r := file.Write(script.writes[next]);
        if r.Ok? {
          next := next + 1;
        } else {
          End(Some(r.exception));
        }
      } else {
        End(script.failure);
      }
    }

    /** The thread ends with the exception `e`, if any: it is recorded in
        the slot before the write end is closed. */
    method End(e: Option<Exception>)
      requires Valid() && !done
      requires (next == |script.writes| && e == script.failure) ||
               (pipe.readerClosed && next < |script.writes| && e == Some(BrokenPipe))
      modifies this`done, this`outcome, pipe`writerClosed, slot`exception
      ensures Valid() && done && outcome == e
    {
      if e.Some? {
        slot.SetException(e.value);
      }
      outcome := e;
      pipe.CloseWriter();
      done := true;
    }

    /** The thread takes up to `steps` steps while the consumer does not read. */
    method Advance(steps: nat)
      requires Valid()
      modifies this, pipe`buffer, pipe`writerClosed, file, slot`exception
      ensures Valid()
      ensures old(next) <= next && Remaining() <= old(Remaining())
      ensures old(Remaining()) <= steps ==> done
      ensures old(done) ==> unchanged(this) && pipe.buffer == old(pipe.buffer)
    {
      if !done {
        var k := 0;
        while k < steps && !done
          invariant Valid()
          invariant old(next) <= next && Remaining() + k <= old(Remaining())
          decreases steps - k
        {
          Step();
          k := k + 1;
        }
      }
    }

    /** The consumer's read(size) waits: the thread runs until the read can return. */
    method AwaitRead(size: Limit)
      requires Valid()
      modifies this, pipe`buffer, pipe`writerClosed, file, slot`exception
      ensures Valid() && ReadReady(size, pipe.buffer, pipe.writerClosed)
      ensures old(next) <= next && Remaining() <= old(Remaining())
      ensures old(done) ==> unchanged(this) && pipe.buffer == old(pipe.buffer)
    {
      while !done && !ReadReady(size, pipe.buffer, pipe.writerClosed)
        invariant Valid()
        invariant old(next) <= next && Remaining() <= old(Remaining())
        invariant old(done) ==> unchanged(this) && pipe.buffer == old(pipe.buffer)
        decreases Remaining()
      {
        Step();
      }
    }

    /** The consumer's readline(limit) waits: the thread runs until the read can return. */
    method AwaitLine(limit: Limit, nl: T)
      requires Valid()
      modifies this, pipe`buffer, pipe`writerClosed, file, slot`exception
      ensures Valid() && LineReady(limit, pipe.buffer, nl, pipe.writerClosed)
      ensures old(next) <= next && Remaining() <= old(Remaining())
      ensures old(done) ==> unchanged(this) && pipe.buffer == old(pipe.buffer)
    {
      while !done && !LineReady(limit, pipe.buffer, nl, pipe.writerClosed)
        invariant Valid()
        invariant old(next) <= next && Remaining() <= old(Remaining())
        invariant old(done) ==> unchanged(this) && pipe.buffer == old(pipe.buffer)
        decreases Remaining()
      {
        Step();
      }
    }

    /** join(): the thread runs to its end. */
    method Join()
      requires Valid()
      modifies this, pipe`buffer, pipe`writerClosed, file, slot`exception
      ensures Valid() && done
      ensures old(next) <= next
      ensures old(done) ==> unchanged(this) && pipe.buffer == old(pipe.buffer)
    {
      while !done
        invariant Valid()
        invariant old(next) <= next
        invariant old(done) ==> unchanged(this) && pipe.buffer == old(pipe.buffer)
        decreases Remaining()
      {
        Step();
      }
    }
  }

  /** The entry of get_reader's with block: open the pipe, wrap its read
      end, and start the producer's thread. */
  method GetReader<T(==)>(p: Producer<T>) returns (rfile: HystericalReader<T>, thread: WriterThread<T>)
    ensures fresh(rfile) && fresh(thread) && fresh(thread.pipe) && fresh(thread.file)
    ensures thread.Valid() && thread.script == p && thread.slot == rfile && rfile.source == thread.pipe
    ensures thread.next == 0 && !thread.done && !thread.pipe.readerClosed && thread.pipe.delivered == []
  {
    var pipe := new Fifo<T>();
    rfile := new HystericalReader(pipe);
    thread := new WriterThread(p, pipe, rfile);
  }

  /** The exit of get_reader's with block. When the block ended normally
      and `waitWriter` was asked for, the producer's thread is joined; the
      read end is closed on every path, including an exception raised in
      the block and the consumer abandoning an iterator early. */
  method ExitReader<T(==)>(rfile: HystericalReader<T>, thread: WriterThread<T>, waitWriter: bool, bodyRaised: bool)
    requires thread.Valid() && thread.slot == rfile && rfile.source == thread.pipe
    modifies thread, thread.pipe`buffer, thread.pipe`writerClosed, thread.pipe`readerClosed, thread.file, rfile`exception
    ensures thread.Valid() && thread.pipe.readerClosed
    ensures waitWriter && !bodyRaised ==> thread.done
    ensures waitWriter && !bodyRaised && !old(thread.pipe.readerClosed) ==>
              thread.next == |thread.script.writes| && thread.outcome == thread.script.failure
    ensures old(thread.done) ==> thread.next == old(thread.next) && thread.outcome == old(thread.outcome)
    ensures old(thread.next) <= thread.next
  {
    if waitWriter && !bodyRaised {
      thread.Join();
    }
    rfile.Close();
  }

  /** A with block over get_reader whose body makes one call read(size),
      after the producer's thread has taken `steps` steps, and ends
      normally or with the exception that read raised. The read returns
      the front of the stream, or raises the producer's exception; a read
      that reaches the end of the stream always sees the producer's
      outcome. `accepted` and `producerOutcome` are as in Iterator. */
  method ReadOnce<T(==)>(p: Producer<T>, steps: nat, size: Limit, waitWriter: bool)
    returns (r: Result<seq<T>>, accepted: nat, producerOutcome: Option<Exception>)
    ensures r.Ok? ==> r.value == Written(p)[..ReadAmount(size, |Written(p)|)]
    ensures r.Err? ==> p.failure == Some(r.exception)
    ensures Short(size, |Written(p)|) || steps > |p.writes| ==>
              r == if p.failure.Some? then Err(p.failure.value) else Ok(Written(p)[..ReadAmount(size, |Written(p)|)])
    ensures accepted <= |p.writes|
    ensures producerOutcome == if accepted == |p.writes| then p.failure else Some(BrokenPipe)
    ensures waitWriter && r.Ok? ==> accepted == |p.writes| && producerOutcome == p.failure
  {
    var rfile, thread := GetReader(p);
    r := FirstRead(rfile, thread, steps, size);
    ExitReader(rfile, thread, waitWriter, r.Err?);
    // The producer's thread goes on by itself until it ends.
    thread.Join();
    accepted, producerOutcome := thread.next, thread.outcome;
  }

  /** The read of ReadOnce: the producer's thread takes `steps` steps,
      then the consumer calls read(size) on a stream from which nothing
      has been read yet. */
  method FirstRead<T(==)>(rfile: HystericalReader<T>, thread: WriterThread<T>, steps: nat, size: Limit)
    returns (r: Result<seq<T>>)
    requires thread.Valid() && thread.slot == rfile && rfile.source == thread.pipe
    requires !thread.pipe.readerClosed && thread.pipe.delivered == [] && thread.next == 0 && !thread.done
    modifies thread, thread.pipe`buffer, thread.pipe`writerClosed, thread.pipe`delivered, thread.file, rfile`exception
    ensures thread.Valid()
    ensures r.Ok? ==> r.value == Written(thread.script)[..ReadAmount(size, |Written(thread.script)|)]
    ensures r.Err? ==> thread.script.failure == Some(r.exception)
    ensures Short(size, |Written(thread.script)|) || steps > |thread.script.writes| ==>
              r == if thread.script.failure.Some? then Err(thread.script.failure.value)
                   else Ok(Written(thread.script)[..ReadAmount(size, |Written(thread.script)|)])
  {
    ghost var p := thread.script;
    var pipe := thread.pipe;
    thread.Advance(steps);
    thread.AwaitRead(size);
    ghost var before := pipe.buffer;
    ghost var underlying;
    r, underlying := rfile.Read(size);
    ConcatSplit(p.writes, thread.next);
    if thread.done {
      assert thread.next == |p.writes| && p.writes[..thread.next] == p.writes;
    } else {
      assert !Short(size, |Written(p)|) && size.n <= |before|;
    }
  }

  /** iterator's default chunk_size. */
  const DEFAULT_CHUNK_SIZE: Limit := AtMost(32 * 1024)

  /** The line separator of text mode. */
  const NEWLINE: char := '\n'

  /** Fits a chunk of `k` elements under the chunk size. */
  predicate Fits(size: Limit, k: nat)
  {
    size.Unlimited? || k <= size.n
  }

  /** Shorter than the chunk size asks for: read() without a size returns
      everything at once, so any chunk it returns counts as short. */
  predicate Short(size: Limit, k: nat)
  {
    size.Unlimited? || k < size.n
  }

  /** Whether a consumer that took `taken` chunks read on until the stream
      ended by itself: it did not stop after `wanted` chunks, and its reads
      asked for at least one element. */
  predicate ReadsToEnd(size: Limit, wanted: Option<nat>, taken: nat)
  {
    size != AtMost(0) && (wanted.None? || taken < wanted.value)
  }

  /** Chunks as iterator yields them: non-empty, within the chunk size, and
      all but the last one full. */
  ghost predicate Chunked<T>(chunks: seq<seq<T>>, size: Limit)
  {
    forall j :: 0 <= j < |chunks| ==>
      chunks[j] != [] && Fits(size, |chunks[j]|) && (j < |chunks| - 1 ==> !Short(size, |chunks[j]|))
  }

  /** A full chunk may be followed by any chunk. */
  lemma ExtendChunks<T>(chunks: seq<seq<T>>, chunk: seq<T>, size: Limit)
    requires Chunked(chunks, size)
    requires chunks != [] ==> !Short(size, |chunks[|chunks| - 1]|)
    requires chunk != [] && Fits(size, |chunk|)
    ensures Chunked(chunks + [chunk], size)
  {
    var longer := chunks + [chunk];
    forall j | 0 <= j < |longer|
      ensures longer[j] != [] && Fits(size, |longer[j]|) && (j < |longer| - 1 ==> !Short(size, |longer[j]|))
    {
      if j < |chunks| {
        assert longer[j] == chunks[j];
      }
    }
  }

  /** What the consumer of iterator has read: the chunks, which make up
      everything taken from the pipe, a short one only at the very end of
      the stream. */
  ghost predicate ChunksRead<T>(chunks: seq<seq<T>>, thread: WriterThread<T>, size: Limit)
    reads thread, thread.pipe
  {
    thread.pipe.delivered == Concat(chunks) && Chunked(chunks, size) &&
    (chunks != [] && Short(size, |chunks[|chunks| - 1]|) ==>
       thread.pipe.buffer == [] && thread.done && thread.pipe.delivered == Written(thread.script))
  }

  /** The waiting and the reading of one turn of iterator's loop: the
      producer's thread takes `steps` steps, then the consumer calls
      read(size), which waits as long as it must. `taken` is what the read
      took from the pipe, returned or lost to the exception it raised. */
  method AwaitChunkAndRead<T(==)>(rfile: HystericalReader<T>, thread: WriterThread<T>, steps: nat, size: Limit)
    returns (r: Result<seq<T>>, ghost taken: seq<T>)
    requires thread.Valid() && thread.slot == rfile && rfile.source == thread.pipe
    requires !thread.pipe.readerClosed
    modifies thread, thread.pipe`buffer, thread.pipe`writerClosed, thread.pipe`delivered, thread.file, rfile`exception
    ensures thread.Valid()
    ensures thread.pipe.delivered == old(thread.pipe.delivered) + taken
    ensures |thread.pipe.delivered| <= |Written(thread.script)|
    ensures thread.Remaining() <= old(thread.Remaining())
    ensures old(thread.done) || old(thread.Remaining()) <= steps ==> thread.done
    ensures old(thread.done) && old(thread.pipe.buffer) == [] ==> taken == []
    ensures Fits(size, |taken|)
    ensures taken != [] && Short(size, |taken|) ==>
              thread.pipe.buffer == [] && thread.done && thread.pipe.delivered == Written(thread.script)
    ensures r.Ok? ==> r.value == taken && thread.outcome == None
    ensures r.Ok? && r.value == [] && size != AtMost(0) ==>
              thread.done && thread.next == |thread.script.writes| && thread.script.failure == None &&
              thread.pipe.delivered == Written(thread.script)
    ensures r.Err? ==>
              thread.done && thread.next == |thread.script.writes| && thread.script.failure == Some(r.exception)
    ensures thread.done ==> (r.Err? <==> thread.script.failure.Some?)
  {
    thread.Advance(steps);
    thread.AwaitRead(size);
    ghost var underlying;
    r, underlying := rfile.Read(size);
    taken := underlying.value;
    ghost var pipe := thread.pipe;
    assert pipe.delivered + pipe.buffer == Concat(thread.script.writes[..thread.next]) by {
      AppendAssoc(old(pipe.delivered), taken, pipe.buffer);
    }
    ConcatSplit(thread.script.writes, thread.next);
    if (r.Ok? && r.value == [] && size != AtMost(0)) || (taken != [] && Short(size, |taken|)) {
      assert pipe.buffer == [] && pipe.writerClosed;
      assert thread.script.writes[..thread.next] == thread.script.writes;
    }
  }

  /** One turn of iterator's loop. The chunk read follows the `chunks`
      read before it. */
  method NextChunk<T(==)>(rfile: HystericalReader<T>, thread: WriterThread<T>, steps: nat, size: Limit,
                          ghost chunks: seq<seq<T>>)
    returns (r: Result<seq<T>>)
    requires thread.Valid() && thread.slot == rfile && rfile.source == thread.pipe
    requires !thread.pipe.readerClosed && ChunksRead(chunks, thread, size)
    modifies thread, thread.pipe`buffer, thread.pipe`writerClosed, thread.pipe`delivered, thread.file, rfile`exception
    ensures thread.Valid()
    ensures old(thread.pipe.delivered) <= thread.pipe.delivered
    ensures |thread.pipe.delivered| <= |Written(thread.script)|
    ensures thread.Remaining() <= old(thread.Remaining())
    ensures old(thread.done) || old(thread.Remaining()) <= steps ==> thread.done
    ensures r.Ok? ==> thread.outcome == None
    ensures r.Ok? && r.value != [] ==>
              ChunksRead(chunks + [r.value], thread, size) &&
              |thread.pipe.delivered| == |old(thread.pipe.delivered)| + |r.value|
    ensures r.Ok? && r.value == [] && size != AtMost(0) ==>
              thread.done && thread.next == |thread.script.writes| && thread.script.failure == None &&
              Concat(chunks) == Written(thread.script)
    ensures r.Err? ==>
              thread.done && thread.next == |thread.script.writes| && thread.script.failure == Some(r.exception)
    ensures thread.done ==> (r.Err? <==> thread.script.failure.Some?)
  {
    ghost var taken;
    r, taken := AwaitChunkAndRead(rfile, thread, steps, size);
    if r.Ok? && r.value != [] {
      ConcatSnoc(chunks, r.value);
      ExtendChunks(chunks, r.value, size);
    }
  }

  /** The body of iterator's loop, inside the with block: read chunks until
      a read returns nothing or raises, or until the consumer has taken
      `wanted` of them (`stopped`). */
  method DrainChunks<T(==)>(rfile: HystericalReader<T>, thread: WriterThread<T>, chunkSize: Limit,
                            schedule: seq<nat>, wanted: Option<nat>)
    returns (chunks: seq<seq<T>>, raised: Option<Exception>, stopped: bool)
    requires thread.Valid() && thread.slot == rfile && rfile.source == thread.pipe
    requires !thread.pipe.readerClosed && thread.pipe.delivered == [] && !thread.done
    requires wanted != Some(0)
    modifies thread, thread.pipe`buffer, thread.pipe`writerClosed, thread.pipe`delivered, thread.file, rfile`exception
    ensures thread.Valid()
    ensures Chunked(chunks, chunkSize)
    ensures chunks != [] && Short(chunkSize, |chunks[|chunks| - 1]|) ==> Concat(chunks) == Written(thread.script)
    ensures stopped ==> raised.None? && wanted == Some(|chunks|)
    ensures !stopped && wanted.Some? ==> |chunks| < wanted.value
    ensures Concat(chunks) <= thread.pipe.delivered
    ensures raised.Some? ==> raised == thread.script.failure
    ensures raised.Some? || (!stopped && chunkSize != AtMost(0)) ==>
              thread.done && thread.next == |thread.script.writes| && thread.outcome == thread.script.failure
    ensures !stopped && chunkSize != AtMost(0) ==> raised == thread.script.failure
    ensures !stopped && chunkSize != AtMost(0) && raised.None? ==> Concat(chunks) == Written(thread.script)
    ensures ProducerFirst(thread.script, schedule) ==> raised == thread.script.failure
    ensures ProducerFirst(thread.script, schedule) && thread.script.failure.Some? ==> chunks == []
  {
    ghost var p := thread.script;
    var pipe := thread.pipe;
    chunks, raised, stopped := [], None, false;
    var i := 0;
    while true
      invariant thread.Valid() && thread.pipe == pipe && !pipe.readerClosed
      invariant ChunksRead(chunks, thread, chunkSize) && |pipe.delivered| <= |Written(p)|
      invariant wanted.Some? ==> |chunks| < wanted.value
      invariant ProducerFirst(p, schedule) && i > 0 ==> thread.done && p.failure.None?
      invariant i == 0 ==> chunks == [] && !thread.done
      decreases |Written(p)| - |pipe.delivered| + thread.Remaining()
    {
      ghost var first := i == 0;
      var r := NextChunk(rfile, thread, if i < |schedule| then schedule[i] else 0, chunkSize, chunks);
      i := i + 1;
      assert ProducerFirst(p, schedule) ==> thread.done;
      if r.Err? {
        raised := Some(r.exception);
        break;
      }
      if r.value == [] {
        break;
      }
      chunks := chunks + [r.value];
      if wanted == Some(|chunks|) {
        stopped := true;
        break;
      }
    }
  }

  /** iterator(writer, chunk_size): the chunks a consumer receives when it
      takes `wanted` chunks at most (all of them when `wanted` is None) and
      then lets the iterator go. `raised` is the exception the iteration
      raises; `accepted` counts the producer's writes that reached the pipe
      and `producerOutcome` is the exception its thread ended with, once
      it has ended. */
  method Iterator<T(==)>(p: Producer<T>, chunkSize: Limit, schedule: seq<nat>, wanted: Option<nat>)
    returns (chunks: seq<seq<T>>, raised: Option<Exception>, accepted: nat, producerOutcome: Option<Exception>)
    ensures forall i :: 0 <= i < |chunks| ==> chunks[i] != [] && Fits(chunkSize, |chunks[i]|)
    ensures forall i :: 0 <= i < |chunks| - 1 ==> !Short(chunkSize, |chunks[i]|)
    ensures chunks != [] && Short(chunkSize, |chunks[|chunks| - 1]|) ==> Concat(chunks) == Written(p)
    ensures wanted.Some? ==> |chunks| <= wanted.value
    ensures accepted <= |p.writes| && Concat(chunks) <= Concat(p.writes[..accepted])
    ensures raised.Some? ==> raised == p.failure
    ensures ReadsToEnd(chunkSize, wanted, |chunks|) ==>
              raised == p.failure && accepted == |p.writes| && producerOutcome == p.failure
    ensures ReadsToEnd(chunkSize, wanted, |chunks|) && raised.None? ==> Concat(chunks) == Written(p)
    ensures wanted != Some(0) ==>
              producerOutcome == if accepted == |p.writes| then p.failure else Some(BrokenPipe)
    ensures wanted == Some(0) ==> chunks == [] && raised == None && accepted == 0 && producerOutcome == None
    ensures ProducerFirst(p, schedule) && wanted != Some(0) ==> raised == p.failure
    ensures ProducerFirst(p, schedule) && p.failure.Some? ==> chunks == []
  {
    if wanted == Some(0) {
      // A generator closed before its first item never runs its body.
      return [], None, 0, None;
    }
    var rfile, thread := GetReader(p);
    var stopped;
    chunks, raised, stopped := DrainChunks(rfile, thread, chunkSize, schedule, wanted);
    ExitReader(rfile, thread, true, raised.Some? || stopped);
    // The producer's thread goes on by itself until it ends.
    thread.Join();
    accepted, producerOutcome := thread.next, thread.outcome;
  }

  /** What the consumer of lines_iterator has read: the first lines of the
      stream, an unterminated one only at its very end. */
  ghost predicate LinesRead<T>(lines: seq<seq<T>>, thread: WriterThread<T>, nl: T)
    reads thread, thread.pipe
  {
    thread.pipe.delivered == Concat(lines) &&
    lines <= SplitLines(Written(thread.script), nl) &&
    (lines != [] && !Terminated(lines[|lines| - 1], nl) ==> thread.pipe.buffer == [] && thread.done)
  }

  /** The waiting and the reading of one turn of lines_iterator's loop:
      the producer's thread takes `steps` steps, then the consumer calls
      readline(), which waits for a whole line or the end of the stream.
      `taken` is what the read took from the pipe, returned or lost to the
      exception it raised. */
  method AwaitLineAndRead<T(==)>(rfile: HystericalReader<T>, thread: WriterThread<T>, steps: nat, nl: T)
    returns (r: Result<seq<T>>, ghost taken: seq<T>)
    requires thread.Valid() && thread.slot == rfile && rfile.source == thread.pipe
    requires !thread.pipe.readerClosed
    modifies thread, thread.pipe`buffer, thread.pipe`writerClosed, thread.pipe`delivered, thread.file, rfile`exception
    ensures thread.Valid()
    ensures thread.pipe.delivered == old(thread.pipe.delivered) + taken
    ensures thread.pipe.delivered <= Written(thread.script)
    ensures thread.Remaining() <= old(thread.Remaining())
    ensures old(thread.done) || old(thread.Remaining()) <= steps ==> thread.done
    ensures old(thread.done) && old(thread.pipe.buffer) == [] ==> taken == []
    ensures taken != [] ==> IsLine(taken, nl)
    ensures taken != [] && !Terminated(taken, nl) ==>
              thread.pipe.buffer == [] && thread.done && thread.pipe.delivered == Written(thread.script)
    ensures r.Ok? ==> r.value == taken && thread.outcome == None
    ensures r.Ok? && r.value == [] ==>
              thread.done && thread.next == |thread.script.writes| && thread.script.failure == None &&
              thread.pipe.delivered == Written(thread.script)
    ensures r.Err? ==>
              thread.done && thread.next == |thread.script.writes| && thread.script.failure == Some(r.exception)
    ensures thread.done ==> (r.Err? <==> thread.script.failure.Some?)
  {
    thread.Advance(steps);
    thread.AwaitLine(Unlimited, nl);
    ghost var pipe := thread.pipe;
    ghost var before := pipe.buffer;
    ghost var underlying;
    r, underlying := rfile.ReadLine(Unlimited, nl);
    taken := underlying.value;
    assert pipe.delivered + pipe.buffer == Concat(thread.script.writes[..thread.next]) by {
      AppendAssoc(old(pipe.delivered), taken, pipe.buffer);
    }
    ConcatSplit(thread.script.writes, thread.next);
    LineEndIsLine(before, nl);
    assert taken == before[..LineEnd(before, nl)];
    if taken == [] || !Terminated(taken, nl) {
      assert pipe.buffer == [] && pipe.writerClosed;
      assert thread.script.writes[..thread.next] == thread.script.writes;
    }
  }

  /** One turn of lines_iterator's loop. The line read is the next line of
      the stream after the `lines` read before it. */
  method NextLine<T(==)>(rfile: HystericalReader<T>, thread: WriterThread<T>, steps: nat, nl: T,
                         ghost lines: seq<seq<T>>)
    returns (r: Result<seq<T>>)
    requires thread.Valid() && thread.slot == rfile && rfile.source == thread.pipe
    requires !thread.pipe.readerClosed && LinesRead(lines, thread, nl)
    modifies thread, thread.pipe`buffer, thread.pipe`writerClosed, thread.pipe`delivered, thread.file, rfile`exception
    ensures thread.Valid()
    ensures |old(thread.pipe.delivered)| <= |thread.pipe.delivered| <= |Written(thread.script)|
    ensures thread.Remaining() <= old(thread.Remaining())
    ensures old(thread.done) || old(thread.Remaining()) <= steps ==> thread.done
    ensures r.Ok? && r.value != [] ==>
              LinesRead(lines + [r.value], thread, nl) && thread.outcome == None &&
              |thread.pipe.delivered| == |old(thread.pipe.delivered)| + |r.value|
    ensures r.Ok? && r.value == [] ==>
              thread.done && thread.next == |thread.script.writes| && thread.script.failure == None &&
              lines == SplitLines(Written(thread.script), nl)
    ensures r.Err? ==>
              thread.done && thread.next == |thread.script.writes| && thread.script.failure == Some(r.exception)
    ensures thread.done ==> (r.Err? <==> thread.script.failure.Some?)
  {
    ghost var s := Written(thread.script);
    ghost var taken;
    r, taken := AwaitLineAndRead(rfile, thread, steps, nl);
    if r.Ok? && taken == [] {
      AllLines(lines, s, nl);
    } else if r.Ok? {
      AppendLine(lines, taken, s, nl);
    }
  }

  /** The body of lines_iterator's loop, inside the with block: read lines
      until a read returns nothing or raises, or until the consumer has
      taken `wanted` of them (`stopped`). */
  method DrainLines<T(==)>(rfile: HystericalReader<T>, thread: WriterThread<T>, nl: T,
                           schedule: seq<nat>, wanted: Option<nat>)
    returns (lines: seq<seq<T>>, raised: Option<Exception>, stopped: bool)
    requires thread.Valid() && thread.slot == rfile && rfile.source == thread.pipe
    requires !thread.pipe.readerClosed && thread.pipe.delivered == []
    requires wanted != Some(0)
    modifies thread, thread.pipe`buffer, thread.pipe`writerClosed, thread.pipe`delivered, thread.file, rfile`exception
    ensures thread.Valid()
    ensures lines <= SplitLines(Written(thread.script), nl)
    ensures stopped ==> raised.None? && wanted == Some(|lines|)
    ensures !stopped ==>
              (wanted.Some? ==> |lines| < wanted.value) && raised == thread.script.failure &&
              thread.done && thread.next == |thread.script.writes| && thread.outcome == thread.script.failure
    ensures !stopped && raised.None? ==> lines == SplitLines(Written(thread.script), nl)
  {
    ghost var p := thread.script;
    var pipe := thread.pipe;
    lines, raised, stopped := [], None, false;
    var i := 0;
    while true
      invariant thread.Valid() && thread.pipe == pipe
      invariant LinesRead(lines, thread, nl) && |pipe.delivered| <= |Written(p)|
      invariant wanted.Some? ==> |lines| < wanted.value
      decreases |Written(p)| - |pipe.delivered| + thread.Remaining()
    {
      var r := NextLine(rfile, thread, if i < |schedule| then schedule[i] else 0, nl, lines);
      i := i + 1;
      if r.Err? {
        raised := Some(r.exception);
        return;
      }
      if r.value == [] {
        return;
      }
      lines := lines + [r.value];
      if wanted == Some(|lines|) {
        stopped := true;
        return;
      }
    }
  }

  /** lines_iterator(writer): the lines a consumer receives, in text mode,
      when it takes `wanted` lines at most (all of them when `wanted` is
      None) and then lets the iterator go. */
  method LinesIterator(p: Producer<char>, schedule: seq<nat>, wanted: Option<nat>)
    returns (lines: seq<string>, raised: Option<Exception>, accepted: nat, producerOutcome: Option<Exception>)
    ensures lines <= SplitLines(Written(p), NEWLINE)
    ensures wanted.Some? ==> |lines| <= wanted.value
    ensures accepted <= |p.writes|
    ensures raised.Some? ==> raised == p.failure
    ensures (wanted.None? || |lines| < wanted.value) ==>
              raised == p.failure && accepted == |p.writes| && producerOutcome == p.failure
    ensures (wanted.None? || |lines| < wanted.value) && raised.None? ==> lines == SplitLines(Written(p), NEWLINE)
    ensures wanted != Some(0) ==>
              producerOutcome == if accepted == |p.writes| then p.failure else Some(BrokenPipe)
    ensures wanted == Some(0) ==> lines == [] && raised == None && accepted == 0 && producerOutcome == None
  {
    if wanted == Some(0) {
      // A generator closed before its first item never runs its body.
      return [], None, 0, None;
    }
    var rfile, thread := GetReader(p);
    var stopped;
    lines, raised, stopped := DrainLines(rfile, thread, NEWLINE, schedule, wanted);
    ExitReader(rfile, thread, true, raised.Some? || stopped);
    // The producer's thread goes on by itself until it ends.
    thread.Join();
    accepted, producerOutcome := thread.next, thread.outcome;
  }
}
