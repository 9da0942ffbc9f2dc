/** The two wrappers around the ends of the pipe: the write side handed to
    the producer, which counts what it writes so that tell() works on a
    pipe, and the read side handed to the consumer, which replays the
    producer's exception after every read. */
module FileWrappers {
  import opened Sequences
  import opened Conduit

  /** The write-side wrapper (_ChattyFileWrapper). `history` is the list of
      arguments of every write call so far; it only serves the proofs. */
  class ChattyWriter<T(==)> {
    const sink: Fifo<T>
    var position: nat
    ghost var history: seq<seq<T>>

    /** The position counts every element handed to write. */
    ghost predicate Valid()
      reads this
    {
      position == TotalLength(history)
    }

    constructor (sink: Fifo<T>)
      ensures this.sink == sink
      ensures Valid() && history == [] && position == 0
    {
      this.sink := sink;
      position := 0;
      history := [];
    }

    /** write(data): count the data, then pass it on unchanged and return
        what the file below returns. The count grows even when that write
        fails, since it is taken first. */
    method Write(data: seq<T>) returns (r: Result<nat>)
      requires Valid()
      modifies this, sink`buffer
      ensures Valid() && history == old(history) + [data]
      ensures position == old(position) + |data|
      ensures r == if sink.writerClosed then Err(ClosedFile)
                   else if sink.readerClosed then Err(BrokenPipe)
                   else Ok(|data|)
      ensures sink.buffer == if r.Ok? then old(sink.buffer) + data else old(sink.buffer)
    {
      position := position + |data|;
      history := history + [data];
      r := sink.Write(data);
    }

    /** tell(): the number of elements written so far, that is the length
        of the stream that all write calls together passed on. */
    function Tell(): (p: nat)
      reads this
      requires Valid()
      ensures p == |Concat(history)|
    {
      ConcatLength(history);
      position
    }
  }

  /** The read-side wrapper (_HystericalFileWrapper). `exception` is the
      slot in which the producer's thread records the exception the
      producer raised. */
  class HystericalReader<T(==)> {
    const source: Fifo<T>
    var exception: Option<Exception>

    constructor (source: Fifo<T>)
      ensures this.source == source && exception == None
    {
      this.source := source;
      exception := None;
    }

    /** set_ex: fill the slot. */
    method SetException(e: Exception)
      modifies this`exception
      ensures exception == Some(e)
    {
      exception := Some(e);
    }

    /** read(size): read from the pipe, then raise the recorded exception,
        if there is one, instead of returning what was read. `underlying`
        is what the pipe's read returned; the data it took are consumed
        either way. */
    method Read(size: Limit) returns (r: Result<seq<T>>, ghost underlying: Result<seq<T>>)
      requires source.readerClosed || ReadReady(size, source.buffer, source.writerClosed)
      modifies source`buffer, source`delivered
      ensures source.readerClosed ==> underlying == Err(ClosedFile)
      ensures source.readerClosed ==> source.buffer == old(source.buffer) && source.delivered == old(source.delivered)
      ensures !source.readerClosed ==> underlying.Ok? && old(source.buffer) == underlying.value + source.buffer
      ensures !source.readerClosed ==> |underlying.value| == ReadAmount(size, |old(source.buffer)|)
      ensures !source.readerClosed ==> source.delivered == old(source.delivered) + underlying.value
      ensures r == if underlying.Ok? && exception.Some? then Err(exception.value) else underlying
    {
      r := source.Read(size);
      underlying := r;
      if r.Ok? && exception.Some? {
        r := Err(exception.value);
      }
    }

    /** readline(limit): like Read, over the pipe's readline. */
    method ReadLine(limit: Limit, nl: T) returns (r: Result<seq<T>>, ghost underlying: Result<seq<T>>)
      requires source.readerClosed || LineReady(limit, source.buffer, nl, source.writerClosed)
      modifies source`buffer, source`delivered
      ensures source.readerClosed ==> underlying == Err(ClosedFile)
      ensures source.readerClosed ==> source.buffer == old(source.buffer) && source.delivered == old(source.delivered)
      ensures !source.readerClosed ==> underlying.Ok? && old(source.buffer) == underlying.value + source.buffer
      ensures !source.readerClosed ==> |underlying.value| == LineAmount(limit, old(source.buffer), nl)
      ensures !source.readerClosed ==> source.delivered == old(source.delivered) + underlying.value
      ensures r == if underlying.Ok? && exception.Some? then Err(exception.value) else underlying
    {
      r := source.ReadLine(limit, nl);
      underlying := r;
      if r.Ok? && exception.Some? {
        r := Err(exception.value);
      }
    }

    /** readlines(hint): it calls the pipe's readline(hint), so it returns
        one line, exactly as ReadLine(hint) does. */
    method ReadLines(hint: Limit, nl: T) returns (r: Result<seq<T>>, ghost underlying: Result<seq<T>>)
      requires source.readerClosed || LineReady(hint, source.buffer, nl, source.writerClosed)
      modifies source`buffer, source`delivered
      ensures source.readerClosed ==> underlying == Err(ClosedFile)
      ensures source.readerClosed ==> source.buffer == old(source.buffer) && source.delivered == old(source.delivered)
      ensures !source.readerClosed ==> underlying.Ok? && old(source.buffer) == underlying.value + source.buffer
      ensures !source.readerClosed ==> |underlying.value| == LineAmount(hint, old(source.buffer), nl)
      ensures !source.readerClosed ==> source.delivered == old(source.delivered) + underlying.value
      ensures r == if underlying.Ok? && exception.Some? then Err(exception.value) else underlying
    {
      r := source.ReadLine(hint, nl);
      underlying := r;
      if r.Ok? && exception.Some? {
        r := Err(exception.value);
      }
    }

    /** What readlines() without a hint is meant to do: read to the end of
        the stream and return its lines, the exception recorded replacing
        them as in Read. */
    method ReadAllLines(nl: T) returns (r: Result<seq<seq<T>>>, ghost underlying: Result<seq<T>>)
      requires source.readerClosed || ReadReady(Unlimited, source.buffer, source.writerClosed)
      modifies source`buffer, source`delivered
      ensures source.readerClosed ==> underlying == Err(ClosedFile) && r == Err(ClosedFile)
      ensures source.readerClosed ==> source.buffer == old(source.buffer) && source.delivered == old(source.delivered)
      ensures !source.readerClosed ==> underlying == Ok(old(source.buffer)) && source.buffer == []
      ensures !source.readerClosed ==> source.delivered == old(source.delivered) + old(source.buffer)
      ensures !source.readerClosed && exception.Some? ==> r == Err(exception.value)
      ensures r.Ok? <==> !source.readerClosed && exception.None?
      ensures r.Ok? ==> Concat(r.value) == old(source.buffer)
      ensures r.Ok? ==> forall i :: 0 <= i < |r.value| ==> IsLine(r.value[i], nl)
      ensures r.Ok? ==> forall i :: 0 <= i < |r.value| - 1 ==> Terminated(r.value[i], nl)
    {
      var all := source.Read(Unlimited);
      underlying := all;
      if all.Ok? {
        assert all.value == old(source.buffer);
      }
      if all.Err? {
        r := Err(all.exception);
      } else if exception.Some? {
        r := Err(exception.value);
      } else {
        SplitLinesConcat(all.value, nl);
        SplitLinesAreLines(all.value, nl);
        r := Ok(SplitLines(all.value, nl));
      }
    }

    /** close(): close the read end; closing twice is harmless. */
    method Close()
      modifies source`readerClosed
      ensures source.readerClosed
    {
      source.CloseReader();
    }
  }
}
