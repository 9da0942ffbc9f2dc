/** The conduit between the producer's thread and the consumer: an OS pipe
    with a buffered file object on each end, seen as one FIFO buffer of
    elements (bytes in binary mode, characters in text mode).

    What the model assumes of the pipe and of the file objects over it
    (their code is not part of this model):
    - a write appends its data at the back of the buffer, or fails with a
      broken pipe once the read end is closed;
    - read(n) for n > 0 waits until n elements are there or the write end
      is closed (end of stream), then takes n elements, or all that is left
      at the end of the stream (buffered reads on a blocking pipe, in
      binary and in text mode, keep reading until they have n);
    - read() without a size waits for the end of the stream and takes all;
    - read(0) returns nothing at once;
    - readline(limit) takes up to and including the first newline, at most
      `limit` elements, or all that is left at the end of the stream; it
      waits while none of these is available. */
module Conduit {
  import opened Sequences

  datatype Option<T> = None | Some(value: T)

  /** The exceptions the model distinguishes: a write into a pipe whose read
      end is closed, an operation on a closed file, and any exception a
      producer raises on its own, named by its class. */
  datatype Exception = BrokenPipe | ClosedFile | Raised(name: string)

  /** What a call returns, or the exception it raises. */
  datatype Result<V> = Ok(value: V) | Err(exception: Exception)

  /** The size argument of read and readline: -1 (the default) means no limit. */
  datatype Limit = Unlimited | AtMost(n: nat)

  function Min(a: nat, b: nat): (m: nat)
    ensures m <= a && m <= b && (m == a || m == b)
  {
    if a <= b then a else b
  }

  /** Whether read(size) returns at once, rather than waiting for the writer. */
  predicate ReadReady<T>(size: Limit, buffer: seq<T>, eof: bool)
  {
    match size
    case Unlimited => eof
    case AtMost(n) => n <= |buffer| || eof
  }

  /** How many of `available` elements a read(size) takes once it returns. */
  function ReadAmount(size: Limit, available: nat): (k: nat)
    ensures k <= available
    ensures size.AtMost? ==> k <= size.n
    ensures size.AtMost? && k < size.n ==> k == available
    ensures size.Unlimited? ==> k == available
  {
    match size
    case Unlimited => available
    case AtMost(n) => Min(n, available)
  }

  /** Whether readline(limit) returns at once, rather than waiting for the writer. */
  predicate LineReady<T(==)>(limit: Limit, buffer: seq<T>, nl: T, eof: bool)
  {
    eof || nl in buffer || (limit.AtMost? && limit.n <= |buffer|)
  }

  /** How many elements readline(limit) takes from `buffer`. */
  function LineAmount<T(==)>(limit: Limit, buffer: seq<T>, nl: T): (k: nat)
    ensures k <= |buffer|
    ensures limit.AtMost? ==> k <= limit.n
  {
    match limit
    case Unlimited => LineEnd(buffer, nl)
    case AtMost(n) => Min(n, LineEnd(buffer, nl))
  }

  /** The pipe with its two file objects. `delivered` is everything the
      reader has taken so far; it only serves the proofs. */
  class Fifo<T(==)> {
    var buffer: seq<T>
    var writerClosed: bool
    var readerClosed: bool
    ghost var delivered: seq<T>

    /** os.pipe(): both ends open, nothing in between. */
    constructor ()
      ensures buffer == [] && delivered == []
      ensures !writerClosed && !readerClosed
    {
      buffer, delivered := [], [];
      writerClosed, readerClosed := false, false;
    }

    /** write(data) on the write end: returns the number of elements written. */
    method Write(data: seq<T>) returns (r: Result<nat>)
      modifies this`buffer
      ensures r == if writerClosed then Err(ClosedFile)
                   else if readerClosed then Err(BrokenPipe)
                   else Ok(|data|)
      ensures buffer == if r.Ok? then old(buffer) + data else old(buffer)
    {
      if writerClosed {
        r := Err(ClosedFile);
      } else if readerClosed {
        r := Err(BrokenPipe);
      } else {
        buffer := buffer + data;
        r := Ok(|data|);
      }
    }

    /** close() on the write end; closing twice is harmless. */
    method CloseWriter()
      modifies this`writerClosed
      ensures writerClosed
    {
      writerClosed := true;
    }

    /** close() on the read end; closing twice is harmless. */
    method CloseReader()
      modifies this`readerClosed
      ensures readerClosed
    {
      readerClosed := true;
    }

    /** read(size) on the read end. The caller's thread is suspended until
        the call can return; the precondition is that moment. */
    method Read(size: Limit) returns (r: Result<seq<T>>)
      requires readerClosed || ReadReady(size, buffer, writerClosed)
      modifies this`buffer, this`delivered
      ensures readerClosed ==> r == Err(ClosedFile) && buffer == old(buffer) && delivered == old(delivered)
      ensures !readerClosed ==> r.Ok? && old(buffer) == r.value + buffer
      ensures !readerClosed ==> |r.value| == ReadAmount(size, |old(buffer)|)
      ensures !readerClosed ==> delivered == old(delivered) + r.value
    {
      if readerClosed {
        return Err(ClosedFile);
      }
      var k := ReadAmount(size, |buffer|);
      r := Ok(buffer[..k]);
      assert buffer == buffer[..k] + buffer[k..];
      buffer, delivered := buffer[k..], delivered + buffer[..k];
    }

    /** readline(limit) on the read end, `nl` being the newline element. */
    method ReadLine(limit: Limit, nl: T) returns (r: Result<seq<T>>)
      requires readerClosed || LineReady(limit, buffer, nl, writerClosed)
      modifies this`buffer, this`delivered
      ensures readerClosed ==> r == Err(ClosedFile) && buffer == old(buffer) && delivered == old(delivered)
      ensures !readerClosed ==> r.Ok? && old(buffer) == r.value + buffer
      ensures !readerClosed ==> |r.value| == LineAmount(limit, old(buffer), nl)
      ensures !readerClosed ==> delivered == old(delivered) + r.value
    {
      if readerClosed {
        return Err(ClosedFile);
      }
      var k := LineAmount(limit, buffer, nl);
      r := Ok(buffer[..k]);
      assert buffer == buffer[..k] + buffer[k..];
      buffer, delivered := buffer[k..], delivered + buffer[..k];
    }
  }
}
