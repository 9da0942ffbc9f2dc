/** The producers of the test suite, and what get_reader, iterator and
    lines_iterator do with them under every schedule of the two threads.
    Byte strings are written with the characters they spell: binary and
    text mode are the same model over different elements. */
module Scenarios {
  import opened Sequences
  import opened Conduit
  import opened FileWrappers
  import opened Posti

  const TEST: string := "test"
  const LINE: string := "test\n"
  const DIGITS: string := "1234567890"
  const VALUE_ERROR: Exception := Raised("ValueError")

  /** `k` copies of `s`, one after the other. */
  function Repeat<T>(s: seq<T>, k: nat): seq<T>
  {
    if k == 0 then [] else Repeat(s, k - 1) + s
  }

  lemma {:induction false} RepeatLength<T>(s: seq<T>, k: nat)
    ensures |Repeat(s, k)| == k * |s|
  {
    if k > 0 {
      RepeatLength(s, k - 1);
      assert k * |s| == (k - 1) * |s| + |s|;
    }
  }

  /** Writing `k` copies of `block` writes `k` copies of it. */
  lemma {:induction false} ConcatCopies<T>(block: seq<T>, k: nat)
    ensures Concat(seq(k, _ => block)) == Repeat(block, k)
  {
    if k > 0 {
      assert seq(k, _ => block)[..k - 1] == seq(k - 1, _ => block);
      ConcatCopies(block, k - 1);
    }
  }

  lemma {:induction false} RepeatAdd<T>(s: seq<T>, a: nat, b: nat)
    ensures Repeat(s, a + b) == Repeat(s, a) + Repeat(s, b)
  {
    if b > 0 {
      RepeatAdd(s, a, b - 1);
      AppendAssoc(Repeat(s, a), Repeat(s, b - 1), s);
    }
  }

  lemma {:induction false} RepeatRepeat<T>(s: seq<T>, m: nat, k: nat)
    ensures Repeat(Repeat(s, m), k) == Repeat(s, m * k)
  {
    if k > 0 {
      RepeatRepeat(s, m, k - 1);
      RepeatAdd(s, m * (k - 1), m);
      assert m * (k - 1) + m == m * k;
    }
  }

  /** The copy at position `q` of `k` copies of `s`. */
  lemma {:induction false} RepeatWindow<T>(s: seq<T>, k: nat, q: nat)
    requires q < k
    ensures q * |s| + |s| <= |Repeat(s, k)|
    ensures Repeat(s, k)[q * |s| .. q * |s| + |s|] == s
  {
    var front := Repeat(s, k - 1);
    assert Repeat(s, k) == front + s;
    RepeatLength(s, k - 1);
    var at := q * |s|;
    if q < k - 1 {
      RepeatWindow(s, k - 1, q);
      assert (front + s)[at .. at + |s|] == front[at .. at + |s|];
    } else {
      assert at == |front|;
      assert (front + s)[at .. at + |s|] == s;
    }
  }

  /** Where chunk `i` sits in the stream the chunks make up. */
  lemma ChunkPosition<T>(chunks: seq<seq<T>>, i: nat)
    requires i < |chunks|
    ensures |Concat(chunks[..i])| + |chunks[i]| <= |Concat(chunks)|
    ensures Concat(chunks)[|Concat(chunks[..i])| .. |Concat(chunks[..i])| + |chunks[i]|] == chunks[i]
  {
    var before, chunk, after := Concat(chunks[..i]), chunks[i], Concat(chunks[i + 1..]);
    assert Concat(chunks[i..]) == chunk + after by {
      assert chunks[i..] == [chunk] + chunks[i + 1..];
      ConcatCons(chunk, chunks[i + 1..]);
    }
    assert Concat(chunks) == before + (chunk + after) by {
      ConcatSplit(chunks, i);
    }
    assert (before + (chunk + after))[|before| .. |before| + |chunk|] == chunk;
  }

  /** The chunks before `i` all have `c` elements. */
  lemma {:induction false} FullPrefixLength<T>(chunks: seq<seq<T>>, i: nat, c: nat)
    requires i <= |chunks|
    requires forall j :: 0 <= j < i ==> |chunks[j]| == c
    ensures |Concat(chunks[..i])| == i * c
  {
    if i > 0 {
      FullPrefixLength(chunks, i - 1, c);
      assert chunks[..i][..i - 1] == chunks[..i - 1];
      assert i * c == (i - 1) * c + c;
    }
  }

  /** The producer that writes nothing. */
  function Silent(): Producer<char>
  {
    Producer([], None)
  }

  /** The producer that writes "test". */
  function Tiny(): Producer<char>
  {
    Producer([TEST], None)
  }

  /** The producer that writes "test", then raises ValueError. */
  function Failing(): Producer<char>
  {
    Producer([TEST], Some(VALUE_ERROR))
  }

  /** The producer that writes 1024 times ten kilobytes of digits. */
  function Massive(): Producer<char>
  {
    Producer(seq(1024, _ => Repeat(DIGITS, 1024)), None)
  }

  /** The producer that writes four lines "test\n". */
  function FourLines(): Producer<char>
  {
    Producer([LINE, LINE, LINE, LINE], None)
  }

  /** What the massive producer writes: ten megabytes of digits, "1234567890" over and over. */
  lemma MassiveWritten()
    ensures Written(Massive()) == Repeat(DIGITS, 1024 * 1024)
    ensures |Written(Massive())| == 10 * 1024 * 1024
  {
    ConcatCopies(Repeat(DIGITS, 1024), 1024);
    RepeatRepeat(DIGITS, 1024, 1024);
    RepeatLength(DIGITS, 1024 * 1024);
  }

  /** get_reader with the silent producer: read() returns nothing. */
  method DummyWriterRead(steps: nat, waitWriter: bool) returns (r: Result<string>)
    ensures r == Ok([])
  {
    var accepted, producerOutcome;
    r, accepted, producerOutcome := ReadOnce(Silent(), steps, Unlimited, waitWriter);
  }

  /** get_reader with the tiny producer: read() returns "test", and with
      wait_writer the producer has ended normally when the block ends. */
  method TinyWriterRead(steps: nat, waitWriter: bool) returns (r: Result<string>, accepted: nat, producerOutcome: Option<Exception>)
    ensures r == Ok(TEST)
    ensures waitWriter ==> accepted == 1 && producerOutcome == None
  {
    r, accepted, producerOutcome := ReadOnce(Tiny(), steps, Unlimited, waitWriter);
    assert Written(Tiny()) == TEST by { ConcatCons(TEST, []); }
    assert Written(Tiny())[..ReadAmount(Unlimited, 4)] == TEST;
  }

  /** get_reader with the massive producer, left after read(10): the read
      returns the first ten digits, and the producer's thread, once the
      read end is closed, ends with a broken pipe unless all its writes
      went through before. */
  method IncompleteRead(steps: nat) returns (r: Result<string>, accepted: nat, producerOutcome: Option<Exception>)
    ensures r == Ok(DIGITS)
    ensures accepted < 1024 ==> producerOutcome == Some(BrokenPipe)
  {
    r, accepted, producerOutcome := ReadOnce(Massive(), steps, AtMost(10), false);
    MassiveWritten();
    RepeatWindow(DIGITS, 1024 * 1024, 0);
  }

  /** get_reader with the failing producer: read(10) raises ValueError,
      whatever the schedule, since it waits for the end of the stream. */
  method ExceptionRead(steps: nat) returns (r: Result<string>)
    ensures r == Err(VALUE_ERROR)
  {
    var accepted, producerOutcome;
    r, accepted, producerOutcome := ReadOnce(Failing(), steps, AtMost(10), false);
    assert Written(Failing()) == TEST by { ConcatCons(TEST, []); }
  }

  /** iterator with the silent producer yields nothing. */
  method DummyIterator(schedule: seq<nat>) returns (chunks: seq<string>)
    ensures chunks == []
  {
    var raised, accepted, producerOutcome;
    chunks, raised, accepted, producerOutcome := Iterator(Silent(), DEFAULT_CHUNK_SIZE, schedule, None);
  }

  /** iterator with the tiny producer yields "test" once. */
  method TinyIterator(schedule: seq<nat>) returns (chunks: seq<string>)
    ensures chunks == [TEST]
  {
    var raised, accepted, producerOutcome;
    chunks, raised, accepted, producerOutcome := Iterator(Tiny(), DEFAULT_CHUNK_SIZE, schedule, None);
    assert Written(Tiny()) == TEST by { ConcatCons(TEST, []); }
    assert Concat(chunks) == TEST;
    assert chunks != [];
    assert chunks == [chunks[0]] + chunks[1..];
    ConcatCons(chunks[0], chunks[1..]);
    assert |chunks| == 1;
    assert chunks == [chunks[0]];
    assert Concat(chunks) == chunks[0];
  }

  /** A chunk that follows full chunks of 2560 in the massive producer's
      stream, and holds ten elements at least, starts with "1234567890". */
  lemma MassiveChunk(chunks: seq<string>, i: nat)
    requires Concat(chunks) == Repeat(DIGITS, 1024 * 1024)
    requires i < |chunks| && 10 <= |chunks[i]|
    requires forall j :: 0 <= j < i ==> |chunks[j]| == 2560
    ensures DIGITS <= chunks[i]
  {
    FullPrefixLength(chunks, i, 2560);
    ChunkPosition(chunks, i);
    RepeatLength(DIGITS, 1024 * 1024);
    RepeatWindow(DIGITS, 1024 * 1024, 256 * i);
    assert (256 * i) * |DIGITS| == i * 2560;
    assert chunks[i][..10] == Concat(chunks)[i * 2560 .. i * 2560 + 10];
  }

  /** Chunks of 2560 over the massive producer's stream: each starts with "1234567890". */
  lemma MassiveChunks(chunks: seq<string>)
    requires Concat(chunks) == Repeat(DIGITS, 1024 * 1024)
    requires forall i :: 0 <= i < |chunks| ==> chunks[i] != [] && Fits(AtMost(2560), |chunks[i]|)
    requires forall i :: 0 <= i < |chunks| - 1 ==> !Short(AtMost(2560), |chunks[i]|)
    ensures forall i :: 0 <= i < |chunks| ==> DIGITS <= chunks[i]
  {
    RepeatLength(DIGITS, 1024 * 1024);
    if chunks != [] {
      var n := |chunks|;
      FullPrefixLength(chunks, n - 1, 2560);
      assert |Concat(chunks)| == |Concat(chunks[..n - 1])| + |chunks[n - 1]|;
      assert n - 1 == 4095;
    }
    forall i | 0 <= i < |chunks|
      ensures DIGITS <= chunks[i]
    {
      MassiveChunk(chunks, i);
    }
  }

  /** iterator(chunk_size=2560) over the massive producer: ten megabytes in
      all, each chunk starting with "1234567890". */
  method MassiveIterator(schedule: seq<nat>) returns (chunks: seq<string>)
    ensures |Concat(chunks)| == 10 * 1024 * 1024
    ensures forall i :: 0 <= i < |chunks| ==> DIGITS <= chunks[i]
  {
    var raised, accepted, producerOutcome;
    chunks, raised, accepted, producerOutcome := Iterator(Massive(), AtMost(2560), schedule, None);
    MassiveWritten();
    MassiveChunks(chunks);
  }

  /** iterator over the massive producer, left after its first chunk: the
      chunk is a full one of 32 kilobytes starting with "1234567890", and
      the producer's thread, once the read end is closed, ends with a
      broken pipe unless all its writes went through before. */
  method IncompleteIterator(schedule: seq<nat>) returns (chunks: seq<string>, accepted: nat, producerOutcome: Option<Exception>)
    ensures |chunks| == 1 && |chunks[0]| == 32 * 1024 && DIGITS <= chunks[0]
    ensures accepted < 1024 ==> producerOutcome == Some(BrokenPipe)
  {
    var raised;
    chunks, raised, accepted, producerOutcome := Iterator(Massive(), DEFAULT_CHUNK_SIZE, schedule, Some(1));
    MassiveWritten();
    ConcatSplit(Massive().writes, accepted);
    FirstChunk(chunks, Written(Massive()));
  }

  /** One chunk of the default size, taken from the front of the massive
      producer's stream, is a full one starting with "1234567890". */
  lemma FirstChunk(chunks: seq<string>, stream: string)
    requires stream == Repeat(DIGITS, 1024 * 1024)
    requires |chunks| <= 1 && Concat(chunks) <= stream
    requires chunks == [] ==> Concat(chunks) == stream
    requires forall i :: 0 <= i < |chunks| ==> chunks[i] != [] && Fits(DEFAULT_CHUNK_SIZE, |chunks[i]|)
    requires chunks != [] && Short(DEFAULT_CHUNK_SIZE, |chunks[|chunks| - 1]|) ==> Concat(chunks) == stream
    ensures |chunks| == 1 && |chunks[0]| == 32 * 1024 && DIGITS <= chunks[0]
  {
    RepeatLength(DIGITS, 1024 * 1024);
    assert chunks != [];
    assert chunks == [chunks[0]];
    assert Concat(chunks) == chunks[0];
    assert |chunks[0]| == 32 * 1024;
    RepeatWindow(DIGITS, 1024 * 1024, 0);
    assert chunks[0][..10] == stream[..10];
  }

  /** iterator(chunk_size=2) over the failing producer raises ValueError,
      whatever the schedule; when the producer has ended before the first
      read, nothing is yielded before. */
  method ExceptionIterator(schedule: seq<nat>) returns (chunks: seq<string>, raised: Option<Exception>)
    ensures raised == Some(VALUE_ERROR)
    ensures ProducerFirst(Failing(), schedule) ==> chunks == []
  {
    var accepted, producerOutcome;
    chunks, raised, accepted, producerOutcome := Iterator(Failing(), AtMost(2), schedule, None);
  }

  /** lines_iterator over the producer of four lines yields the four lines. */
  method LinesText(schedule: seq<nat>) returns (lines: seq<string>)
    ensures lines == [LINE, LINE, LINE, LINE]
  {
    var raised, accepted, producerOutcome;
    lines, raised, accepted, producerOutcome := LinesIterator(FourLines(), schedule, None);
    FourLinesSplit();
  }

  /** The four lines written come back as they were written. */
  lemma FourLinesSplit()
    ensures SplitLines(Written(FourLines()), NEWLINE) == [LINE, LINE, LINE, LINE]
  {
    var writes := FourLines().writes;
    assert IsLine(LINE, NEWLINE) && Terminated(LINE, NEWLINE);
    assert forall i :: 0 <= i < |writes| ==> writes[i] == LINE;
    SplitLinesOfLines(writes, NEWLINE);
  }

  /** A reader over a finished stream of two lines "test\n". */
  method TwoLineReader() returns (rfile: HystericalReader<char>)
    ensures fresh(rfile) && fresh(rfile.source)
    ensures rfile.source.buffer == LINE + LINE && rfile.source.writerClosed && !rfile.source.readerClosed
    ensures rfile.exception == None
  {
    var pipe := new Fifo<char>();
    var written := pipe.Write(LINE + LINE);
    pipe.CloseWriter();
    rfile := new HystericalReader(pipe);
  }

  /** readlines() on a stream of two lines returns the first line alone,
      not the list of both. */
  method ReadLinesStopsAtFirstLine() returns (r: Result<string>)
    ensures r == Ok(LINE)
  {
    var rfile := TwoLineReader();
    ghost var underlying;
    r, underlying := rfile.ReadLines(Unlimited, NEWLINE);
    LineEndOfLine(LINE, LINE, NEWLINE);
    assert r.value == (LINE + LINE)[..|LINE|];
  }

  /** The corrected readlines() on the same stream returns both lines. */
  method ReadAllLinesReturnsBoth() returns (r: Result<seq<string>>)
    ensures r == Ok([LINE, LINE])
  {
    var rfile := TwoLineReader();
    ghost var underlying;
    r, underlying := rfile.ReadAllLines(NEWLINE);
    assert r.Ok?;
    assert IsLine(LINE, NEWLINE) && Terminated(LINE, NEWLINE);
    assert r.value == SplitLines(LINE + LINE, NEWLINE) by {
      assert Concat(r.value) == LINE + LINE;
      SplitLinesOfLines(r.value, NEWLINE);
    }
    assert [LINE, LINE] == SplitLines(LINE + LINE, NEWLINE) by {
      assert Concat([LINE, LINE]) == LINE + LINE by {
        ConcatCons(LINE, [LINE]);
        ConcatCons(LINE, []);
      }
      SplitLinesOfLines([LINE, LINE], NEWLINE);
    }
  }
}
