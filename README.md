# posti, modelled in Dafny

posti turns a producer that only knows how to write into something a consumer reads at its own pace. `get_reader` runs the producer on a thread of its own. The producer writes into the write end of an OS pipe, wrapped in `_ChattyFileWrapper` so that `tell()` works. The consumer gets the read end, wrapped in `_HystericalFileWrapper`. That wrapper replays, after each read, the exception the producer raised, which `run_writer` records through `set_ex`. `iterator` and `lines_iterator` drain the read end in chunks or in lines.

The model is imperative, like the source:

- `Conduit.Fifo` is the pipe with a buffered file object on each end. It is a class with a buffer and one closed flag per end.
- `FileWrappers.ChattyWriter` and `FileWrappers.HystericalReader` are the two wrappers. They are classes whose methods update the position counter and the exception slot.
- `Posti.WriterThread` is `run_writer` on its thread. It advances one write at a time.
- `Posti.GetReader` and `Posti.ExitReader` are the two halves of `get_reader`'s with block.
- `Posti.Iterator` and `Posti.LinesIterator` are the generators. Their loops carry invariants.

Both threads are interleaved explicitly. A `schedule` says how many steps the producer's thread takes before each read of the consumer. A read that has to wait lets the producer run until it can return. Each contract about the iterators holds for every schedule. A few of them hold only for schedules in which the producer ends before the first read (`ProducerFirst`). A consumer that leaves a generator early is modelled by `wanted`, the number of items it takes. `Some(0)` means the generator is closed before its first item, so nothing runs at all.

The pipe's file objects are not part of this model, so what they do is assumed. These are the assumptions, stated in `conduit.dfy`:

- A write appends to the buffer, and fails with a broken pipe once the read end is closed.
- `read(n)` waits until `n` elements are there or the stream has ended, then takes them. A buffered reader on a blocking pipe does this in binary and in text mode. The massive-writer test of iterator (tests.py:123-133) depends on it: every chunk starts with `1234567890`.
- `read()` waits for the end of the stream and takes everything.
- `readline(n)` takes up to and including the first newline, or at most `n` elements, or what is left at the end of the stream.

Binary and text mode are the same model over different elements: bytes or characters. The scenarios write byte strings with the characters they spell.

A write that fails with a broken pipe after the consumer closed the read end is not swallowed by the runner. `run_writer` records it in the slot and re-raises it, exactly like a producer's own exception (posti.py:59-63). The consumer never sees it, because any read on the closed read end fails first.

## Model

| member | source | states |
|---|---|---|
| Sequences.ConcatLength | posti.py:17-23 | the running total of the write lengths equals the length of the stream they write |
| Sequences.LineEndIsLine | posti.py:40-44 | what readline takes from the buffer is one line: non-empty, with no newline before its end, ending in the first newline when there is one, and the whole buffer when there is none |
| Sequences.SplitLinesConcat | posti.py:104-111 | the lines of a stream, put back together, give the stream |
| Sequences.SplitLinesAreLines | posti.py:104-111 | every line of a stream is non-empty with no newline before its end, and all lines but the last end in a newline |
| Sequences.SplitLinesOfLines | posti.py:104-111 | splitting well-formed lines that were put together gives those lines back |
| Sequences.LinesPrefix | posti.py:107-111 | well-formed lines that start a stream, with an unterminated one only at its very end, are the first lines of that stream |
| Sequences.AppendLine | posti.py:107-111 | one more line read after a line boundary extends the prefix of the stream's lines |
| Sequences.AllLines | posti.py:107-111 | a prefix of the stream's lines that makes up the whole stream is all of its lines |
| Conduit.ReadAmount | posti.py:35 | a read takes no more than is there and no more than was asked, and less than was asked only when it takes all there is; read() without a size takes all there is |
| Conduit.Fifo.constructor | posti.py:73 | os.pipe() gives an empty pipe with both ends open |
| Conduit.Fifo.CloseWriter | posti.py:58 | leaving run_writer's with block closes the write end; closing it twice is harmless |
| Conduit.Fifo.Write | posti.py:20 | the data go to the back of the buffer; a closed write end or a closed read end makes the write fail and leaves the buffer as it was |
| Conduit.Fifo.Read | posti.py:35 | the read returns the front of the buffer and removes it, in the amount ReadAmount gives; on a closed read end it fails with nothing consumed |
| Conduit.Fifo.ReadLine | posti.py:41 | the same as Read, for one line of at most the limit |
| FileWrappers.ChattyWriter.constructor | posti.py:13-15 | a new wrapper is at position 0 and has written nothing |
| FileWrappers.ChattyWriter.Write | posti.py:17-20 | the position grows by the length of the data even when the write fails; the data go unchanged to the pipe, and the result is the pipe's own |
| FileWrappers.ChattyWriter.Tell | posti.py:22-23 | tell() is the length of everything handed to write so far |
| FileWrappers.HystericalReader.constructor | posti.py:30-32 | the wrapper reads from the given pipe, and its slot starts empty |
| FileWrappers.HystericalReader.SetException | posti.py:77-78 | set_ex fills the slot with the exception |
| FileWrappers.HystericalReader.Read | posti.py:34-38 | the pipe's read happens and consumes its data; with the slot empty its result is returned unchanged; otherwise the recorded exception is raised instead, unless the pipe's read failed first |
| FileWrappers.HystericalReader.ReadLine | posti.py:40-44 | the same as Read, over the pipe's readline |
| FileWrappers.HystericalReader.ReadLines | posti.py:46-50 | readlines(h) does exactly what readline(h) does: it returns one line |
| FileWrappers.HystericalReader.ReadAllLines | posti.py:46-50 | corrected readlines(): all the lines of the rest of the stream, which put together give the stream, or the recorded exception |
| FileWrappers.HystericalReader.Close | posti.py:88-89 | close() closes the read end, through the wrapper's pass-through |
| Posti.WriterThread.constructor | posti.py:81-82 | the new thread has accepted no write, holds the producer and the slot, and has not ended |
| Posti.WriterThread.Step | posti.py:56-63 | exactly one write goes through, or the thread ends with no further write; it keeps the thread invariant: what the pipe received is the accepted writes in order, the slot holds the thread's exception, the write end is closed exactly when the thread has ended, and the thread ended after all writes with the producer's outcome or at a write that found the read end closed |
| Posti.WriterThread.End | posti.py:58-63 | the thread ends with the producer's exception, or a failed write's, recorded in the slot before the write end is closed, keeping the thread invariant |
| Posti.WriterThread.Advance | posti.py:56-63 | the thread keeps its invariant, and has ended once it was given as many steps as it had left |
| Posti.WriterThread.AwaitRead | posti.py:35 | the producer runs until read(size) can return, and nothing changes if it had already ended |
| Posti.WriterThread.AwaitLine | posti.py:41 | the producer runs until readline can return |
| Posti.WriterThread.Join | posti.py:86-87 | join() returns once the thread has ended, with its invariant |
| Posti.GetReader | posti.py:73-84 | the with block starts over a fresh, empty pipe whose read end is open, with the thread started and nothing written yet |
| Posti.ExitReader | posti.py:84-89 | the read end is closed on every path; a block that ends normally with wait_writer joins the producer first, so all its writes went through and it ended with its own outcome |
| Posti.FirstRead | posti.py:34-38 | the first read of a stream returns its front, in the amount ReadAmount gives, or the producer's exception; a read that reaches the end of the stream always sees the producer's outcome |
| Posti.ReadOnce | posti.py:66-89 | a with block over get_reader that reads once gets the front of the stream or the producer's exception; with wait_writer and no exception, all writes went through and the producer ended with its own outcome; an unfinished producer ends with a broken pipe once the read end is closed |
| Posti.ExtendChunks | posti.py:98-101 | a chunk after full chunks keeps the chunk list well-formed |
| Posti.AwaitChunkAndRead | posti.py:98 | the consumer's read(chunk_size) takes the next elements of the stream, never more than the chunk size; it takes fewer only at the end of the stream; an empty result means the producer ended normally after all its writes, and an exception means it raised that exception |
| Posti.NextChunk | posti.py:98-101 | one turn of the loop: a non-empty chunk extends the chunks read so far, which still make up exactly what was taken from the pipe |
| Posti.DrainChunks | posti.py:97-101 | the loop yields non-empty chunks within the chunk size, all full but the last; at the end of the stream they make up everything the producer wrote, or the loop raises the producer's exception |
| Posti.Iterator | posti.py:92-101 | iterator yields non-empty chunks of at most chunk_size, all full but the last, which is short only at the end of the stream; read to the end, they make up exactly what the producer wrote, or iteration raises the producer's exception; a consumer that stops early gets a prefix of the stream and leaves the producer to end with a broken pipe unless it had finished; when the producer ends before the first read, a failing producer yields nothing before its exception |
| Posti.AwaitLineAndRead | posti.py:108 | the consumer's readline() takes one line of the stream; an unterminated one is taken only at the end of the stream |
| Posti.NextLine | posti.py:108-111 | one turn of the loop: a non-empty line is the next line of the stream, and an empty read means all lines have been read |
| Posti.DrainLines | posti.py:107-111 | the loop yields the first lines of the stream, and all of them when it reaches the end, or it raises the producer's exception |
| Posti.LinesIterator | posti.py:104-111 | lines_iterator yields the stream's lines in order, all of them when read to the end, or raises the producer's exception; a consumer that stops early gets the first lines |
| Scenarios.MassiveWritten | tests.py:124-127 | 1024 writes of ten kilobytes of digits make ten megabytes of "1234567890" repeated |
| Scenarios.DummyWriterRead | tests.py:29-34 | read() on a producer that writes nothing returns nothing, under every schedule |
| Scenarios.TinyWriterRead | tests.py:36-48 | read() returns "test", with or without wait_writer; with it the producer has ended normally |
| Scenarios.IncompleteRead | tests.py:64-86 | read(10) on the massive producer returns "1234567890"; if its writes did not all go through, its thread ends with a broken pipe |
| Scenarios.ExceptionRead | tests.py:88-98 | read(10) on a producer that writes "test" and raises ValueError raises ValueError under every schedule |
| Scenarios.DummyIterator | tests.py:109-114 | iterator over a producer that writes nothing yields nothing |
| Scenarios.TinyIterator | tests.py:116-121 | iterator over "test" yields exactly one chunk, "test" |
| Scenarios.MassiveChunks | tests.py:130-133 | chunks of 2560 over the massive stream each start with "1234567890" |
| Scenarios.MassiveIterator | tests.py:123-133 | iterator(chunk_size=2560) over the massive producer yields ten megabytes in all, each chunk starting with "1234567890" |
| Scenarios.FirstChunk | tests.py:150-151 | a single chunk of the default size from the front of the massive stream is full and starts with "1234567890" |
| Scenarios.IncompleteIterator | tests.py:135-158 | left after one chunk, iterator has yielded one full chunk starting with "1234567890", and the producer ends with a broken pipe unless all its writes went through |
| Scenarios.ExceptionIterator | tests.py:160-170 | iterator(chunk_size=2) over the failing producer raises ValueError under every schedule, and yields nothing first when the producer ends before the first read |
| Scenarios.FourLinesSplit | tests.py:181-185 | four writes of "test\n" split into those four lines |
| Scenarios.LinesText | tests.py:179-188 | lines_iterator over four writes of "test\n" yields exactly those four lines, under every schedule |
| Scenarios.ReadLinesStopsAtFirstLine | posti.py:46-50 | readlines() on a finished stream of two lines returns the first line alone |
| Scenarios.ReadAllLinesReturnsBoth | posti.py:46-50 | the corrected readlines() on the same stream returns both lines |

## Left out

- Threads, the interpreter lock and the timing of the two threads are replaced by the schedule. The sleeps of the tests have no counterpart.
- Scenarios.IncompleteRead, Scenarios.IncompleteIterator: OS pipe capacity is not modelled: a write never blocks. So a producer is never shown to be stopped by a full pipe. The "interrupted" checks of tests.py:64-86 and tests.py:135-158 appear only as "a producer whose writes did not all go through ends with a broken pipe".
- Scenarios.ExceptionIterator: the buffering of the write end is not modelled: a write reaches the pipe at once. In the source, the failing producer's "test" stays buffered until the write end is closed, after the slot is set. That is why the exception test of iterator sees no chunk. Here, that holds only when the producer ends before the first read.
- Posti.ExitReader, Posti.ReadOnce: with no pipe capacity, the wait_writer join always returns, so these promise that all writes went through after a normal exit. In the source, get_reader demands that a consumer using wait_writer reads the stream to its end (posti.py:71). A consumer that stops early then blocks forever in join() (posti.py:86-87), because the producer is stuck on a full pipe. The model does not capture this deadlock.
- Exceptions from closing the write end (a flush into a broken pipe) are not modelled.
- The exception run_writer re-raises on its thread, and its printing to stderr, are not modelled. The thread's `outcome` records it.
- Exceptions that are not subclasses of Exception pass run_writer without reaching the slot. The model treats every producer failure as an Exception.
- The `__getattr__` pass-through of both wrappers (posti.py:25-26, 52-53) is modelled only for close().
- Text mode's encoding and newline translation are not modelled. Text is a sequence of characters, and the newline is '\n'.
- A size below -1 for read and readline is not modelled. Limit has -1 (Unlimited) and sizes from 0 up.
- The get_reader massive-writer test (tests.py:50-62) is a consumer loop of read(32 * 1024) until an empty read. It is the loop of iterator, so Posti.Iterator's contracts cover it; it has no scenario of its own.
- The text-mode tests (tests.py:100-105, 172-177) are TinyWriterRead and TinyIterator again, since both modes share one model.
- Posti.LinesIterator: it has no clause for the schedule in which the producer ends before the first read, unlike Posti.Iterator.
- FileWrappers.HystericalReader.ReadAllLines: it models the corrected readlines() without a hint only; Python's size hint is not modelled.

## Findings

| source | as written | input that shows it | evidently intended | confidence | as-written member | corrected member |
|---|---|---|---|---|---|---|
| posti.py:46-50 | readlines(h) calls the file's readline(h) and returns one line | a finished stream "test\ntest\n": readlines() returns "test\n" | readlines() returns the list of all remaining lines, ["test\n", "test\n"] | not executed; high, since the method differs from readline only in its name | Scenarios.ReadLinesStopsAtFirstLine (of FileWrappers.HystericalReader.ReadLines) | FileWrappers.HystericalReader.ReadAllLines, shown in Scenarios.ReadAllLinesReturnsBoth |
