/** Facts about streams built from blocks: the data a series of writes puts
    into a stream, its length, and how a stream splits into lines. */
module Sequences {

  /** The stream made of `blocks` written one after another. */
  function Concat<T>(blocks: seq<seq<T>>): seq<T>
  {
    if blocks == [] then [] else Concat(blocks[..|blocks| - 1]) + blocks[|blocks| - 1]
  }

  /** The sum of the lengths of `blocks`: what a position counter reaches
      when it adds the length of every block it is handed. */
  function TotalLength<T>(blocks: seq<seq<T>>): nat
  {
    if blocks == [] then 0 else TotalLength(blocks[..|blocks| - 1]) + |blocks[|blocks| - 1]|
  }

  lemma {:induction false} ConcatAppend<T>(a: seq<seq<T>>, b: seq<seq<T>>)
    ensures Concat(a + b) == Concat(a) + Concat(b)
    decreases |b|
  {
    if b == [] {
      assert a + b == a;
    } else {
      var front, last := b[..|b| - 1], b[|b| - 1];
      calc {
        Concat(a + b);
      == { assert (a + b)[..|a + b| - 1] == a + front; }
        Concat(a + front) + last;
      == { ConcatAppend(a, front); }
        (Concat(a) + Concat(front)) + last;
      == { AppendAssoc(Concat(a), Concat(front), last); }
        Concat(a) + (Concat(front) + last);
      }
    }
  }

  /** Writing the first `i` blocks gives a prefix of writing them all, and the
      rest of the stream is what the remaining blocks add. */
  lemma ConcatSplit<T>(blocks: seq<seq<T>>, i: nat)
    requires i <= |blocks|
    ensures Concat(blocks) == Concat(blocks[..i]) + Concat(blocks[i..])
    ensures Concat(blocks[..i]) <= Concat(blocks)
  {
    assert blocks == blocks[..i] + blocks[i..];
    ConcatAppend(blocks[..i], blocks[i..]);
  }

  /** The counter of lengths equals the length of the stream. */
  lemma {:induction false} ConcatLength<T>(blocks: seq<seq<T>>)
    ensures |Concat(blocks)| == TotalLength(blocks)
    decreases |blocks|
  {
    if blocks != [] {
      ConcatLength(blocks[..|blocks| - 1]);
    }
  }

  /** The stream of a first block followed by more blocks. */
  lemma ConcatCons<T>(block: seq<T>, blocks: seq<seq<T>>)
    ensures Concat([block] + blocks) == block + Concat(blocks)
  {
    ConcatAppend([block], blocks);
    assert [block][..0] == [];
  }

  /** The stream of some blocks followed by one more block. */
  lemma ConcatSnoc<T>(blocks: seq<seq<T>>, block: seq<T>)
    ensures Concat(blocks + [block]) == Concat(blocks) + block
  {
    assert (blocks + [block])[..|blocks|] == blocks;
  }

  /** The length of the first line of `s`: up to and including the first
      `nl`, or all of `s` when it holds no `nl`. */
  function LineEnd<T(==)>(s: seq<T>, nl: T): (k: nat)
    ensures k <= |s|
    ensures s != [] ==> 0 < k
  {
    if s == [] then 0
    else if s[0] == nl then 1
    else 1 + LineEnd(s[1..], nl)
  }

  /** The first line of `s` is a line, terminated when `s` holds `nl`, and
      all of `s` otherwise. */
  lemma {:induction false} LineEndIsLine<T>(s: seq<T>, nl: T)
    ensures s != [] ==> IsLine(s[..LineEnd(s, nl)], nl)
    ensures nl in s ==> Terminated(s[..LineEnd(s, nl)], nl)
    ensures nl !in s ==> LineEnd(s, nl) == |s|
    decreases |s|
  {
    if s != [] && s[0] != nl {
      var k, rest := LineEnd(s, nl), s[1..];
      LineEndIsLine(rest, nl);
      assert s[..k] == [s[0]] + rest[..k - 1];
      assert nl in s ==> nl in rest;
      if rest != [] {
        assert s[..k][..k - 1] == [s[0]] + rest[..k - 1][..k - 2];
      }
    }
  }

  /** A line: non-empty, with no `nl` before its last element. */
  predicate IsLine<T(==)>(line: seq<T>, nl: T)
  {
    |line| > 0 && nl !in line[..|line| - 1]
  }

  /** A line that ends with `nl`. */
  predicate Terminated<T(==)>(line: seq<T>, nl: T)
  {
    |line| > 0 && line[|line| - 1] == nl
  }

  /** `s` cut after every `nl`; the last line lacks `nl` when `s` does not end with one. */
  function SplitLines<T(==)>(s: seq<T>, nl: T): seq<seq<T>>
    decreases |s|
  {
    if s == [] then [] else [s[..LineEnd(s, nl)]] + SplitLines(s[LineEnd(s, nl)..], nl)
  }

  /** SplitLines loses nothing and reorders nothing. */
  lemma {:induction false} SplitLinesConcat<T>(s: seq<T>, nl: T)
    ensures Concat(SplitLines(s, nl)) == s
    decreases |s|
  {
    if s != [] {
      var k := LineEnd(s, nl);
      var line, rest := s[..k], SplitLines(s[k..], nl);
      calc {
        Concat(SplitLines(s, nl));
      == { assert SplitLines(s, nl) == [line] + rest; }
        Concat([line] + rest);
      == { ConcatCons(line, rest); }
        line + Concat(rest);
      == { SplitLinesConcat(s[k..], nl); }
        line + s[k..];
      == { assert s == line + s[k..]; }
        s;
      }
    }
  }

  /** Every piece SplitLines cuts is a line, terminated unless it is the last. */
  lemma {:induction false} SplitLinesAreLines<T>(s: seq<T>, nl: T)
    ensures forall i :: 0 <= i < |SplitLines(s, nl)| ==> IsLine(SplitLines(s, nl)[i], nl)
    ensures forall i :: 0 <= i < |SplitLines(s, nl)| - 1 ==> Terminated(SplitLines(s, nl)[i], nl)
    decreases |s|
  {
    if s != [] {
      var k := LineEnd(s, nl);
      var line, rest := s[..k], SplitLines(s[k..], nl);
      var lines := SplitLines(s, nl);
      assert lines == [line] + rest;
      SplitLinesAreLines(s[k..], nl);
      forall i | 0 <= i < |lines|
        ensures IsLine(lines[i], nl)
        ensures i < |lines| - 1 ==> Terminated(lines[i], nl)
      {
        if i == 0 {
          LineEndIsLine(s, nl);
          assert IsLine(line, nl);
          assert rest != [] ==> Terminated(line, nl);
        } else {
          assert lines[i] == rest[i - 1];
        }
      }
    }
  }

  /** A line followed by anything it is allowed to precede ends where the line ends. */
  lemma {:induction false} LineEndOfLine<T>(line: seq<T>, tail: seq<T>, nl: T)
    requires IsLine(line, nl)
    requires Terminated(line, nl) || tail == []
    ensures LineEnd(line + tail, nl) == |line|
    decreases |line|
  {
    if |line| > 1 {
      assert (line + tail)[1..] == line[1..] + tail;
      LineEndOfLine(line[1..], tail, nl);
    }
  }

  /** Appending sequences is associative (stated apart so that proofs about
      lines need not rediscover it). */
  lemma AppendAssoc<X>(a: seq<X>, b: seq<X>, c: seq<X>)
    ensures a + (b + c) == (a + b) + c
  {
  }

  /** A non-empty sequence is its first element followed by the rest. */
  lemma FrontAndRest<X>(s: seq<X>)
    requires s != []
    ensures s == [s[0]] + s[1..]
  {
  }

  /** A line at the front of a stream is its first line. */
  lemma SplitLinesCons<T>(line: seq<T>, tail: seq<T>, nl: T)
    requires IsLine(line, nl)
    requires Terminated(line, nl) || tail == []
    ensures SplitLines(line + tail, nl) == [line] + SplitLines(tail, nl)
  {
    LineEndOfLine(line, tail, nl);
    assert (line + tail)[..|line|] == line;
    assert (line + tail)[|line|..] == tail;
  }

  /** Splitting whole lines followed by more data gives those lines, then the
      lines of the rest. */
  lemma {:induction false} SplitLinesAfter<T>(lines: seq<seq<T>>, rest: seq<T>, nl: T)
    requires forall i :: 0 <= i < |lines| ==> IsLine(lines[i], nl) && Terminated(lines[i], nl)
    ensures SplitLines(Concat(lines) + rest, nl) == lines + SplitLines(rest, nl)
    decreases |lines|
  {
    if lines == [] {
      assert Concat(lines) + rest == rest;
    } else {
      var line, more := lines[0], lines[1..];
      FrontAndRest(lines);
      ConcatCons(line, more);
      assert Concat(lines) + rest == line + (Concat(more) + rest);
      SplitLinesCons(line, Concat(more) + rest, nl);
      SplitLinesAfter(more, rest, nl);
      var tailLines := SplitLines(rest, nl);
      AppendAssoc([line], more, tailLines);
    }
  }

  /** Lines as SplitLines produces them are the only way to cut a stream into
      lines: splitting their concatenation gives them back. */
  lemma SplitLinesOfLines<T>(lines: seq<seq<T>>, nl: T)
    requires forall i :: 0 <= i < |lines| ==> IsLine(lines[i], nl)
    requires forall i :: 0 <= i < |lines| - 1 ==> Terminated(lines[i], nl)
    ensures SplitLines(Concat(lines), nl) == lines
  {
    if lines != [] {
      var n := |lines| - 1;
      var whole, last := lines[..n], lines[n];
      assert Concat(lines) == Concat(whole) + last by {
        assert lines == whole + [last];
        ConcatSnoc(whole, last);
      }
      assert SplitLines(last, nl) == [last] by {
        SplitLinesCons(last, [], nl);
        assert last + [] == last;
      }
      SplitLinesAfter(whole, last, nl);
      assert lines == whole + [last];
    }
  }

  /** Lines read one by one from the front of a stream `s` are the first
      lines of `s`, provided an unterminated line is only read at its end. */
  lemma LinesPrefix<T>(lines: seq<seq<T>>, s: seq<T>, nl: T)
    requires forall i :: 0 <= i < |lines| ==> IsLine(lines[i], nl)
    requires forall i :: 0 <= i < |lines| - 1 ==> Terminated(lines[i], nl)
    requires Concat(lines) <= s
    requires lines != [] && !Terminated(lines[|lines| - 1], nl) ==> Concat(lines) == s
    ensures lines <= SplitLines(s, nl)
  {
    if lines != [] && !Terminated(lines[|lines| - 1], nl) {
      SplitLinesOfLines(lines, nl);
    } else {
      var rest := s[|Concat(lines)|..];
      assert s == Concat(lines) + rest;
      SplitLinesAfter(lines, rest, nl);
    }
  }

  /** The first lines of a stream are lines, all terminated but the last. */
  lemma PrefixOfLines<T>(lines: seq<seq<T>>, s: seq<T>, nl: T)
    requires lines <= SplitLines(s, nl)
    ensures forall i :: 0 <= i < |lines| ==> IsLine(lines[i], nl)
    ensures forall i :: 0 <= i < |lines| - 1 ==> Terminated(lines[i], nl)
  {
    SplitLinesAreLines(s, nl);
    var all := SplitLines(s, nl);
    assert forall i :: 0 <= i < |lines| ==> lines[i] == all[i];
  }

  /** A line after terminated lines keeps them a series of lines. */
  lemma ExtendLines<T>(lines: seq<seq<T>>, line: seq<T>, nl: T)
    requires forall i :: 0 <= i < |lines| ==> IsLine(lines[i], nl) && Terminated(lines[i], nl)
    requires IsLine(line, nl)
    ensures forall i :: 0 <= i < |lines + [line]| ==> IsLine((lines + [line])[i], nl)
    ensures forall i :: 0 <= i < |lines + [line]| - 1 ==> Terminated((lines + [line])[i], nl)
  {
    var longer := lines + [line];
    assert forall i :: 0 <= i < |lines| ==> longer[i] == lines[i];
  }

  /** Reading one more line keeps the lines read a prefix of the lines of
      `s`: a line follows only a terminated one, and an unterminated line
      is read only at the end of `s`. */
  lemma AppendLine<T>(lines: seq<seq<T>>, line: seq<T>, s: seq<T>, nl: T)
    requires lines <= SplitLines(s, nl)
    requires lines != [] ==> Terminated(lines[|lines| - 1], nl)
    requires IsLine(line, nl)
    requires Concat(lines) + line <= s
    requires !Terminated(line, nl) ==> Concat(lines) + line == s
    ensures Concat(lines + [line]) == Concat(lines) + line
    ensures lines + [line] <= SplitLines(s, nl)
  {
    PrefixOfLines(lines, s, nl);
    ExtendLines(lines, line, nl);
    ConcatAppend(lines, [line]);
    assert [line][..0] == [];
    LinesPrefix(lines + [line], s, nl);
  }

  /** The first lines of `s` that together make all of `s` are all its lines. */
  lemma AllLines<T>(lines: seq<seq<T>>, s: seq<T>, nl: T)
    requires lines <= SplitLines(s, nl)
    requires Concat(lines) == s
    ensures lines == SplitLines(s, nl)
  {
    var all := SplitLines(s, nl);
    var rest := all[|lines|..];
    assert all == lines + rest;
    SplitLinesConcat(s, nl);
    ConcatAppend(lines, rest);
    SplitLinesAreLines(s, nl);
  }
}
