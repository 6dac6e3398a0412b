/** Splitting a byte stream into newline-terminated lines.

    The receive loop keeps a residual buffer, appends each received chunk to it,
    splits the result on the newline byte with Python's `split`, hands on every
    piece but the last and keeps the last one for the next chunk. */
module Demux {

  newtype byte = x: int | 0 <= x < 256
  type Bytes = seq<byte>

  /** The line terminator of the stream, `b'\n'`. */
  const Newline: byte := 10

  /** Python's `seq.split(sep)` with an explicit separator (for `bytes` and for
      `str` alike): the pieces between the separators, at least one piece, an
      empty piece for an empty input or for adjacent separators. */
  function Split<T(==)>(s: seq<T>, sep: T): (parts: seq<seq<T>>)
    ensures |parts| >= 1
    ensures forall i :: 0 <= i < |parts| ==> sep !in parts[i]
    ensures |parts| - 1 == Count(s, sep)
    decreases |s|
  {
    if s == [] then [[]]
    else
      var rest := Split(s[1..], sep);
      if s[0] == sep then [[]] + rest
      else [[s[0]] + rest[0]] + rest[1..]
  }

  /** Number of occurrences of `x` in `s`. */
  function Count<T(==)>(s: seq<T>, x: T): nat
  {
    if s == [] then 0 else (if s[0] == x then 1 else 0) + Count(s[1..], x)
  }

  /** Python's `sep.join(parts)`: the pieces with one separator between neighbours. */
  function Join<T>(parts: seq<seq<T>>, sep: T): seq<T>
    requires |parts| >= 1
  {
    if |parts| == 1 then parts[0] else parts[0] + [sep] + Join(parts[1..], sep)
  }

  /** The pieces, each followed by its terminator. */
  function Terminated<T>(lines: seq<seq<T>>, sep: T): seq<T>
  {
    if lines == [] then [] else Terminated(lines[..|lines| - 1], sep) + lines[|lines| - 1] + [sep]
  }

  /** Splitting loses, adds and reorders nothing: joining the pieces back gives the input. */
  lemma {:induction false} JoinSplit<T>(s: seq<T>, sep: T)
    ensures Join(Split(s, sep), sep) == s
    decreases |s|
  {
    if s != [] {
      var rest := Split(s[1..], sep);
      JoinSplit(s[1..], sep);
      if s[0] == sep {
        assert Split(s, sep)[1..] == rest;
      } else {
        var parts := Split(s, sep);
        assert parts[0] == [s[0]] + rest[0];
        if |rest| == 1 {
          assert Join(parts, sep) == [s[0]] + rest[0];
        } else {
          assert parts[1..] == rest[1..];
          assert Join(parts, sep) == [s[0]] + rest[0] + [sep] + Join(rest[1..], sep);
        }
        assert s == [s[0]] + s[1..];
      }
    }
  }

  /** The other direction: pieces without separators are recovered exactly from
      their join, so the split of a stream is the only way to cut it into lines. */
  lemma {:induction false} SplitJoin<T>(parts: seq<seq<T>>, sep: T)
    requires |parts| >= 1
    requires forall i :: 0 <= i < |parts| ==> sep !in parts[i]
    ensures Split(Join(parts, sep), sep) == parts
    decreases |parts|, |parts[0]|
  {
    var first := parts[0];
    if first == [] {
      if |parts| > 1 {
        SplitJoin(parts[1..], sep);
        assert Join(parts, sep) == [sep] + Join(parts[1..], sep);
        assert ([sep] + Join(parts[1..], sep))[1..] == Join(parts[1..], sep);
        assert parts == [[]] + parts[1..];
      }
    } else {
      var shorter := [first[1..]] + parts[1..];
      forall i | 0 <= i < |shorter| ensures sep !in shorter[i] {
        if i == 0 {
          assert forall k :: 0 <= k < |first[1..]| ==> first[1..][k] == first[k + 1];
        } else {
          assert shorter[i] == parts[i];
        }
      }
      SplitJoin(shorter, sep);
      var whole := Join(parts, sep);
      assert shorter[1..] == parts[1..];
      assert whole == [first[0]] + Join(shorter, sep) by {
        if |parts| > 1 {
          assert whole == first + [sep] + Join(parts[1..], sep);
          assert Join(shorter, sep) == first[1..] + [sep] + Join(parts[1..], sep);
        }
        assert first == [first[0]] + first[1..];
      }
      assert whole[0] == first[0] && whole[1..] == Join(shorter, sep);
      assert first[0] != sep by { assert first[0] in parts[0]; }
      var rest := Split(whole[1..], sep);
      assert rest == shorter;
      assert Split(whole, sep) == [[first[0]] + first[1..]] + parts[1..];
      assert [first[0]] + first[1..] == first;
      assert parts == [first] + parts[1..];
    }
  }

  /** Joining on a separator is the same as terminating every piece but the last
      and appending the last one unterminated. */
  lemma {:induction false} JoinIsTerminatedPlusLast<T>(parts: seq<seq<T>>, sep: T)
    requires |parts| >= 1
    ensures Join(parts, sep) == Terminated(parts[..|parts| - 1], sep) + parts[|parts| - 1]
    decreases |parts|
  {
    if |parts| > 1 {
      var tail := parts[1..];
      JoinIsTerminatedPlusLast(tail, sep);
      TerminatedCons(parts[0], tail[..|tail| - 1], sep);
      assert [parts[0]] + tail[..|tail| - 1] == parts[..|parts| - 1];
      assert tail[|tail| - 1] == parts[|parts| - 1];
    }
  }

  /** Terminating a list whose head is `l`. */
  lemma {:induction false} TerminatedCons<T>(l: seq<T>, lines: seq<seq<T>>, sep: T)
    ensures Terminated([l] + lines, sep) == l + [sep] + Terminated(lines, sep)
    decreases |lines|
  {
    if lines != [] {
      var init := lines[..|lines| - 1];
      TerminatedCons(l, init, sep);
      assert ([l] + lines)[..|lines|] == [l] + init;
    } else {
      assert Terminated([l], sep) == Terminated([], sep) + l + [sep];
    }
  }

  /** The demultiplexer for one received chunk (main.py lines 130-132): the complete
      lines and the new residual. The old residual followed by the chunk is exactly
      the complete lines, each followed by the separator, then the new residual;
      neither a line nor the residual holds the separator. */
  function Feed<T(==)>(pending: seq<T>, chunk: seq<T>, sep: T): (r: (seq<seq<T>>, seq<T>))
    ensures pending + chunk == Terminated(r.0, sep) + r.1
    ensures sep !in r.1
    ensures forall i :: 0 <= i < |r.0| ==> sep !in r.0[i]
    ensures |r.0| == Count(pending + chunk, sep)
  {
    var parts := Split(pending + chunk, sep);
    JoinSplit(pending + chunk, sep);
    JoinIsTerminatedPlusLast(parts, sep);
    (parts[..|parts| - 1], parts[|parts| - 1])
  }

  /** The lines and residual `Feed` produces are the only ones with its contract:
      any other decomposition of the stream into separator-free terminated lines
      and a separator-free tail is the same one. */
  lemma FeedUnique<T>(pending: seq<T>, chunk: seq<T>, sep: T, lines: seq<seq<T>>, rest: seq<T>)
    requires pending + chunk == Terminated(lines, sep) + rest
    requires sep !in rest
    requires forall i :: 0 <= i < |lines| ==> sep !in lines[i]
    ensures Feed(pending, chunk, sep) == (lines, rest)
  {
    var parts := lines + [rest];
    assert parts[..|parts| - 1] == lines;
    JoinIsTerminatedPlusLast(parts, sep);
    SplitJoin(parts, sep);
  }

  /** A record split across two chunks: `a,b,c\nd,` then `e\n`. The first chunk
      already completes the line `a,b,c` and leaves `d,` behind; the second
      completes `d,e` and leaves nothing. */
  lemma SplitAcrossChunks()
    ensures var first: Bytes := [97, 44, 98, 44, 99, 10, 100, 44];
      var second: Bytes := [101, 10];
      && Feed([], first, Newline) == ([[97, 44, 98, 44, 99]], [100, 44])
      && Feed([100, 44], second, Newline) == ([[100, 44, 101]], [])
  {
    var first: Bytes := [97, 44, 98, 44, 99, 10, 100, 44];
    var second: Bytes := [101, 10];
    var line1: Bytes := [97, 44, 98, 44, 99];
    var line2: Bytes := [100, 44, 101];
    TerminatedCons(line1, [], Newline);
    assert [] + first == Terminated([line1], Newline) + [100, 44];
    FeedUnique([], first, Newline, [line1], [100, 44]);
    TerminatedCons(line2, [], Newline);
    assert [100, 44] + second == Terminated([line2], Newline) + [];
    FeedUnique([100, 44], second, Newline, [line2], []);
  }
}
