/** Python's `sep.join(parts)` and `str.split(sep)` for a one-character separator,
    with the round trip that makes a joined argument list or keep-list readable back. */
module Strings {

  /** `sep.join(parts)`: the parts with one separator between neighbours. */
  function JoinWith(parts: seq<string>, sep: char): string
  {
    if |parts| == 0 then ""
    else if |parts| == 1 then parts[0]
    else parts[0] + [sep] + JoinWith(parts[1..], sep)
  }

  /** `s.split(sep)`: the maximal separator-free pieces, empty ones included
      (so `"".split(",") == [""]`). */
  function Split(s: string, sep: char): (pieces: seq<string>)
    ensures |pieces| > 0
  {
    if |s| == 0 then [""]
    else if s[0] == sep then [""] + Split(s[1..], sep)
    else
      var rest := Split(s[1..], sep);
      [[s[0]] + rest[0]] + rest[1..]
  }

  predicate EndsWith(s: string, tail: string)
  {
    |tail| <= |s| && s[|s| - |tail|..] == tail
  }

  /** A piece without the separator splits to itself. */
  lemma {:induction false} SplitPlain(s: string, sep: char)
    requires sep !in s
    ensures Split(s, sep) == [s]
  {
    if |s| > 0 {
      SplitPlain(s[1..], sep);
      assert [s[0]] + s[1..] == s;
    }
  }

  /** Splitting `a + sep + b` where `a` is separator-free splits off `a` first. */
  lemma {:induction false} SplitAfterPiece(a: string, sep: char, b: string)
    requires sep !in a
    ensures Split(a + [sep] + b, sep) == [a] + Split(b, sep)
  {
    if |a| == 0 {
      assert a + [sep] + b == [sep] + b;
      assert ([sep] + b)[1..] == b;
    } else {
      var s := a + [sep] + b;
      assert s[0] == a[0] && s[1..] == a[1..] + [sep] + b;
      SplitAfterPiece(a[1..], sep, b);
      assert [a[0]] + a[1..] == a;
    }
  }

  /** Round trip: splitting a join of separator-free parts gives the parts back. */
  lemma {:induction false} SplitJoin(parts: seq<string>, sep: char)
    requires |parts| > 0
    requires forall i :: 0 <= i < |parts| ==> sep !in parts[i]
    ensures Split(JoinWith(parts, sep), sep) == parts
  {
    if |parts| == 1 {
      SplitPlain(parts[0], sep);
    } else {
      SplitJoin(parts[1..], sep);
      SplitAfterPiece(parts[0], sep, JoinWith(parts[1..], sep));
      assert [parts[0]] + parts[1..] == parts;
    }
  }

  /** A join starts with its first part. */
  lemma JoinStartsWith(parts: seq<string>, sep: char)
    requires |parts| > 0
    ensures |JoinWith(parts, sep)| >= |parts[0]| && JoinWith(parts, sep)[..|parts[0]|] == parts[0]
  {
  }

  /** A string ends with whatever ends its tail part. */
  lemma EndsWithAppend(x: string, y: string, tail: string)
    requires EndsWith(y, tail)
    ensures EndsWith(x + y, tail)
  {
    assert (x + y)[|x + y| - |tail|..] == y[|y| - |tail|..];
  }

  /** A string that ends with `[c] + tail` ends with `tail`. */
  lemma EndsWithDrop(s: string, c: char, tail: string)
    requires EndsWith(s, [c] + tail)
    ensures EndsWith(s, tail)
  {
    assert s[|s| - |tail|..] == s[|s| - |[c] + tail|..][1..];
  }

  /** A join ends with its last part, and with a separator in front of it when there
      are at least two parts. */
  lemma {:induction false} JoinEndsWithLast(parts: seq<string>, sep: char)
    requires |parts| > 0
    ensures EndsWith(JoinWith(parts, sep), parts[|parts| - 1])
    ensures |parts| > 1 ==> EndsWith(JoinWith(parts, sep), [sep] + parts[|parts| - 1])
  {
    var last := parts[|parts| - 1];
    if |parts| == 1 {
      assert JoinWith(parts, sep)[0..] == last;
    } else {
      var rest := JoinWith(parts[1..], sep);
      if |parts| == 2 {
        assert rest == last;
        assert EndsWith([sep] + last, [sep] + last);
        EndsWithAppend(parts[0], [sep] + last, [sep] + last);
        assert parts[0] + ([sep] + last) == parts[0] + [sep] + rest;
      } else {
        JoinEndsWithLast(parts[1..], sep);
        EndsWithAppend(parts[0] + [sep], rest, [sep] + last);
      }
      EndsWithDrop(JoinWith(parts, sep), sep, last);
    }
  }

  /** Joining is associative over a two-level split: joining the pairwise joins of a
      flattened list equals joining the flat list. */
  lemma {:induction false} JoinAppend(xs: seq<string>, ys: seq<string>, sep: char)
    requires |xs| > 0 && |ys| > 0
    ensures JoinWith(xs + ys, sep) == JoinWith(xs, sep) + [sep] + JoinWith(ys, sep)
  {
    if |xs| == 1 {
      assert (xs + ys)[1..] == ys;
    } else {
      JoinAppend(xs[1..], ys, sep);
      assert (xs + ys)[1..] == xs[1..] + ys;
    }
  }
}
