/**
 * String helpers the prompt template relies on: JavaScript's `Array.prototype.join`,
 * its inverse for the `", "` separator, and cutting a string at the first occurrence
 * of a character.
 */
module Strings {

  /** `xs.join(sep)`: the elements of `xs` in order, with `sep` between neighbours. */
  function Join(xs: seq<string>, sep: string): string {
    if |xs| == 0 then ""
    else if |xs| == 1 then xs[0]
    else xs[0] + sep + Join(xs[1..], sep)
  }

  /** Every character of a join comes from the separator or from one of the elements. */
  lemma {:induction false} JoinChars(xs: seq<string>, sep: string, ch: char)
    requires ch in Join(xs, sep)
    ensures ch in sep || exists i :: 0 <= i < |xs| && ch in xs[i]
  {
    if |xs| > 1 {
      var rest := Join(xs[1..], sep);
      assert Join(xs, sep) == xs[0] + sep + rest;
      if ch !in xs[0] && ch !in sep {
        assert ch in rest;
        JoinChars(xs[1..], sep, ch);
        var i :| 0 <= i < |xs[1..]| && ch in xs[1..][i];
        assert ch in xs[i + 1];
      }
    }
  }

  /** Joining one more element at the end adds one separator and that element. */
  lemma {:induction false} JoinAppend(xs: seq<string>, y: string, sep: string)
    ensures Join([y], sep) == y
    ensures |xs| > 0 ==> Join(xs + [y], sep) == Join(xs, sep) + sep + y
  {
    if |xs| == 1 {
      assert xs + [y] == [xs[0], y];
    } else if |xs| > 1 {
      assert (xs + [y])[1..] == xs[1..] + [y];
      JoinAppend(xs[1..], y, sep);
    }
  }

  /** The separator `join` is called with in the prompt. */
  const ListSeparator: string := ", "

  /** Splits at every `", "`; the inverse of `Join(_, ListSeparator)`. */
  function SplitList(s: string): (r: seq<string>)
    ensures |r| >= 1
    decreases |s|
  {
    if |s| == 0 then [""]
    else if |s| >= 2 && s[0] == ',' && s[1] == ' ' then [""] + SplitList(s[2..])
    else
      var rest := SplitList(s[1..]);
      [[s[0]] + rest[0]] + rest[1..]
  }

  /** Splitting and joining back gives the original string, whatever it contains. */
  lemma {:induction false} JoinSplit(s: string)
    ensures Join(SplitList(s), ListSeparator) == s
    decreases |s|
  {
    if |s| == 0 {
    } else if |s| >= 2 && s[0] == ',' && s[1] == ' ' {
      JoinSplit(s[2..]);
      JoinSplitAtSeparator(s);
    } else {
      JoinSplit(s[1..]);
      JoinSplitAtChar(s);
    }
  }

  /** The step of `JoinSplit` for a string that starts with the separator. */
  lemma JoinSplitAtSeparator(s: string)
    requires |s| >= 2 && s[0] == ',' && s[1] == ' '
    requires Join(SplitList(s[2..]), ListSeparator) == s[2..]
    ensures Join(SplitList(s), ListSeparator) == s
  {
  }

  /** The step of `JoinSplit` for a non-empty string that does not start with the separator. */
  lemma JoinSplitAtChar(s: string)
    requires |s| > 0 && !(|s| >= 2 && s[0] == ',' && s[1] == ' ')
    requires Join(SplitList(s[1..]), ListSeparator) == s[1..]
    ensures Join(SplitList(s), ListSeparator) == s
  {
  }

  /** A comma-free element followed by the separator splits off as one element. */
  lemma {:induction false} SplitListFront(x: string, t: string)
    requires ',' !in x
    ensures SplitList(x + ListSeparator + t) == [x] + SplitList(t)
    decreases |x|
  {
    if |x| == 0 {
      assert x + ListSeparator + t == ", " + t;
      assert (", " + t)[2..] == t;
    } else {
      var s := x + ListSeparator + t;
      assert s[1..] == x[1..] + ListSeparator + t;
      SplitListFront(x[1..], t);
      assert [x[0]] + x[1..] == x;
    }
  }

  /** A comma-free string is a single element. */
  lemma {:induction false} SplitListSingle(x: string)
    requires ',' !in x
    ensures SplitList(x) == [x]
    decreases |x|
  {
    if |x| > 0 {
      assert x[1..] == [] || x[1..][0] == x[1];
      SplitListSingle(x[1..]);
      assert [x[0]] + x[1..] == x;
    }
  }

  /** Joining a non-empty list of comma-free strings can be undone. */
  lemma {:induction false} SplitJoin(xs: seq<string>)
    requires |xs| > 0
    requires forall i :: 0 <= i < |xs| ==> ',' !in xs[i]
    ensures SplitList(Join(xs, ListSeparator)) == xs
  {
    if |xs| == 1 {
      SplitListSingle(xs[0]);
    } else {
      SplitListFront(xs[0], Join(xs[1..], ListSeparator));
      SplitJoin(xs[1..]);
      assert [xs[0]] + xs[1..] == xs;
    }
  }

  /** Cuts `s` before the first `c`: the part free of `c`, and the rest starting at `c` (or empty). */
  function Cut(s: string, c: char): (r: (string, string))
    ensures r.0 + r.1 == s
    ensures c !in r.0
    ensures r.1 == [] || r.1[0] == c
  {
    if |s| == 0 then ("", "")
    else if s[0] == c then ("", s)
    else
      var t := Cut(s[1..], c);
      assert s == [s[0]] + s[1..];
      ([s[0]] + t.0, t.1)
  }

  /** The cut of `x + y` falls exactly between them when `x` is free of `c` and `y` starts with it. */
  lemma {:induction false} CutAt(x: string, y: string, c: char)
    requires c !in x
    requires |y| > 0 && y[0] == c
    ensures Cut(x + y, c) == (x, y)
    decreases |x|
  {
    if |x| > 0 {
      assert x[0] in x && (x + y)[0] == x[0] != c;
      assert (x + y)[1..] == x[1..] + y;
      assert forall k :: 0 <= k < |x[1..]| ==> x[1..][k] == x[k + 1];
      CutAt(x[1..], y, c);
      assert [x[0]] + x[1..] == x;
    } else {
      assert x + y == y;
    }
  }
}
