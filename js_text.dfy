/**
 * The pieces of JavaScript string handling the screen relies on: template
 * interpolation of possibly-`undefined` values and `Array.prototype.join`,
 * with a line reader that undoes a newline join.
 */
module JsText {
  import opened Wrappers

  /** What `${v}` in a template literal renders: the string itself, or the text `undefined`. */
  function Interpolate(v: Option<string>): (r: string)
    ensures v.Some? ==> r == v.value
    ensures v.None? ==> r == "undefined"
  {
    match v
    case Some(s) => s
    case None => "undefined"
  }

  /** `xs.join(sep)`: the elements in order with one separator between neighbours. */
  function Join(xs: seq<string>, sep: string): (r: string)
    ensures |xs| == 0 ==> r == ""
    ensures |xs| > 0 ==> xs[0] <= r
  {
    if |xs| == 0 then ""
    else if |xs| == 1 then xs[0]
    else xs[0] + sep + Join(xs[1..], sep)
  }

  /** Sum of the lengths of the elements. */
  function TotalLength(xs: seq<string>): (n: nat)
  {
    if |xs| == 0 then 0 else |xs[0]| + TotalLength(xs[1..])
  }

  /** A joined string of N > 0 pieces holds the pieces and exactly N - 1 separators. */
  lemma {:induction false} JoinLength(xs: seq<string>, sep: string)
    requires |xs| > 0
    ensures |Join(xs, sep)| == TotalLength(xs) + (|xs| - 1) * |sep|
  {
    if |xs| > 1 {
      JoinLength(xs[1..], sep);
      assert (|xs| - 1) * |sep| == (|xs| - 2) * |sep| + |sep|;
    }
  }

  /** Joining two non-empty lists puts one separator between their joins. */
  lemma {:induction false} JoinConcat(a: seq<string>, b: seq<string>, sep: string)
    requires |a| > 0 && |b| > 0
    ensures Join(a + b, sep) == Join(a, sep) + sep + Join(b, sep)
  {
    if |a| == 1 {
      assert a + b == [a[0]] + b;
      assert (a + b)[1..] == b;
    } else {
      JoinConcat(a[1..], b, sep);
      assert (a + b)[1..] == a[1..] + b;
    }
  }

  /** Appending one element adds one separator and the element at the end. */
  lemma JoinSnoc(xs: seq<string>, x: string, sep: string)
    requires |xs| > 0
    ensures Join(xs + [x], sep) == Join(xs, sep) + sep + x
  {
    JoinConcat(xs, [x], sep);
  }

  /** No line of `xs` contains `c`. */
  predicate NoneContains(xs: seq<string>, c: char)
  {
    forall i :: 0 <= i < |xs| ==> c !in xs[i]
  }

  /** A join of pieces without `c`, on a separator without `c`, has no `c`. */
  lemma {:induction false} JoinAvoids(xs: seq<string>, sep: string, c: char)
    requires NoneContains(xs, c) && c !in sep
    ensures c !in Join(xs, sep)
  {
    if |xs| > 1 {
      JoinAvoids(xs[1..], sep, c);
    }
  }

  /** The pieces of `s` between occurrences of `c` (a line reader when `c` is a newline). */
  function Split(s: string, c: char): (parts: seq<string>)
    ensures |parts| > 0
    decreases |s|
  {
    if |s| == 0 then [""]
    else
      var rest := Split(s[1..], c);
      if s[0] == c then [""] + rest
      else [[s[0]] + rest[0]] + rest[1..]
  }

  /** A string without `c` is a single piece. */
  lemma {:induction false} SplitWhole(s: string, c: char)
    requires c !in s
    ensures Split(s, c) == [s]
    decreases |s|
  {
    if |s| > 0 {
      SplitWhole(s[1..], c);
      assert [s[0]] + s[1..] == s;
    }
  }

  /** The first piece ends at the first `c`. */
  lemma {:induction false} SplitCons(a: string, b: string, c: char)
    requires c !in a
    ensures Split(a + [c] + b, c) == [a] + Split(b, c)
    decreases |a|
  {
    if |a| == 0 {
      assert a + [c] + b == [c] + b;
      assert ([c] + b)[1..] == b;
    } else {
      SplitCons(a[1..], b, c);
      assert (a + [c] + b)[1..] == a[1..] + [c] + b;
      assert [a[0]] + a[1..] == a;
    }
  }

  /** Reading back a join on `c` gives the pieces, when no piece contains `c`. */
  lemma {:induction false} SplitJoin(xs: seq<string>, c: char)
    requires |xs| > 0 && NoneContains(xs, c)
    ensures Split(Join(xs, [c]), c) == xs
  {
    if |xs| == 1 {
      SplitWhole(xs[0], c);
    } else {
      SplitJoin(xs[1..], c);
      SplitCons(xs[0], Join(xs[1..], [c]), c);
      assert [xs[0]] + xs[1..] == xs;
    }
  }
}
