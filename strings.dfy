/**
 * Text operations the orchestration loop relies on: splitting a string at a
 * delimiter and joining tokens with one (Python's `str.split(d)` and
 * `d.join(...)`), and the decimal rendering of a trial index (`str(i)`).
 */
module Strings {

  /** Python's `s.split(d)` for a one-character delimiter: always at least one token. */
  function Split(s: string, d: char): (r: seq<string>)
    ensures |r| >= 1
    ensures forall t <- r :: d !in t
    decreases |s|
  {
    if |s| == 0 then [""]
    else
      var rest := Split(s[1..], d);
      if s[0] == d then [""] + rest
      else [[s[0]] + rest[0]] + rest[1..]
  }

  /** Python's `d.join(xs)`. */
  function Join(xs: seq<string>, d: char): string
    decreases |xs|
  {
    if |xs| == 0 then ""
    else if |xs| == 1 then xs[0]
    else xs[0] + [d] + Join(xs[1..], d)
  }

  /** Number of occurrences of `d` in `s`. */
  function Occurrences(s: string, d: char): nat
    decreases |s|
  {
    if |s| == 0 then 0
    else (if s[0] == d then 1 else 0) + Occurrences(s[1..], d)
  }

  /** Prepending to the first token prepends to the joined string. */
  lemma {:induction false} JoinExtendHead(p: string, xs: seq<string>, d: char)
    requires |xs| >= 1
    ensures Join([p + xs[0]] + xs[1..], d) == p + Join(xs, d)
  {
    var ys := [p + xs[0]] + xs[1..];
    assert ys[1..] == xs[1..];
    if |xs| >= 2 {
      assert Join(ys, d) == p + xs[0] + [d] + Join(xs[1..], d);
    }
  }

  /** Splitting and re-joining gives back the original string. */
  lemma {:induction false} JoinSplit(s: string, d: char)
    ensures Join(Split(s, d), d) == s
    decreases |s|
  {
    if |s| > 0 {
      var rest := Split(s[1..], d);
      JoinSplit(s[1..], d);
      if s[0] == d {
        var r := [""] + rest;
        assert r[1..] == rest;
        assert Join(r, d) == "" + [d] + Join(rest, d);
        assert s == [d] + s[1..];
      } else {
        JoinExtendHead([s[0]], rest, d);
        assert s == [s[0]] + s[1..];
      }
    }
  }

  /** A string without the delimiter is a single token. */
  lemma {:induction false} SplitWithoutDelimiter(t: string, d: char)
    requires d !in t
    ensures Split(t, d) == [t]
    decreases |t|
  {
    if |t| > 0 {
      SplitWithoutDelimiter(t[1..], d);
      assert [t[0]] + t[1..] == t;
    }
  }

  /** A delimiter-free token followed by the delimiter splits off as one token. */
  lemma {:induction false} SplitAfterToken(t: string, u: string, d: char)
    requires d !in t
    ensures Split(t + [d] + u, d) == [t] + Split(u, d)
    decreases |t|
  {
    var s := t + [d] + u;
    if |t| == 0 {
      assert s == [d] + u && s[1..] == u;
    } else {
      assert s[1..] == t[1..] + [d] + u;
      SplitAfterToken(t[1..], u, d);
      assert [t[0]] + t[1..] == t;
    }
  }

  /** Joining delimiter-free tokens and splitting again gives back the tokens. */
  lemma {:induction false} SplitJoin(xs: seq<string>, d: char)
    requires |xs| >= 1
    requires forall t <- xs :: d !in t
    ensures Split(Join(xs, d), d) == xs
    decreases |xs|
  {
    if |xs| == 1 {
      SplitWithoutDelimiter(xs[0], d);
    } else {
      SplitJoin(xs[1..], d);
      SplitAfterToken(xs[0], Join(xs[1..], d), d);
      assert [xs[0]] + xs[1..] == xs;
    }
  }

  /** A string with `k` delimiters splits into `k + 1` tokens. */
  lemma {:induction false} SplitCount(s: string, d: char)
    ensures |Split(s, d)| == Occurrences(s, d) + 1
    decreases |s|
  {
    if |s| > 0 {
      SplitCount(s[1..], d);
    }
  }

  /** The character of decimal digit `k`. */
  function Digit(k: nat): char
    requires k < 10
  {
    (48 + k) as char
  }

  /** Python's `str(n)` for a non-negative integer: its decimal digits, most significant first. */
  function Decimal(n: nat): (s: string)
    ensures |s| >= 1
    ensures n >= 10 ==> |s| >= 2
    ensures s[|s| - 1] == Digit(n % 10)
    decreases n
  {
    if n < 10 then [Digit(n)] else Decimal(n / 10) + [Digit(n % 10)]
  }

  /** Different numbers have different decimal renderings. */
  lemma {:induction false} DecimalInjective(m: nat, n: nat)
    requires Decimal(m) == Decimal(n)
    ensures m == n
    decreases m
  {
    var a, b := Decimal(m), Decimal(n);
    assert m % 10 == n % 10;
    if m >= 10 && n >= 10 {
      assert a[..|a| - 1] == Decimal(m / 10);
      assert b[..|b| - 1] == Decimal(n / 10);
      DecimalInjective(m / 10, n / 10);
    }
  }
}


