/**
 * Candles (klines) and the arithmetic over price series that every indicator shares:
 * sums, Python's negative slicing `s[-n:]`, minima and maxima, and the median that
 * `numpy.median` computes.
 */
module Candles {

  /** Trade direction of a signal or an order. */
  datatype Direction = Long | Short {
    function Opposite(): Direction {
      if Long? then Short else Long
    }
  }

  /** One OHLCV candle; the exchange timestamp is not used by any computation here. */
  datatype Candle = Candle(open: real, high: real, low: real, close: real, volume: real)

  function Closes(ks: seq<Candle>): (cs: seq<real>)
    ensures |cs| == |ks|
    ensures forall i :: 0 <= i < |ks| ==> cs[i] == ks[i].close
  {
    seq(|ks|, i requires 0 <= i < |ks| => ks[i].close)
  }

  function Volumes(ks: seq<Candle>): (vs: seq<real>)
    ensures |vs| == |ks|
    ensures forall i :: 0 <= i < |ks| ==> vs[i] == ks[i].volume
  {
    seq(|ks|, i requires 0 <= i < |ks| => ks[i].volume)
  }

  /** The price a candle stands for in POC and volume-profile computations: (high + low) / 2. */
  function Midpoint(k: Candle): real {
    (k.high + k.low) / 2.0
  }

  function Midpoints(ks: seq<Candle>): (ms: seq<real>)
    ensures |ms| == |ks|
    ensures forall i :: 0 <= i < |ks| ==> ms[i] == Midpoint(ks[i])
  {
    seq(|ks|, i requires 0 <= i < |ks| => Midpoint(ks[i]))
  }

  function Abs(x: real): (r: real)
    ensures r >= 0.0 && (r == x || r == -x)
  {
    if x < 0.0 then -x else x
  }

  /** Sum of a series, accumulated left to right as Python's `sum` does. */
  function Sum(s: seq<real>): real {
    if s == [] then 0.0 else Sum(s[..|s| - 1]) + s[|s| - 1]
  }

  lemma {:induction false} SumSnoc(s: seq<real>, x: real)
    ensures Sum(s + [x]) == Sum(s) + x
  {
    assert (s + [x])[..|s|] == s;
  }

  lemma {:induction false} SumStep(s: seq<real>, i: nat)
    requires i < |s|
    ensures Sum(s[..i + 1]) == Sum(s[..i]) + s[i]
  {
    assert s[..i + 1][..i] == s[..i];
  }

  lemma {:induction false} SumConcat(a: seq<real>, b: seq<real>)
    ensures Sum(a + b) == Sum(a) + Sum(b)
  {
    if b == [] {
      assert a + b == a;
    } else {
      var b' := b[..|b| - 1];
      assert a + b == (a + b') + [b[|b| - 1]];
      SumSnoc(a + b', b[|b| - 1]);
      SumConcat(a, b');
      SumSnoc(b', b[|b| - 1]);
      assert b' + [b[|b| - 1]] == b;
    }
  }

  lemma {:induction false} SumCons(x: real, s: seq<real>)
    ensures Sum([x] + s) == x + Sum(s)
  {
    SumConcat([x], s);
    assert [x][..0] == [];
  }

  /** A sum of terms bounded by `lo` and `hi` lies between |s|*lo and |s|*hi. */
  lemma {:induction false} SumBounds(s: seq<real>, lo: real, hi: real)
    requires forall i :: 0 <= i < |s| ==> lo <= s[i] <= hi
    ensures |s| as real * lo <= Sum(s) <= |s| as real * hi
  {
    if s != [] {
      SumBounds(s[..|s| - 1], lo, hi);
    }
  }

  /** A sum of non-negative terms is non-negative, and it is zero exactly when every term is. */
  lemma {:induction false} SumNonNegative(s: seq<real>)
    requires forall i :: 0 <= i < |s| ==> s[i] >= 0.0
    ensures Sum(s) >= 0.0
    ensures Sum(s) == 0.0 <==> forall i :: 0 <= i < |s| ==> s[i] == 0.0
  {
    if s != [] {
      var p := s[..|s| - 1];
      assert forall i :: 0 <= i < |p| ==> p[i] == s[i];
      SumNonNegative(p);
    }
  }

  /** Python's `s[-n:]`: the last n elements; `s[-0:]` is the whole list, as is any n beyond its length. */
  function TailN<T>(s: seq<T>, n: nat): seq<T> {
    if n == 0 || n >= |s| then s else s[|s| - n..]
  }

  lemma {:induction false} TailNIsSuffix<T>(s: seq<T>, n: nat)
    requires 0 < n <= |s|
    ensures TailN(s, n) == s[|s| - n..]
  {
  }

  function MinOf(s: seq<real>): (m: real)
    requires |s| > 0
    ensures m in s
    ensures forall i :: 0 <= i < |s| ==> m <= s[i]
  {
    if |s| == 1 then s[0]
    else
      var m' := MinOf(s[..|s| - 1]);
      assert forall i :: 0 <= i < |s| - 1 ==> s[..|s| - 1][i] == s[i];
      if s[|s| - 1] < m' then s[|s| - 1] else m'
  }

  function MaxOf(s: seq<real>): (m: real)
    requires |s| > 0
    ensures m in s
    ensures forall i :: 0 <= i < |s| ==> s[i] <= m
  {
    if |s| == 1 then s[0]
    else
      var m' := MaxOf(s[..|s| - 1]);
      assert forall i :: 0 <= i < |s| - 1 ==> s[..|s| - 1][i] == s[i];
      if s[|s| - 1] > m' then s[|s| - 1] else m'
  }

  /** The mean of a non-empty series whose terms lie in [lo, hi] lies in [lo, hi] too. */
  lemma {:induction false} MeanBetween(s: seq<real>, lo: real, hi: real)
    requires |s| > 0
    requires forall i :: 0 <= i < |s| ==> lo <= s[i] <= hi
    ensures lo <= Sum(s) / |s| as real <= hi
  {
    SumBounds(s, lo, hi);
    QuotientBetween(Sum(s), |s| as real, lo, hi);
  }

  /** Dividing n*lo <= x <= n*hi by a positive n. */
  lemma {:induction false} QuotientBetween(x: real, n: real, lo: real, hi: real)
    requires n > 0.0
    requires n * lo <= x <= n * hi
    ensures lo <= x / n <= hi
  {
    assert (x / n) * n == x;
  }

  lemma {:induction false} QuotientAbove(x: real, n: real, k: real)
    requires n > 0.0 && x > k * n
    ensures x / n > k
  {
    assert (x / n) * n == x;
    if x / n <= k {
      ScaleMonotone(x / n, k, n);
    }
  }

  lemma {:induction false} DivNonNegative(x: real, n: real)
    requires x >= 0.0 && n > 0.0
    ensures x / n >= 0.0
    ensures x / n == 0.0 <==> x == 0.0
  {
    assert (x / n) * n == x;
  }

  lemma {:induction false} ScaleMonotone(a: real, b: real, v: real)
    requires a <= b && v >= 0.0
    ensures a * v <= b * v
  {
    assert b * v - a * v == (b - a) * v;
  }

  lemma {:induction false} MulDistributes(c: real, a: real, b: real)
    ensures c * (a + b) == c * a + c * b
  {
  }

  ghost predicate SortedAsc(s: seq<real>) {
    forall i, j :: 0 <= i < j < |s| ==> s[i] <= s[j]
  }

  /** Putting a value no larger than any element in front of an ascending list keeps it ascending. */
  lemma {:induction false} ConsSorted(h: real, t: seq<real>)
    requires SortedAsc(t) && forall i :: 0 <= i < |t| ==> h <= t[i]
    ensures SortedAsc([h] + t)
  {
    var r := [h] + t;
    forall i, j | 0 <= i < j < |r| ensures r[i] <= r[j] {
      assert r[j] == t[j - 1];
      if i > 0 {
        assert r[i] == t[i - 1];
      }
    }
  }

  /** A lower bound of an ascending list and of x bounds every element of a list holding exactly those values. */
  lemma {:induction false} InsertAbove(b: real, s: seq<real>, x: real, r: seq<real>)
    requires forall i :: 0 <= i < |s| ==> b <= s[i]
    requires b <= x && multiset(r) == multiset(s) + multiset{x}
    ensures forall i :: 0 <= i < |r| ==> b <= r[i]
  {
    forall i | 0 <= i < |r| ensures b <= r[i] {
      assert r[i] in multiset(r);
      if r[i] != x {
        assert r[i] in multiset(s);
        assert r[i] in s;
      }
    }
  }

  function Insert(s: seq<real>, x: real): (r: seq<real>)
    requires SortedAsc(s)
    ensures SortedAsc(r)
    ensures multiset(r) == multiset(s) + multiset{x}
  {
    if s == [] then [x]
    else if x <= s[0] then [x] + s
    else
      var r' := Insert(s[1..], x);
      assert SortedAsc(s[1..]);
      assert s == [s[0]] + s[1..];
      InsertAbove(s[0], s[1..], x, r');
      ConsSorted(s[0], r');
      assert multiset([s[0]] + r') == multiset{s[0]} + multiset(r');
      [s[0]] + r'
  }

  /** Insertion sort: an ascending permutation of its input. */
  function Sort(s: seq<real>): (r: seq<real>)
    ensures SortedAsc(r)
    ensures multiset(r) == multiset(s)
  {
    if s == [] then []
    else
      assert s == s[..|s| - 1] + [s[|s| - 1]];
      Insert(Sort(s[..|s| - 1]), s[|s| - 1])
  }

  /** `numpy.median`: the middle element of the sorted series, or the mean of the two middle ones. */
  function Median(s: seq<real>): (m: real)
    requires |s| > 0
    ensures MinOf(s) <= m <= MaxOf(s)
  {
    var t := Sort(s);
    assert |t| == |multiset(t)| == |multiset(s)| == |s|;
    var n := |t|;
    assert forall i :: 0 <= i < n ==> MinOf(s) <= t[i] <= MaxOf(s) by {
      forall i | 0 <= i < n ensures MinOf(s) <= t[i] <= MaxOf(s) {
        assert t[i] in multiset(t);
        assert t[i] in s;
      }
    }
    if n % 2 == 1 then t[n / 2] else (t[n / 2 - 1] + t[n / 2]) / 2.0
  }
}
