/**
 * The analysis calculations that build collections: the bucketed volume profile,
 * support and resistance levels from local extremes, and the risk/reward ratio.
 */
module Calculations {
  import opened Candles

  /** Python's `int()` on a float: truncation toward zero. */
  function Trunc(x: real): (n: int)
    ensures x >= 0.0 ==> 0.0 <= n as real <= x
    ensures x < 0.0 ==> x <= n as real <= 0.0
  {
    if x >= 0.0 then x.Floor else -((-x).Floor)
  }

  /** The price level a midpoint is counted under: lo + size * int((p - lo) / size). */
  function Bucket(p: real, lo: real, size: real): real
    requires size != 0.0
  {
    lo + size * Trunc((p - lo) / size) as real
  }

  /** The width of each of `levels` equal levels over [lo, hi]; zero exactly when the range is a single point. */
  function LevelWidth(lo: real, hi: real, levels: int): (size: real)
    requires levels != 0
    ensures size == 0.0 <==> lo == hi
  {
    QuotientZero(hi - lo, levels as real);
    (hi - lo) / levels as real
  }

  function Buckets(ps: seq<real>, lo: real, size: real): (bs: seq<real>)
    requires size != 0.0
    ensures |bs| == |ps|
    ensures forall i :: 0 <= i < |ps| ==> bs[i] == Bucket(ps[i], lo, size)
  {
    seq(|ps|, i requires 0 <= i < |ps| => Bucket(ps[i], lo, size))
  }

  /**
   * With a positive number of levels over a non-degenerate range [lo, hi], a price in
   * the range is counted under a level between lo and the price itself.
   */
  lemma {:induction false} BucketInRange(p: real, lo: real, hi: real, levels: int)
    requires levels > 0 && lo < hi && lo <= p <= hi
    ensures lo <= Bucket(p, lo, LevelWidth(lo, hi, levels)) <= p
  {
    var size := LevelWidth(lo, hi, levels);
    DivNonNegative(hi - lo, levels as real);
    var t := (p - lo) / size;
    DivNonNegative(p - lo, size);
    var n := Trunc(t);
    ScaleMonotone(0.0, n as real, size);
    ScaleMonotone(n as real, t, size);
    assert t * size == p - lo;
  }

  lemma {:induction false} QuotientZero(x: real, n: real)
    requires n != 0.0
    ensures x / n == 0.0 <==> x == 0.0
  {
    assert (x / n) * n == x;
  }

  /** One entry of the profile dict: a price level and the volume counted under it. */
  datatype Level = Level(price: real, volume: real)

  function Prices(ls: seq<Level>): (ps: seq<real>)
    ensures |ps| == |ls|
    ensures forall i :: 0 <= i < |ls| ==> ps[i] == ls[i].price
  {
    seq(|ls|, i requires 0 <= i < |ls| => ls[i].price)
  }

  function LevelVolumes(ls: seq<Level>): (vs: seq<real>)
    ensures |vs| == |ls|
    ensures forall i :: 0 <= i < |ls| ==> vs[i] == ls[i].volume
  {
    seq(|ls|, i requires 0 <= i < |ls| => ls[i].volume)
  }

  /** Dict keys are unique. */
  ghost predicate DistinctPrices(ls: seq<Level>) {
    forall i, j :: 0 <= i < j < |ls| ==> ls[i].price != ls[j].price
  }

  /** `profile.get(key, 0)`. */
  function Lookup(ls: seq<Level>, key: real): real {
    if ls == [] then 0.0
    else if ls[0].price == key then ls[0].volume
    else Lookup(ls[1..], key)
  }

  lemma {:induction false} LookupEntry(ls: seq<Level>, i: nat)
    requires DistinctPrices(ls) && i < |ls|
    ensures Lookup(ls, ls[i].price) == ls[i].volume
  {
    if i > 0 {
      assert ls[0].price != ls[i].price;
      LookupEntry(ls[1..], i - 1);
    }
  }

  /**
   * `profile[key] = profile.get(key, 0) + v`: the entry for `key` grows by v, and a
   * missing key is appended, as a dict keeps insertion order.
   */
  function AddVolume(ls: seq<Level>, key: real, v: real): (r: seq<Level>)
    ensures |r| == if key in Prices(ls) then |ls| else |ls| + 1
  {
    if ls == [] then [Level(key, 0.0 + v)]
    else if ls[0].price == key then [Level(key, ls[0].volume + v)] + ls[1..]
    else
      assert forall k :: k in Prices(ls) <==> k == ls[0].price || k in Prices(ls[1..]);
      [ls[0]] + AddVolume(ls[1..], key, v)
  }

  lemma {:induction false} PricesCons(e: Level, ls: seq<Level>)
    ensures Prices([e] + ls) == [e.price] + Prices(ls)
  {
  }

  /** Adding volume adds exactly `key` to the keys. */
  lemma {:induction false} AddVolumePrices(ls: seq<Level>, key: real, v: real)
    ensures forall k :: k in Prices(AddVolume(ls, key, v)) <==> k in Prices(ls) || k == key
  {
    if ls != [] {
      var rest := ls[1..];
      assert ls == [ls[0]] + rest;
      PricesCons(ls[0], rest);
      if ls[0].price == key {
        PricesCons(Level(key, ls[0].volume + v), rest);
      } else {
        AddVolumePrices(rest, key, v);
        PricesCons(ls[0], AddVolume(rest, key, v));
      }
    } else {
      assert Prices(AddVolume(ls, key, v))[0] == key;
    }
  }

  /** Adding volume keeps the keys unique and adds exactly `key` to them. */
  lemma {:induction false} AddVolumeKeys(ls: seq<Level>, key: real, v: real)
    requires DistinctPrices(ls)
    ensures DistinctPrices(AddVolume(ls, key, v))
    ensures forall k :: k in Prices(AddVolume(ls, key, v)) <==> k in Prices(ls) || k == key
  {
    AddVolumePrices(ls, key, v);
    if ls != [] {
      var rest := ls[1..];
      var r := AddVolume(ls, key, v);
      if ls[0].price == key {
        assert forall i :: 0 <= i < |r| ==> r[i].price == ls[i].price;
      } else {
        var r' := AddVolume(rest, key, v);
        AddVolumeKeys(rest, key, v);
        assert r == [ls[0]] + r';
        assert ls[0].price !in Prices(rest) by {
          assert forall i :: 0 <= i < |rest| ==> rest[i] == ls[i + 1];
        }
        assert ls[0].price !in Prices(r');
        forall i, j | 0 <= i < j < |r| ensures r[i].price != r[j].price {
          if i == 0 {
            assert r[j].price == Prices(r')[j - 1];
          } else {
            assert r[i] == r'[i - 1] && r[j] == r'[j - 1];
          }
        }
      }
    }
  }

  /** Adding volume changes the volume under `key` by v and under no other level. */
  lemma {:induction false} AddVolumeLookup(ls: seq<Level>, key: real, v: real, k: real)
    requires DistinctPrices(ls)
    ensures Lookup(AddVolume(ls, key, v), k) == if k == key then Lookup(ls, k) + v else Lookup(ls, k)
  {
    if ls != [] && ls[0].price != key {
      AddVolumeLookup(ls[1..], key, v, k);
    } else if ls != [] && k == key {
      assert forall j :: 1 <= j < |ls| ==> ls[j].price != key;
      LookupAbsent(ls[1..], key);
    }
  }

  lemma {:induction false} LookupAbsent(ls: seq<Level>, key: real)
    requires forall j :: 0 <= j < |ls| ==> ls[j].price != key
    ensures Lookup(ls, key) == 0.0
  {
    if ls != [] {
      LookupAbsent(ls[1..], key);
    }
  }

  /** Adding volume adds v to the total of the profile. */
  lemma {:induction false} AddVolumeSum(ls: seq<Level>, key: real, v: real)
    ensures Sum(LevelVolumes(AddVolume(ls, key, v))) == Sum(LevelVolumes(ls)) + v
  {
    if ls == [] {
      assert LevelVolumes(AddVolume(ls, key, v)) == [] + [0.0 + v];
    } else {
      var rest := ls[1..];
      assert LevelVolumes(ls) == [ls[0].volume] + LevelVolumes(rest);
      SumCons(ls[0].volume, LevelVolumes(rest));
      if ls[0].price == key {
        assert LevelVolumes(AddVolume(ls, key, v)) == [ls[0].volume + v] + LevelVolumes(rest);
        SumCons(ls[0].volume + v, LevelVolumes(rest));
      } else {
        var r' := AddVolume(rest, key, v);
        AddVolumeSum(rest, key, v);
        assert LevelVolumes(AddVolume(ls, key, v)) == [ls[0].volume] + LevelVolumes(r');
        SumCons(ls[0].volume, LevelVolumes(r'));
      }
    }
  }

  /** Total volume of the candles counted under level `key`. */
  function BucketVolume(bs: seq<real>, vs: seq<real>, key: real): real
    requires |bs| == |vs|
  {
    if bs == [] then 0.0
    else
      var n := |bs| - 1;
      BucketVolume(bs[..n], vs[..n], key) + (if bs[n] == key then vs[n] else 0.0)
  }

  /**
   * The profile dict after the filling loop has seen the first candles: one entry per
   * distinct level, holding the volume of exactly the candles counted under it.
   */
  function {:induction false} ProfileOf(bs: seq<real>, vs: seq<real>): (r: seq<Level>)
    requires |bs| == |vs|
    ensures DistinctPrices(r)
    ensures forall k :: k in Prices(r) <==> k in bs
    ensures forall k :: Lookup(r, k) == BucketVolume(bs, vs, k)
    ensures Sum(LevelVolumes(r)) == Sum(vs)
  {
    if bs == [] then []
    else
      var n := |bs| - 1;
      var p := ProfileOf(bs[..n], vs[..n]);
      assert forall k :: k in bs <==> k in bs[..n] || k == bs[n] by {
        assert bs == bs[..n] + [bs[n]];
      }
      AddVolumeKeys(p, bs[n], vs[n]);
      AddVolumeSum(p, bs[n], vs[n]);
      forall k ensures Lookup(AddVolume(p, bs[n], vs[n]), k) == BucketVolume(bs, vs, k) {
        AddVolumeLookup(p, bs[n], vs[n], k);
      }
      AddVolume(p, bs[n], vs[n])
  }

  /** The filtering dict comprehension: the entries whose volume reaches `threshold`, in order. */
  function {:induction false} KeepAtLeast(ls: seq<Level>, threshold: real): (r: seq<Level>)
    ensures forall e :: e in r <==> e in ls && e.volume >= threshold
    ensures DistinctPrices(ls) ==> DistinctPrices(r)
  {
    if ls == [] then []
    else
      var r' := KeepAtLeast(ls[1..], threshold);
      assert forall e :: e in ls <==> e == ls[0] || e in ls[1..];
      if ls[0].volume >= threshold then
        assert DistinctPrices(ls) ==> forall e :: e in ls[1..] ==> e.price != ls[0].price;
        [ls[0]] + r'
      else r'
  }

  /**
   * The levels holding at least `fraction` of the profile's total volume
   * (`sum(profile.values()) * volume_threshold`).
   */
  function KeepShare(ls: seq<Level>, fraction: real): seq<Level> {
    KeepAtLeast(ls, Portion(Sum(LevelVolumes(ls)), fraction))
  }

  /** `fraction` of `total`. */
  function Portion(total: real, fraction: real): real {
    total * fraction
  }

  /**
   * What the returned volume profile holds, given each candle's level `bs` and volume `vs`:
   * distinct levels, each with the total volume counted under it, that volume at least
   * `threshold`, and every level that reaches the threshold present.
   */
  ghost predicate IsVolumeProfile(profile: seq<Level>, bs: seq<real>, vs: seq<real>, threshold: real)
    requires |bs| == |vs|
  {
    && DistinctPrices(profile)
    && (forall e :: e in profile ==> e.price in bs && e.volume == BucketVolume(bs, vs, e.price) && e.volume >= threshold)
    && (forall i :: 0 <= i < |bs| && BucketVolume(bs, vs, bs[i]) >= threshold ==>
          exists e :: e in profile && e.price == bs[i])
  }

  /**
   * The volume profile: each candle's (high + low) / 2 is counted under one of `priceLevels`
   * equal-width levels starting at the lowest midpoint, and the levels holding at least
   * `volumeThreshold` of the total volume are kept. Empty input, zero levels and a zero
   * level width (all midpoints equal) make the division fail, which yields the empty profile.
   */
  function VolumeProfileOf(ks: seq<Candle>, priceLevels: int, volumeThreshold: real): seq<Level> {
    if ks == [] || priceLevels == 0 then []
    else
      var ps := Midpoints(ks);
      var lo, hi := MinOf(ps), MaxOf(ps);
      var size := LevelWidth(lo, hi, priceLevels);
      if size == 0.0 then []
      else KeepShare(ProfileOf(Buckets(ps, lo, size), Volumes(ks)), volumeThreshold)
  }

  /** The three outcomes of the volume profile: empty on the error paths, else the kept levels of the filled profile. */
  lemma {:induction false} VolumeProfileCases(ks: seq<Candle>, priceLevels: int, volumeThreshold: real)
    ensures ks == [] || priceLevels == 0 ==> VolumeProfileOf(ks, priceLevels, volumeThreshold) == []
    ensures ks != [] && MinOf(Midpoints(ks)) == MaxOf(Midpoints(ks)) ==> VolumeProfileOf(ks, priceLevels, volumeThreshold) == []
    ensures ks != [] && priceLevels != 0 && MinOf(Midpoints(ks)) != MaxOf(Midpoints(ks)) ==>
      var lo, hi := MinOf(Midpoints(ks)), MaxOf(Midpoints(ks));
      var size := LevelWidth(lo, hi, priceLevels);
      && size != 0.0
      && VolumeProfileOf(ks, priceLevels, volumeThreshold) == KeepShare(ProfileOf(Buckets(Midpoints(ks), lo, size), Volumes(ks)), volumeThreshold)
  {
  }

  /** `volume_profile` as the loop the source runs; what it returns is `VolumeProfileOf`. */
  method VolumeProfile(ks: seq<Candle>, priceLevels: int, volumeThreshold: real) returns (profile: seq<Level>)
    ensures profile == VolumeProfileOf(ks, priceLevels, volumeThreshold)
  {
    if ks == [] {
      return [];
    }
    var ps := Midpoints(ks);
    var vs := Volumes(ks);
    var lo := MinOf(ps);
    var hi := MaxOf(ps);
    if priceLevels == 0 {
      return [];
    }
    var size := LevelWidth(lo, hi, priceLevels);
    if size == 0.0 {
      return [];
    }
    var acc := FillProfile(ps, vs, lo, size);
    var total := Sum(LevelVolumes(acc));
    profile := KeepAtLeast(acc, Portion(total, volumeThreshold));
  }

  /** The filling loop: each midpoint's volume is added under its level. */
  method FillProfile(ps: seq<real>, vs: seq<real>, lo: real, size: real) returns (acc: seq<Level>)
    requires |ps| == |vs| && size != 0.0
    ensures acc == ProfileOf(Buckets(ps, lo, size), vs)
  {
    ghost var bs := Buckets(ps, lo, size);
    acc := [];
    var i := 0;
    while i < |ps|
      invariant 0 <= i <= |ps|
      invariant acc == ProfileOf(bs[..i], vs[..i])
    {
      var level := Bucket(ps[i], lo, size);
      ProfileOfStep(bs, vs, i);
      acc := AddVolume(acc, level, vs[i]);
      i := i + 1;
    }
    assert bs[..i] == bs && vs[..i] == vs;
  }

  lemma {:induction false} ProfileOfStep(bs: seq<real>, vs: seq<real>, i: nat)
    requires |bs| == |vs| && i < |bs|
    ensures ProfileOf(bs[..i + 1], vs[..i + 1]) == AddVolume(ProfileOf(bs[..i], vs[..i]), bs[i], vs[i])
  {
    assert bs[..i + 1][..i] == bs[..i] && vs[..i + 1][..i] == vs[..i];
  }

  /** Filtering the filled profile yields exactly the levels that reach the threshold. */
  lemma {:induction false} KeptLevelsFormProfile(bs: seq<real>, vs: seq<real>, fraction: real)
    requires |bs| == |vs|
    ensures IsVolumeProfile(KeepShare(ProfileOf(bs, vs), fraction), bs, vs, Portion(Sum(vs), fraction))
  {
    var acc := ProfileOf(bs, vs);
    var threshold := Portion(Sum(vs), fraction);
    var profile := KeepShare(acc, fraction);
    assert profile == KeepAtLeast(acc, threshold);
    forall e | e in profile
      ensures e.price in bs && e.volume == BucketVolume(bs, vs, e.price)
    {
      var j :| 0 <= j < |acc| && acc[j] == e;
      LookupEntry(acc, j);
      assert e.price in Prices(acc);
    }
    forall j | 0 <= j < |bs| && BucketVolume(bs, vs, bs[j]) >= threshold
      ensures exists e :: e in profile && e.price == bs[j]
    {
      assert bs[j] in Prices(acc);
      var m :| 0 <= m < |acc| && acc[m].price == bs[j];
      LookupEntry(acc, m);
      assert acc[m] in profile;
    }
  }

  /** With a positive number of levels every kept level lies between the lowest and highest midpoint. */
  lemma {:induction false} KeptLevelsInRange(ps: seq<real>, vs: seq<real>, levels: int, fraction: real)
    requires |ps| == |vs| && |ps| > 0 && levels > 0 && MinOf(ps) != MaxOf(ps)
    ensures var lo, hi := MinOf(ps), MaxOf(ps);
      forall e :: e in KeepShare(ProfileOf(Buckets(ps, lo, LevelWidth(lo, hi, levels)), vs), fraction) ==>
        lo <= e.price <= hi
  {
    var lo, hi := MinOf(ps), MaxOf(ps);
    DivNonNegative(hi - lo, levels as real);
    var bs := Buckets(ps, lo, LevelWidth(lo, hi, levels));
    forall e | e in KeepShare(ProfileOf(bs, vs), fraction)
      ensures lo <= e.price <= hi
    {
      var acc := ProfileOf(bs, vs);
      var m :| 0 <= m < |acc| && acc[m] == e;
      assert e.price in Prices(acc);
      var j :| 0 <= j < |bs| && bs[j] == e.price;
      BucketInRange(ps[j], lo, hi, levels);
    }
  }

  ghost predicate StrictlyAscending(s: seq<real>) {
    forall i, j :: 0 <= i < j < |s| ==> s[i] < s[j]
  }

  ghost predicate StrictlyDescending(s: seq<real>) {
    forall i, j :: 0 <= i < j < |s| ==> s[i] > s[j]
  }

  function {:induction false} InsertUnique(s: seq<real>, x: real): (r: seq<real>)
    requires StrictlyAscending(s)
    ensures StrictlyAscending(r)
    ensures forall y :: y in r <==> y in s || y == x
  {
    if s == [] then [x]
    else if x < s[0] then [x] + s
    else if x == s[0] then s
    else
      var r' := InsertUnique(s[1..], x);
      assert forall y :: y in s <==> y == s[0] || y in s[1..];
      assert forall y :: y in r' ==> s[0] < y;
      ConsAscending(s[0], r');
      [s[0]] + r'
  }

  /** Putting a value below every element in front of an ascending list keeps it ascending. */
  lemma {:induction false} ConsAscending(h: real, t: seq<real>)
    requires StrictlyAscending(t) && forall y :: y in t ==> h < y
    ensures StrictlyAscending([h] + t)
    ensures forall y :: y in [h] + t <==> y == h || y in t
  {
    var r := [h] + t;
    forall i, j | 0 <= i < j < |r| ensures r[i] < r[j] {
      assert r[j] == t[j - 1];
      if i == 0 {
        assert t[j - 1] in t;
      } else {
        assert r[i] == t[i - 1];
      }
    }
  }

  /** `sorted(set(xs))`: the distinct values of xs in ascending order. */
  function {:induction false} SortedSet(xs: seq<real>): (r: seq<real>)
    ensures StrictlyAscending(r)
    ensures forall y :: y in r <==> y in xs
  {
    if xs == [] then []
    else
      var n := |xs| - 1;
      assert forall y :: y in xs <==> y in xs[..n] || y == xs[n];
      InsertUnique(SortedSet(xs[..n]), xs[n])
  }

  function Reverse(s: seq<real>): (r: seq<real>)
    ensures |r| == |s|
    ensures forall i :: 0 <= i < |s| ==> r[i] == s[|s| - 1 - i]
  {
    seq(|s|, i requires 0 <= i < |s| => s[|s| - 1 - i])
  }

  /** Python's `s[:m]`, where a negative m drops the last -m elements. */
  function Take(s: seq<real>, m: int): (r: seq<real>)
    ensures m >= 0 ==> |r| == if m < |s| then m else |s|
    ensures |r| <= |s| && r == s[..|r|]
  {
    if m >= 0 then (if m < |s| then s[..m] else s)
    else if |s| + m > 0 then s[..|s| + m] else []
  }

  /**
   * Highs of the candles at positions w <= j < end that equal the highest high of the
   * window highs[j - w .. j + w).
   */
  function Peaks(hs: seq<real>, w: nat, end: int): seq<real>
    requires 0 < w && end + w <= |hs|
    decreases end
  {
    if end <= w then []
    else
      var j := end - 1;
      Peaks(hs, w, j) + (if TopsOwnWindow(hs, w, j) then [hs[j]] else [])
  }

  /** The high at j is the highest of the 2·w highs hs[j - w..j + w] around it. */
  predicate TopsOwnWindow(hs: seq<real>, w: nat, j: int)
    requires w <= j && j + w <= |hs| && 0 < w
  {
    forall k :: j - w <= k < j + w ==> hs[k] <= hs[j]
  }

  /** The low at j is the lowest of the 2·w lows ls[j - w..j + w] around it. */
  predicate BottomsOwnWindow(ls: seq<real>, w: nat, j: int)
    requires w <= j && j + w <= |ls| && 0 < w
  {
    forall k :: j - w <= k < j + w ==> ls[j] <= ls[k]
  }

  /** The scan's test `highs[i] == max(highs[i - window:i + window])` is TopsOwnWindow. */
  lemma {:induction false} TopsOwnWindowIsMax(hs: seq<real>, w: nat, j: int)
    requires w <= j && j + w <= |hs| && 0 < w
    ensures TopsOwnWindow(hs, w, j) <==> hs[j] == MaxOf(hs[j - w..j + w])
  {
    var win := hs[j - w..j + w];
    assert win[w] == hs[j];
    assert forall k :: j - w <= k < j + w ==> hs[k] == win[k - (j - w)];
  }

  /** The scan's test `lows[i] == min(lows[i - window:i + window])` is BottomsOwnWindow. */
  lemma {:induction false} BottomsOwnWindowIsMin(ls: seq<real>, w: nat, j: int)
    requires w <= j && j + w <= |ls| && 0 < w
    ensures BottomsOwnWindow(ls, w, j) <==> ls[j] == MinOf(ls[j - w..j + w])
  {
    var win := ls[j - w..j + w];
    assert win[w] == ls[j];
    assert forall k :: j - w <= k < j + w ==> ls[k] == win[k - (j - w)];
  }

  /** Lows of the candles at positions w <= j < end that equal the lowest low of their window. */
  function Troughs(ls: seq<real>, w: nat, end: int): seq<real>
    requires 0 < w && end + w <= |ls|
    decreases end
  {
    if end <= w then []
    else
      var j := end - 1;
      Troughs(ls, w, j) + (if BottomsOwnWindow(ls, w, j) then [ls[j]] else [])
  }

  lemma {:induction false} PeaksStep(hs: seq<real>, w: nat, i: int)
    requires 0 < w <= i && i + 1 + w <= |hs|
    ensures Peaks(hs, w, i + 1) == Peaks(hs, w, i) + (if TopsOwnWindow(hs, w, i) then [hs[i]] else [])
  {
  }

  lemma {:induction false} TroughsStep(ls: seq<real>, w: nat, i: int)
    requires 0 < w <= i && i + 1 + w <= |ls|
    ensures Troughs(ls, w, i + 1) == Troughs(ls, w, i) + (if BottomsOwnWindow(ls, w, i) then [ls[i]] else [])
  {
  }

  /** A value in a list with at most v appended, that was not in the list, is v. */
  lemma {:induction false} NewInSnoc(s: seq<real>, keep: bool, v: real, x: real)
    requires x in s + (if keep then [v] else []) && x !in s
    ensures keep && x == v
  {
  }

  /** x is the high at some position w <= j < end, and the highest of the window of w around it. */
  ghost predicate TopsWindow(hs: seq<real>, w: nat, end: int, x: real)
    requires 0 < w
  {
    exists j :: w <= j < end && j + w <= |hs| && hs[j] == x && TopsOwnWindow(hs, w, j)
  }

  /** x is the low at some position w <= j < end, and the lowest of the window of w around it. */
  ghost predicate BottomsWindow(ls: seq<real>, w: nat, end: int, x: real)
    requires 0 < w
  {
    exists j :: w <= j < end && j + w <= |ls| && ls[j] == x && BottomsOwnWindow(ls, w, j)
  }

  /** Every value collected by Peaks is the high of a candle that tops its window. */
  lemma {:induction false} PeakIsWindowMax(hs: seq<real>, w: nat, end: int, x: real)
    requires 0 < w && end + w <= |hs|
    requires x in Peaks(hs, w, end)
    ensures TopsWindow(hs, w, end, x)
  {
    assert end > w;
    var j := end - 1;
    PeaksStep(hs, w, j);
    if x !in Peaks(hs, w, j) {
      NewInSnoc(Peaks(hs, w, j), TopsOwnWindow(hs, w, j), hs[j], x);
    } else {
      PeakIsWindowMax(hs, w, j, x);
      var k :| w <= k < j && k + w <= |hs| && hs[k] == x && TopsOwnWindow(hs, w, k);
      assert w <= k < end;
    }
  }

  /** Every value collected by Troughs is the low of a candle that bottoms its window. */
  lemma {:induction false} TroughIsWindowMin(ls: seq<real>, w: nat, end: int, x: real)
    requires 0 < w && end + w <= |ls|
    requires x in Troughs(ls, w, end)
    ensures BottomsWindow(ls, w, end, x)
  {
    assert end > w;
    var j := end - 1;
    TroughsStep(ls, w, j);
    if x !in Troughs(ls, w, j) {
      NewInSnoc(Troughs(ls, w, j), BottomsOwnWindow(ls, w, j), ls[j], x);
    } else {
      TroughIsWindowMin(ls, w, j, x);
      var k :| w <= k < j && k + w <= |ls| && ls[k] == x && BottomsOwnWindow(ls, w, k);
      assert w <= k < end;
    }
  }

  function Highs(ks: seq<Candle>): (hs: seq<real>)
    ensures |hs| == |ks| && forall i :: 0 <= i < |ks| ==> hs[i] == ks[i].high
  {
    seq(|ks|, i requires 0 <= i < |ks| => ks[i].high)
  }

  function Lows(ks: seq<Candle>): (ls: seq<real>)
    ensures |ls| == |ks| && forall i :: 0 <= i < |ks| ==> ls[i] == ks[i].low
  {
    seq(|ks|, i requires 0 <= i < |ks| => ks[i].low)
  }

  /** A prefix of an ascending list holds every listed value below one it holds. */
  lemma {:induction false} PrefixOfAscending(s: seq<real>, m: int, x: real, y: real)
    requires StrictlyAscending(s)
    requires x in s && y in Take(s, m) && x <= y
    ensures x in Take(s, m)
  {
    var t := Take(s, m);
    var a :| 0 <= a < |s| && s[a] == x;
    var b :| 0 <= b < |t| && t[b] == y;
    assert s[b] == y;
    assert a <= b;
    assert t[a] == x;
  }

  /** `sorted(set(troughs))[:numLevels]` over the troughs of the lows with window w. */
  function SupportLevels(lows: seq<real>, w: nat, numLevels: int): seq<real>
    requires 0 < w
  {
    Take(SortedSet(Troughs(lows, w, |lows| - w)), numLevels)
  }

  /** `sorted(set(peaks), reverse=True)[:numLevels]` over the peaks of the highs with window w. */
  function ResistanceLevels(highs: seq<real>, w: nat, numLevels: int): seq<real>
    requires 0 < w
  {
    Take(Reverse(SortedSet(Peaks(highs, w, |highs| - w))), numLevels)
  }

  /**
   * The supports are distinct and ascending, at most numLevels of them, each the low of a
   * candle that bottoms its window, and they are the lowest such lows: a trough below a
   * returned support is returned too.
   */
  lemma {:induction false} SupportLevelsSound(lows: seq<real>, w: nat, numLevels: int)
    requires 0 < w
    ensures StrictlyAscending(SupportLevels(lows, w, numLevels))
    ensures numLevels >= 0 ==> |SupportLevels(lows, w, numLevels)| <= numLevels
    ensures forall x :: x in SupportLevels(lows, w, numLevels) ==>
      BottomsWindow(lows, w, |lows| - w, x)
    ensures forall x, y :: x in Troughs(lows, w, |lows| - w) && y in SupportLevels(lows, w, numLevels) && x <= y ==>
      x in SupportLevels(lows, w, numLevels)
  {
    var all := Troughs(lows, w, |lows| - w);
    var asc := SortedSet(all);
    var sup := SupportLevels(lows, w, numLevels);
    forall i, j | 0 <= i < j < |sup| ensures sup[i] < sup[j] {
      assert sup[i] == asc[i] && sup[j] == asc[j];
    }
    SupportsAreTroughs(lows, w, numLevels);
    forall x, y | x in all && y in sup && x <= y
      ensures x in sup
    {
      PrefixOfAscending(asc, numLevels, x, y);
    }
  }

  lemma {:induction false} SupportsAreTroughs(lows: seq<real>, w: nat, numLevels: int)
    requires 0 < w
    ensures forall x :: x in SupportLevels(lows, w, numLevels) ==>
      BottomsWindow(lows, w, |lows| - w, x)
  {
    forall x | x in SupportLevels(lows, w, numLevels)
      ensures BottomsWindow(lows, w, |lows| - w, x)
    {
      SupportIsTrough(lows, w, numLevels, x);
    }
  }

  lemma {:induction false} SupportIsTrough(lows: seq<real>, w: nat, numLevels: int, x: real)
    requires 0 < w && x in SupportLevels(lows, w, numLevels)
    ensures BottomsWindow(lows, w, |lows| - w, x)
  {
    var troughs := Troughs(lows, w, |lows| - w);
    var asc := SortedSet(troughs);
    assert x in Take(asc, numLevels);
    assert x in troughs;
    TroughIsWindowMin(lows, w, |lows| - w, x);
  }

  /**
   * The resistances are distinct and descending, at most numLevels of them, each the high of
   * a candle that tops its window, and they are the highest such highs.
   */
  lemma {:induction false} ResistanceLevelsSound(highs: seq<real>, w: nat, numLevels: int)
    requires 0 < w
    ensures StrictlyDescending(ResistanceLevels(highs, w, numLevels))
    ensures numLevels >= 0 ==> |ResistanceLevels(highs, w, numLevels)| <= numLevels
    ensures forall x :: x in ResistanceLevels(highs, w, numLevels) ==>
      TopsWindow(highs, w, |highs| - w, x)
    ensures forall x, y :: x in Peaks(highs, w, |highs| - w) && y in ResistanceLevels(highs, w, numLevels) && x >= y ==>
      x in ResistanceLevels(highs, w, numLevels)
  {
    ReverseTakeOrdered(SortedSet(Peaks(highs, w, |highs| - w)), numLevels);
    ResistancesArePeaks(highs, w, numLevels);
  }

  lemma {:induction false} ResistancesArePeaks(highs: seq<real>, w: nat, numLevels: int)
    requires 0 < w
    ensures forall x :: x in ResistanceLevels(highs, w, numLevels) ==>
      TopsWindow(highs, w, |highs| - w, x)
  {
    forall x | x in ResistanceLevels(highs, w, numLevels)
      ensures TopsWindow(highs, w, |highs| - w, x)
    {
      ResistanceIsPeak(highs, w, numLevels, x);
    }
  }

  lemma {:induction false} ResistanceIsPeak(highs: seq<real>, w: nat, numLevels: int, x: real)
    requires 0 < w && x in ResistanceLevels(highs, w, numLevels)
    ensures TopsWindow(highs, w, |highs| - w, x)
  {
    var peaks := Peaks(highs, w, |highs| - w);
    var asc := SortedSet(peaks);
    TakeReverseMember(asc, numLevels, x);
    assert x in peaks;
    PeakIsWindowMax(highs, w, |highs| - w, x);
  }

  /** What a prefix of the reversed list holds, the list holds. */
  lemma {:induction false} TakeReverseMember(s: seq<real>, m: int, x: real)
    requires x in Take(Reverse(s), m)
    ensures x in s
  {
    var t := Take(Reverse(s), m);
    var i :| 0 <= i < |t| && t[i] == x;
    assert Reverse(s)[i] == s[|s| - 1 - i];
  }

  /**
   * A prefix of the descending order of an ascending list is descending, and it holds every
   * listed value above one it holds.
   */
  lemma {:induction false} ReverseTakeOrdered(asc: seq<real>, m: int)
    requires StrictlyAscending(asc)
    ensures StrictlyDescending(Take(Reverse(asc), m))
    ensures forall x, y :: x in asc && y in Take(Reverse(asc), m) && x >= y ==> x in Take(Reverse(asc), m)
  {
    var desc := Reverse(asc);
    var res := Take(desc, m);
    forall i, j | 0 <= i < j < |res| ensures res[i] > res[j] {
      assert res[i] == desc[i] && res[j] == desc[j];
    }
    forall x, y | x in asc && y in res && x >= y
      ensures x in res
    {
      var b :| 0 <= b < |res| && res[b] == y;
      var c :| 0 <= c < |asc| && asc[c] == x;
      var a := |asc| - 1 - c;
      assert desc[a] == x;
      assert a <= b;
      assert res[a] == x;
    }
  }

  /** The scanning loop for resistances: the highs that top their window, in candle order. */
  method CollectPeaks(hs: seq<real>, w: nat) returns (res: seq<real>)
    requires 0 < w <= |hs|
    ensures res == Peaks(hs, w, |hs| - w)
  {
    res := [];
    var last := |hs| - w;
    if last <= w {
      return;
    }
    var i := w;
    while i < last
      invariant w <= i <= last
      invariant res == Peaks(hs, w, i)
    {
      PeaksStep(hs, w, i);
      TopsOwnWindowIsMax(hs, w, i);
      if hs[i] == MaxOf(hs[i - w..i + w]) {
        res := res + [hs[i]];
      }
      i := i + 1;
    }
  }

  /** The scanning loop for supports: the lows that bottom their window, in candle order. */
  method CollectTroughs(ls: seq<real>, w: nat) returns (sup: seq<real>)
    requires 0 < w <= |ls|
    ensures sup == Troughs(ls, w, |ls| - w)
  {
    sup := [];
    var last := |ls| - w;
    if last <= w {
      return;
    }
    var i := w;
    while i < last
      invariant w <= i <= last
      invariant sup == Troughs(ls, w, i)
    {
      TroughsStep(ls, w, i);
      BottomsOwnWindowIsMin(ls, w, i);
      if ls[i] == MinOf(ls[i - w..i + w]) {
        sup := sup + [ls[i]];
      }
      i := i + 1;
    }
  }

  /**
   * Support and resistance levels: a candle whose low (high) is the extreme of the
   * 2·window candles around it marks a support (resistance). The distinct supports are
   * returned ascending and the resistances descending, at most `numLevels` of each.
   * Fewer than `windowSize` candles give no levels, as does a zero window, whose empty
   * window makes `max` fail.
   */
  method SupportResistance(ks: seq<Candle>, numLevels: int, windowSize: nat)
    returns (supports: seq<real>, resistances: seq<real>)
    ensures |ks| < windowSize || windowSize == 0 ==> supports == [] && resistances == []
    ensures windowSize > 0 && |ks| >= windowSize ==>
      && supports == SupportLevels(Lows(ks), windowSize, numLevels)
      && resistances == ResistanceLevels(Highs(ks), windowSize, numLevels)
  {
    if |ks| < windowSize || windowSize == 0 {
      return [], [];
    }
    supports := SupportScan(Lows(ks), windowSize, numLevels);
    resistances := ResistanceScan(Highs(ks), windowSize, numLevels);
  }

  /** The supports of the lows: the troughs, distinct and ascending, cut to numLevels. */
  method SupportScan(lows: seq<real>, w: nat, numLevels: int) returns (supports: seq<real>)
    requires 0 < w <= |lows|
    ensures supports == SupportLevels(lows, w, numLevels)
  {
    var sup := CollectTroughs(lows, w);
    supports := Take(SortedSet(sup), numLevels);
  }

  /** The resistances of the highs: the peaks, distinct and descending, cut to numLevels. */
  method ResistanceScan(highs: seq<real>, w: nat, numLevels: int) returns (resistances: seq<real>)
    requires 0 < w <= |highs|
    ensures resistances == ResistanceLevels(highs, w, numLevels)
  {
    var res := CollectPeaks(highs, w);
    resistances := Take(Reverse(SortedSet(res)), numLevels);
  }

  /**
   * Reward over risk: |tp - entry| / |entry - sl| for a LONG and |entry - tp| / |sl - entry|
   * for a SHORT; 0 when there is no risk.
   */
  function RiskReward(entry: real, stopLoss: real, takeProfit: real, side: Direction): (r: real)
    ensures r >= 0.0
    ensures stopLoss == entry ==> r == 0.0
    ensures stopLoss != entry ==> r * Abs(entry - stopLoss) == Abs(takeProfit - entry)
  {
    var risk := if side == Long then Abs(entry - stopLoss) else Abs(stopLoss - entry);
    var reward := if side == Long then Abs(takeProfit - entry) else Abs(entry - takeProfit);
    if risk > 0.0 then
      DivNonNegative(reward, risk);
      reward / risk
    else 0.0
  }

  /** The ratio does not depend on the side: both formulas measure the same distances. */
  lemma {:induction false} RiskRewardSideIndependent(entry: real, stopLoss: real, takeProfit: real)
    ensures RiskReward(entry, stopLoss, takeProfit, Long) == RiskReward(entry, stopLoss, takeProfit, Short)
  {
    assert Abs(entry - stopLoss) == Abs(stopLoss - entry);
    assert Abs(takeProfit - entry) == Abs(entry - takeProfit);
  }
}
