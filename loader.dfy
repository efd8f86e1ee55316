/** Calibration lookups (cat_follow/calibration/loader.py).

    The JSON files are not read here: a `Calibration` value holds what the
    loader would have found in them, with the speed table's keys already
    parsed to integers and every optional key as an `Option`. */
module Loader {
  import opened Base

  const DefaultMaxSteerAngleDeg: real := 25.0
  const DefaultMinTurnRadiusCm: real := 40.0
  const DefaultTargetDistanceCm: real := 15.0

  /** `areaToCm` is `None` when the key is missing or its value is not a list. */
  datatype Calibration = Calibration(
    speedToCmPerSec: map<int, real>,
    maxSteerAngleDeg: Option<real>,
    minTurnRadiusCm: Option<real>,
    areaToCm: Option<seq<(real, real)>>,
    targetDistanceCm: Option<real>)

  function MaxSteerAngleDeg(c: Calibration): real
  {
    if c.maxSteerAngleDeg.Some? then c.maxSteerAngleDeg.value else DefaultMaxSteerAngleDeg
  }

  function MinTurnRadiusCm(c: Calibration): real
  {
    if c.minTurnRadiusCm.Some? then c.minTurnRadiusCm.value else DefaultMinTurnRadiusCm
  }

  function TargetDistanceCm(c: Calibration): real
  {
    if c.targetDistanceCm.Some? then c.targetDistanceCm.value else DefaultTargetDistanceCm
  }

  lemma DefaultsWhenMissing(c: Calibration)
    requires c.maxSteerAngleDeg.None? && c.minTurnRadiusCm.None? && c.targetDistanceCm.None?
    ensures MaxSteerAngleDeg(c) == 25.0
    ensures MinTurnRadiusCm(c) == 40.0
    ensures TargetDistanceCm(c) == 15.0
  {
  }

  // ---------------------------------------------------------------------
  // Piecewise-linear interpolation over a table of (key, value) pairs
  // ---------------------------------------------------------------------

  type Table = seq<(real, real)>

  ghost predicate SortedByKey(t: Table)
  {
    forall i, j :: 0 <= i < j < |t| ==> t[i].0 <= t[j].0
  }

  /** The straight line through `p` and `q`, evaluated at `s`. */
  function Lerp(p: (real, real), q: (real, real), s: real): real
    requires p.0 != q.0
  {
    p.1 + (s - p.0) / (q.0 - p.0) * (q.1 - p.1)
  }

  /** The search of the source's `for` loop, from segment `i` on: the first
      segment `[t[i].0, t[i+1].0]` holding `s` gives the line through its ends;
      when none does, the last value. */
  function InterpFrom(t: Table, s: real, i: nat): (r: real)
    requires i < |t|
    requires i + 1 < |t| ==> t[i].0 < s
    ensures MinValueFrom(t, i) <= r <= MaxValueFrom(t, i)
    decreases |t| - i
  {
    if i + 1 == |t| then t[|t| - 1].1
    else if t[i].0 <= s <= t[i + 1].0 then
      LerpBetween(t[i], t[i + 1], s);
      Lerp(t[i], t[i + 1], s)
    else InterpFrom(t, s, i + 1)
  }

  /** Clamp to the first / last value outside the keys, interpolate inside.
      The lookup never extrapolates: the result lies between the smallest
      and the largest value of the table. */
  function Interp(t: Table, s: real): (r: real)
    requires |t| > 0
    ensures MinValueFrom(t, 0) <= r <= MaxValueFrom(t, 0)
  {
    if s <= t[0].0 then
      ValueBounds(t, 0);
      t[0].1
    else if s >= t[|t| - 1].0 then
      ValueBounds(t, 0);
      t[|t| - 1].1
    else InterpFrom(t, s, 0)
  }

  /** The smallest value of `t[i..]`. */
  function MinValueFrom(t: Table, i: nat): real
    requires i < |t|
    decreases |t| - i
  {
    if i + 1 == |t| then t[i].1
    else
      var m := MinValueFrom(t, i + 1);
      if t[i].1 < m then t[i].1 else m
  }

  /** The largest value of `t[i..]`. */
  function MaxValueFrom(t: Table, i: nat): real
    requires i < |t|
    decreases |t| - i
  {
    if i + 1 == |t| then t[i].1
    else
      var m := MaxValueFrom(t, i + 1);
      if t[i].1 > m then t[i].1 else m
  }

  /** `MinValueFrom` and `MaxValueFrom` bound every value of `t[i..]`. */
  lemma {:induction false} ValueBounds(t: Table, i: nat)
    requires i < |t|
    ensures forall j :: i <= j < |t| ==> MinValueFrom(t, i) <= t[j].1 <= MaxValueFrom(t, i)
    decreases |t| - i
  {
    if i + 1 < |t| {
      ValueBounds(t, i + 1);
    }
  }

  /** ... and both are values of `t[i..]`. */
  lemma {:induction false} ValueAttained(t: Table, i: nat)
    requires i < |t|
    ensures exists j :: i <= j < |t| && t[j].1 == MinValueFrom(t, i)
    ensures exists k :: i <= k < |t| && t[k].1 == MaxValueFrom(t, i)
    decreases |t| - i
  {
    if i + 1 < |t| {
      ValueAttained(t, i + 1);
      var j :| i + 1 <= j < |t| && t[j].1 == MinValueFrom(t, i + 1);
      var k :| i + 1 <= k < |t| && t[k].1 == MaxValueFrom(t, i + 1);
      if t[i].1 < MinValueFrom(t, i + 1) {
        assert t[i].1 == MinValueFrom(t, i);
      } else {
        assert t[j].1 == MinValueFrom(t, i);
      }
      if t[i].1 > MaxValueFrom(t, i + 1) {
        assert t[i].1 == MaxValueFrom(t, i);
      } else {
        assert t[k].1 == MaxValueFrom(t, i);
      }
    } else {
      assert t[i].1 == MinValueFrom(t, i);
      assert t[i].1 == MaxValueFrom(t, i);
    }
  }

  lemma {:induction false} LerpBetween(p: (real, real), q: (real, real), s: real)
    requires p.0 < s <= q.0
    ensures p.1 <= q.1 ==> p.1 <= Lerp(p, q, s) <= q.1
    ensures q.1 <= p.1 ==> q.1 <= Lerp(p, q, s) <= p.1
    ensures s == q.0 ==> Lerp(p, q, s) == q.1
  {
    var f := (s - p.0) / (q.0 - p.0);
    FractionInUnit(s - p.0, q.0 - p.0);
    assert Lerp(p, q, s) == p.1 + f * (q.1 - p.1);
    ScaleBetween(f, q.1 - p.1);
  }

  /** A positive part over a whole no smaller than it is in (0, 1]. */
  lemma {:induction false} FractionInUnit(a: real, b: real)
    requires 0.0 < a <= b
    ensures 0.0 < a / b <= 1.0
  {
    var f := a / b;
    assert f * b == a;
    assert (f - 1.0) * b == a - b <= 0.0;
  }

  /** Scaling by a factor in (0, 1] keeps a value between zero and itself. */
  lemma {:induction false} ScaleBetween(f: real, d: real)
    requires 0.0 < f <= 1.0
    ensures 0.0 <= d ==> 0.0 <= f * d <= d
    ensures d <= 0.0 ==> d <= f * d <= 0.0
  {
    assert d - f * d == (1.0 - f) * d;
    if 0.0 <= d {
      assert 0.0 <= (1.0 - f) * d;
    } else {
      assert (1.0 - f) * d <= 0.0;
    }
  }

  /** In a sorted table the search stops at the segment that holds `s`. */
  lemma {:induction false} InterpFromSegment(t: Table, s: real, i0: nat, i: nat)
    requires SortedByKey(t)
    requires i0 <= i && i + 1 < |t|
    requires t[i0].0 < s && t[i].0 < s <= t[i + 1].0
    ensures InterpFrom(t, s, i0) == Lerp(t[i], t[i + 1], s)
    decreases i - i0
  {
    if i0 < i {
      assert t[i0 + 1].0 <= t[i].0;
      InterpFromSegment(t, s, i0 + 1, i);
    }
  }

  /** Strictly inside a segment of a sorted table, the lookup is on that segment's line. */
  lemma InterpAdjacent(t: Table, s: real, j: nat)
    requires SortedByKey(t) && j + 1 < |t| && t[j].0 < s < t[j + 1].0
    ensures Interp(t, s) == Lerp(t[j], t[j + 1], s)
  {
    assert t[0].0 <= t[j].0 && t[j + 1].0 <= t[|t| - 1].0;
    InterpFromSegment(t, s, 0, j);
  }

  /** At a key with no equal neighbour, the lookup gives that key's value. */
  lemma InterpAtKey(t: Table, j: nat)
    requires SortedByKey(t) && j < |t|
    requires 0 < j ==> t[j - 1].0 < t[j].0
    requires j + 1 < |t| ==> t[j].0 < t[j + 1].0
    ensures Interp(t, t[j].0) == t[j].1
  {
    var s := t[j].0;
    if 0 < j && j + 1 < |t| {
      assert t[0].0 <= t[j - 1].0 && t[j + 1].0 <= t[|t| - 1].0;
      InterpFromSegment(t, s, 0, j - 1);
      LerpBetween(t[j - 1], t[j], s);
    } else if 0 < j {
      assert t[0].0 <= t[j - 1].0;
    }
  }

  /** Everything the lookup promises about a sorted table with two keys or more. */
  lemma InterpSorted(t: Table, s: real)
    requires SortedByKey(t) && |t| >= 2
    ensures s <= t[0].0 ==> Interp(t, s) == t[0].1
    ensures t[0].0 < s && s >= t[|t| - 1].0 ==> Interp(t, s) == t[|t| - 1].1
    ensures forall i :: 0 <= i < |t| - 1 && t[i].0 < s <= t[i + 1].0 && s < t[|t| - 1].0 ==>
      Interp(t, s) == Lerp(t[i], t[i + 1], s)
  {
    forall i | 0 <= i < |t| - 1 && t[i].0 < s <= t[i + 1].0 && s < t[|t| - 1].0
      ensures Interp(t, s) == Lerp(t[i], t[i + 1], s)
    {
      assert t[0].0 <= t[i].0;
      InterpFromSegment(t, s, 0, i);
    }
  }

  // ---------------------------------------------------------------------
  // Speed -> cm/s
  // ---------------------------------------------------------------------

  lemma {:induction false} MinExists(s: set<int>)
    requires s != {}
    ensures exists m :: m in s && forall k :: k in s ==> m <= k
    decreases |s|
  {
    if forall k :: k !in s { assert false; }
    var x :| x in s;
    var rest := s - {x};
    if rest == {} {
      assert s == {x};
    } else {
      MinExists(rest);
      var m :| m in rest && forall k :: k in rest ==> m <= k;
      var lo := if x < m then x else m;
      forall k | k in s ensures lo <= k {
        if k != x { assert k in rest; }
      }
      assert lo in s;
    }
  }

  /** `sorted(keys)` for a set of distinct integer keys. */
  function SortedKeys(s: set<int>): (r: seq<int>)
    ensures |r| == |s|
    ensures forall i, j :: 0 <= i < j < |r| ==> r[i] < r[j]
    ensures forall i :: 0 <= i < |r| ==> r[i] in s
    decreases |s|
  {
    if s == {} then []
    else
      var m := MinOf(s);
      var rest := SortedKeys(s - {m});
      assert forall i :: 0 <= i < |rest| ==> m < rest[i];
      [m] + rest
  }

  /** Every key has its place in `SortedKeys`. */
  lemma {:induction false} SortedKeysIndex(s: set<int>, k: int) returns (j: nat)
    requires k in s
    ensures j < |SortedKeys(s)| && SortedKeys(s)[j] == k
    decreases |s|
  {
    var m := MinOf(s);
    if k == m {
      j := 0;
    } else {
      var j' := SortedKeysIndex(s - {m}, k);
      j := j' + 1;
    }
  }

  function MinOf(s: set<int>): (m: int)
    requires s != {}
    ensures m in s && forall k :: k in s ==> m <= k
  {
    MinExists(s);
    var m :| m in s && forall k :: k in s ==> m <= k;
    m
  }

  /** Pairs each key with its value from `m`. */
  function PairsOf(keys: seq<int>, m: map<int, real>): (t: Table)
    requires forall i :: 0 <= i < |keys| ==> keys[i] in m
    ensures |t| == |keys|
    ensures forall i :: 0 <= i < |t| ==> t[i] == (keys[i] as real, m[keys[i]])
  {
    if keys == [] then [] else [(keys[0] as real, m[keys[0]])] + PairsOf(keys[1..], m)
  }

  /** The speed table as (key, value) pairs in increasing key order. */
  function SpeedTable(m: map<int, real>): (t: Table)
    ensures |t| == |m|
    ensures forall i :: 0 <= i < |t| ==> t[i] == (SortedKeys(m.Keys)[i] as real, m[SortedKeys(m.Keys)[i]])
    ensures forall i, j :: 0 <= i < j < |t| ==> t[i].0 < t[j].0
  {
    var keys := SortedKeys(m.Keys);
    assert |m.Keys| == |m|;
    PairsOf(keys, m)
  }

  /** Every key of the speed table has its place in `SpeedTable`. */
  lemma SpeedTableIndex(m: map<int, real>, k: int) returns (j: nat)
    requires k in m
    ensures j < |SpeedTable(m)| && SpeedTable(m)[j] == (k as real, m[k])
  {
    j := SortedKeysIndex(m.Keys, k);
  }

  /** `Calibration.get_cm_per_sec`, as a value. */
  function CmPerSec(c: Calibration, speed: int): (r: real)
    ensures |c.speedToCmPerSec| == 0 ==> r >= 1.0 && r >= speed as real * 0.4
    ensures |c.speedToCmPerSec| > 0 ==>
      exists k1, k2 :: k1 in c.speedToCmPerSec && k2 in c.speedToCmPerSec &&
        c.speedToCmPerSec[k1] <= r <= c.speedToCmPerSec[k2]
  {
    if |c.speedToCmPerSec| == 0 then
      if 1.0 < speed as real * 0.4 then speed as real * 0.4 else 1.0
    else
      var r := Interp(SpeedTable(c.speedToCmPerSec), speed as real);
      SpeedTableRange(c.speedToCmPerSec, r);
      r
  }

  /** A value within the range of the speed table lies between two values of the map. */
  lemma SpeedTableRange(m: map<int, real>, r: real)
    requires |m| > 0
    requires var t := SpeedTable(m);
      MinValueFrom(t, 0) <= r <= MaxValueFrom(t, 0)
    ensures exists k1, k2 :: k1 in m && k2 in m && m[k1] <= r <= m[k2]
  {
    var t := SpeedTable(m);
    ValueAttained(t, 0);
    var j :| 0 <= j < |t| && t[j].1 == MinValueFrom(t, 0);
    var k :| 0 <= k < |t| && t[k].1 == MaxValueFrom(t, 0);
    var keys := SortedKeys(m.Keys);
    assert keys[j] in m && keys[k] in m;
    assert m[keys[j]] <= r <= m[keys[k]];
  }

  /** `Calibration.get_cm_per_sec`: the lookup as the source runs it. */
  method GetCmPerSec(c: Calibration, speed: int) returns (r: real)
    ensures r == CmPerSec(c, speed)
  {
    var byInt := c.speedToCmPerSec;
    if |byInt| == 0 {
      return if 1.0 < speed as real * 0.4 then speed as real * 0.4 else 1.0;
    }
    var speeds := SortedKeys(byInt.Keys);
    assert |byInt.Keys| == |byInt|;
    var pairs := PairsOf(speeds, byInt);
    r := InterpLookup(pairs, speed as real);
  }

  lemma CmPerSecFallback(c: Calibration, speed: int)
    requires |c.speedToCmPerSec| == 0
    ensures CmPerSec(c, speed) >= 1.0
    ensures CmPerSec(c, speed) >= speed as real * 0.4
    ensures CmPerSec(c, speed) == 1.0 || CmPerSec(c, speed) == speed as real * 0.4
  {
  }

  /** A key of the speed table maps to its own value. */
  lemma CmPerSecAtKey(c: Calibration, speed: int)
    requires speed in c.speedToCmPerSec
    ensures CmPerSec(c, speed) == c.speedToCmPerSec[speed]
  {
    var m := c.speedToCmPerSec;
    var t := SpeedTable(m);
    var j := SpeedTableIndex(m, speed);
    assert SortedByKey(t);
    InterpAtKey(t, j);
    assert CmPerSec(c, speed) == Interp(t, speed as real) by {
      assert speed in m.Keys;
    }
  }

  /** At or below the smallest key the smallest key's value, at or above the
      largest key the largest key's value. */
  lemma CmPerSecClamps(c: Calibration, lo: int, hi: int, speed: int)
    requires lo in c.speedToCmPerSec && hi in c.speedToCmPerSec
    requires forall k :: k in c.speedToCmPerSec ==> lo <= k <= hi
    ensures speed <= lo ==> CmPerSec(c, speed) == c.speedToCmPerSec[lo]
    ensures speed >= hi ==> CmPerSec(c, speed) == c.speedToCmPerSec[hi]
  {
    var m := c.speedToCmPerSec;
    var t := SpeedTable(m);
    var jl := SpeedTableIndex(m, lo);
    var jh := SpeedTableIndex(m, hi);
    assert t[0].0 <= t[jl].0;
    assert t[jh].0 <= t[|t| - 1].0;
  }

  /** Two keys with no key between them sit next to each other in `SpeedTable`. */
  lemma AdjacentKeys(m: map<int, real>, a: int, b: int) returns (j: nat)
    requires a in m && b in m && a < b
    requires forall k :: k in m ==> k <= a || b <= k
    ensures j + 1 < |SpeedTable(m)|
    ensures SpeedTable(m)[j] == (a as real, m[a]) && SpeedTable(m)[j + 1] == (b as real, m[b])
  {
    var t := SpeedTable(m);
    j := SpeedTableIndex(m, a);
    var jb := SpeedTableIndex(m, b);
    assert j < jb;
    var next := SortedKeys(m.Keys)[j + 1];
    assert t[j + 1].0 == next as real && next in m;
    assert a < next;
    assert b <= next;
    assert jb == j + 1;
  }

  /** Strictly between two adjacent keys `a < speed < b` the result is on the
      line through their values. */
  lemma CmPerSecLerp(c: Calibration, a: int, b: int, speed: int)
    requires a in c.speedToCmPerSec && b in c.speedToCmPerSec
    requires a < speed < b
    requires forall k :: k in c.speedToCmPerSec ==> k <= a || b <= k
    ensures var m := c.speedToCmPerSec;
      CmPerSec(c, speed) == Lerp((a as real, m[a]), (b as real, m[b]), speed as real)
  {
    var m := c.speedToCmPerSec;
    var t := SpeedTable(m);
    var j := AdjacentKeys(m, a, b);
    assert SortedByKey(t);
    InterpAdjacent(t, speed as real, j);
    assert CmPerSec(c, speed) == Interp(t, speed as real) by {
      assert a in m.Keys;
    }
  }

  /** ... and so between the two values. */
  lemma CmPerSecBetween(c: Calibration, a: int, b: int, speed: int)
    requires a in c.speedToCmPerSec && b in c.speedToCmPerSec
    requires a < speed < b
    requires forall k :: k in c.speedToCmPerSec ==> k <= a || b <= k
    ensures var m := c.speedToCmPerSec;
      (m[a] <= m[b] ==> m[a] <= CmPerSec(c, speed) <= m[b]) &&
      (m[b] <= m[a] ==> m[b] <= CmPerSec(c, speed) <= m[a])
  {
    var m := c.speedToCmPerSec;
    CmPerSecLerp(c, a, b, speed);
    LerpBetween((a as real, m[a]), (b as real, m[b]), speed as real);
  }

  // ---------------------------------------------------------------------
  // Bounding-box area -> distance
  // ---------------------------------------------------------------------

  /** Inserts `p` before the first pair whose area is not smaller. */
  function InsertByArea(p: (real, real), t: Table): (r: Table)
    ensures |r| == |t| + 1
  {
    if t == [] || p.0 <= t[0].0 then [p] + t
    else [t[0]] + InsertByArea(p, t[1..])
  }

  /** Inserting adds exactly `p`. */
  lemma {:induction false} InsertByAreaAdds(p: (real, real), t: Table)
    ensures multiset(InsertByArea(p, t)) == multiset(t) + multiset{p}
  {
    if t != [] && t[0].0 < p.0 {
      InsertByAreaAdds(p, t[1..]);
      assert t == [t[0]] + t[1..];
    }
  }

  /** Inserting into a sorted table keeps it sorted. */
  lemma {:induction false} InsertByAreaSorted(p: (real, real), t: Table)
    requires SortedByKey(t)
    ensures SortedByKey(InsertByArea(p, t))
    ensures InsertByArea(p, t)[0] == p || (|t| > 0 && InsertByArea(p, t)[0] == t[0])
  {
    if t != [] && t[0].0 < p.0 {
      var rest := InsertByArea(p, t[1..]);
      InsertByAreaSorted(p, t[1..]);
      assert t[0].0 <= rest[0].0;
      var r := [t[0]] + rest;
      forall i, j | 0 <= i < j < |r| ensures r[i].0 <= r[j].0 {
        if i == 0 {
          assert r[0].0 <= rest[0].0 <= rest[j - 1].0;
        } else {
          assert r[i] == rest[i - 1] && r[j] == rest[j - 1];
        }
      }
    }
  }

  /** `sorted(table, key=lambda p: p[0])`, as a stable insertion sort: it
      orders the pairs by area and keeps every pair. */
  function SortByArea(t: Table): (r: Table)
    ensures SortedByKey(r)
    ensures multiset(r) == multiset(t)
  {
    if t == [] then []
    else
      var rest := SortByArea(t[1..]);
      InsertByAreaSorted(t[0], rest);
      InsertByAreaAdds(t[0], rest);
      assert t == [t[0]] + t[1..];
      InsertByArea(t[0], rest)
  }

  /** `Calibration.get_distance_cm_from_bbox_area`, as a value: an estimate
      exactly when the table has a pair, and never outside the table's
      distances. */
  function DistanceCmFromBboxArea(c: Calibration, area: real): (r: Option<real>)
    ensures r.Some? <==> c.areaToCm.Some? && |c.areaToCm.value| > 0
    ensures r.Some? ==> exists p, q :: p in c.areaToCm.value && q in c.areaToCm.value && p.1 <= r.value <= q.1
  {
    if c.areaToCm.None? || |c.areaToCm.value| == 0 then None
    else if |c.areaToCm.value| < 2 then
      var p := c.areaToCm.value[0];
      assert p in c.areaToCm.value && p.1 <= p.1 <= p.1;
      Some(p.1)
    else
      var sorted := SortByArea(c.areaToCm.value);
      var d := Interp(sorted, area);
      SortedRange(c.areaToCm.value, sorted, d);
      Some(d)
  }

  /** A value within the range of a permutation of `t` lies between two pairs of `t`. */
  lemma SortedRange(t: Table, sorted: Table, d: real)
    requires |sorted| > 0 && multiset(sorted) == multiset(t)
    requires MinValueFrom(sorted, 0) <= d <= MaxValueFrom(sorted, 0)
    ensures exists p, q :: p in t && q in t && p.1 <= d <= q.1
  {
    ValueAttained(sorted, 0);
    var j :| 0 <= j < |sorted| && sorted[j].1 == MinValueFrom(sorted, 0);
    var k :| 0 <= k < |sorted| && sorted[k].1 == MaxValueFrom(sorted, 0);
    assert sorted[j] in multiset(sorted) && sorted[k] in multiset(sorted);
    assert sorted[j] in t && sorted[k] in t;
  }

  /** `Calibration.get_distance_cm_from_bbox_area`: the lookup as the source runs it. */
  method GetDistanceCmFromBboxArea(c: Calibration, area: real) returns (r: Option<real>)
    ensures r == DistanceCmFromBboxArea(c, area)
  {
    if c.areaToCm.None? || |c.areaToCm.value| == 0 {
      return None;
    }
    var table := c.areaToCm.value;
    if |table| < 2 {
      return Some(table[0].1);
    }
    var sortedPairs := SortByArea(table);
    var d := InterpLookup(sortedPairs, area);
    return Some(d);
  }

  /** The clamp-or-interpolate search over the area-sorted pairs, as the
      lookup runs it: clamp outside the keys, otherwise scan the segments in
      order and interpolate on the first that holds the area. */
  method InterpLookup(sortedPairs: Table, area: real) returns (r: real)
    requires |sortedPairs| > 0
    ensures r == Interp(sortedPairs, area)
  {
    if area <= sortedPairs[0].0 {
      return sortedPairs[0].1;
    }
    if area >= sortedPairs[|sortedPairs| - 1].0 {
      return sortedPairs[|sortedPairs| - 1].1;
    }
    for i := 0 to |sortedPairs| - 1
      invariant i + 1 < |sortedPairs| ==> sortedPairs[i].0 < area
      invariant InterpFrom(sortedPairs, area, i) == Interp(sortedPairs, area)
    {
      var a1, d1 := sortedPairs[i].0, sortedPairs[i].1;
      var a2, d2 := sortedPairs[i + 1].0, sortedPairs[i + 1].1;
      if a1 <= area <= a2 {
        assert InterpFrom(sortedPairs, area, i) == d1 + (area - a1) / (a2 - a1) * (d2 - d1);
        return d1 + (area - a1) / (a2 - a1) * (d2 - d1);
      }
    }
    return sortedPairs[|sortedPairs| - 1].1;
  }

  /** No table or an empty one gives no estimate; a single pair gives its
      distance for every area. */
  lemma DistanceShortTables(c: Calibration, area: real)
    ensures c.areaToCm.None? || c.areaToCm == Some([]) ==> DistanceCmFromBboxArea(c, area).None?
    ensures c.areaToCm.Some? && |c.areaToCm.value| == 1 ==>
      DistanceCmFromBboxArea(c, area) == Some(c.areaToCm.value[0].1)
  {
  }

  /** With two pairs or more: the pairs sorted by area, clamped to the first
      and last distance outside their range, interpolated inside it. */
  lemma DistanceSorted(c: Calibration, area: real)
    requires c.areaToCm.Some? && |c.areaToCm.value| >= 2
    ensures var s := SortByArea(c.areaToCm.value);
      && SortedByKey(s) && multiset(s) == multiset(c.areaToCm.value)
      && (area <= s[0].0 ==> DistanceCmFromBboxArea(c, area) == Some(s[0].1))
      && (s[0].0 < area && area >= s[|s| - 1].0 ==> DistanceCmFromBboxArea(c, area) == Some(s[|s| - 1].1))
      && (forall i :: 0 <= i < |s| - 1 && s[i].0 < area <= s[i + 1].0 && area < s[|s| - 1].0 ==>
            DistanceCmFromBboxArea(c, area) == Some(Lerp(s[i], s[i + 1], area)))
  {
    InterpSorted(SortByArea(c.areaToCm.value), area);
  }
}
