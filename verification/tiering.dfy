/** Risk tiering: the mean emissions of each cluster the partitioner
    produced, the first cluster with the largest and the smallest mean, and
    the High/Medium/Low label every row receives from them. */
module Tiering {
  import opened Records

  /** Number of groups the partitioner is asked for (k-means with k = 3). */
  const ClusterCount: nat := 3

  /** A partitioner's answer for `n` rows: one cluster id in 0..2 per row. */
  predicate ValidAssignment(c: seq<int>, n: nat)
  {
    |c| == n && forall i :: 0 <= i < |c| ==> 0 <= c[i] < ClusterCount
  }

  /** Sum of the emissions of the rows assigned to cluster `k`. */
  function SumIn(e: seq<real>, c: seq<int>, k: int): real
    requires |e| == |c|
  {
    if |e| == 0 then 0.0
    else (if c[0] == k then e[0] else 0.0) + SumIn(e[1..], c[1..], k)
  }

  /** Number of rows assigned to cluster `k`; positive exactly when `k`
      occurs in the assignment. */
  function CountIn(c: seq<int>, k: int): (n: nat)
    ensures n <= |c|
    ensures n > 0 <==> k in c
  {
    if |c| == 0 then 0
    else (if c[0] == k then 1 else 0) + CountIn(c[1..], k)
  }

  /** Mean emissions of cluster `k`, absent when no row belongs to it (a
      grouping only produces the groups that occur). */
  function Mean(e: seq<real>, c: seq<int>, k: int): (m: Option<real>)
    requires |e| == |c|
    ensures m.Some? <==> k in c
    ensures m.Some? ==> m.value * (CountIn(c, k) as real) == SumIn(e, c, k)
  {
    var n := CountIn(c, k);
    if n == 0 then None else Some(SumIn(e, c, k) / n as real)
  }

  /** The per-cluster means, indexed by cluster id in ascending order. */
  function Means(e: seq<real>, c: seq<int>): (m: seq<Option<real>>)
    requires |e| == |c|
    ensures |m| == ClusterCount
    ensures forall k :: 0 <= k < ClusterCount ==> (m[k].Some? <==> k in c)
    ensures forall k :: 0 <= k < ClusterCount && m[k].Some? ==>
      m[k].value * (CountIn(c, k) as real) == SumIn(e, c, k)
  {
    seq(ClusterCount, k requires 0 <= k < ClusterCount => Mean(e, c, k))
  }

  /** The grouped means, read entry by entry. */
  lemma MeansEntries(e: seq<real>, c: seq<int>)
    requires |e| == |c|
    ensures Means(e, c) == [Mean(e, c, 0), Mean(e, c, 1), Mean(e, c, 2)]
  {
  }

  /** No entry of `m` is present. */
  predicate AllAbsent(m: seq<Option<real>>)
  {
    forall j :: 0 <= j < |m| ==> m[j].None?
  }

  /** `h` is the first index of a largest present entry of `m`. */
  predicate IsFirstMax(m: seq<Option<real>>, h: int)
  {
    && 0 <= h < |m| && m[h].Some?
    && (forall j :: 0 <= j < |m| && m[j].Some? ==> m[j].value <= m[h].value)
    && (forall j :: 0 <= j < h && m[j].Some? ==> m[j].value < m[h].value)
  }

  /** `l` is the first index of a smallest present entry of `m`. */
  predicate IsFirstMin(m: seq<Option<real>>, l: int)
  {
    && 0 <= l < |m| && m[l].Some?
    && (forall j :: 0 <= j < |m| && m[j].Some? ==> m[l].value <= m[j].value)
    && (forall j :: 0 <= j < l && m[j].Some? ==> m[l].value < m[j].value)
  }

  /** Index of the first largest present entry, scanning ids upwards and
      replacing the candidate only on a strictly larger value; absent when
      there is no entry, where pandas `idxmax` raises on an empty series. */
  function IdxMax(m: seq<Option<real>>): (r: Option<nat>)
    ensures r.None? <==> AllAbsent(m)
    ensures r.Some? ==> IsFirstMax(m, r.value)
  {
    if |m| == 0 then None
    else
      var prev := IdxMax(m[..|m| - 1]);
      var last := |m| - 1;
      if m[last].None? then prev
      else if prev.None? then Some(last)
      else if m[last].value > m[prev.value].value then Some(last)
      else prev
  }

  /** Index of the first smallest present entry, the mirror of `IdxMax`. */
  function IdxMin(m: seq<Option<real>>): (r: Option<nat>)
    ensures r.None? <==> AllAbsent(m)
    ensures r.Some? ==> IsFirstMin(m, r.value)
  {
    if |m| == 0 then None
    else
      var prev := IdxMin(m[..|m| - 1]);
      var last := |m| - 1;
      if m[last].None? then prev
      else if prev.None? then Some(last)
      else if m[last].value < m[prev.value].value then Some(last)
      else prev
  }

  /** The lookup table `{high: High, low: Low}`: a dictionary literal, so
      when both keys coincide the later entry wins. */
  function LabelTable(high: int, low: int): map<int, Risk>
  {
    map[high := High][low := Low]
  }

  /** Label of a cluster id: its table entry, Medium when it has none. */
  function LabelOf(table: map<int, Risk>, k: int): Risk
  {
    if k in table then table[k] else Medium
  }

  /** The rule the lookup implements: the low cluster is Low, the high
      cluster is High unless it is also the low one, all others Medium. */
  lemma LabelRule(high: int, low: int, k: int)
    ensures LabelOf(LabelTable(high, low), k) == Low <==> k == low
    ensures LabelOf(LabelTable(high, low), k) == High <==> k == high && high != low
    ensures LabelOf(LabelTable(high, low), k) == Medium <==> k != high && k != low
  {
  }

  /** `k` is the dashboard's `high` cluster id: it occurs, and is the first id
      whose cluster mean is the largest. */
  ghost predicate IsHighCluster(e: seq<real>, c: seq<int>, k: int)
    requires |e| == |c|
  {
    && k in c && 0 <= k < ClusterCount
    && (forall j :: j in c ==> Mean(e, c, j).value <= Mean(e, c, k).value)
    && (forall j :: j in c && j < k ==> Mean(e, c, j).value < Mean(e, c, k).value)
  }

  /** `k` is the dashboard's `low` cluster id: it occurs, and is the first id
      whose cluster mean is the smallest. */
  ghost predicate IsLowCluster(e: seq<real>, c: seq<int>, k: int)
    requires |e| == |c|
  {
    && k in c && 0 <= k < ClusterCount
    && (forall j :: j in c ==> Mean(e, c, k).value <= Mean(e, c, j).value)
    && (forall j :: j in c && j < k ==> Mean(e, c, k).value < Mean(e, c, j).value)
  }

  /** Every occurring cluster has the same mean emissions. */
  ghost predicate AllMeansEqual(e: seq<real>, c: seq<int>)
    requires |e| == |c|
  {
    forall j, k :: j in c && k in c ==> Mean(e, c, j).value == Mean(e, c, k).value
  }

  /** Label every row through the lookup table `{high: High, low: Low}` of
      its cluster id, Medium for ids the table lacks. */
  function LabelRows(high: int, low: int, c: seq<int>): (r: seq<Risk>)
    ensures |r| == |c|
    ensures forall i :: 0 <= i < |c| ==> (r[i] == Low <==> c[i] == low)
    ensures forall i :: 0 <= i < |c| ==> (r[i] == High <==> c[i] == high && high != low)
    ensures forall i :: 0 <= i < |c| ==> (r[i] == Medium <==> c[i] != high && c[i] != low)
  {
    var r := seq(|c|, i requires 0 <= i < |c| => LabelOf(LabelTable(high, low), c[i]));
    assert forall i :: 0 <= i < |c| ==>
      (r[i] == Low <==> c[i] == low) &&
      (r[i] == High <==> c[i] == high && high != low) &&
      (r[i] == Medium <==> c[i] != high && c[i] != low) by {
      forall i | 0 <= i < |c| {
        LabelRule(high, low, c[i]);
      }
    }
    r
  }

  /** The risk label of every row, given the rows' emissions `e` and cluster
      ids `c`; absent for an empty table, where pandas `idxmax` raises. */
  function Tier(e: seq<real>, c: seq<int>): (r: Option<seq<Risk>>)
    requires |e| == |c| && ValidAssignment(c, |c|)
    ensures r.None? <==> |c| == 0
    ensures r.Some? ==> |r.value| == |c|
    ensures r.Some? ==> forall i :: 0 <= i < |c| ==>
      (r.value[i] == Low <==> IsLowCluster(e, c, c[i]))
    ensures r.Some? ==> forall i :: 0 <= i < |c| ==>
      (r.value[i] == High <==> IsHighCluster(e, c, c[i]) && !IsLowCluster(e, c, c[i]))
    ensures r.Some? ==> forall i :: 0 <= i < |c| ==>
      (r.value[i] == Medium <==> !IsHighCluster(e, c, c[i]) && !IsLowCluster(e, c, c[i]))
  {
    var m := Means(e, c);
    var high := IdxMax(m);
    var low := IdxMin(m);
    if |c| == 0 then None
    else
      assert m[c[0]].Some?;
      var labels := LabelRows(high.value, low.value, c);
      LabelsFollowMeans(e, c, high.value, low.value, labels);
      Some(labels)
  }

  /** Rows labelled through the table built from the first-max and first-min
      clusters satisfy the tiering rule. */
  lemma LabelsFollowMeans(e: seq<real>, c: seq<int>, h: nat, l: nat, labels: seq<Risk>)
    requires |e| == |c| && ValidAssignment(c, |c|)
    requires IsFirstMax(Means(e, c), h) && IsFirstMin(Means(e, c), l)
    requires labels == LabelRows(h, l, c)
    ensures forall i :: 0 <= i < |c| ==>
      (labels[i] == Low <==> IsLowCluster(e, c, c[i]))
    ensures forall i :: 0 <= i < |c| ==>
      (labels[i] == High <==> IsHighCluster(e, c, c[i]) && !IsLowCluster(e, c, c[i]))
    ensures forall i :: 0 <= i < |c| ==>
      (labels[i] == Medium <==> !IsHighCluster(e, c, c[i]) && !IsLowCluster(e, c, c[i]))
  {
    HighLowUnique(e, c, h, l);
  }

  /** The first-max and first-min indices of the means are exactly the
      clusters `IsHighCluster` and `IsLowCluster` single out. */
  lemma HighLowUnique(e: seq<real>, c: seq<int>, h: nat, l: nat)
    requires |e| == |c| && ValidAssignment(c, |c|)
    requires IsFirstMax(Means(e, c), h) && IsFirstMin(Means(e, c), l)
    ensures forall k :: IsHighCluster(e, c, k) <==> k == h
    ensures forall k :: IsLowCluster(e, c, k) <==> k == l
  {
  }

  /** No row is labelled High exactly when every occurring cluster has the
      same mean: then the first-max and first-min ids coincide and the
      later `low` entry of the table overwrites `high`. Some row is always
      labelled Low. */
  lemma {:induction false} NoHighIffTied(e: seq<real>, c: seq<int>)
    requires |e| == |c| && ValidAssignment(c, |c|) && |c| > 0
    ensures AllMeansEqual(e, c) <==> forall i :: 0 <= i < |c| ==> Tier(e, c).value[i] != High
    ensures exists i :: 0 <= i < |c| && Tier(e, c).value[i] == Low
  {
    var m := Means(e, c);
    assert m[c[0]].Some?;
    var h := IdxMax(m).value;
    var l := IdxMin(m).value;
    HighLowUnique(e, c, h, l);
    var labels := Tier(e, c).value;
    assert h in c && l in c by { assert m[h].Some? && m[l].Some?; }
    var il :| 0 <= il < |c| && c[il] == l;
    assert labels[il] == Low;
    var ih :| 0 <= ih < |c| && c[ih] == h;
    if AllMeansEqual(e, c) {
      assert m[h].value == m[l].value;
      assert h == l;
    } else {
      var j, k :| j in c && k in c && Mean(e, c, j).value != Mean(e, c, k).value;
      assert m[j].Some? && m[k].Some?;
      assert m[h].value != m[l].value;
      assert labels[ih] == High;
    }
  }
}
