/** Ranking: the decision table sorted by priority score, largest first,
    and the first three rows of that order as recommendations. */
module Ranking {
  import opened Records

  /** How many suppliers are recommended. */
  const RecommendationCount: nat := 3

  /** Coarse position of a score in a descending sort: +inf first, then the
      finite values, then -inf, and NaN last of all. */
  function Band(s: Score): nat
  {
    match s
    case PosInf => 3
    case Finite(_) => 2
    case NegInf => 1
    case NaN => 0
  }

  /** `a` may precede `b` in a descending sort by score. */
  predicate AtLeast(a: Score, b: Score)
  {
    Band(a) > Band(b) || (Band(a) == Band(b) && (a.Finite? ==> a.value >= b.value))
  }

  /** Any two scores are comparable. */
  lemma AtLeastTotal(a: Score, b: Score)
    ensures AtLeast(a, b) || AtLeast(b, a)
  {
  }

  /** The order on scores is transitive. */
  lemma AtLeastTransitive(a: Score, b: Score, c: Score)
    requires AtLeast(a, b) && AtLeast(b, c)
    ensures AtLeast(a, c)
  {
  }

  /** Priority scores never increase along `rows`. */
  predicate NonIncreasing(rows: seq<Row>)
  {
    forall i, j :: 0 <= i < j < |rows| ==> AtLeast(rows[i].priority, rows[j].priority)
  }

  /** Insert `x` into a ranked sequence, before the first row it outranks. */
  function Insert(x: Row, s: seq<Row>): (r: seq<Row>)
    requires NonIncreasing(s)
    ensures NonIncreasing(r)
    ensures multiset(r) == multiset(s) + multiset{x}
  {
    if |s| == 0 then [x]
    else if AtLeast(x.priority, s[0].priority) then
      assert forall j :: 0 < j < |s| ==> AtLeast(s[0].priority, s[j].priority);
      [x] + s
    else
      var rest := Insert(x, s[1..]);
      assert s == [s[0]] + s[1..];
      forall y | y in rest ensures AtLeast(s[0].priority, y.priority) {
        assert y in multiset(rest);
        if y != x {
          assert y in multiset(s[1..]);
          var j :| 0 <= j < |s[1..]| && s[1..][j] == y;
          assert s[j + 1] == y;
        }
      }
      [s[0]] + rest
  }

  /** The rows ordered by priority score, largest first. Rows with equal
      scores may appear in either order. */
  function SortByPriority(rows: seq<Row>): (r: seq<Row>)
    ensures NonIncreasing(r)
    ensures multiset(r) == multiset(rows)
    ensures |r| == |rows|
  {
    if |rows| == 0 then []
    else
      assert rows == [rows[0]] + rows[1..];
      Insert(rows[0], SortByPriority(rows[1..]))
  }

  function Min(a: nat, b: nat): nat
  {
    if a <= b then a else b
  }

  /** In a ranked sequence, every row of a prefix scores at least as high
      as every row after it. */
  lemma PrefixOutranksSuffix(ranked: seq<Row>, n: nat)
    requires NonIncreasing(ranked) && n <= |ranked|
    ensures forall a, b :: a in ranked[..n] && b in ranked[n..] ==> AtLeast(a.priority, b.priority)
  {
  }

  /** Splitting a sequence splits its multiset. */
  lemma SplitMultiset(s: seq<Row>, n: nat)
    requires n <= |s|
    ensures multiset(s[..n]) <= multiset(s)
    ensures multiset(s) - multiset(s[..n]) == multiset(s[n..])
  {
    assert s == s[..n] + s[n..];
  }

  /** The recommendations: the first three rows of the ranking. Every
      recommended row scores at least as high as every row left out. */
  function Recommend(rows: seq<Row>): (top: seq<Row>)
    ensures |top| == Min(RecommendationCount, |rows|)
    ensures multiset(top) <= multiset(rows)
    ensures NonIncreasing(top)
    ensures forall a, b :: a in top && b in multiset(rows) - multiset(top) ==>
      AtLeast(a.priority, b.priority)
  {
    var ranked := SortByPriority(rows);
    var n := Min(RecommendationCount, |rows|);
    SplitMultiset(ranked, n);
    PrefixOutranksSuffix(ranked, n);
    ranked[..n]
  }
}
