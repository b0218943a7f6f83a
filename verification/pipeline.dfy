/** One recomputation of the dashboard: derive every row, rank the table,
    pick the recommendations and summarise, for a given cluster assignment
    and carbon price. */
module Pipeline {
  import opened Records
  import opened Metrics
  import opened Tiering
  import opened Ranking
  import opened Kpis

  /** k-means refuses to split fewer samples than it has clusters. */
  datatype Error = TooFewSamples(samples: nat)

  /** Everything the dashboard shows: the decision table in row order, the
      table ranked by priority, the recommendations and the key metrics. */
  datatype Report = Report(
    table: seq<Row>,
    ranked: seq<Row>,
    recommended: seq<Row>,
    metrics: KeyMetrics)

  /** The emissions column of the supplier table. */
  function EmissionsColumn(s: seq<Supplier>): (e: seq<real>)
    ensures |e| == |s|
    ensures (forall i :: 0 <= i < |s| ==>
               s[i].distanceKm >= 0.0 && s[i].quantityTon >= 0.0 && s[i].emissionFactor >= 0.0)
        ==> forall i :: 0 <= i < |s| ==> e[i] >= 0.0
  {
    seq(|s|, i requires 0 <= i < |s| => Emissions(s[i]))
  }

  /** A row with the carbon cost of its emissions at `price`. */
  function RepriceRow(x: Row, price: real): (y: Row)
    ensures y.carbonCost == CarbonCost(x.emissions, price)
    ensures y.(carbonCost := x.carbonCost) == x
  {
    x.(carbonCost := CarbonCost(x.emissions, price))
  }

  /** Give every row the carbon cost of its emissions at `price`. */
  function Reprice(rows: seq<Row>, price: real): (r: seq<Row>)
    ensures |r| == |rows|
    ensures forall i :: 0 <= i < |rows| ==> r[i] == RepriceRow(rows[i], price)
  {
    if |rows| == 0 then [] else [RepriceRow(rows[0], price)] + Reprice(rows[1..], price)
  }

  /** The derived row of supplier `x` in cluster `k` with label `risk`. */
  function DeriveRow(x: Supplier, k: int, risk: Risk, price: real): Row
  {
    var e := Emissions(x);
    Row(x, e, k, risk, CarbonCost(e, price), PriorityScore(e, x.costPerTon))
  }

  /** The whole recomputation for suppliers `s`, the partitioner's cluster
      ids `c` and carbon price `price`. It fails exactly when k-means would
      be asked for more clusters than there are suppliers. */
  function Analyse(s: seq<Supplier>, c: seq<int>, price: real): (r: Result<Report, Error>)
    requires ValidAssignment(c, |s|)
    ensures r.Err? <==> |s| < ClusterCount
    ensures r.Err? ==> r.error == TooFewSamples(|s|)
    ensures r.Ok? ==> |r.value.table| == |r.value.ranked| == |s|
    ensures r.Ok? ==> |r.value.recommended| == RecommendationCount
  {
    if |s| < ClusterCount then Err(TooFewSamples(|s|))
    else
      var table := Table(s, c, price);
      Ok(Report(table, SortByPriority(table), Recommend(table), Summarise(table)))
  }

  /** A successful analysis reports the table, its ranking, its
      recommendations and its summary. */
  lemma AnalyseReport(s: seq<Supplier>, c: seq<int>, price: real)
    requires ValidAssignment(c, |s|) && |s| >= ClusterCount
    ensures var t := Table(s, c, price);
      Analyse(s, c, price) == Ok(Report(t, SortByPriority(t), Recommend(t), Summarise(t)))
  {
  }

  /** The report's table is the decision table, and its metrics summarise it. */
  lemma AnalyseTable(s: seq<Supplier>, c: seq<int>, price: real)
    requires ValidAssignment(c, |s|) && |s| >= ClusterCount
    ensures Analyse(s, c, price).Ok?
    ensures Analyse(s, c, price).value.table == Table(s, c, price)
    ensures Analyse(s, c, price).value.metrics == Summarise(Table(s, c, price))
  {
    AnalyseReport(s, c, price);
  }

  /** The decision table: every supplier derived with its cluster id and the
      risk label the tiering gives it. */
  function Table(s: seq<Supplier>, c: seq<int>, price: real): (t: seq<Row>)
    requires ValidAssignment(c, |s|) && |s| > 0
    ensures |t| == |s|
  {
    var labels := Tier(EmissionsColumn(s), c).value;
    seq(|s|, i requires 0 <= i < |s| => DeriveRow(s[i], c[i], labels[i], price))
  }

  /** The table's rows, read one by one. */
  lemma TableEntries(s: seq<Supplier>, c: seq<int>, price: real)
    requires ValidAssignment(c, |s|) && |s| > 0
    ensures forall i :: 0 <= i < |s| ==>
      Table(s, c, price)[i] == DeriveRow(s[i], c[i], Tier(EmissionsColumn(s), c).value[i], price)
  {
  }

  /** The emissions column, read entry by entry. */
  lemma EmissionsColumnEntries(s: seq<Supplier>)
    ensures forall i :: 0 <= i < |s| ==> EmissionsColumn(s)[i] == Emissions(s[i])
  {
  }

  /** Every row keeps its supplier and cluster id and carries the supplier's
      emissions, the carbon cost of those emissions at the price, and the
      priority score of those emissions against the supplier's cost. */
  lemma AnalyseRows(s: seq<Supplier>, c: seq<int>, price: real)
    requires ValidAssignment(c, |s|) && |s| >= ClusterCount
    ensures var t := Analyse(s, c, price).value.table;
      forall i :: 0 <= i < |s| ==>
        && t[i].supplier == s[i]
        && t[i].emissions == Emissions(s[i])
        && t[i].cluster == c[i]
        && t[i].carbonCost == CarbonCost(Emissions(s[i]), price)
        && t[i].priority == PriorityScore(Emissions(s[i]), s[i].costPerTon)
  {
    TableEntries(s, c, price);
  }

  /** Every row's risk label follows the tiering rule for the emissions
      column and the cluster assignment. */
  lemma AnalyseTiers(s: seq<Supplier>, c: seq<int>, price: real)
    requires ValidAssignment(c, |s|) && |s| >= ClusterCount
    ensures var t := Analyse(s, c, price).value.table; var e := EmissionsColumn(s);
      forall i :: 0 <= i < |s| ==>
        && (t[i].risk == Low <==> IsLowCluster(e, c, c[i]))
        && (t[i].risk == High <==> IsHighCluster(e, c, c[i]) && !IsLowCluster(e, c, c[i]))
        && (t[i].risk == Medium <==> !IsHighCluster(e, c, c[i]) && !IsLowCluster(e, c, c[i]))
  {
    TableEntries(s, c, price);
  }

  /** The ranking holds exactly the table's rows with non-increasing scores,
      and the recommendations are its first three rows, none outranked by a
      row left out. */
  lemma AnalyseRanking(s: seq<Supplier>, c: seq<int>, price: real)
    requires ValidAssignment(c, |s|) && |s| >= ClusterCount
    ensures var r := Analyse(s, c, price).value;
      && multiset(r.ranked) == multiset(r.table)
      && NonIncreasing(r.ranked)
      && r.recommended == r.ranked[..RecommendationCount]
      && forall a, b :: a in r.recommended && b in multiset(r.table) - multiset(r.recommended) ==>
           AtLeast(a.priority, b.priority)
  {
    var r := Analyse(s, c, price).value;
    RankedIsSortedTable(s, c, price);
    assert r.recommended == Recommend(r.table);
  }

  /** The key metrics: the supplier count, the total emissions, and a
      High-risk count equal to the number of High labels, zero exactly when
      no row is High. */
  lemma AnalyseMetrics(s: seq<Supplier>, c: seq<int>, price: real)
    requires ValidAssignment(c, |s|) && |s| >= ClusterCount
    ensures var r := Analyse(s, c, price).value;
      && r.metrics.suppliers == |s|
      && r.metrics.totalEmissions == TotalEmissions(r.table)
      && r.metrics.highRisk == multiset(RiskColumn(r.table))[High]
      && (r.metrics.highRisk == 0 <==> forall i :: 0 <= i < |s| ==> r.table[i].risk != High)
  {
    AnalyseReport(s, c, price);
  }

  /** The table's summed carbon cost is the carbon cost of its summed
      emissions. */
  lemma TableCarbonCost(s: seq<Supplier>, c: seq<int>, price: real)
    requires ValidAssignment(c, |s|) && |s| > 0
    ensures var t := Table(s, c, price);
      TotalCarbonCost(t) == CarbonCost(TotalEmissions(t), price)
  {
    var t := Table(s, c, price);
    TableEntries(s, c, price);
    assert forall i :: 0 <= i < |t| ==> t[i].carbonCost == CarbonCost(t[i].emissions, price);
    TotalCarbonCostIsCostOfTotal(t, price);
  }

  /** The total carbon cost is the carbon cost of the total emissions. */
  lemma AnalyseCarbonCost(s: seq<Supplier>, c: seq<int>, price: real)
    requires ValidAssignment(c, |s|) && |s| >= ClusterCount
    ensures var r := Analyse(s, c, price).value;
      r.metrics.carbonCost == CarbonCost(r.metrics.totalEmissions, price)
  {
    AnalyseReport(s, c, price);
    TableCarbonCost(s, c, price);
  }

  /** The High-risk count is zero exactly when every occurring cluster has
      the same mean emissions. */
  lemma NoHighRiskIffTied(s: seq<Supplier>, c: seq<int>, price: real)
    requires ValidAssignment(c, |s|) && |s| >= ClusterCount
    ensures Analyse(s, c, price).value.metrics.highRisk == 0 <==> AllMeansEqual(EmissionsColumn(s), c)
  {
    var t := Analyse(s, c, price).value.table;
    var e := EmissionsColumn(s);
    NoHighIffTied(e, c);
    AnalyseTiers(s, c, price);
    AnalyseMetrics(s, c, price);
    assert forall i :: 0 <= i < |s| ==> (t[i].risk == High <==> Tier(e, c).value[i] == High);
  }

  /** Changing the carbon price reprices the rows and changes nothing else:
      the clusters, the risk labels and the priority scores stay put. */
  lemma PriceOnlyReprices(s: seq<Supplier>, c: seq<int>, p1: real, p2: real)
    requires ValidAssignment(c, |s|) && |s| >= ClusterCount
    ensures Analyse(s, c, p2).value.table == Reprice(Analyse(s, c, p1).value.table, p2)
  {
  }

  /** Repricing leaves every priority score, and so a ranking, intact. */
  lemma RepriceKeepsOrder(s: seq<Row>, price: real)
    requires NonIncreasing(s)
    ensures NonIncreasing(Reprice(s, price))
  {
    var s' := Reprice(s, price);
    assert forall i :: 0 <= i < |s| ==> s'[i].priority == s[i].priority;
  }

  /** Inserting a repriced row into a repriced ranking is repricing the
      insertion: the price never influences the order. */
  lemma {:induction false} InsertReprice(x: Row, s: seq<Row>, price: real)
    requires NonIncreasing(s)
    ensures NonIncreasing(Reprice(s, price))
    ensures Insert(RepriceRow(x, price), Reprice(s, price))
         == Reprice(Insert(x, s), price)
  {
    RepriceKeepsOrder(s, price);
    var x' := RepriceRow(x, price);
    var s' := Reprice(s, price);
    assert x'.priority == x.priority;
    if |s| > 0 {
      assert s'[0] == RepriceRow(s[0], price);
      assert s'[0].priority == s[0].priority;
      if !AtLeast(x.priority, s[0].priority) {
        InsertReprice(x, s[1..], price);
        assert s'[1..] == Reprice(s[1..], price);
        var t := Insert(x, s[1..]);
        assert Insert(x', s') == [s'[0]] + Insert(x', s'[1..]);
        assert Reprice(Insert(x, s), price) == Reprice([s[0]] + t, price);
        assert Reprice([s[0]] + t, price) == [s'[0]] + Reprice(t, price);
      } else {
        assert Insert(x', s') == [x'] + s';
        assert Reprice([x] + s, price) == [x'] + s';
      }
    }
  }

  /** Ranking commutes with repricing. */
  lemma {:induction false} SortReprice(rows: seq<Row>, price: real)
    ensures SortByPriority(Reprice(rows, price)) == Reprice(SortByPriority(rows), price)
  {
    if |rows| > 0 {
      SortReprice(rows[1..], price);
      assert Reprice(rows, price)[1..] == Reprice(rows[1..], price);
      InsertReprice(rows[0], SortByPriority(rows[1..]), price);
    }
  }

  /** Two carbon prices give the same clusters and risk labels. */
  lemma PriceKeepsTiers(s: seq<Supplier>, c: seq<int>, p1: real, p2: real)
    requires ValidAssignment(c, |s|) && |s| >= ClusterCount
    ensures var t1 := Analyse(s, c, p1).value.table; var t2 := Analyse(s, c, p2).value.table;
      |t1| == |t2| == |s| &&
      forall i :: 0 <= i < |s| ==> t1[i].cluster == t2[i].cluster && t1[i].risk == t2[i].risk
  {
    var t1 := Analyse(s, c, p1).value.table;
    var t2 := Analyse(s, c, p2).value.table;
    PriceOnlyReprices(s, c, p1, p2);
    forall i | 0 <= i < |s| ensures t1[i].cluster == t2[i].cluster && t1[i].risk == t2[i].risk {
      assert t2[i] == RepriceRow(t1[i], p2);
    }
  }

  /** The report's ranking is the sorted table. */
  lemma RankedIsSortedTable(s: seq<Supplier>, c: seq<int>, p: real)
    requires ValidAssignment(c, |s|) && |s| >= ClusterCount
    ensures Analyse(s, c, p).value.ranked == SortByPriority(Analyse(s, c, p).value.table)
  {
    AnalyseReport(s, c, p);
  }

  /** The report's key metrics summarise its table. */
  lemma MetricsSummariseTable(s: seq<Supplier>, c: seq<int>, p: real)
    requires ValidAssignment(c, |s|) && |s| >= ClusterCount
    ensures Analyse(s, c, p).value.metrics == Summarise(Analyse(s, c, p).value.table)
  {
    AnalyseReport(s, c, p);
  }

  /** Two carbon prices rank the suppliers in the same order and recommend
      the same suppliers; only the carbon costs differ. */
  lemma PriceKeepsRanking(s: seq<Supplier>, c: seq<int>, p1: real, p2: real)
    requires ValidAssignment(c, |s|) && |s| >= ClusterCount
    ensures Analyse(s, c, p2).value.ranked == Reprice(Analyse(s, c, p1).value.ranked, p2)
    ensures Analyse(s, c, p2).value.recommended == Reprice(Analyse(s, c, p1).value.recommended, p2)
  {
    var r1 := Analyse(s, c, p1).value;
    var r2 := Analyse(s, c, p2).value;
    PriceOnlyReprices(s, c, p1, p2);
    RankedIsSortedTable(s, c, p1);
    RankedIsSortedTable(s, c, p2);
    SortReprice(r1.table, p2);
    RepricePrefix(r1.ranked, RecommendationCount, p2);
  }

  /** Repricing commutes with taking a prefix. */
  lemma RepricePrefix(rows: seq<Row>, n: nat, price: real)
    requires n <= |rows|
    ensures Reprice(rows, price)[..n] == Reprice(rows[..n], price)
  {
  }

  /** At a higher carbon price no supplier with non-negative emissions has a
      lower carbon cost. */
  lemma HigherPriceNoCheaper(s: seq<Supplier>, c: seq<int>, p1: real, p2: real)
    requires ValidAssignment(c, |s|) && |s| >= ClusterCount && p1 <= p2
    ensures forall i :: 0 <= i < |s| && Emissions(s[i]) >= 0.0 ==>
      Analyse(s, c, p1).value.table[i].carbonCost <= Analyse(s, c, p2).value.table[i].carbonCost
  {
    AnalyseRows(s, c, p1);
    AnalyseRows(s, c, p2);
    forall i | 0 <= i < |s| && Emissions(s[i]) >= 0.0
      ensures Analyse(s, c, p1).value.table[i].carbonCost <= Analyse(s, c, p2).value.table[i].carbonCost
    {
      CarbonCostMonotone(Emissions(s[i]), p1, p2);
    }
  }

  /** Total emissions are non-negative when every supplier's distance,
      quantity and emission factor are. */
  lemma TotalEmissionsNonNegativeReport(s: seq<Supplier>, c: seq<int>, p: real)
    requires ValidAssignment(c, |s|) && |s| >= ClusterCount
    requires forall i :: 0 <= i < |s| ==>
      s[i].distanceKm >= 0.0 && s[i].quantityTon >= 0.0 && s[i].emissionFactor >= 0.0
    ensures Analyse(s, c, p).value.metrics.totalEmissions >= 0.0
  {
    var t := Analyse(s, c, p).value.table;
    AnalyseRows(s, c, p);
    AnalyseMetrics(s, c, p);
    forall i | 0 <= i < |t| ensures t[i].emissions >= 0.0 {
      assert t[i].emissions == Emissions(s[i]);
    }
    TotalEmissionsNonNegative(t);
  }
}
