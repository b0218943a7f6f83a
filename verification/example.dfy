/** The six suppliers the dashboard ships with, and the figures the model
    derives for them. */
module Example {
  import opened Records
  import opened Metrics
  import opened Tiering
  import opened Ranking
  import opened Kpis
  import opened Pipeline

  /** The built-in supplier table. */
  function Dataset(): seq<Supplier>
  {
    [ Supplier("Alpha", "Palm Oil", 500.0, "Truck", 120.0, 0.12, 90000.0),
      Supplier("Beta", "Chemicals", 2200.0, "Ship", 400.0, 0.05, 70000.0),
      Supplier("Gamma", "Palm Oil", 800.0, "Truck", 200.0, 0.12, 88000.0),
      Supplier("Delta", "Additives", 1200.0, "Rail", 180.0, 0.03, 75000.0),
      Supplier("Epsilon", "Palm Oil", 3000.0, "Ship", 500.0, 0.05, 69000.0),
      Supplier("Zeta", "Chemicals", 1500.0, "Truck", 300.0, 0.12, 92000.0) ]
  }

  /** The slider's starting carbon price. */
  const DefaultPrice: real := 4000.0

  /** A three-way split of the dataset by emissions magnitude: the three
      smallest emitters, the two middle ones, the largest. */
  const SampleClusters: seq<int> := [0, 1, 0, 0, 2, 1]

  /** Alpha: 500 km times 120 t times 0.12 is 7200 kg CO2, costing 28800 at
      the default price, with priority score 7200 / 90000 = 0.08. */
  lemma AlphaFigures()
    ensures Emissions(Dataset()[0]) == 7200.0
    ensures CarbonCost(Emissions(Dataset()[0]), DefaultPrice) == 28800.0
    ensures PriorityScore(Emissions(Dataset()[0]), Dataset()[0].costPerTon) == Finite(0.08)
  {
  }

  /** The emissions column of the built-in table, in kg CO2. */
  const DatasetEmissionsKg: seq<real> := [7200.0, 44000.0, 19200.0, 6480.0, 75000.0, 54000.0]

  lemma DatasetEmissions()
    ensures EmissionsColumn(Dataset()) == DatasetEmissionsKg
  {
  }

  /** The per-cluster means under the sample split. */
  const SampleMeansKg: seq<Option<real>> := [Some(10960.0), Some(49000.0), Some(75000.0)]

  /** Mean emissions of the sample clusters: 32880 / 3, 98000 / 2 and 75000. */
  lemma SampleMeans()
    ensures Means(DatasetEmissionsKg, SampleClusters) == SampleMeansKg
  {
    var e := DatasetEmissionsKg;
    var c := SampleClusters;
    assert Mean(e, c, 0) == Some(10960.0) by {
      assert SumIn(e, c, 0) == 32880.0 && CountIn(c, 0) == 3;
    }
    assert Mean(e, c, 1) == Some(49000.0) by {
      assert SumIn(e, c, 1) == 98000.0 && CountIn(c, 1) == 2;
    }
    assert Mean(e, c, 2) == Some(75000.0) by {
      assert SumIn(e, c, 2) == 75000.0 && CountIn(c, 2) == 1;
    }
    MeansEntries(e, c);
  }

  /** Cluster 2 has the largest mean and cluster 0 the smallest. */
  lemma SampleHighLow()
    ensures IdxMax(SampleMeansKg) == Some(2) && IdxMin(SampleMeansKg) == Some(0)
  {
  }

  /** The sample split labels cluster 2 High and cluster 0 Low. */
  lemma SampleTable()
    ensures Tier(DatasetEmissionsKg, SampleClusters) == Some(LabelRows(2, 0, SampleClusters))
  {
    SampleMeans();
    SampleHighLow();
  }

  /** Looking up the sample ids in that table. */
  lemma SampleLabels()
    ensures LabelRows(2, 0, SampleClusters) == [Low, Medium, Low, Low, High, Medium]
  {
  }

  /** Under the sample split the largest emitter is High, the three smallest
      are Low and the middle two Medium. */
  lemma SampleTiers()
    ensures Tier(EmissionsColumn(Dataset()), SampleClusters) ==
      Some([Low, Medium, Low, Low, High, Medium])
  {
    DatasetEmissions();
    SampleTable();
    SampleLabels();
  }

  /** The risk column under the sample split. */
  const SampleRisks: seq<Risk> := [Low, Medium, Low, Low, High, Medium]

  /** Any six rows carrying the dataset's emissions total 205880 kg CO2. */
  lemma {:induction false} DatasetTotal(t: seq<Row>)
    requires |t| == 6 && forall i :: 0 <= i < 6 ==> t[i].emissions == DatasetEmissionsKg[i]
    ensures TotalEmissions(t) == 205880.0
  {
    assert TotalEmissions(t[5..]) == 54000.0 by { assert t[5..][1..] == []; }
    assert TotalEmissions(t[4..]) == 75000.0 + 54000.0 by { assert t[4..][1..] == t[5..]; }
    assert TotalEmissions(t[3..]) == 6480.0 + 129000.0 by { assert t[3..][1..] == t[4..]; }
    assert TotalEmissions(t[2..]) == 19200.0 + 135480.0 by { assert t[2..][1..] == t[3..]; }
    assert TotalEmissions(t[1..]) == 44000.0 + 154680.0 by { assert t[1..][1..] == t[2..]; }
  }

  /** Any six rows carrying the sample risk column hold one High row. */
  lemma {:induction false} SampleHighCount(t: seq<Row>)
    requires |t| == 6 && forall i :: 0 <= i < 6 ==> t[i].risk == SampleRisks[i]
    ensures |HighRows(t)| == 1
  {
    assert |HighRows(t[5..])| == 0 by { assert t[5..][1..] == []; }
    assert |HighRows(t[4..])| == 1 by { assert t[4..][1..] == t[5..]; }
    assert |HighRows(t[3..])| == 1 by { assert t[3..][1..] == t[4..]; }
    assert |HighRows(t[2..])| == 1 by { assert t[2..][1..] == t[3..]; }
    assert |HighRows(t[1..])| == 1 by { assert t[1..][1..] == t[2..]; }
  }

  /** The table at the default price carries the dataset's emissions and the
      sample risk column. */
  lemma SampleRows()
    ensures |Table(Dataset(), SampleClusters, DefaultPrice)| == 6
    ensures forall i :: 0 <= i < 6 ==>
      && Table(Dataset(), SampleClusters, DefaultPrice)[i].emissions == DatasetEmissionsKg[i]
      && Table(Dataset(), SampleClusters, DefaultPrice)[i].risk == SampleRisks[i]
  {
    var s := Dataset();
    var c := SampleClusters;
    var e := EmissionsColumn(s);
    TableEntries(s, c, DefaultPrice);
    DatasetEmissions();
    SampleTiers();
    assert e == DatasetEmissionsKg;
    assert Tier(e, c).value == SampleRisks;
  }

  /** Six rows carrying the dataset's emissions and the sample risk column,
      priced at the default price, have the sample key metrics. */
  lemma {:induction false} SampleSummary(t: seq<Row>)
    requires |t| == 6
    requires forall i :: 0 <= i < 6 ==> t[i].emissions == DatasetEmissionsKg[i] && t[i].risk == SampleRisks[i]
    requires TotalCarbonCost(t) == CarbonCost(TotalEmissions(t), DefaultPrice)
    ensures Summarise(t) == KeyMetrics(6, 205880.0, 1, 823520.0)
  {
    DatasetTotal(t);
    SampleHighCount(t);
    assert CarbonCost(205880.0, DefaultPrice) == 823520.0;
  }
}
