/** The built-in suppliers carried through one full recomputation at the
    default carbon price. */
module SampleReport {
  import opened Records
  import opened Metrics
  import opened Kpis
  import opened Pipeline
  import opened Example

  /** The decision table at the default price has the sample key metrics. */
  lemma SampleTableMetrics()
    ensures Summarise(Table(Dataset(), SampleClusters, DefaultPrice)) ==
      KeyMetrics(6, 205880.0, 1, 823520.0)
  {
    var t := Table(Dataset(), SampleClusters, DefaultPrice);
    assert |t| == 6 && forall i :: 0 <= i < 6 ==>
      t[i].emissions == DatasetEmissionsKg[i] && t[i].risk == SampleRisks[i] by {
      SampleRows();
    }
    assert TotalCarbonCost(t) == CarbonCost(TotalEmissions(t), DefaultPrice) by {
      TableCarbonCost(Dataset(), SampleClusters, DefaultPrice);
    }
    SampleSummary(t);
  }

  /** The key metrics at the default price: six suppliers, 205880 kg CO2,
      one High-risk supplier and a carbon cost of 823520. */
  lemma SampleMetrics()
    ensures Analyse(Dataset(), SampleClusters, DefaultPrice).Ok?
    ensures Analyse(Dataset(), SampleClusters, DefaultPrice).value.metrics.suppliers == 6
    ensures Analyse(Dataset(), SampleClusters, DefaultPrice).value.metrics.totalEmissions == 205880.0
    ensures Analyse(Dataset(), SampleClusters, DefaultPrice).value.metrics.highRisk == 1
    ensures Analyse(Dataset(), SampleClusters, DefaultPrice).value.metrics.carbonCost == 823520.0
  {
    var t := Table(Dataset(), SampleClusters, DefaultPrice);
    assert Analyse(Dataset(), SampleClusters, DefaultPrice).Ok? &&
      Analyse(Dataset(), SampleClusters, DefaultPrice).value.metrics == Summarise(t) by {
      AnalyseTable(Dataset(), SampleClusters, DefaultPrice);
    }
    assert Summarise(t) == KeyMetrics(6, 205880.0, 1, 823520.0) by {
      SampleTableMetrics();
    }
  }
}
