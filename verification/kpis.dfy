/** The four key metrics shown above the decision table. */
module Kpis {
  import opened Records
  import opened Metrics

  /** Supplier count, total emissions (kg), number of High-risk suppliers
      and total carbon cost. */
  datatype KeyMetrics = KeyMetrics(
    suppliers: nat,
    totalEmissions: real,
    highRisk: nat,
    carbonCost: real)

  /** Sum of the rows' emissions. */
  function TotalEmissions(rows: seq<Row>): real
  {
    if |rows| == 0 then 0.0 else rows[0].emissions + TotalEmissions(rows[1..])
  }

  /** Sum of the rows' carbon costs. */
  function TotalCarbonCost(rows: seq<Row>): real
  {
    if |rows| == 0 then 0.0 else rows[0].carbonCost + TotalCarbonCost(rows[1..])
  }

  /** The rows whose risk level is High, in table order. */
  function HighRows(rows: seq<Row>): (r: seq<Row>)
    ensures forall x :: x in r ==> x.risk == High
    ensures forall x: Row :: x.risk == High ==> multiset(r)[x] == multiset(rows)[x]
    ensures multiset(r) <= multiset(rows)
    ensures |r| <= |rows|
  {
    if |rows| == 0 then []
    else
      assert rows == [rows[0]] + rows[1..];
      (if rows[0].risk == High then [rows[0]] else []) + HighRows(rows[1..])
  }

  /** The risk column of a table. */
  function RiskColumn(rows: seq<Row>): (r: seq<Risk>)
    ensures |r| == |rows|
    ensures forall i :: 0 <= i < |rows| ==> r[i] == rows[i].risk
  {
    seq(|rows|, i requires 0 <= i < |rows| => rows[i].risk)
  }

  /** Filtering the High rows keeps as many rows as there are High labels
      in the risk column. */
  lemma {:induction false} HighRowsCount(rows: seq<Row>)
    ensures |HighRows(rows)| == multiset(RiskColumn(rows))[High]
  {
    if |rows| > 0 {
      HighRowsCount(rows[1..]);
      assert RiskColumn(rows) == [rows[0].risk] + RiskColumn(rows[1..]);
    }
  }

  /** The four metrics of a derived table. */
  function Summarise(rows: seq<Row>): (k: KeyMetrics)
    ensures k.suppliers == |rows|
    ensures k.highRisk <= |rows|
    ensures k.highRisk == multiset(RiskColumn(rows))[High]
    ensures k.highRisk == 0 <==> forall i :: 0 <= i < |rows| ==> rows[i].risk != High
  {
    var high := HighRows(rows);
    HighRowsCount(rows);
    assert |high| > 0 ==> exists i :: 0 <= i < |rows| && rows[i].risk == High by {
      if |high| > 0 {
        assert high[0] in multiset(rows);
      }
    }
    assert (exists i :: 0 <= i < |rows| && rows[i].risk == High) ==> |high| > 0 by {
      if i :| 0 <= i < |rows| && rows[i].risk == High {
        assert multiset(high)[rows[i]] > 0;
      }
    }
    KeyMetrics(|rows|, TotalEmissions(rows), |high|, TotalCarbonCost(rows))
  }

  /** Total emissions of rows with non-negative emissions are non-negative. */
  lemma {:induction false} TotalEmissionsNonNegative(rows: seq<Row>)
    requires forall i :: 0 <= i < |rows| ==> rows[i].emissions >= 0.0
    ensures TotalEmissions(rows) >= 0.0
  {
    if |rows| > 0 {
      TotalEmissionsNonNegative(rows[1..]);
    }
  }

  /** When every row's carbon cost comes from its emissions at `price`, the
      total carbon cost is the cost of the total emissions at that price. */
  lemma {:induction false} TotalCarbonCostIsCostOfTotal(rows: seq<Row>, price: real)
    requires forall i :: 0 <= i < |rows| ==> rows[i].carbonCost == CarbonCost(rows[i].emissions, price)
    ensures TotalCarbonCost(rows) == CarbonCost(TotalEmissions(rows), price)
  {
    if |rows| > 0 {
      TotalCarbonCostIsCostOfTotal(rows[1..], price);
      assert CarbonCost(TotalEmissions(rows), price)
        == CarbonCost(rows[0].emissions, price) + CarbonCost(TotalEmissions(rows[1..]), price);
    }
  }
}
