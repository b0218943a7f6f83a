/** The per-row formulas: emissions, carbon cost and priority score. */
module Metrics {
  import opened Records

  /** Transport emissions of a supplier in kg CO2: distance times quantity
      times the emission factor. */
  function Emissions(s: Supplier): (e: real)
    ensures s.distanceKm >= 0.0 && s.quantityTon >= 0.0 && s.emissionFactor >= 0.0 ==> e >= 0.0
    ensures s.distanceKm == 0.0 || s.quantityTon == 0.0 || s.emissionFactor == 0.0 ==> e == 0.0
  {
    s.distanceKm * s.quantityTon * s.emissionFactor
  }

  /** Monetary carbon cost of `e` kg CO2 at `price` per tonne CO2; the
      division by 1000 converts kilograms to tonnes. */
  function CarbonCost(e: real, price: real): (c: real)
    ensures c == (e / 1000.0) * price
    ensures e >= 0.0 && price >= 0.0 ==> c >= 0.0
  {
    e * price / 1000.0
  }

  /** For non-negative emissions, a higher carbon price never lowers the cost. */
  lemma CarbonCostMonotone(e: real, p1: real, p2: real)
    requires e >= 0.0 && p1 <= p2
    ensures CarbonCost(e, p1) <= CarbonCost(e, p2)
  {
  }

  /** Emissions per unit of cost. The columns are floating point, so a zero
      cost yields +inf, -inf or NaN instead of an error. */
  function PriorityScore(e: real, cost: real): (r: Score)
    ensures r.Finite? <==> cost != 0.0
    ensures r.Finite? ==> r.value * cost == e
    ensures cost == 0.0 ==> (r.PosInf? <==> e > 0.0) && (r.NegInf? <==> e < 0.0) && (r.NaN? <==> e == 0.0)
  {
    if cost != 0.0 then Finite(e / cost)
    else if e > 0.0 then PosInf
    else if e < 0.0 then NegInf
    else NaN
  }
}
