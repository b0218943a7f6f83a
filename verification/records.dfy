/** The supplier table and the values the dashboard derives for each row. */
module Records {

  /** The conventional Some/None datatype. */
  datatype Option<+T> = None | Some(value: T)

  /** A value, or the error that stopped the computation. */
  datatype Result<+T, +E> = Ok(value: T) | Err(error: E)

  /** One supplier as loaded into the table: the seven raw columns. */
  datatype Supplier = Supplier(
    name: string,
    material: string,
    distanceKm: real,
    transport: string,
    quantityTon: real,
    emissionFactor: real,
    costPerTon: real)

  /** The three risk tiers a row can be labelled with. */
  datatype Risk = High | Medium | Low

  /** A double-precision quotient: a finite value, or one of the IEEE 754
      values that a division by zero produces. */
  datatype Score = Finite(value: real) | PosInf | NegInf | NaN

  /** A fully derived row of the decision table. */
  datatype Row = Row(
    supplier: Supplier,
    emissions: real,
    cluster: int,
    risk: Risk,
    carbonCost: real,
    priority: Score)
}
