/**
 * The records the pipeline consumes: obstructions ("entraves") and their
 * traffic and sidewalk impacts, as the Montreal open-data sets deliver them,
 * and the results of the foreign geometry calls.
 */
module Records {
  import opened Values

  /**
   * A raw obstruction record. Only the keys the pipeline reads are kept;
   * each holds a string, `null`, or nothing.
   */
  datatype Obstruction = Obstruction(
    id: Field,
    latitude: Field,
    longitude: Field,
    reasonCategory: Field,
    startDate: Field,        // duration_start_date
    endDate: Field,          // duration_end_date
    permitId: Field,         // permit_permit_id
    status: Field,           // currentstatus
    organization: Field      // organizationname
  )

  /** A raw impact record; `idRequest` refers to an obstruction's `id`. */
  datatype Impact = Impact(
    idRequest: Field,
    sidewalkBlockedType: Field,
    transitBlockedType: Field,   // stmimpact_blockedtype
    name: Field,                 // the street name
    streetImpactType: Field
  )

  /** Two coordinates; which one is the latitude depends on where it is used. */
  type Position<N> = (N, N)

  /** `[a, b]` to `[b, a]`: the axis swap between (lon, lat) and (lat, lon). */
  function Swap<N>(p: Position<N>): Position<N>
  {
    (p.1, p.0)
  }

  /**
   * The outcome of a call into the geometry library: a distance in meters,
   * or an exception (for instance on a coordinate that is not a number, or
   * on a line string of fewer than two positions).
   */
  datatype Measure = Meters(m: real) | Raised
}
