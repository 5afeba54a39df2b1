/** The move request that travels through the route: one occupant's intent to
    reach a destination floor by a preferred path. It is immutable; the route
    reads its fields and forwards it unchanged. */
module MoveLogs {

  /** An already-parsed inbound record. `destination` is a number of floors and
      is never negative; `preferredRoute` is free text, compared exactly. */
  datatype MoveLog = MoveLog(personId: int, destination: nat, preferredRoute: string)
}
