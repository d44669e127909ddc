/** Awaited calls to the outside: database, files, network, queue and cache. */
module Effects {
  /** How a call ended. A call that failed may have taken effect all the same. */
  datatype Outcome = Done(value: string) | Faulted(applied: bool)

  predicate TookEffect(o: Outcome) {
    o.Done? || o.applied
  }
}
