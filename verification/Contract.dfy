/** Limits and value types shared by the agent delivery and snapshot models. */
module Contract {
  /** A calendar day in UTC. The source compares ISO strings; integers keep the same order. */
  type Day = int

  datatype Option<+T> = None | Some(value: T)

  datatype Result<+T, +E> = Ok(value: T) | Err(error: E)

  const MAX_SAFE_INTEGER := 9007199254740991
  const MAX_DAY_BUCKETS := 367
  const MAX_ACTIVE_DELIVERIES := 64
  const MAX_DIRTY_DAYS := MAX_DAY_BUCKETS
  const MAX_LINK_NODES := MAX_DAY_BUCKETS
  const MAX_LINKS := MAX_LINK_NODES * (MAX_LINK_NODES - 1) / 2
  const MAX_DELIVERY_RETENTION_MS := 4 * 24 * 60 * 60 * 1000
  const SNAPSHOT_LEASE_MS := 5 * 60 * 1000
  const MAX_SNAPSHOT_DAYS := 7
  const MAX_COPY_DAYS := 31
  const MAX_COPY_CHUNKS := 12
  const COPY_ATTEMPT_MULTIPLIER := 16

  /** An undirected link between two different days, stored with the earlier day first. */
  datatype Link = Link(a: Day, b: Day)

  /** The instant a call runs at, with the bounds of the retained fact window at that instant. */
  datatype Clock = Clock(now: int, oldest: Day, today: Day) {
    predicate Retains(day: Day) {
      oldest <= day <= today
    }
  }
}
