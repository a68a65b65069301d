/** The shared state the two back-end services act on: the SQL tables, the Redis
    store, the wall clock, and the `isReady` flag of each service's own Redis client. */
module Platform {
  import opened Catalog
  import opened Cache

  datatype World = World(
    db: Db,
    cache: Store,
    now: nat,
    songServiceReady: bool,
    adminServiceReady: bool)

  /** A handler's effect: the state after it and the response it sends. */
  datatype Step<R> = Step(world: World, reply: R)

  /** Time passes; Redis expires entries on its own, so only the clock moves. */
  function Tick(w: World, dt: nat): (r: World)
    ensures r.now == w.now + dt
    ensures r.db == w.db && r.cache == w.cache
    ensures r.songServiceReady == w.songServiceReady && r.adminServiceReady == w.adminServiceReady
  {
    w.(now := w.now + dt)
  }

  /** Every entry expires at most one `CacheExpiry` after the present. Only the song
      service writes entries, always with `CacheExpiry`, so every step preserves this. */
  ghost predicate ExpiryBounded(w: World)
  {
    forall k :: k in w.cache ==> w.cache[k].expiresAt <= w.now + CacheExpiry
  }
}
