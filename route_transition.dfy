/**
 * The route-transition context: one record that the provider rewrites on
 * `startTransition`, `endTransition` and when the router's pathname changes.
 * Each rewrite is a pure function from the previous record to the next.
 */
module RouteTransition {
  datatype Direction = Forward | Backward

  datatype RouteState = RouteState(
    isTransitioning: bool,
    fromRoute: string,
    toRoute: string,
    direction: Direction)

  /** The state the provider starts in, for the pathname at mount time. */
  function Initial(pathname: string): (s: RouteState)
    ensures !s.isTransitioning
    ensures s.fromRoute == pathname && s.toRoute == pathname
    ensures s.direction == Forward
  {
    RouteState(false, pathname, pathname, Forward)
  }

  /** `startTransition(toRoute)`: the old destination becomes the origin. */
  function StartTransition(prev: RouteState, toRoute: string): (s: RouteState)
    ensures s.isTransitioning
    ensures s.fromRoute == prev.toRoute && s.toRoute == toRoute
    ensures s.direction == Forward
  {
    prev.(isTransitioning := true, fromRoute := prev.toRoute, toRoute := toRoute, direction := Forward)
  }

  /** `endTransition()`: the transition is over and the origin catches up with the destination. */
  function EndTransition(prev: RouteState): (s: RouteState)
    ensures !s.isTransitioning
    ensures s.fromRoute == prev.toRoute && s.toRoute == prev.toRoute
    ensures s.direction == prev.direction
  {
    prev.(isTransitioning := false, fromRoute := prev.toRoute, toRoute := prev.toRoute)
  }

  /** True when the pathname-sync effect rewrites the state. */
  predicate SyncFires(s: RouteState, pathname: string) {
    pathname != s.toRoute && !s.isTransitioning
  }

  /**
   * The effect that follows the router: when idle and the pathname differs
   * from the destination, the pathname becomes the destination.
   */
  function SyncPathname(prev: RouteState, pathname: string): (s: RouteState)
    ensures !SyncFires(prev, pathname) ==> s == prev
    ensures SyncFires(prev, pathname) ==>
      s.fromRoute == prev.toRoute && s.toRoute == pathname &&
      s.isTransitioning == prev.isTransitioning && s.direction == prev.direction
  {
    if SyncFires(prev, pathname) then prev.(fromRoute := prev.toRoute, toRoute := pathname) else prev
  }

  /** Ending a transition twice is the same as ending it once. */
  lemma EndTransitionIdempotent(s: RouteState)
    ensures EndTransition(EndTransition(s)) == EndTransition(s)
  {
  }

  /** Once the sync effect has run, running it again for the same pathname changes nothing. */
  lemma SyncPathnameIdempotent(s: RouteState, pathname: string)
    ensures SyncPathname(SyncPathname(s, pathname), pathname) == SyncPathname(s, pathname)
    ensures !SyncFires(SyncPathname(s, pathname), pathname)
  {
  }

  /** At mount the pathname and the destination agree, so the sync effect does nothing. */
  lemma InitialIsSynced(pathname: string)
    ensures SyncPathname(Initial(pathname), pathname) == Initial(pathname)
  {
  }

  /**
   * A started transition is immune to the router: while it runs, no
   * pathname change touches the state, and ending it leaves an idle state
   * that a router already at the destination does not disturb.
   */
  lemma StartSyncEnd(s: RouteState, path: string, pathname: string)
    ensures SyncPathname(StartTransition(s, path), pathname) == StartTransition(s, path)
    ensures EndTransition(StartTransition(s, path)) == RouteState(false, path, path, Forward)
    ensures SyncPathname(EndTransition(StartTransition(s, path)), path) == RouteState(false, path, path, Forward)
  {
  }
}
