/** What it means for a request handler to serve a specification over a connection that may be lost
    at any round trip. */
module Requests {
  import opened Domain

  /** Whether a transaction whose commit is round trip number `cost` is committed. */
  predicate Commits(link: Link, cost: nat) {
    link.trips >= cost || (link.applied && link.trips + 1 == cost)
  }

  /** `cost` is the number of round trips a successful request needs up to and including its commit;
      `refreshes` says that it reloads the row after the commit, one more round trip. */
  ghost predicate Serves<T>(before: Store, spec: Outcome<T>, cost: nat, refreshes: bool,
                            link: Link, after: Store, r: Result<T>)
  {
    if spec.result.Failure? then
      && after == before
      && (r == spec.result || (r == Failure(Unavailable) && link.trips < cost))
    else if !Commits(link, cost) then
      after == before && r == Failure(Unavailable)
    else
      after == spec.store && r == if link.trips < cost + (if refreshes then 1 else 0) then Failure(Unavailable)
          else spec.result
  }

  /** Every request is atomic, and an answer other than an error means it took effect. An error
      means it did not, except in exactly two cases, in which the client is told of a failure and the
      effects are permanent: the commit was applied and its reply lost, or the connection was lost
      between the commit and the reload of the row. */
  lemma AllOrNothing<T>(before: Store, spec: Outcome<T>, cost: nat, refreshes: bool,
                        link: Link, after: Store, r: Result<T>)
    requires Serves(before, spec, cost, refreshes, link, after, r)
    ensures after == before || after == spec.store
    ensures r.Success? ==> after == spec.store && r == spec.result
    ensures spec.store != before ==>
              (r.Failure? && after != before <==>
               && spec.result.Success?
               && ((link.applied && link.trips + 1 == cost) || (refreshes && link.trips == cost)))
  {
  }
}
