/**
 * The two result shapes of the aggregator: an optional value for an input
 * that may be missing, and the settled state of one asynchronous unit of
 * work as `Promise.allSettled` reports it.
 */
module Outcomes {

  datatype Option<T> = None | Some(value: T)

  /** `{status: 'fulfilled', value}` or `{status: 'rejected', reason}`; the reason is never read. */
  datatype Settled<T> = Fulfilled(value: T) | Rejected

  /** `outcome.status === 'fulfilled' ? outcome.value : default`. */
  function ValueOr<T>(outcome: Settled<T>, default: T): (v: T)
    ensures outcome.Fulfilled? ==> v == outcome.value
    ensures outcome.Rejected? ==> v == default
  {
    match outcome
    case Fulfilled(value) => value
    case Rejected => default
  }
}
