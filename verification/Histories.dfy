/** What an actor did, for the interference that comes between its steps. */
module Histories {

  /** What one actor has done so far, the latest last. */
  datatype History<E> = Start | Then(past: History<E>, event: E)

  /** The same event `n` times more. */
  function Times<E>(past: History<E>, e: E, n: nat): History<E> {
    if n == 0 then past else Then(Times(past, e, n - 1), e)
  }
}
