/** The return contract of a controller-runtime `Reconcile` and the one piece
    of logic both reconcilers share: what to return when `Get` does not hand
    back the object. */
module ControllerRuntime {
  import opened ObjectStore

  /** `ctrl.Result`: an explicit requeue request and an optional delay. */
  datatype CtrlResult = CtrlResult(requeue: bool, requeueAfterSeconds: nat)

  /** `ctrl.Result{}`: no explicit requeue; retries come only from an error. */
  const Empty := CtrlResult(false, 0)

  /** The `(ctrl.Result, error)` pair `Reconcile` returns. A non-`None` error
      makes the dispatcher retry the request with backoff. */
  datatype Outcome = Outcome(result: CtrlResult, err: Option<ApiError>)

  /** Finished: nothing to requeue and no error. */
  predicate Done(o: Outcome) {
    o.result == Empty && o.err.None?
  }

  /** One reconcile as the model sees it: what it returned, the store it left
      behind, and how many status updates it sent to the API server. */
  datatype Step<T> = Step(outcome: Outcome, store: Store<T>, writes: nat)

  /** The fetch-outcome mapping: an object that is gone was deleted after the
      request was queued, so the request is finished; any other failure is
      returned unchanged so that the request is retried. */
  function OnFetchMiss<T>(g: GetResult<T>): (o: Outcome)
    requires !g.Found?
    ensures o.result == Empty
    ensures o.err.None? <==> g.NotFound?
    ensures g.Failed? ==> o.err == Some(g.err)
  {
    match g
    case NotFound => Outcome(Empty, None)
    case Failed(e) => Outcome(Empty, Some(e))
  }
}
