/** The Guestbook reconciler: the scaffolded controller, which fetches the
    Guestbook and then does nothing with it. The object type is a parameter
    because the reconciler never looks inside it. */
module GuestbookController {
  import opened ObjectStore
  import opened ControllerRuntime

  /** `GuestbookReconciler.Reconcile` for the request `key`; `getFault` stands
      for a failure of the `Get` call. */
  function Reconcile<T>(store: Store<T>, key: Key, getFault: Option<ApiError>): (r: Step<T>)
    // never a timed or explicit requeue
    ensures r.outcome.result == Empty
    // the error returned is exactly the fetch error; "not found" is no error
    ensures r.outcome.err == getFault
    ensures getFault.None? ==> Done(r.outcome)
    // no update call exists: the store is untouched on every path
    ensures r.store == store && r.writes == 0
  {
    var fetched := Get(store, key, getFault);
    if !fetched.Found? then
      Step(OnFetchMiss(fetched), store, 0)
    else
      Step(Outcome(Empty, None), store, 0)
  }
}
