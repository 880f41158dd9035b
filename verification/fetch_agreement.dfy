/** The two reconcilers share the fetch-outcome contract: up to the point
    where the object is in hand they behave identically. */
module FetchAgreement {
  import opened ObjectStore
  import opened ControllerRuntime
  import StudentController
  import GuestbookController

  /** When `Get` does not return the Student, the Student reconciler returns
      what the Guestbook reconciler would return over the same store, and
      neither writes. */
  lemma SameOnFetchMiss(store: Store<StudentController.Student>, key: Key,
                        getFault: Option<ApiError>, updateFault: Option<ApiError>)
    requires getFault.Some? || key !in store
    ensures StudentController.Reconcile(store, key, getFault, updateFault)
         == GuestbookController.Reconcile(store, key, getFault)
  {
  }
}
