/** The Student reconciler: fetch the Student, derive whether it graduates
    from its grades, and persist that flag in its status when it changed. */
module StudentController {
  import opened ObjectStore
  import opened ControllerRuntime
  import opened Grading

  datatype StudentSpec = StudentSpec(name: string, grades: seq<int>)
  datatype StudentStatus = StudentStatus(graduate: bool)

  /** A Student object: the user-declared spec and the controller-owned status. */
  datatype Student = Student(spec: StudentSpec, status: StudentStatus)

  /** The failures the two client calls of one reconcile run into, if any. */
  datatype Faults = Faults(get: Option<ApiError>, update: Option<ApiError>)

  /** Nothing is left to do for `key`: the Student is gone, has no grades,
      or its stored flag already agrees with its grades. */
  predicate Converged(store: Store<Student>, key: Key) {
    key !in store
    || |store[key].spec.grades| == 0
    || store[key].status.graduate == Graduate(store[key].spec.grades)
  }

  /** The store after a successful `Status().Update` of the Student at `key`:
      only its status is replaced. */
  function WithStatus(store: Store<Student>, key: Key, status: StudentStatus): (s: Store<Student>)
    requires key in store
    ensures s.Keys == store.Keys
    ensures s[key].spec == store[key].spec && s[key].status == status
    ensures forall k :: k in store && k != key ==> s[k] == store[k]
  {
    store[key := store[key].(status := status)]
  }

  /** `StudentReconciler.Reconcile` for the request `key`. The `get` and
      `update` oracles stand for failures of the two client calls. */
  function Reconcile(store: Store<Student>, key: Key, getFault: Option<ApiError>, updateFault: Option<ApiError>): (r: Step<Student>)
    // the result is always `ctrl.Result{}`; retries come only from the error
    ensures r.outcome.result == Empty
    // at most one status write, and nothing but the status of `key` changes
    ensures r.writes <= 1
    ensures r.store.Keys == store.Keys
    ensures forall k :: k in store && k != key ==> r.store[k] == store[k]
    ensures key in store ==> r.store[key].spec == store[key].spec
    ensures r.store != store ==> r.writes == 1 && r.outcome.err.None?
    // fetch failed: the error is returned, nothing is written
    ensures getFault.Some? ==> r.outcome.err == getFault && r.writes == 0 && r.store == store
    // the Student is gone: done, nothing is written
    ensures getFault.None? && key !in store ==> Done(r.outcome) && r.writes == 0 && r.store == store
    // no grades: done, nothing is written, no average is taken
    ensures getFault.None? && key in store && |store[key].spec.grades| == 0 ==>
      Done(r.outcome) && r.writes == 0 && r.store == store
    // a write is issued exactly when the stored flag disagrees with the grades
    ensures getFault.None? && key in store && |store[key].spec.grades| > 0 ==>
      (r.writes == 1 <==> store[key].status.graduate != Graduate(store[key].spec.grades))
    // a failed write is returned and leaves the store as it was
    ensures r.writes == 1 && updateFault.Some? ==> r.outcome.err == updateFault && r.store == store
    // a successful write stores the derived flag
    ensures r.writes == 1 && updateFault.None? ==>
      Done(r.outcome) && r.store[key].status.graduate == Graduate(store[key].spec.grades)
    // an error is returned only from a failed fetch or a failed write
    ensures r.outcome.err.Some? <==> getFault.Some? || (r.writes == 1 && updateFault.Some?)
    // whenever no error is returned, the object has converged
    ensures r.outcome.err.None? ==> Converged(r.store, key)
  {
    var fetched := Get(store, key, getFault);
    if !fetched.Found? then
      Step(OnFetchMiss(fetched), store, 0)
    else
      var student := fetched.obj;
      if |student.spec.grades| == 0 then
        Step(Outcome(Empty, None), store, 0)
      else
        var graduate := Graduate(student.spec.grades);
        if student.status.graduate == graduate then
          Step(Outcome(Empty, None), store, 0)
        else
          match updateFault
          case Some(e) => Step(Outcome(Empty, Some(e)), store, 1)
          case None => Step(Outcome(Empty, None), WithStatus(store, key, student.status.(graduate := graduate)), 1)
  }

  /** A reconcile that can fetch the object writes nothing exactly when the
      object has already converged. */
  lemma NoWriteIffConverged(store: Store<Student>, key: Key, updateFault: Option<ApiError>)
    ensures Reconcile(store, key, None, updateFault).writes == 0 <==> Converged(store, key)
  {
  }

  /** Once a reconcile returned no error, a second one against the store it
      left, whatever faults it meets, writes nothing and changes nothing. */
  lemma Idempotent(store: Store<Student>, key: Key, first: Faults, second: Faults)
    requires Reconcile(store, key, first.get, first.update).outcome.err.None?
    ensures var s := Reconcile(store, key, first.get, first.update).store;
      Reconcile(s, key, second.get, second.update).writes == 0
      && Reconcile(s, key, second.get, second.update).store == s
  {
  }

  /** Reconciling `key` over and over, meeting the given faults in turn:
      the final store and the total number of status writes. */
  function Replay(store: Store<Student>, key: Key, faults: seq<Faults>): (Store<Student>, nat)
    decreases |faults|
  {
    if |faults| == 0 then (store, 0)
    else
      var step := Reconcile(store, key, faults[0].get, faults[0].update);
      var rest := Replay(step.store, key, faults[1..]);
      (rest.0, step.writes + rest.1)
  }

  /** A converged object stays as it is under any number of reconciles. */
  lemma {:induction false} ReplayConverged(store: Store<Student>, key: Key, faults: seq<Faults>)
    requires Converged(store, key)
    ensures Replay(store, key, faults) == (store, 0)
    decreases |faults|
  {
    if |faults| > 0 {
      var step := Reconcile(store, key, faults[0].get, faults[0].update);
      assert step.store == store && step.writes == 0;
      ReplayConverged(store, key, faults[1..]);
    }
  }

  /** Idempotence over any number of repetitions: after one reconcile that
      returned no error, no later reconcile writes or changes anything. */
  lemma IdempotentForever(store: Store<Student>, key: Key, first: Faults, later: seq<Faults>)
    requires Reconcile(store, key, first.get, first.update).outcome.err.None?
    ensures var s := Reconcile(store, key, first.get, first.update).store;
      Replay(s, key, later) == (s, 0)
  {
    ReplayConverged(Reconcile(store, key, first.get, first.update).store, key, later);
  }

  /** A conflicting write fails without touching the store, and the retry,
      when its calls succeed, converges the object with one write, even if
      someone else changed the status in between. */
  lemma RetryAfterConflict(store: Store<Student>, key: Key, conflict: ApiError, external: StudentStatus)
    requires key in store && |store[key].spec.grades| > 0
    requires store[key].status.graduate != Graduate(store[key].spec.grades)
    ensures var first := Reconcile(store, key, None, Some(conflict));
      first.outcome.err == Some(conflict) && first.writes == 1 && first.store == store
    ensures var mutated := WithStatus(store, key, external);
      var retry := Reconcile(mutated, key, None, None);
      Done(retry.outcome)
      && (retry.writes == 1 <==> external.graduate != Graduate(store[key].spec.grades))
      && retry.store[key] == Student(store[key].spec, StudentStatus(Graduate(store[key].spec.grades)))
  {
  }
}
