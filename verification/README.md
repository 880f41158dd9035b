# Student and Guestbook reconcilers, modelled in Dafny

Two Kubernetes controllers built with controller-runtime. Each has a single
`Reconcile` step, which is a short decision procedure over the object store:

- `StudentReconciler.Reconcile` fetches a Student by namespace and name.
  - A Student that is gone ends the request without error.
  - Any other fetch error is returned, so the request is retried.
  - A Student with no grades ends the request without error and without a write.
  - Otherwise it derives `graduate` (the mean grade is at least 3.0, inclusive).
    It writes the status only when the stored flag differs, and returns the
    error of a failed write.
- `GuestbookReconciler.Reconcile` is the scaffold. It applies the same fetch
  mapping and then finishes.

The model is functional. The store is a `map<Key, T>`. `Get` returns a tagged
result (`Found | NotFound | Failed`). Failures of the two client calls are
oracle arguments. A reconcile is a pure function that returns the
`(ctrl.Result, error)` pair, the new store, and the number of status updates
it sent.

Files:
- `store.dfy` (`ObjectStore`): keys, API errors, the store, `Get`.
- `runtime.dfy` (`ControllerRuntime`): `ctrl.Result`, the returned pair, and the shared fetch-miss mapping.
- `grading.dfy` (`Grading`): the sum loop, the real-valued mean, and the graduation flag.
- `student_controller.dfy` (`StudentController`): the Student reconciler, idempotence, and retry.
- `guestbook_controller.dfy` (`GuestbookController`): the Guestbook reconciler.
- `fetch_agreement.dfy` (`FetchAgreement`): the two reconcilers agree until the object is fetched.

The Go code takes the mean in `float64`. The model uses exact real division
and decides it by the integer test `sum >= 3 * len`. `Grading.Graduate`
documents the assumption that makes the two agree: |sum| <= 2^53 and
len < 2^50.

## Model

| member | source | states |
|---|---|---|
| ObjectStore.Get | projects/students/internal/controller/student_controller.go:55-56 | without a fault, a present key yields its object and an absent key yields NotFound; a fault is returned unchanged as Failed |
| ControllerRuntime.OnFetchMiss | projects/students/internal/controller/student_controller.go:55-61 | a missing object yields an empty result and no error; any other fetch error is returned unchanged; the result is never a requeue |
| Grading.SumGrades | projects/students/internal/controller/student_controller.go:70-73 | the accumulation loop over the grades computes exactly their sum |
| Grading.AverageAtLeastThree | projects/students/internal/controller/student_controller.go:74-77 | for a non-empty list, the real mean is at least 3.0 exactly when the sum is at least three times the count |
| Grading.Graduate | projects/students/internal/controller/student_controller.go:74-77 | the derived flag is true exactly when the mean grade is at least 3.0, with the boundary included |
| Grading.ThresholdExamples | projects/students/internal/controller/student_controller.go:77 | grades [3,3,3,3] and [4,4,4] graduate, and [2,2,2] does not |
| StudentController.WithStatus | projects/students/internal/controller/student_controller.go:81-82 | a status update replaces only the status of the updated Student; its spec and every other object stay as they were |
| StudentController.Reconcile | projects/students/internal/controller/student_controller.go:50-91 | NotFound gives done with no write; a fetch error is returned with no write; empty grades give done with no write; a write is issued if and only if the stored flag differs from the derived one; a failed write is returned and leaves the store unchanged; a successful write stores the derived flag; an error is returned exactly when the fetch or the write failed, so a Student whose flag already matches gets a nil error; only the fetched Student's status can change; the result is always `ctrl.Result{}`; whenever no error is returned, the object has converged |
| StudentController.NoWriteIffConverged | projects/students/internal/controller/student_controller.go:80-86 | when the Student can be fetched, the reconcile writes nothing exactly when the Student is gone, has no grades, or already carries the derived flag |
| StudentController.Idempotent | projects/students/internal/controller/student_controller.go:80 | after a reconcile that returned no error, a second one with an unchanged spec writes nothing and leaves the store unchanged, whatever `Get` or update errors it meets |
| StudentController.ReplayConverged | projects/students/internal/controller/student_controller.go:80-86 | any sequence of reconciles of a converged Student issues zero writes and leaves the store unchanged |
| StudentController.IdempotentForever | projects/students/internal/controller/student_controller.go:80-86 | after one reconcile that returned no error, any number of further reconciles issue zero writes and leave the store unchanged |
| StudentController.RetryAfterConflict | projects/students/internal/controller/student_controller.go:80-85 | a failed status update is returned and changes nothing; the retry converges the Student to the derived flag even if its status was changed externally in between, and writes exactly when the externally set flag differs from the derived one |
| GuestbookController.Reconcile | projects/guestbook/internal/controller/guestbook_controller.go:50-74 | NotFound and success both give done with no error; any other fetch error is returned unchanged; the result is always `ctrl.Result{}`; the store is unchanged and nothing is written on every path |
| FetchAgreement.SameOnFetchMiss | projects/guestbook/internal/controller/guestbook_controller.go:59-69 | when the fetch does not produce the object, the Student reconciler returns exactly what the Guestbook reconciler returns, with the same store and no write |

## Left out

- ObjectStore.Get: returns the object stored right now. A stale read from the client's cache is not modelled. In the program such a read can show the old flag after a successful write, which leads to one more status update that fails with a conflict. The idempotence lemmas assume fresh reads.
- `SetupWithManager` in both controllers: it only registers watches with the controller-runtime manager, which is a foreign library.
- RBAC `+kubebuilder` markers and the `Scheme` field: these are generated metadata with no behaviour.
- Logging (`logger.Info`, `logger.Error`): observability only.
- `context.Context` cancellation and deadlines: they belong to the I/O layer. A cancelled call appears in the model as an oracle fault of `Get` or of the status update.
- Optimistic concurrency of the API server: a version conflict is modelled only as a failed status update, via the update oracle. Resource versions are not modelled.
- StudentController.Reconcile: the sum is an unbounded integer, so the wrap-around of Go's 64-bit `int` on large sums is not modelled (two grades of 2^62 wrap to a negative sum in Go, and do not graduate there).
- Grading.Graduate: the `float64` division is modelled as exact real division. This agrees with IEEE-754 double precision only under the stated bounds on the sum and on the number of grades.
- The spec and status fields of the Student CRD beyond `Name`, `Grades` and `Graduate`, and the Guestbook spec: the reconcilers do not read them. The Guestbook reconciler is generic over its object type for this reason.
- `RequeueAfter` is part of `ctrl.Result` but is never set by either reconciler. The model follows the code and proves that it stays zero.
