/** The narrow slice of the Kubernetes object store that the reconcilers use:
    objects addressed by namespace and name, read with `Get`. */
module ObjectStore {

  datatype Option<+T> = None | Some(value: T)

  /** A namespaced object identity (`types.NamespacedName`), the only thing a
      reconcile request carries. */
  datatype Key = Key(namespace: string, name: string)

  /** An error reported by the API server or the client. A failed `Get` never
      carries "not found" here, since that has its own tag in `GetResult`; a
      failed status update may carry any error, "not found" included (the
      object was deleted after it was fetched). The reconcilers never look
      inside it; they only hand it back. */
  datatype ApiError = ApiError(message: string)

  /** The store as the reconcilers see it: at most one object per key. */
  type Store<T> = map<Key, T>

  /** What `client.Get` reports. "Not found" is a tag of its own here rather
      than an error value recognised by `errors.IsNotFound`. */
  datatype GetResult<T> = Found(obj: T) | NotFound | Failed(err: ApiError)

  /** `client.Get`. The call itself can fail (timeout, connection loss, cache
      not synced); `fault` says whether it does, since nothing in the model can
      produce such a failure. Without a fault, a present key yields its object
      and an absent key yields `NotFound`. */
  function Get<T>(store: Store<T>, key: Key, fault: Option<ApiError>): (g: GetResult<T>)
    ensures g.Found? <==> fault.None? && key in store
    ensures g.Found? ==> g.obj == store[key]
    ensures g.NotFound? <==> fault.None? && key !in store
    ensures g.Failed? <==> fault.Some?
    ensures g.Failed? ==> g.err == fault.value
  {
    match fault
    case Some(e) => Failed(e)
    case None => if key in store then Found(store[key]) else NotFound
  }
}
