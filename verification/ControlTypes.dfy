/** Values shared by the control engine's modules. */
module ControlTypes {

  datatype Option<+T> = None | Some(value: T)

  /** Lifecycle states of a control request. `Accepted` and `Running` are not terminal. */
  datatype Status =
    | Accepted | Running | Succeeded | Failed | Rejected | Timeout | Cancelled | Indeterminate

  /** Idempotency key: the journal, the active registry and the queues all go by it. */
  datatype Key = Key(namespace: string, device: string, request: string)

  /** Outcome of a request; `key` carries the envelope fields, `error` the stable error code. */
  datatype ControlResult = ControlResult(
    key: Key,
    status: Status,
    startedAt: Option<int>,
    completedAt: Option<int>,
    payload: Option<string>,
    error: Option<string>)

  predicate Unfinished(status: Status) {
    status == Accepted || status == Running
  }
}
