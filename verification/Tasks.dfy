/**
 Task records as the backends store them: identity, timing and input data.
 Times are integers in milliseconds since the epoch.
 */
module Tasks {

  datatype Option<+T> = None | Some(value: T)

  newtype Byte = x: int | 0 <= x < 256

  type Bytes = seq<Byte>
  type TaskId = string
  type Group = string
  type WorkerId = string
  type Timestamp = int

  datatype TaskInfo = TaskInfo(
    id: TaskId,
    group: Group,
    name: string,
    due: Timestamp,
    created: Timestamp,
    scheduled: Option<Timestamp>,
    retryCount: nat,
    ttl: nat
  ) {
    /** The metadata of the next attempt, due `interval` after `now`. */
    function CloneForRetry(now: Timestamp, interval: nat): TaskInfo {
      this.(due := now + interval, scheduled := None, retryCount := retryCount + 1)
    }
  }

  datatype TaskRecord = TaskRecord(info: TaskInfo, data: Bytes)

  function Min(a: nat, b: nat): nat {
    if a <= b then a else b
  }
}
