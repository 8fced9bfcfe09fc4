/** Username -> UUID entries (the client's uuid package). */
module Uuid {
  import opened Wrappers
  import opened Upstream

  /**
   * A point-in-time username -> UUID mapping. Entries are values: a refresh
   * replaces one, it never changes one in place.
   */
  datatype UUIDEntry = UUIDEntry(UUID: string, Timestamp: Timestamp, Status: Status)

  /** An entry is valid when the lookup that produced it succeeded. */
  predicate IsValid(e: UUIDEntry) {
    e.Status == StatusOk
  }

  /**
   * The fresh entry built from one username lookup: valid exactly when the
   * lookup succeeded, holding the UUID it returned and the time of the call;
   * a failed lookup leaves the failure in the status.
   */
  function NewUUIDEntry(reply: Result<string, ApiError>, now: Timestamp): (e: UUIDEntry)
    ensures IsValid(e) <==> reply.Ok?
    ensures reply.Ok? ==> e.UUID == reply.value
    ensures reply.Err? ==> e.Status == StatusError(reply.error)
    ensures e.Timestamp == now
  {
    UUIDEntry(if reply.Ok? then reply.value else "", now, StatusOf(reply))
  }
}
