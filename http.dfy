/** The HTTP statuses the endpoints answer with. */
module Http {

  const STATUS_OK: nat := 200
  const STATUS_BAD_REQUEST: nat := 400
  const STATUS_FORBIDDEN: nat := 403
  const STATUS_NOT_FOUND: nat := 404
  const STATUS_TOO_MANY_REQUESTS: nat := 429
  const STATUS_SERVER_ERROR: nat := 500

  /**
   * A reply: its status and whether the operation took effect (the JSON
   * `success` flag where the reply carries one).
   */
  datatype Reply = Reply(status: nat, success: bool)

  /** What Flask answers when a handler raises (a `None` user dereferenced). */
  const UNHANDLED_ERROR: Reply := Reply(STATUS_SERVER_ERROR, false)
}
