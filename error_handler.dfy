/**
 * The Express error handler at the end of the middleware chain: it maps an
 * error to a status and message, checking in priority order a validation error,
 * the PostgreSQL unique-violation and foreign-key codes, an upload-format
 * rejection, and finally the error's own status and message.
 */
module ErrorHandler {
  import opened Wrappers
  import opened Strings
  import opened JsValues
  import opened Http

  /** The fields of a thrown error the handler reads; `status` is `None` when absent. */
  datatype Error = Error(name: string, code: Option<string>, message: string, status: Option<int>, errors: JsValue)

  const UniqueViolation: string := "23505"
  const ForeignKeyViolation: string := "23503"

  function Handle(err: Error): (r: Reply)
    ensures SuccessFlag(r) == Bool(false)
    ensures err.name == "ValidationError" ==>
      r == Reply(400, Obj([Field("success", Bool(false)), Field("message", Str("Validation error")), Field("errors", err.errors)]))
    ensures err.name != "ValidationError" && err.code == Some(UniqueViolation) ==>
      r == ErrorReply(409, "Duplicate entry. Resource already exists.")
    ensures err.name != "ValidationError" && err.code == Some(ForeignKeyViolation) ==>
      r == ErrorReply(400, "Foreign key constraint violation")
  {
    if err.name == "ValidationError" then
      Reply(400, Obj([Field("success", Bool(false)), Field("message", Str("Validation error")), Field("errors", err.errors)]))
    else if err.code == Some(UniqueViolation) then ErrorReply(409, "Duplicate entry. Resource already exists.")
    else if err.code == Some(ForeignKeyViolation) then ErrorReply(400, "Foreign key constraint violation")
    else if err.message != "" && Contains(err.message, "format allowed") then ErrorReply(400, err.message)
    else
      var status := match err.status case Some(s) => if s != 0 then s else 500 case None => 500;
      ErrorReply(status, ErrorText(err.message, "Internal server error"))
  }

  /** Any other error with a message naming an allowed format is a 400 that echoes the message. */
  lemma FormatRejectionEchoed(err: Error, before: string, after: string)
    requires err.name != "ValidationError"
    requires err.code != Some(UniqueViolation) && err.code != Some(ForeignKeyViolation)
    requires err.message == before + "format allowed" + after
    ensures Handle(err) == ErrorReply(400, err.message)
  {
    ContainsInfix(before, "format allowed", after);
  }

  /**
   * An error matching no rule keeps its own status (500 when it has none or it
   * is 0) and its own message (`Internal server error` when empty).
   */
  lemma FallbackStatusAndMessage(err: Error)
    requires err.name != "ValidationError"
    requires err.code != Some(UniqueViolation) && err.code != Some(ForeignKeyViolation)
    requires !Contains(err.message, "format allowed")
    ensures Handle(err).status == (if err.status.Some? && err.status.value != 0 then err.status.value else 500)
    ensures Get(Handle(err).body, "message") == Str(if err.message != "" then err.message else "Internal server error")
  {
    ErrorReplyMessage(Handle(err).status, ErrorText(err.message, "Internal server error"));
  }

  /** A validation error wins over any database code it also carries. */
  lemma ValidationFirst(err: Error, code: string)
    requires err.name == "ValidationError"
    ensures Handle(err.(code := Some(code))).status == 400
    ensures Handle(err.(code := Some(code))) == Handle(err)
  {
  }
}
