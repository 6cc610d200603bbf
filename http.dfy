/**
 * What an Express handler does, seen from outside: the reply it sends and the
 * ordered trace of effects it has on the database, on other services and on
 * storage. The outcomes of those effects are inputs.
 */
module Http {
  import opened Wrappers
  import opened JsValues
  import opened JsNumbers

  /** The status code and JSON body sent with `res.status(..).json(..)`. */
  datatype Reply = Reply(status: int, body: JsValue)

  /** The outcome of one awaited HTTP call (axios): the response data or the error's message. */
  datatype CallOutcome = Answer(data: JsValue) | Fault(message: string)

  /** The outcome of one `client.query`: the result rows, or an error with its SQLSTATE code. */
  datatype DbOutcome = Rows(rows: seq<JsValue>) | DbFault(code: string, message: string)

  /** A value bound to a query placeholder: a JavaScript value, or a computed number such as an offset. */
  datatype Param = Val(v: JsValue) | Numeric(n: Number)

  /** A parameter list of plain values. */
  function ValsOf(vs: seq<JsValue>): (ps: seq<Param>)
    ensures |ps| == |vs|
    ensures forall i :: 0 <= i < |vs| ==> ps[i] == Val(vs[i])
  {
    if vs == [] then [] else [Val(vs[0])] + ValsOf(vs[1..])
  }

  /** One externally visible step of a handler. */
  datatype Effect =
    | Insert(table: string, values: seq<JsValue>)      // an INSERT into a table, with its parameter list
    | Query(sql: string, params: seq<Param>)           // any other statement: its text and parameters
    | Call(endpoint: string, payload: JsValue)         // an HTTP request to another service
    | Upload(folder: string)                           // an image upload to the media store
    | WriteTemp                                        // a temporary file is written
    | RemoveTemp                                       // the temporary file is removed
    | Release                                          // the pooled database client is released

  /** The reply a handler sends and the effects it had, in order. */
  datatype Handled = Handled(reply: Reply, trace: seq<Effect>)

  /** `result.rows[0]`: the first row, `undefined` when there is none. */
  function FirstRow(rows: seq<JsValue>): (r: JsValue)
    ensures rows == [] ==> r == Undefined
    ensures rows != [] ==> r == rows[0]
  {
    if rows == [] then Undefined else rows[0]
  }

  /** `{ success: false, message }` with the given status. */
  function ErrorReply(status: int, message: string): Reply {
    Reply(status, Obj([Field("success", Bool(false)), Field("message", Str(message))]))
  }

  /** `{ success: true, data }` with the given status. */
  function DataReply(status: int, data: JsValue): Reply {
    Reply(status, Obj([Field("success", Bool(true)), Field("data", data)]))
  }

  /** `{ success: true, message, data }` with the given status. */
  function MessageDataReply(status: int, message: string, data: JsValue): Reply {
    Reply(status, Obj([Field("success", Bool(true)), Field("message", Str(message)), Field("data", data)]))
  }

  /** `{ success: true, message }`. */
  function MessageReply(status: int, message: string): Reply {
    Reply(status, Obj([Field("success", Bool(true)), Field("message", Str(message))]))
  }

  predicate IsError(r: Reply, status: int, message: string) {
    r == ErrorReply(status, message)
  }

  function SuccessFlag(r: Reply): JsValue {
    Get(r.body, "success")
  }

  function Data(r: Reply): JsValue {
    Get(r.body, "data")
  }

  /** An error reply's `message` field holds its message. */
  lemma ErrorReplyMessage(status: int, message: string)
    ensures Get(ErrorReply(status, message).body, "message") == Str(message)
    ensures SuccessFlag(ErrorReply(status, message)) == Bool(false)
  {
    var fs := [Field("success", Bool(false)), Field("message", Str(message))];
    assert "message" != "success";
    assert fs[1..] == [Field("message", Str(message))];
    assert Lookup(fs[1..], "message") == Some(Str(message));
  }

  /** A data reply carries `success: true` and its data. */
  lemma DataReplyFields(status: int, data: JsValue)
    ensures SuccessFlag(DataReply(status, data)) == Bool(true)
    ensures Data(DataReply(status, data)) == data
  {
    LookupAt([Field("success", Bool(true)), Field("data", data)], 1, "data");
  }

  /** `error.message || fallback` for a caught error. */
  function ErrorText(message: string, fallback: string): (t: string)
    ensures message != "" ==> t == message
    ensures message == "" ==> t == fallback
  {
    if message != "" then message else fallback
  }

  /** The 500 reply of a handler's catch block: `error.message || fallback`. */
  function Failed(message: string, fallback: string): (r: Reply)
    ensures r.status == 500
  {
    ErrorReply(500, ErrorText(message, fallback))
  }

  /** The trace contains no database write and no call to another service. */
  predicate NoSideEffects(trace: seq<Effect>) {
    forall i :: 0 <= i < |trace| ==> trace[i] == Release || trace[i] == RemoveTemp
  }

  predicate HasInsert(trace: seq<Effect>) {
    exists i :: 0 <= i < |trace| && trace[i].Insert?
  }
}
