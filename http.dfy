/** The request and the response as the pipeline's stages see and change them. */
module Http {
  import opened Wrappers
  import opened Json
  import opened HttpErrors
  import opened Store

  /** The identity resolved from a verified token; `id` is the token's `u` claim, if it has one. */
  datatype Principal = Principal(id: Option<string>)

  /** The four parts of a request that validation may replace. */
  datatype Parts = Parts(params: Value, body: Value, query: Value, headers: Value)

  class Request {
    var params: Value
    var body: Value
    var query: Value
    var headers: Value
    var user: Option<Principal>

    constructor (params: Value, body: Value, query: Value, headers: Value)
      ensures Snapshot() == Parts(params, body, query, headers) && user == None
    {
      this.params, this.body, this.query, this.headers := params, body, query, headers;
      user := None;
    }

    function Snapshot(): Parts
      reads this
    {
      Parts(params, body, query, headers)
    }
  }

  /** What a successful handler answers. */
  datatype Reply =
    | TodoList(todos: set<Todo>)
    | OneTodo(todo: Todo)
    | Ack(ok: bool)
    | TokenReply(token: string)

  /** The `message` of an error response: the validator's issues, or the error's message. */
  datatype Message = Said(text: string) | Issues(issues: seq<Issue>)

  /** `{status: 'fail', message, stack}`. */
  datatype Envelope = Envelope(status: string, message: Message, stack: Option<string>)

  datatype Payload = Data(reply: Reply) | Failure(envelope: Envelope)

  class Response {
    var statusCode: nat
    var sent: Option<Payload>

    constructor ()
      ensures statusCode == OK && sent == None
    {
      statusCode, sent := OK, None;
    }
  }
}
