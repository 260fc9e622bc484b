/** JSON-RPC messages as the client connection sees them. A frame is atomic and
    JSON bodies are opaque strings. */
module Messages {
  import Decimal

  type Json = string

  datatype Id = Number(n: int) | Text(s: string) | Null

  datatype Outcome = Result(value: Json) | Error(code: int, message: string)

  /** What the server sends. */
  datatype Inbound =
    | Response(id: Id, outcome: Outcome)
    | Request(id: Id, name: string)
    | Notification(body: Json)

  /** What the client queues for the writer. A reply also records which server
      request, by order of arrival, it answers. */
  datatype Outbound =
    | CallMessage(call: nat, id: Id)
    | NotifyMessage(body: Json)
    | Reply(request: nat, id: Id, outcome: Outcome)

  /** What travels through the one-shot channel of a call. */
  datatype Payload = Answer(outcome: Outcome) | Disconnected(reason: string)

  /** How `Client::call` returns. */
  datatype CallResult =
    | Value(value: Json)
    | ServerError(code: int, message: string)
    | DisconnectedError(reason: string)
    | IoError

  function ResultOf(p: Payload): CallResult {
    match p
    case Answer(Result(v)) => Value(v)
    case Answer(Error(code, message)) => ServerError(code, message)
    case Disconnected(reason) => DisconnectedError(reason)
  }

  /** The id of the n-th call of a connection. */
  function CallId(n: nat): Id {
    Text("c:" + Decimal.Render(n))
  }

  lemma CallIdInjective(m: nat, n: nat)
    requires CallId(m) == CallId(n)
    ensures m == n
  {
    Decimal.PrefixedInjective("c:", m, n);
  }
}
