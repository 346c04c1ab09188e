/** What the gateways see of an HTTP exchange with a microservice, and the one rule every
    gateway catch block uses to turn a failed exchange into its own reply. */
module Http {
  import opened Js

  /** A reply: status code and JSON body. */
  datatype Response = Response(status: int, body: Json)

  /** The outcome of one upstream call. `Replied` is a call that resolved (axios resolves on
      a 2xx status); `Failed` is anything thrown inside the handler's `try`, carrying the
      upstream reply when the error came from a non-2xx status and `None` when there was no
      reply at all (connection refused, or an exception raised by the handler's own code). */
  datatype Upstream = Replied(status: int, data: Json) | Failed(response: Option<Response>)

  /** The services behind a gateway. */
  datatype Service = CatalogService | RatingsService

  datatype Verb = GET | POST

  /** One call a gateway makes to a service: path below the service's base URL, and the
      JSON body it sends, if any. */
  datatype Call = Call(service: Service, verb: Verb, path: string, body: Option<Json>)

  predicate IsSuccess(status: int) {
    200 <= status < 300
  }

  /** axios's default status check: it resolves exactly on 2xx statuses. */
  predicate Conforms(u: Upstream) {
    match u
    case Replied(status, _) => IsSuccess(status)
    case Failed(r) => r.None? || !IsSuccess(r.value.status)
  }

  /** The gateway's own error body `{ message: ... }`. */
  function ErrorBody(message: string): (j: Json)
    ensures Truthy(Some(j))
  {
    JObj(map["message" := JStr(message)])
  }

  /** A proxy handler: on success the upstream status and data; in the catch block
      `error.response ? error.response.status : 500` and
      `error.response && error.response.data ? error.response.data : { message }`. */
  function Relay(u: Upstream, message: string): Response {
    match u
    case Replied(status, data) => Response(status, data)
    case Failed(None) => Response(500, ErrorBody(message))
    case Failed(Some(r)) =>
      Response(r.status, if Truthy(Some(r.body)) then r.body else ErrorBody(message))
  }

  /** A resolved call is passed through unchanged. */
  lemma RelayPassesSuccess(u: Upstream, message: string)
    requires u.Replied?
    ensures Relay(u, message) == Response(u.status, u.data)
  {
  }

  /** A failure keeps the upstream status when there is one and is 500 otherwise; its body
      is the upstream body when that is truthy and the handler's own message otherwise, so
      a failed call never produces an empty body. */
  lemma RelayFailure(u: Upstream, message: string)
    requires u.Failed?
    ensures Relay(u, message).status == if u.response.Some? then u.response.value.status else 500
    ensures Truthy(Some(Relay(u, message).body))
    ensures u.response.Some? && Truthy(Some(u.response.value.body)) ==>
              Relay(u, message).body == u.response.value.body
    ensures (u.response.None? || !Truthy(Some(u.response.value.body))) ==>
              Relay(u, message).body == ErrorBody(message)
  {
  }

  /** Under axios's status check the relayed status is a success exactly when the
      upstream call succeeded: the relay never turns a failure into a success. */
  lemma RelaySuccessIff(u: Upstream, message: string)
    requires Conforms(u)
    ensures IsSuccess(Relay(u, message).status) <==> u.Replied?
  {
  }

  /** `RelayFailure` stated for any outcome, for use inside function bodies. */
  lemma RelayFailureFacts(u: Upstream, message: string)
    ensures u.Failed? ==> Relay(u, message).status == (if u.response.Some? then u.response.value.status else 500)
    ensures u.Failed? ==> Truthy(Some(Relay(u, message).body))
  {
    if u.Failed? {
      RelayFailure(u, message);
    }
  }
}
