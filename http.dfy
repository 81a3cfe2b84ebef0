/** What one handler invocation consumes and produces: the inbound request,
    the single upstream request it issues (if any), the upstream outcome it
    is given, and the response it sends. The network call itself is not
    modelled: its result is the `Outcome` input. */
module Http {
  import opened Json

  /** The upstream host every controller forwards to. */
  const BASE_URL: string := "https://fakestoreapi.com"

  /** The base URL carries no query string of its own. */
  lemma BaseUrlHasNoQuery()
    ensures '?' !in BASE_URL && '&' !in BASE_URL
  {
  }

  datatype Verb = Get | Post | Put | Patch | Delete

  /** The parts of an Express request the handlers read: `req.params`,
      `req.query` (one string per key) and the parsed `req.body`. */
  datatype Request = Request(params: map<string, string>, query: map<string, string>, body: Value)

  /** The one call a handler makes through the HTTP client: verb, absolute
      URL and, for POST, PUT and PATCH, the body it sends. */
  datatype UpstreamRequest = UpstreamRequest(verb: Verb, url: string, body: Option<Value>)

  /** How the upstream call settled: it resolved with a status and parsed
      data, or it was rejected (network error, non-2xx status, timeout) with
      an error whose `message` is given. */
  datatype Outcome = Success(status: int, data: Value) | Failure(message: string)

  /** The status and JSON body a handler sends back through `res`. */
  datatype Response = Response(status: int, body: Value)

  /** One handler invocation: what it sent upstream (`None` when it answered
      without calling upstream) and what it answered. */
  datatype Exchange = Exchange(sent: Option<UpstreamRequest>, response: Response)

  /** `${req.params[name]}`: a route parameter interpolated into a template
      string; a missing one reads as `undefined`. */
  function PathParam(req: Request, name: string): (s: string)
    ensures name in req.params ==> s == req.params[name]
    ensures name !in req.params ==> s == "undefined"
  {
    if name in req.params then req.params[name] else "undefined"
  }

  /** `{ error: message }`, the body of every 500 answer. */
  function ErrorBody(message: string): (b: Value)
    ensures Keys(b) == ["error"]
    ensures Member(b, "error") == Some(Str(message))
  {
    Obj([Field("error", Str(message))])
  }

  /** The relay shared by every handler except login: on success
      `res.json(response.data)` (Express's default status 200) or
      `res.status(201).json(response.data)` for the create handlers; on
      failure `res.status(500).json({ error: error.message })`. */
  function Relay(o: Outcome, created: bool): (r: Response)
    ensures o.Success? ==> r.body == o.data
    ensures o.Success? ==> r.status == (if created then 201 else 200)
    ensures o.Failure? ==> r.status == 500
    ensures o.Failure? ==> Keys(r.body) == ["error"] && Member(r.body, "error") == Some(Str(o.message))
  {
    match o
    case Success(_, data) => Response(if created then 201 else 200, data)
    case Failure(message) => Response(500, ErrorBody(message))
  }

  /** The status the upstream reported never reaches the caller: two
      successes with the same data are relayed identically. */
  lemma RelayIgnoresUpstreamStatus(s1: int, s2: int, data: Value, created: bool)
    ensures Relay(Success(s1, data), created) == Relay(Success(s2, data), created)
  {
  }

  /** The caller can tell success from failure by the status alone: a relayed
      success is 2xx and a relayed failure is 500. */
  lemma RelayStatusSeparatesOutcomes(o: Outcome, created: bool)
    ensures Relay(o, created).status == 500 <==> o.Failure?
    ensures 200 <= Relay(o, created).status < 300 <==> o.Success?
  {
  }
}
