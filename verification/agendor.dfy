/** The Agendor CRM as the controller sees it through Laravel's HTTP client:
    the requests it sends (recorded, not performed) and the replies it gets
    back (given to the model as inputs). */
module Agendor {
  import opened Php

  datatype Verb = HttpGet | HttpPost | HttpPut

  /** What "{$dealId}" becomes in the path of deals/{id}: the text of the
      id, or the string form of the JSON error response that the deal lookup
      returns when its own search fails (its text is not modelled). */
  datatype Segment = Text(s: string) | ResponseObjectText

  /** Every request goes to https://api.agendor.com.br/v3/ followed by the
      target's path (organizations, deals, or deals/{segment}), with the API
      token as a bearer token. */
  datatype Target = Organizations | Deals | Deal(segment: Segment)

  /** One outbound call: for a GET, `data` holds the query parameters; for a
      POST or a PUT, the JSON body. */
  datatype Request = Request(verb: Verb, target: Target, token: string, data: Value)

  /** The status codes an HTTP response can carry (Guzzle accepts no other). */
  type StatusCode = s: int | 100 <= s <= 599 witness 200

  /** The CRM's answer to one call: no answer at all (the HTTP client throws
      a ConnectionException), or a status code with the body as decoded by
      `$response->json()` (Null when the body is not JSON). */
  datatype Reply = Unreachable | Answer(status: StatusCode, json: Value)

  /** The cases in which a handler takes its `catch (Exception ...)` path:
      the client threw, or `$response->failed()` holds, which Laravel defines
      as a client or server error status (400 and above). */
  predicate Failed(r: Reply)
  {
    r.Unreachable? || r.status >= 400
  }
}
