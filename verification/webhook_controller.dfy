/** The decision and mapping layer of the WooCommerce-to-Agendor webhook
    controller: the status table, the outbound payloads, the first-hit
    lookups of an organization and of a deal, and the three handlers as
    straight-line sequences of outbound calls with their reply branching. */
module WebhookController {
  import opened Php
  import opened Agendor

  /** env('AGENDOR_API_TOKEN') and env('ORGANIZATION_ID'); the latter is
      Null when the variable is not set. */
  datatype Config = Config(apiToken: string, organizationId: Value)

  /** The `billing` block of a WooCommerce webhook body. */
  datatype Billing = Billing(firstName: string, lastName: string, email: Value, phone: Value)

  /** A WooCommerce order id, as it arrives in the webhook body. */
  datatype OrderId = IntId(n: int) | TextId(s: string)

  /** The body of an order-created webhook. */
  datatype NewOrder = NewOrder(id: OrderId, total: Value, status: string, billing: Billing)

  /** The body of an order-updated webhook (the fields the handler reads). */
  datatype OrderChange = OrderChange(id: OrderId, status: string)

  /** What a handler gives back to the webhook caller: a JSON response with
      its status code, or an error thrown past the handler's catch clause. */
  datatype Outcome = Response(status: int, body: Value) | Uncaught(errorClass: string)

  const ClientErrorMessage := "Erro ao criar cliente no Agendor"
  const OrderCreateErrorMessage := "Erro ao criar pedido no Agendor"
  const OrderUpdateErrorMessage := "Erro ao atualizar pedido no Agendor"
  const DealNotFoundMessage := "Negócio não encontrado no Agendor"
  const OrderDescription := "Pedido realizado no WooCommerce"
  const TitlePrefix := "Pedido #"

  /** The body `['error' => message]`. */
  function ErrorBody(message: string): Value
  {
    Assoc(map["error" := Str(message)])
  }

  // ---------------------------------------------------------------------
  // Status mapping

  /** WooCommerce order status to the label stored in the deal's custom
      field `status`. */
  const StatusTable: map<string, string> := map[
    "pending" := "Aguardando pagamento",
    "processing" := "Pagamento em análise",
    "completed" := "Pago",
    "on-hold" := "Em espera",
    "cancelled" := "Cancelado",
    "refunded" := "Reembolsado",
    "failed" := "Falhou"
  ]

  const UnknownStatusLabel := "Status desconhecido"

  /** Total: a known status gets its label, anything else the default, and
      the default is never the label of a known status. */
  function MapStatusToAgendor(wooStatus: string): (statusText: string)
    ensures statusText == UnknownStatusLabel <==> wooStatus !in StatusTable
    ensures wooStatus in StatusTable ==> statusText == StatusTable[wooStatus]
    ensures statusText != ""
  {
    if wooStatus in StatusTable then StatusTable[wooStatus] else UnknownStatusLabel
  }

  /** The table read backwards: which known status a label stands for. */
  function StatusOfLabel(statusText: string): Option<string>
  {
    if statusText == "Aguardando pagamento" then Some("pending")
    else if statusText == "Pagamento em análise" then Some("processing")
    else if statusText == "Pago" then Some("completed")
    else if statusText == "Em espera" then Some("on-hold")
    else if statusText == "Cancelado" then Some("cancelled")
    else if statusText == "Reembolsado" then Some("refunded")
    else if statusText == "Falhou" then Some("failed")
    else None
  }

  /** No two known statuses share a label, so the label sent to the CRM
      identifies the known status, and an unknown status is never mistaken
      for a known one. */
  lemma StatusLabelRoundTrip(wooStatus: string)
    ensures StatusOfLabel(MapStatusToAgendor(wooStatus))
         == if wooStatus in StatusTable then Some(wooStatus) else None
  {
  }

  // ---------------------------------------------------------------------
  // Deal titles

  /** The order id as `.` renders it. */
  function OrderIdText(id: OrderId): string
  {
    match id
    case IntId(n) => IntToString(n)
    case TextId(s) => s
  }

  /** `'Pedido #' . $data['id']`: the deal's title, and the term used to
      search for the deal later. */
  function DealTitle(id: OrderId): string
  {
    TitlePrefix + OrderIdText(id)
  }

  /** The order id text a deal title carries, if it has the title prefix. */
  function OrderIdTextOfTitle(title: string): Option<string>
  {
    if |TitlePrefix| <= |title| && title[..|TitlePrefix|] == TitlePrefix
    then Some(title[|TitlePrefix|..])
    else None
  }

  lemma DealTitleRoundTrip(id: OrderId)
    ensures OrderIdTextOfTitle(DealTitle(id)) == Some(OrderIdText(id))
  {
  }

  /** Two integer order ids give the same deal title only if they are equal. */
  lemma DealTitleInjectiveOnIntIds(a: int, b: int)
    requires DealTitle(IntId(a)) == DealTitle(IntId(b))
    ensures a == b
  {
    DealTitleRoundTrip(IntId(a));
    DealTitleRoundTrip(IntId(b));
    IntToStringInjective(a, b);
  }

  // ---------------------------------------------------------------------
  // Outbound payloads

  /** clientCreated's body: full name, then email and phone as received. */
  function ClientPayload(billing: Billing): Value
  {
    Assoc(map[
      "name" := Str(billing.firstName + " " + billing.lastName),
      "email" := billing.email,
      "phone" := billing.phone
    ])
  }

  /** orderCreated's body for the deal, given the resolved organization. */
  function OrderPayload(order: NewOrder, organizationId: Value): Value
  {
    Assoc(map[
      "title" := Str(DealTitle(order.id)),
      "value" := order.total,
      "description" := Str(OrderDescription),
      "organizationId" := organizationId,
      "customFields" := Assoc(map["status" := Str(MapStatusToAgendor(order.status))])
    ])
  }

  /** orderUpdated's body: the mapped status and nothing else. */
  function UpdatePayload(wooStatus: string): Value
  {
    Assoc(map["customFields" := Assoc(map["status" := Str(MapStatusToAgendor(wooStatus))])])
  }

  lemma ClientPayloadShape(billing: Billing)
    ensures var p := ClientPayload(billing);
      && p.Assoc? && p.entries.Keys == {"name", "email", "phone"}
      && p.entries["email"] == billing.email
      && p.entries["phone"] == billing.phone
      && p.entries["name"].Str?
      && var name := p.entries["name"].s;
      && |name| == |billing.firstName| + 1 + |billing.lastName|
      && name[..|billing.firstName|] == billing.firstName
      && name[|billing.firstName|] == ' '
      && name[|billing.firstName| + 1..] == billing.lastName
  {
  }

  lemma OrderPayloadShape(order: NewOrder, organizationId: Value)
    ensures var p := OrderPayload(order, organizationId);
      && p.Assoc?
      && p.entries.Keys == {"title", "value", "description", "organizationId", "customFields"}
      && p.entries["title"] == Str(DealTitle(order.id))
      && p.entries["value"] == order.total
      && p.entries["description"] == Str("Pedido realizado no WooCommerce")
      && p.entries["organizationId"] == organizationId
      && p.entries["customFields"] == UpdatePayload(order.status).entries["customFields"]
  {
  }

  /** The update body names one custom field, whose label identifies the
      order's status when that status is a known one. */
  lemma UpdatePayloadOnlyStatus(wooStatus: string)
    ensures var p := UpdatePayload(wooStatus);
      && p.Assoc? && p.entries.Keys == {"customFields"}
      && var fields := p.entries["customFields"];
      && fields.Assoc? && fields.entries.Keys == {"status"}
      && fields.entries["status"] == Str(MapStatusToAgendor(wooStatus))
      && StatusOfLabel(fields.entries["status"].s)
         == if wooStatus in StatusTable then Some(wooStatus) else None
  {
  }

  // ---------------------------------------------------------------------
  // Searches and first-hit resolution

  /** GET organizations?email=... */
  function OrganizationSearch(cfg: Config, email: Value): Request
  {
    Request(HttpGet, Organizations, cfg.apiToken, Assoc(map["email" := email]))
  }

  /** GET deals?search=Pedido #id */
  function DealSearch(cfg: Config, id: OrderId): Request
  {
    Request(HttpGet, Deals, cfg.apiToken, Assoc(map["search" := Str(DealTitle(id))]))
  }

  /** The deal created for an order and the later search for that order's
      deal use the same text: the only link between the two systems. */
  lemma SearchTermIsCreatedTitle(cfg: Config, order: NewOrder, organizationId: Value)
    ensures Offset(DealSearch(cfg, order.id).data, "search")
         == Offset(OrderPayload(order, organizationId), "title")
         == Some(Str(TitlePrefix + OrderIdText(order.id)))
  {
  }

  /** getAgendorOrganizationId: the first hit's id, else the configured
      organization, which is also the answer when the call fails. */
  function ResolveOrganization(cfg: Config, reply: Reply): Value
  {
    if Failed(reply) then cfg.organizationId
    else match FirstDataId(reply.json)
      case Some(id) => id
      case None => cfg.organizationId
  }

  /** What getAgendorDealId returns: an id, null, or (when the search call
      fails) the JSON error response built in its catch clause. */
  datatype DealLookup = Found(id: Value) | NoDeal | ErrorResponse

  function ResolveDeal(reply: Reply): DealLookup
  {
    if Failed(reply) then ErrorResponse
    else match FirstDataId(reply.json)
      case Some(id) => Found(id)
      case None => NoDeal
  }

  /** `!$dealId`: null and falsy ids; a response object is truthy. */
  predicate LookupFalsy(lookup: DealLookup)
  {
    match lookup
    case Found(id) => Falsy(id)
    case NoDeal => true
    case ErrorResponse => false
  }

  /** "{$dealId}" in the PUT path; None when the id is an array. */
  function DealSegment(lookup: DealLookup): Option<Segment>
  {
    match lookup
    case Found(id) =>
      (match ToText(id)
       case Some(t) => Some(Text(t))
       case None => None)
    case NoDeal => Some(Text(""))
    case ErrorResponse => Some(ResponseObjectText)
  }

  /** One hit of a CRM search, and the search body holding a list of them. */
  datatype SearchHit = SearchHit(id: Value, title: string)

  function HitValue(hit: SearchHit): Value
  {
    Assoc(map["id" := hit.id, "title" := Str(hit.title)])
  }

  function SearchResult(hits: seq<SearchHit>): Value
  {
    Assoc(map["data" := List(seq(|hits|, k requires 0 <= k < |hits| => HitValue(hits[k])))])
  }

  lemma FirstDataIdOfSearchResult(hits: seq<SearchHit>)
    ensures FirstDataId(SearchResult(hits))
         == if |hits| > 0 && hits[0].id != Null then Some(hits[0].id) else None
  {
  }

  /** The three outcomes of organization resolution. */
  lemma OrganizationResolution(cfg: Config, status: StatusCode, hits: seq<SearchHit>)
    ensures ResolveOrganization(cfg, Unreachable) == cfg.organizationId
    ensures ResolveOrganization(cfg, Answer(status, SearchResult(hits)))
         == if status < 400 && |hits| > 0 && hits[0].id != Null then hits[0].id
            else cfg.organizationId
  {
  }

  /** Deal resolution takes the first hit's id whatever its title, gives
      null for an empty result, and the error response on a failed call. */
  lemma DealResolution(status: StatusCode, hits: seq<SearchHit>)
    ensures ResolveDeal(Unreachable) == ErrorResponse
    ensures ResolveDeal(Answer(status, SearchResult(hits)))
         == if status >= 400 then ErrorResponse
            else if |hits| > 0 && hits[0].id != Null then Found(hits[0].id)
            else NoDeal
  {
  }

  /** No exact-title filter: a first hit titled for another order wins over
      a later hit whose title is exactly the one searched for. */
  lemma FirstHitWinsOverExactTitle(id: OrderId, status: StatusCode, hits: seq<SearchHit>)
    requires status < 400 && |hits| > 1 && hits[0].id != Null
    requires hits[0].title != DealTitle(id) && hits[1].title == DealTitle(id)
    ensures ResolveDeal(Answer(status, SearchResult(hits))) == Found(hits[0].id)
  {
  }

  /** A failed deal search yields a truthy response object, so orderUpdated
      goes on to PUT instead of answering 404. */
  lemma FailedDealSearchIsTruthy(reply: Reply)
    requires Failed(reply)
    ensures !LookupFalsy(ResolveDeal(reply))
    ensures DealSegment(ResolveDeal(reply)) == Some(ResponseObjectText)
  {
  }

  /** A first hit with a non-zero integer id is truthy and puts its decimal
      form in the PUT path: orderUpdated then updates deals/{id}. */
  lemma IntDealIdGivesDecimalPath(status: StatusCode, hits: seq<SearchHit>, n: int)
    requires status < 400 && |hits| > 0 && hits[0].id == Int(n) && n != 0
    ensures !LookupFalsy(ResolveDeal(Answer(status, SearchResult(hits))))
    ensures DealSegment(ResolveDeal(Answer(status, SearchResult(hits)))) == Some(Text(IntToString(n)))
  {
    FirstDataIdOfSearchResult(hits);
  }

  // ---------------------------------------------------------------------
  // Reply branching and the handlers

  /** A failed call becomes a 200 with the handler's fixed message; any other
      reply is passed through with the CRM's JSON and status code. Either
      way the webhook caller never sees an error status. */
  function Conclude(reply: Reply, errorMessage: string): (out: Outcome)
    ensures out.Response? && 100 <= out.status < 400
    ensures Failed(reply) ==> out == Response(200, ErrorBody(errorMessage))
    ensures !Failed(reply) ==> out == Response(reply.status, reply.json)
  {
    if Failed(reply) then Response(200, ErrorBody(errorMessage))
    else Response(reply.status, reply.json)
  }

  /** clientCreated. `Log::info()` is called with no message before anything
      is sent, which throws an ArgumentCountError: an Error, not an
      Exception, so the handler's catch clause does not apply. */
  method ClientCreated(cfg: Config, billing: Billing) returns (out: Outcome, calls: seq<Request>)
    ensures out == Uncaught("ArgumentCountError")
    ensures calls == []
  {
    calls := [];
    out := Uncaught("ArgumentCountError");
  }

  /** Lines 21-40 of clientCreated, which the message-less log call keeps
      from running: one POST of the client body to organizations, then the
      reply branching with the client error message. */
  method ClientCreatedPastLog(cfg: Config, billing: Billing, reply: Reply)
    returns (out: Outcome, calls: seq<Request>)
    ensures |calls| == 1
    ensures calls[0] == Request(HttpPost, Organizations, cfg.apiToken, ClientPayload(billing))
    ensures Failed(reply) ==> out == Response(200, ErrorBody("Erro ao criar cliente no Agendor"))
    ensures !Failed(reply) ==> out == Response(reply.status, reply.json)
  {
    calls := [];
    var clientData := ClientPayload(billing);
    calls := calls + [Request(HttpPost, Organizations, cfg.apiToken, clientData)];
    out := Conclude(reply, ClientErrorMessage);
  }

  /** orderCreated: look up the organization by the billing email, then
      create the deal under it, whatever the lookup's own reply was. */
  method OrderCreated(cfg: Config, order: NewOrder, searchReply: Reply, createReply: Reply)
    returns (out: Outcome, calls: seq<Request>)
    ensures |calls| == 2
    ensures calls[0] == OrganizationSearch(cfg, order.billing.email)
    ensures calls[1] == Request(HttpPost, Deals, cfg.apiToken,
                                OrderPayload(order, ResolveOrganization(cfg, searchReply)))
    ensures Failed(createReply) ==> out == Response(200, ErrorBody(OrderCreateErrorMessage))
    ensures !Failed(createReply) ==> out == Response(createReply.status, createReply.json)
  {
    calls := [];
    calls := calls + [OrganizationSearch(cfg, order.billing.email)];
    var organizationId := ResolveOrganization(cfg, searchReply);
    var orderData := OrderPayload(order, organizationId);
    calls := calls + [Request(HttpPost, Deals, cfg.apiToken, orderData)];
    out := Conclude(createReply, OrderCreateErrorMessage);
  }

  /** orderUpdated: search the deal by its title; answer 404 with no PUT
      when the lookup is falsy; otherwise PUT the mapped status to
      deals/{id}. */
  method OrderUpdated(cfg: Config, change: OrderChange, searchReply: Reply, updateReply: Reply)
    returns (out: Outcome, calls: seq<Request>)
    ensures 1 <= |calls| <= 2
    ensures calls[0] == DealSearch(cfg, change.id)
    ensures out.Response? && (out.status < 400 || out == Response(404, ErrorBody(DealNotFoundMessage)))
    ensures LookupFalsy(ResolveDeal(searchReply)) ==>
      out == Response(404, ErrorBody(DealNotFoundMessage)) && |calls| == 1
    ensures !LookupFalsy(ResolveDeal(searchReply)) && DealSegment(ResolveDeal(searchReply)).None? ==>
      out == Response(200, ErrorBody(OrderUpdateErrorMessage)) && |calls| == 1
    ensures !LookupFalsy(ResolveDeal(searchReply)) && DealSegment(ResolveDeal(searchReply)).Some? ==>
      && |calls| == 2
      && calls[1] == Request(HttpPut, Deal(DealSegment(ResolveDeal(searchReply)).value),
                             cfg.apiToken, UpdatePayload(change.status))
      && out == Conclude(updateReply, OrderUpdateErrorMessage)
  {
    calls := [];
    calls := calls + [DealSearch(cfg, change.id)];
    var dealId := ResolveDeal(searchReply);
    if LookupFalsy(dealId) {
      return Response(404, ErrorBody(DealNotFoundMessage)), calls;
    }
    var updateData := UpdatePayload(change.status);
    var segment := DealSegment(dealId);
    if segment.None? {
      // the array-to-string conversion is raised and caught
      return Response(200, ErrorBody(OrderUpdateErrorMessage)), calls;
    }
    calls := calls + [Request(HttpPut, Deal(segment.value), cfg.apiToken, updateData)];
    out := Conclude(updateReply, OrderUpdateErrorMessage);
  }
}
