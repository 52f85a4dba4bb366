# WooCommerce → Agendor webhook controller, modelled in Dafny

The repository is a small Laravel application. It receives WooCommerce
webhooks (client created, order created, order updated) and forwards them
to the Agendor CRM's REST API. This project models the decision and mapping
layer of its `WebhookController` and proves properties of it:

- `php.dfy` (module `Php`) covers the parts of PHP the controller relies on:
  - decoded JSON values;
  - truthiness (`!`);
  - the string form of an integer (`.` and `"{$x}"`), with its read-back;
  - array access as the left operand of `??`, where a missing key, a null
    entry or a non-array all give the default.
- `agendor.dfy` (module `Agendor`) covers the CRM as the HTTP client sees
  it:
  - a recorded outbound request (verb, target, token, query or body);
  - a reply, which is either no answer at all or a status code with the
    decoded JSON;
  - the condition under which a handler takes its `catch` path.
- `webhook_controller.dfy` (module `WebhookController`) covers:
  - the WooCommerce → Agendor status table and its reverse reading;
  - the deal title `"Pedido #" + id`;
  - the three outbound payloads;
  - the first-hit resolution of an organization and of a deal;
  - the three handlers, as methods that build their list of outbound calls
    in order and return the response given to the webhook caller.

Each CRM reply is an input to the model. The two environment values
(`AGENDOR_API_TOKEN`, `ORGANIZATION_ID`) are passed in a `Config`.

Some behaviour of the code, as written, differs from what one might expect.
The model keeps it:

- `clientCreated` never reaches its HTTP call. Line 19 calls `Log::info()`
  with no message, which throws an `ArgumentCountError`. That is a PHP
  `Error`, not an `Exception`, so the handler's `catch` does not catch it.
  `ClientCreated` therefore ends in `Uncaught` and makes no calls. What the
  rest of the handler would do, with its payload (`ClientPayload`) and its
  reply branching (`Conclude`), is stated on its own by
  `ClientCreatedPastLog`.
- `getAgendorDealId` returns the first search hit's id and does not compare
  its title with the one searched for.
- When its search call fails, `getAgendorDealId` returns a JSON response
  object. That object is truthy, so `orderUpdated` does not answer 404. It
  issues a PUT whose path segment is the string form of that response
  object.
- `!$dealId` follows PHP truthiness. A deal whose id is `0` or `"0"` counts
  as not found.
- A deal id that is an array cannot be interpolated into the URL. Under
  Laravel, the "Array to string conversion" warning is raised as an
  `ErrorException`, which the handler catches. The result is a 200 with the
  update error message, and no PUT.
- The code does not do several things one might expect of such an
  adapter, and the model follows the code:
  - an exact-title filter on the deal search;
  - a deal-stage enumeration;
  - phone formatting;
  - a person/organization split;
  - a 401 on a bad webhook token.

## Model

| member | source | states |
|---|---|---|
| `WebhookController.MapStatusToAgendor` | app/Http/Controllers/WebhookController.php:165-178 | total; the result is the default "Status desconhecido" exactly when the status is not one of the seven known ones, and the table's label otherwise; never empty |
| `WebhookController.StatusLabelRoundTrip` | app/Http/Controllers/WebhookController.php:167-177 | reading the label back through the reverse table gives the known status it came from, and nothing for an unknown status, so no two known statuses share a label |
| `WebhookController.DealTitleRoundTrip` | app/Http/Controllers/WebhookController.php:53 | a deal title is the prefix "Pedido #" followed by the order id's text, which can be recovered from the title |
| `WebhookController.DealTitleInjectiveOnIntIds` | app/Http/Controllers/WebhookController.php:149 | distinct integer order ids give distinct titles, and so distinct search terms |
| `WebhookController.SearchTermIsCreatedTitle` | app/Http/Controllers/WebhookController.php:147-150 | the search term of the deal lookup equals the title orderCreated gives the deal, both "Pedido #" + id |
| `Php.IntToStringRoundTrip` | app/Http/Controllers/WebhookController.php:53 | PHP's string form of an integer order id reads back to that integer |
| `Php.NatToStringRoundTrip` | app/Http/Controllers/WebhookController.php:149 | the digits rendered for a non-negative id are all decimal digits and denote the id |
| `Php.IntToStringInjective` | app/Http/Controllers/WebhookController.php:100 | two integers with the same string form (as in the deals/{id} path) are equal |
| `Php.ToText` | app/Http/Controllers/WebhookController.php:100 | string conversion of a value fails exactly for arrays |
| `WebhookController.DealTitle` | app/Http/Controllers/WebhookController.php:53 | the model of `'Pedido #' . $data['id']` (also the search term at line 149); stated by `DealTitleRoundTrip`, `DealTitleInjectiveOnIntIds` and `SearchTermIsCreatedTitle` |
| `WebhookController.ClientPayload` | app/Http/Controllers/WebhookController.php:21-25 | the model of clientCreated's body; stated by `ClientPayloadShape` |
| `WebhookController.OrderPayload` | app/Http/Controllers/WebhookController.php:52-60 | the model of orderCreated's deal body; stated by `OrderPayloadShape` and `SearchTermIsCreatedTitle` |
| `WebhookController.UpdatePayload` | app/Http/Controllers/WebhookController.php:93-97 | the model of orderUpdated's body; stated by `UpdatePayloadOnlyStatus` |
| `Php.FirstDataId` | app/Http/Controllers/WebhookController.php:134 | the model of `$x['data'][0]['id'] ??` (also at line 157); a found id is never null; stated by `FirstDataIdOfSearchResult` |
| `WebhookController.ResolveOrganization` | app/Http/Controllers/WebhookController.php:116-138 | the model of getAgendorOrganizationId; stated by `OrganizationResolution` |
| `WebhookController.ResolveDeal` | app/Http/Controllers/WebhookController.php:141-163 | the model of getAgendorDealId; stated by `DealResolution`, `FirstHitWinsOverExactTitle` and `FailedDealSearchIsTruthy` |
| `WebhookController.LookupFalsy` | app/Http/Controllers/WebhookController.php:89 | the model of `!$dealId`; stated by `FailedDealSearchIsTruthy` and by `OrderUpdated`'s 404 case |
| `WebhookController.DealSegment` | app/Http/Controllers/WebhookController.php:100 | the model of `{$dealId}` in the PUT path; stated by `Php.ToText`, `FailedDealSearchIsTruthy` and `OrderUpdated`'s no-PUT case for array ids |
| `WebhookController.OrganizationSearch` | app/Http/Controllers/WebhookController.php:122-125 | the GET to organizations with the query email = billing email and the API token; stated by the `calls[0]` ensures of `OrderCreated` |
| `WebhookController.DealSearch` | app/Http/Controllers/WebhookController.php:147-150 | the GET to deals with the query search = "Pedido #" + id and the API token; stated by the `calls[0]` ensures of `OrderUpdated` and by `SearchTermIsCreatedTitle` |
| `Agendor.Failed` | app/Http/Controllers/WebhookController.php:127-129 | the condition for every catch path: the client threw or `$response->failed()` (status 400 and above); also at lines 30-32, 65-67, 102-104 and 152-154; stated by `Conclude`, `OrganizationResolution`, `DealResolution` and `FailedDealSearchIsTruthy` |
| `WebhookController.ErrorBody` | app/Http/Controllers/WebhookController.php:40 | the `['error' => message]` body, also at lines 75, 90, 112 and 161; stated by `Conclude`'s ensures and by the 404 and error cases of `OrderUpdated` |
| `WebhookController.IntDealIdGivesDecimalPath` | app/Http/Controllers/WebhookController.php:89-100 | a first hit with a non-zero integer id n passes the `!$dealId` test, and the PUT goes to deals/ followed by n's decimal form |
| `WebhookController.ClientPayloadShape` | app/Http/Controllers/WebhookController.php:21-25 | the client body has exactly name, email and phone; email and phone are forwarded unchanged; name is first name, one space, last name |
| `WebhookController.OrderPayloadShape` | app/Http/Controllers/WebhookController.php:52-60 | the deal body has exactly title "Pedido #" + id, value = total unchanged, the fixed description, the resolved organization id, and customFields.status = the mapped status |
| `WebhookController.UpdatePayloadOnlyStatus` | app/Http/Controllers/WebhookController.php:93-97 | the update body holds only customFields.status, set to the mapped status, whose label identifies the order's status when that status is known |
| `WebhookController.FirstDataIdOfSearchResult` | app/Http/Controllers/WebhookController.php:134 | `$x['data'][0]['id'] ??` over a search result gives the first hit's id when there is a first hit with a non-null id, and the default otherwise |
| `WebhookController.OrganizationResolution` | app/Http/Controllers/WebhookController.php:116-138 | three outcomes: a successful search with a first id gives that id; a successful search without one gives ORGANIZATION_ID; a failed or unanswered call also gives ORGANIZATION_ID |
| `WebhookController.DealResolution` | app/Http/Controllers/WebhookController.php:141-163 | a successful search gives the first hit's id whatever its title, and null when there is no first id; a failed or unanswered call gives the error response object |
| `WebhookController.FirstHitWinsOverExactTitle` | app/Http/Controllers/WebhookController.php:156-157 | a first hit titled for another order wins over a later hit whose title is exactly the one searched for |
| `WebhookController.FailedDealSearchIsTruthy` | app/Http/Controllers/WebhookController.php:159-161 | after a failed deal search the lookup result is truthy, so the 404 branch is not taken, and the PUT path segment is the response object's text |
| `WebhookController.Conclude` | app/Http/Controllers/WebhookController.php:30-40 | the reply branching shared by all three handlers (also lines 65-75 and 102-112): a failed call becomes status 200 with the handler's fixed error message; any other reply passes the CRM's JSON and status code through; the caller always sees a status from 100 to 399 |
| `WebhookController.ClientCreatedPastLog` | app/Http/Controllers/WebhookController.php:21-40 | what the unreachable part of clientCreated would do: exactly one POST of the client body to organizations with the API token; a failed reply gives 200 with "Erro ao criar cliente no Agendor", any other reply is passed through |
| `WebhookController.ClientCreated` | app/Http/Controllers/WebhookController.php:12-42 | the handler ends in an uncaught ArgumentCountError (from the message-less log call) and sends nothing to the CRM |
| `WebhookController.OrderCreated` | app/Http/Controllers/WebhookController.php:44-77 | exactly two calls, in order: the organization search by billing email, then the POST of the deal body under the resolved organization, even when the search failed; a failed POST gives 200 with "Erro ao criar pedido no Agendor", otherwise the CRM's reply is passed through |
| `WebhookController.OrderUpdated` | app/Http/Controllers/WebhookController.php:79-114 | the deal search comes first. A falsy lookup gives 404 "Negócio não encontrado no Agendor" and no further call. Otherwise exactly one PUT to deals/{id} carrying only the mapped status, with the reply branching of Conclude. An array id gives 200 with the update error and no PUT. The result status is below 400 or is the 404 |

## Left out

- HTTP I/O: the Laravel `Http` facade, the real Agendor API, and JSON encoding and decoding. Each reply is an input; each request is an entry in the list of outbound calls a handler returns. A query string and a JSON body are both kept as the array passed to the client.
- Environment reads: `env(...)` values are parameters (`Config`). The special strings `env` turns into booleans or null are not modelled. An unset API token is not modelled apart: the request then goes out with the header `Authorization: Bearer` and no token, and the CRM's refusal comes back as an ordinary failed reply.
- Logging: every `Log::info` and `Log::error` call is left out, except that the message-less call at line 19 of the controller makes `clientCreated` end in an uncaught error.
- How Laravel renders an uncaught error for the caller (an HTTP 500 page) is not modelled; `Uncaught` stands for it.
- `WebhookController.ClientCreated`: the lines after line 19 cannot be reached, so the method does not run them. What they would do is stated by `ClientCreatedPastLog`.
- app/Http/Middleware/WebhookMiddleware.php: both branches of its only decision call the next handler. The 401 answer is commented out, so the middleware changes nothing the model could state.
- routes/api.php: routing configuration only.
- Missing fields in a webhook body (PHP's undefined-array-key handling): the required fields are taken to be present. Billing names and the status are taken to be strings, and order ids to be integers or strings.
- Floating-point JSON numbers are not among the modelled values. Integers, order ids included, are taken to fit PHP's 64-bit int: a larger id would be decoded as a float and rendered in exponent form ("1.0E+20"), which is not modelled. The key order of PHP arrays is not kept, since associative arrays are maps here.
- The text of the JSON response object that ends up in the PUT path after a failed deal search is abstract (`ResponseObjectText`).
