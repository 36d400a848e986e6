# arch-lab order and reservation handlers, in Dafny

This project models the two request handlers of a two-service lab.

- **service-a** exposes `POST /orders`. Its handler `create_order` does four things in order:
  - It refuses a non-positive quantity with 400.
  - It takes a fresh order id.
  - It sends exactly one `POST /reserve` to service-b, carrying `{orderId, sku, qty}`.
  - It maps the outcome of that call to its own answer:
    - a timeout gives 504;
    - a non-2xx reply gives 502, with service-b's response text in the detail;
    - any other request error gives 502, with the error's text in the detail;
    - a 2xx reply whose body is JSON gives 201 with `{orderId, "created", reservation}`;
    - a 2xx reply whose body is not JSON, or an exception none of the three clauses catches, escapes, and the framework answers 500.
- **service-b** exposes `POST /reserve`. Its handler `reserve` keeps no state. It may sleep for a configured delay. It then refuses a non-positive quantity with 400. Otherwise it answers with the reservation `{"r_" + orderId, "reserved", sku, qty}`.

Both handlers are pure decision logic once the HTTP client, the id generator and the sleep are taken out. The model therefore uses datatypes, functions and lemmas:

- `http.dfy` (module `Http`) holds the shared vocabulary: `Option`, `HttpException(statusCode, detail)`, and the 2xx test that `raise_for_status` applies.
- `httpx_errors.dfy` (module `Httpx`) holds the httpx exception classes and their hierarchy, as `Parent` links. It also gives the first-match semantics of a Python `try`/`except` chain: an exception goes to the first clause whose class it is an instance of. This is what makes the order of the `except` clauses something to prove, not something to assume: an httpx `TimeoutException` is also a `RequestError`.
- `service_b.dfy` (module `ServiceB`) models `reserve`. `Reserve` gives the answer. `ReserveHandler` adds the sleep that comes first. `OrderIdOf` is the inverse of the reservation-id derivation.
- `service_a.dfy` (module `ServiceA`) models `create_order`. The HTTP client becomes a parameter `downstream: ReserveCall -> Outcome<B>`. `Outcome` is either `Raised(exception class, message)` or `Responded(code, text, decoded JSON)`. `uuid4()` becomes the parameter `orderId`. The result records the list of reserve calls made, so "no call" and "exactly one call" are both stated.
- `order_flow.dfy` (module `OrderFlow`) plugs service-b in as service-a's downstream. It proves what an order placed end to end looks like.

The handlers have no retry loop, backoff, attempt ceiling or idempotency store. This model follows the code:

- there is a single attempt;
- every non-2xx reply (1xx, 3xx, 4xx or 5xx) becomes 502;
- the reservation status is `"reserved"`;
- idempotency holds only because the reservation id is a function of the order id.

## Model

| member | source | states |
|---|---|---|
| `Httpx.FirstMatch` | service-a/app/main.py:41-49 | the clause chosen for an exception is one whose class it is an instance of, and no earlier clause matches; when none is chosen, no clause matches |
| `Httpx.Dispatch` | service-a/app/main.py:41-49 | an exception is handled exactly when some clause catches its class, and then the answer is the one of the first clause, in source order, that catches it; an exception that escapes is passed on unchanged |
| `Http.IsSuccess` | service-a/app/main.py:38 | the status codes `raise_for_status` lets through are exactly those of the 2xx class (code / 100 == 2) |
| `Httpx.Respond` | service-a/app/main.py:43-49 | a clause answers with its own status code and a detail that starts with its fixed prefix |
| `Httpx.TimeoutIsRequestError` | service-a/app/main.py:41-49 | every timeout class is a subclass of `RequestError` and never of `HTTPStatusError`, so the timeout clause has to come before the `RequestError` clause |
| `Httpx.RequestErrorIsNotStatusError` | service-a/app/main.py:45-49 | no class is both a request error and a status error, so the two 502 clauses never compete |
| `Httpx.SubclassTransitive` | service-a/app/main.py:41-49 | `issubclass` is transitive over the httpx hierarchy |
| `Httpx.AncestorsOrdered` | service-a/app/main.py:41-49 | two ancestors of one class are themselves related, because the hierarchy is a tree |
| `Httpx.SubclassGoesUp` | service-a/app/main.py:41-49 | a superclass is never deeper than its subclass, and is the class itself when it is equally deep |
| `ServiceA.RunTry` | service-a/app/main.py:32-39 | the `try` block returns the decoded body exactly when a 2xx response with a JSON body arrived; a non-2xx response raises `HTTPStatusError` carrying the response text; a raised transport exception passes through with its class and message; a 2xx non-JSON body raises `JSONDecodeError` |
| `ServiceA.Classify` | service-a/app/main.py:32-56 | an order is created exactly when the `try` block returned, and it carries the given order id, status "created" and the decoded body; an exception that escapes is the one the `try` block raised |
| `ServiceA.CreateOrder` | service-a/app/main.py:22-56 | no reserve call is made exactly when qty <= 0, and then the answer is 400 "qty must be > 0"; otherwise exactly one call is made, with the order id and the caller's sku and qty, and the answer is decided by that call's outcome alone |
| `ServiceA.InvalidQtyNeverCalls` | service-a/app/main.py:24-25 | qty <= 0 answers 400 with no reserve call, whatever service-b would do |
| `ServiceA.OneCallNoRetry` | service-a/app/main.py:27-39 | an accepted request makes exactly one reserve call on every outcome, with no retry; that call carries the fresh order id and the caller's unchanged sku and qty; a created order carries the same order id |
| `ServiceA.TimeoutYields504` | service-a/app/main.py:41-43 | every timeout class answers 504 "Timeout calling service-b /reserve", even though each of them is also a `RequestError` |
| `ServiceA.StatusErrorYields502` | service-a/app/main.py:38-46 | a non-2xx reply answers 502 with detail "service-b error: " followed by the response text |
| `ServiceA.Detail502Decodes` | service-a/app/main.py:45-49 | a status-error detail never equals a network-error detail, and each detail determines the text after its prefix |
| `ServiceA.NetworkErrorYields502` | service-a/app/main.py:48-49 | a request error that is not a timeout answers 502 with detail "network error calling service-b: " followed by the error's text |
| `ServiceA.StatusCode` | service-a/app/main.py:22 | a created order is answered with 201, a success code; a raised HTTP error with its own code; an escaped exception with the framework's 500, which is not a success code |
| `ServiceA.SuccessYieldsCreated` | service-a/app/main.py:52-56 | a 2xx reply with a JSON body answers 201 with `{orderId, "created", reservation = that body}` |
| `ServiceA.CaughtExactly` | service-a/app/main.py:41-49 | the three clauses together catch exactly the request errors and the status errors |
| `ServiceA.UncaughtExactly` | service-a/app/main.py:32-49 | the handler lets an exception escape exactly when the call raised something that is neither a request error nor a status error, or a 2xx body was not JSON |
| `ServiceA.StatusMatchesExpected` | service-a/app/main.py:22-56 | for every outcome of the reserve call, the status code matches an independent class-by-class table: 504 for timeouts, 502 for other request errors and for non-2xx replies, 201 for a 2xx JSON body, 500 otherwise |
| `ServiceA.ExceptOrderMatters` | service-a/app/main.py:41-49 | with `except RequestError` moved first, a timeout would answer 502; in source order it answers 504 |
| `ServiceB.ReservationIdOf` | service-b/app/main.py:33 | the reservation id is "r_" followed by the order id |
| `ServiceB.OrderIdOf` | service-b/app/main.py:33 | a string yields an order id exactly when it starts with "r_" |
| `ServiceB.ReservationIdRoundTrip` | service-b/app/main.py:33 | the order id is recovered from the reservation id derived from it |
| `ServiceB.OrderIdRoundTrip` | service-b/app/main.py:33 | a reservation id from which an order id is recovered is exactly the one derived from that order id |
| `ServiceB.ReservationIdInjective` | service-b/app/main.py:33 | two reservation ids are equal exactly when their order ids are equal |
| `ServiceB.Reserve` | service-b/app/main.py:29-37 | the request is rejected exactly when qty <= 0, with 400 "qty must be > 0" and no reservation; otherwise the reservation id decodes back to the order id, the status is "reserved", and sku and qty are echoed |
| `ServiceB.ReserveHandler` | service-b/app/main.py:24-37 | the handler sleeps exactly when the configured delay is positive, for that long, and for every request, valid or not; its answer is `Reserve` of the request |
| `ServiceB.DelayOnlyAffectsTiming` | service-b/app/main.py:26-37 | the answer, including the validation result, is the same under any delay; with no state kept, a repeated request gets an identical answer |
| `ServiceB.SameReservationIffSameOrder` | service-b/app/main.py:23-37 | two accepted requests get the same reservation id exactly when they carry the same order id, whatever their sku and qty |
| `OrderFlow.Received` | service-a/app/main.py:36 | service-b receives the order id, sku and qty that service-a sent |
| `OrderFlow.OverTheWire` | service-a/app/main.py:34-39 | a reservation arrives as a 200 response whose JSON is that reservation; a rejection arrives with its own status code |
| `OrderFlow.PlaceOrder` | service-a/app/main.py:22-56 | end to end, when service-b answers within service-a's deadline, qty <= 0 answers 400 before service-b is called; otherwise the answer is 201 with the fresh order id, status "created", and a reservation with id "r_" + orderId, status "reserved", and the caller's sku and qty |
| `OrderFlow.DistinctOrdersDistinctReservations` | service-b/app/main.py:33 | two orders placed end to end, with service-b answering within service-a's deadline, get the same reservation id exactly when they got the same order id |

## Left out

- Retries, backoff, an attempt ceiling, an idempotency store and fault injection: the handlers have none.
- FastAPI routing, the `/health` endpoints, and pydantic parsing. A body that does not parse is answered with 422 by the framework; that path is not modelled. The request models are kept as datatypes.
- The httpx client. It is replaced by the `downstream` parameter and the `Outcome` datatype. The 1-second `httpx.Timeout` is timing; a timeout appears as a `Raised` outcome of a timeout class.
- The text of httpx's own messages. The message of an `HTTPStatusError` is not modelled, because no clause reads it. The messages of other exceptions are a free parameter.
- `uuid.uuid4()` as a source of randomness: the order id is a parameter. Uniqueness of ids across requests is not modelled.
- JSON encoding and decoding. A decoded body is a value of a type parameter. In `OrderFlow` the serialised response text is a parameter.
- `asyncio.sleep`, `DELAY_MS`, `PORT`, `SERVICE_B_BASE_URL` and the conversion of the delay to float seconds. The delay is an integer number of milliseconds, and the sleep is reported, not performed.
- Async execution and concurrent requests: each handler is modelled as one call.
- `OrderFlow.OverTheWire`: models only answers that arrive before the deadline. The link between service-b's configured delay and service-a's timeout is timing and is not modelled.
