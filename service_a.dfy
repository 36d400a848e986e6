/** service-a: the `POST /orders` handler. It validates the quantity,
    takes a fresh order id, makes one reserve call to service-b and turns
    that call's outcome into its own answer. The HTTP client is replaced by
    a function from the request sent to the outcome observed, and the fresh
    id by a parameter. */
module ServiceA {
  import opened Http
  import opened Httpx

  /** Body of `POST /orders`. */
  datatype CreateOrderRequest = CreateOrderRequest(sku: string, qty: int)

  /** JSON body of the reserve call: `{"orderId", "sku", "qty"}`. */
  datatype ReserveCall = ReserveCall(orderId: string, sku: string, qty: int)

  /** What `client.post` gives back: either it raised (timeouts, refused
      connections, protocol errors, ...) or a response arrived, with its
      status code, its text, and its body decoded as JSON (None when the
      body is not JSON, or when it is never read: the body of a non-2xx
      response is not decoded). `B` is the type of the decoded body. */
  datatype Outcome<B> =
    | Raised(cls: ExcClass, message: string)
    | Responded(code: int, text: string, json: Option<B>)

  /** Success body of `POST /orders`. */
  datatype Order<B> = Order(orderId: string, status: string, reservation: B)

  /** The handler's answer: the order, an HTTP error it raised on purpose,
      or an exception it let escape (answered by the framework with 500). */
  datatype OrderResult<B> = Created(order: Order<B>) | Failed(error: HttpException) | Uncaught(exc: Exc)

  /** One call of the handler: the reserve calls it made, in order, and its
      answer. */
  datatype Attempt<B> = Attempt(calls: seq<ReserveCall>, result: OrderResult<B>)

  const CreatedStatus: int := 201
  const CreatedLabel: string := "created"
  const QtyError: HttpException := HttpException(400, "qty must be > 0")
  const TimeoutDetail: string := "Timeout calling service-b /reserve"
  const StatusErrorPrefix: string := "service-b error: "
  const NetworkErrorPrefix: string := "network error calling service-b: "

  /** The handler's three `except` clauses, in source order. */
  const CreateOrderClauses: seq<ExceptClause> := [
    ExceptClause(TimeoutException, 504, TimeoutDetail, Nothing),
    ExceptClause(HTTPStatusError, 502, StatusErrorPrefix, ResponseText),
    ExceptClause(RequestError, 502, NetworkErrorPrefix, Message)
  ]

  /** What the `try` block ends with: the decoded reservation, or an exception. */
  datatype TryOutcome<B> = Returned(body: B) | Threw(exc: Exc)

  /** `post`, then `raise_for_status`, then `json()`. The text of a status
      error's own message is not modelled (no clause reads it). */
  function RunTry<B>(o: Outcome<B>): (t: TryOutcome<B>)
    ensures t.Returned? <==> o.Responded? && IsSuccess(o.code) && o.json.Some?
    ensures t.Returned? ==> t.body == o.json.value
    ensures o.Raised? ==> t.Threw? && t.exc.cls == o.cls && t.exc.message == o.message
    ensures o.Responded? && !IsSuccess(o.code) ==> t.Threw? && t.exc.cls == HTTPStatusError && t.exc.responseText == o.text
    ensures o.Responded? && IsSuccess(o.code) && o.json.None? ==> t.Threw? && t.exc.cls == JSONDecodeError
  {
    match o
    case Raised(c, m) => Threw(Exc(c, m, ""))
    case Responded(code, text, json) =>
      if !IsSuccess(code) then Threw(Exc(HTTPStatusError, "", text))
      else match json
        case None => Threw(Exc(JSONDecodeError, "", ""))
        case Some(b) => Returned(b)
  }

  /** The handler's answer for the order id and the reserve call's outcome. */
  function Classify<B>(orderId: string, o: Outcome<B>): (r: OrderResult<B>)
    ensures r.Created? <==> RunTry(o).Returned?
    ensures r.Created? ==> r.order == Order(orderId, CreatedLabel, RunTry(o).body)
    ensures r.Uncaught? ==> r.exc == RunTry(o).exc
  {
    match RunTry(o)
    case Returned(b) => Created(Order(orderId, CreatedLabel, b))
    case Threw(e) =>
      match Dispatch(CreateOrderClauses, e)
      case Handled(err) => Failed(err)
      case Escaped(x) => Uncaught(x)
  }

  /** `create_order(req)` with `uuid4()` returning `orderId` and the HTTP
      client answering each reserve call as `downstream` does. */
  function CreateOrder<B>(req: CreateOrderRequest, orderId: string, downstream: ReserveCall -> Outcome<B>): (a: Attempt<B>)
    ensures a.calls == [] <==> req.qty <= 0
    ensures req.qty <= 0 ==> a.result == Failed(QtyError)
    ensures req.qty > 0 ==> a.calls == [ReserveCall(orderId, req.sku, req.qty)]
    ensures req.qty > 0 ==> a.result == Classify(orderId, downstream(ReserveCall(orderId, req.sku, req.qty)))
  {
    if req.qty <= 0 then Attempt([], Failed(QtyError))
    else
      var call := ReserveCall(orderId, req.sku, req.qty);
      Attempt([call], Classify(orderId, downstream(call)))
  }

  /** The status code the client of `POST /orders` sees. */
  function StatusCode<B>(r: OrderResult<B>): (s: int)
    ensures r.Created? ==> s == CreatedStatus && IsSuccess(s)
    ensures r.Failed? ==> s == r.error.statusCode
    ensures r.Uncaught? ==> s == InternalServerError && !IsSuccess(s)
  {
    match r
    case Created(_) => CreatedStatus
    case Failed(e) => e.statusCode
    case Uncaught(_) => InternalServerError
  }

  /** Status codes the reserve call's outcome leads to, stated class by
      class rather than clause by clause. */
  function ExpectedStatus<B>(o: Outcome<B>): int {
    match o
    case Raised(c, _) =>
      if IsSubclass(c, TimeoutException) then 504
      else if IsSubclass(c, RequestError) || IsSubclass(c, HTTPStatusError) then 502
      else InternalServerError
    case Responded(code, _, json) =>
      if !IsSuccess(code) then 502
      else if json.None? then InternalServerError
      else CreatedStatus
  }

  /** A timeout of any kind answers 504, never 502, although every timeout
      is also a request error. */
  lemma TimeoutYields504<B>(orderId: string, c: ExcClass, m: string)
    requires IsSubclass(c, TimeoutException)
    ensures Classify<B>(orderId, Raised(c, m)) == Failed(HttpException(504, TimeoutDetail))
    ensures IsSubclass(c, RequestError)
  {
    TimeoutIsRequestError(c);
    assert FirstMatch(CreateOrderClauses, Exc(c, m, "")) == Some(0);
  }

  /** A non-2xx answer from service-b answers 502 with service-b's
      response text after a fixed prefix. */
  lemma StatusErrorYields502<B>(orderId: string, code: int, text: string, json: Option<B>)
    requires !IsSuccess(code)
    ensures Classify(orderId, Responded(code, text, json)) == Failed(HttpException(502, StatusErrorPrefix + text))
  {
    var e := Exc(HTTPStatusError, "", text);
    assert !IsSubclass(HTTPStatusError, TimeoutException);
    assert FirstMatch(CreateOrderClauses, e) == Some(1);
  }

  /** A 502's detail tells which clause raised it, and gives back the
      response text or error text it was built from. */
  lemma Detail502Decodes(t1: string, t2: string)
    ensures StatusErrorPrefix + t1 != NetworkErrorPrefix + t2
    ensures StatusErrorPrefix + t1 == StatusErrorPrefix + t2 <==> t1 == t2
    ensures NetworkErrorPrefix + t1 == NetworkErrorPrefix + t2 <==> t1 == t2
  {
    PrefixInjective(StatusErrorPrefix, t1, t2);
    PrefixInjective(NetworkErrorPrefix, t1, t2);
    assert (StatusErrorPrefix + t1)[0] != (NetworkErrorPrefix + t2)[0];
  }

  /** Any other request error (refused connection, protocol error,
      redirect loop, ...) answers 502 with the error's text after a fixed
      prefix. */
  lemma NetworkErrorYields502<B>(orderId: string, c: ExcClass, m: string)
    requires IsSubclass(c, RequestError) && !IsSubclass(c, TimeoutException)
    ensures Classify<B>(orderId, Raised(c, m)) == Failed(HttpException(502, NetworkErrorPrefix + m))
  {
    var e := Exc(c, m, "");
    RequestErrorIsNotStatusError(c);
    assert FirstMatch(CreateOrderClauses[2..], e) == Some(0);
    assert FirstMatch(CreateOrderClauses[1..], e) == Some(1);
  }

  /** A 2xx answer whose body is JSON creates the order, carrying service-b's
      body as the reservation. */
  lemma SuccessYieldsCreated<B>(orderId: string, code: int, text: string, body: B)
    requires IsSuccess(code)
    ensures Classify(orderId, Responded(code, text, Some(body))) == Created(Order(orderId, CreatedLabel, body))
    ensures StatusCode(Classify(orderId, Responded(code, text, Some(body)))) == 201
  {
  }

  /** The three clauses together catch the request errors and the status
      errors, and nothing else. */
  lemma CaughtExactly(e: Exc)
    ensures Dispatch(CreateOrderClauses, e).Handled? <==>
      IsSubclass(e.cls, RequestError) || IsSubclass(e.cls, HTTPStatusError)
  {
    if IsSubclass(e.cls, TimeoutException) {
      TimeoutIsRequestError(e.cls);
    }
    if IsSubclass(e.cls, RequestError) {
      assert IsSubclass(e.cls, CreateOrderClauses[2].catches);
    } else if IsSubclass(e.cls, HTTPStatusError) {
      assert IsSubclass(e.cls, CreateOrderClauses[1].catches);
    }
  }

  /** Exceptions that none of the three clauses catch escape the handler:
      classes outside the request and status errors, and a 2xx body that
      is not JSON. */
  lemma UncaughtExactly<B>(orderId: string, o: Outcome<B>)
    ensures Classify(orderId, o).Uncaught? <==>
      (o.Raised? && !IsSubclass(o.cls, RequestError) && !IsSubclass(o.cls, HTTPStatusError))
      || (o.Responded? && IsSuccess(o.code) && o.json.None?)
  {
    var t := RunTry(o);
    if t.Threw? {
      CaughtExactly(t.exc);
    }
  }

  /** The status code of the handler's answer, for every outcome of the
      reserve call, is the one the class-by-class table gives. */
  lemma StatusMatchesExpected<B>(orderId: string, o: Outcome<B>)
    ensures StatusCode(Classify(orderId, o)) == ExpectedStatus(o)
  {
    match o
    case Raised(c, m) =>
      if IsSubclass(c, TimeoutException) {
        TimeoutYields504<B>(orderId, c, m);
      } else if IsSubclass(c, RequestError) {
        NetworkErrorYields502<B>(orderId, c, m);
      } else {
        UncaughtExactly(orderId, o);
        if IsSubclass(c, HTTPStatusError) {
          assert FirstMatch(CreateOrderClauses, Exc(c, m, "")) == Some(1);
        }
      }
    case Responded(code, text, json) =>
      if !IsSuccess(code) {
        StatusErrorYields502(orderId, code, text, json);
      } else {
        UncaughtExactly(orderId, o);
      }
  }

  /** The same clauses with the generic `except RequestError` moved first. */
  const RequestErrorFirst: seq<ExceptClause> := [CreateOrderClauses[2], CreateOrderClauses[0], CreateOrderClauses[1]]

  /** The order of the clauses matters: with `except RequestError` first, a
      timeout would answer 502 instead of 504. */
  lemma ExceptOrderMatters(c: ExcClass, m: string, text: string)
    requires IsSubclass(c, TimeoutException)
    ensures Dispatch(RequestErrorFirst, Exc(c, m, text)) == Handled(HttpException(502, NetworkErrorPrefix + m))
    ensures Dispatch(CreateOrderClauses, Exc(c, m, text)) == Handled(HttpException(504, TimeoutDetail))
  {
    TimeoutIsRequestError(c);
    assert FirstMatch(RequestErrorFirst, Exc(c, m, text)) == Some(0);
    assert FirstMatch(CreateOrderClauses, Exc(c, m, text)) == Some(0);
  }

  /** Whatever service-b does, an accepted request makes exactly one reserve
      call, carrying the fresh order id and the caller's sku and quantity;
      a created order carries that same order id. */
  lemma OneCallNoRetry<B>(req: CreateOrderRequest, orderId: string, downstream: ReserveCall -> Outcome<B>)
    requires req.qty > 0
    ensures |CreateOrder(req, orderId, downstream).calls| == 1
    ensures CreateOrder(req, orderId, downstream).calls[0].orderId == orderId
    ensures CreateOrder(req, orderId, downstream).calls[0].sku == req.sku
    ensures CreateOrder(req, orderId, downstream).calls[0].qty == req.qty
    ensures CreateOrder(req, orderId, downstream).result.Created? ==>
      CreateOrder(req, orderId, downstream).result.order.orderId == orderId
  {
  }

  /** A non-positive quantity answers 400 before any reserve call, whatever
      service-b would have done. */
  lemma InvalidQtyNeverCalls<B>(req: CreateOrderRequest, orderId: string, downstream: ReserveCall -> Outcome<B>)
    requires req.qty <= 0
    ensures CreateOrder(req, orderId, downstream).calls == []
    ensures StatusCode(CreateOrder(req, orderId, downstream).result) == 400
  {
  }
}
