/** The two services composed: service-a's reserve call answered by
    service-b's `reserve`, when service-b's answer arrives in time. */
module OrderFlow {
  import opened Http
  import ServiceA
  import ServiceB

  /** The body service-b receives for the body service-a sends. */
  function Received(call: ServiceA.ReserveCall): (req: ServiceB.ReserveRequest)
    ensures req.orderId == call.orderId && req.sku == call.sku && req.qty == call.qty
  {
    ServiceB.ReserveRequest(call.orderId, call.sku, call.qty)
  }

  /** service-b's answer as service-a's client sees it. `text` stands for
      the serialised response body; JSON serialisation is not modelled. A
      rejection's body is JSON too, but it is never decoded (only a 2xx
      body is), so its decoded form is left as None. */
  function OverTheWire(r: ServiceB.ReserveResult, text: string): (o: ServiceA.Outcome<ServiceB.Reservation>)
    ensures o.Responded?
    ensures r.Reserved? ==> o.code == DefaultOk && IsSuccess(o.code)
    ensures r.Reserved? ==> o.json == Some(r.reservation)
    ensures r.Rejected? ==> o.code == r.error.statusCode
  {
    match r
    case Reserved(res) => ServiceA.Responded(DefaultOk, text, Some(res))
    case Rejected(e) => ServiceA.Responded(e.statusCode, text, None)
  }

  /** service-b, reached in time, as the downstream of service-a. */
  function ServiceBDownstream(text: string): ServiceA.ReserveCall -> ServiceA.Outcome<ServiceB.Reservation> {
    call => OverTheWire(ServiceB.Reserve(Received(call)), text)
  }

  /** Placing an order end to end: an invalid quantity is refused by
      service-a with 400 before service-b is called; a valid one is created
      under the fresh order id with the reservation `"r_" + orderId`, the
      caller's sku and quantity, and status "reserved". */
  lemma PlaceOrder(req: ServiceA.CreateOrderRequest, orderId: string, text: string)
    ensures var a := ServiceA.CreateOrder(req, orderId, ServiceBDownstream(text));
      req.qty <= 0 ==> a.calls == [] && ServiceA.StatusCode(a.result) == 400
    ensures var a := ServiceA.CreateOrder(req, orderId, ServiceBDownstream(text));
      req.qty > 0 ==>
        && ServiceA.StatusCode(a.result) == ServiceA.CreatedStatus
        && a.result.Created?
        && a.result.order.orderId == orderId
        && a.result.order.status == ServiceA.CreatedLabel
        && ServiceB.OrderIdOf(a.result.order.reservation.reservationId) == Some(orderId)
        && a.result.order.reservation.status == ServiceB.ReservedStatus
        && a.result.order.reservation.sku == req.sku
        && a.result.order.reservation.qty == req.qty
  {
    if req.qty > 0 {
      var call := ServiceA.ReserveCall(orderId, req.sku, req.qty);
      var res := ServiceB.Reserve(Received(call));
      assert res.Reserved?;
      ServiceA.SuccessYieldsCreated(orderId, DefaultOk, text, res.reservation);
    }
  }

  /** Two orders placed end to end get the same reservation id exactly when
      they were given the same order id. */
  lemma DistinctOrdersDistinctReservations(r1: ServiceA.CreateOrderRequest, id1: string,
                                           r2: ServiceA.CreateOrderRequest, id2: string, text: string)
    requires r1.qty > 0 && r2.qty > 0
    ensures var a1 := ServiceA.CreateOrder(r1, id1, ServiceBDownstream(text));
            var a2 := ServiceA.CreateOrder(r2, id2, ServiceBDownstream(text));
      a1.result.Created? && a2.result.Created? &&
      (a1.result.order.reservation.reservationId == a2.result.order.reservation.reservationId <==> id1 == id2)
  {
    PlaceOrder(r1, id1, text);
    PlaceOrder(r2, id2, text);
    var a1 := ServiceA.CreateOrder(r1, id1, ServiceBDownstream(text));
    var a2 := ServiceA.CreateOrder(r2, id2, ServiceBDownstream(text));
    ServiceB.OrderIdRoundTrip(a1.result.order.reservation.reservationId, id1);
    ServiceB.OrderIdRoundTrip(a2.result.order.reservation.reservationId, id2);
    ServiceB.ReservationIdInjective(id1, id2);
  }
}
