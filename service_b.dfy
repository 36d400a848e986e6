/** service-b: the stateless `POST /reserve` handler. It optionally sleeps
    for a configured delay, rejects a non-positive quantity, and otherwise
    answers with a reservation whose id is derived from the order id alone. */
module ServiceB {
  import opened Http

  /** Body of `POST /reserve`. */
  datatype ReserveRequest = ReserveRequest(orderId: string, sku: string, qty: int)

  /** Success body of `POST /reserve`. */
  datatype Reservation = Reservation(reservationId: string, status: string, sku: string, qty: int)

  datatype ReserveResult = Reserved(reservation: Reservation) | Rejected(error: HttpException)

  /** What one call does: how long it slept first (milliseconds) and what
      it answered. */
  datatype Served = Served(sleptMs: nat, result: ReserveResult)

  const ReservationPrefix: string := "r_"
  const ReservedStatus: string := "reserved"
  const QtyError: HttpException := HttpException(400, "qty must be > 0")

  /** `f"r_{orderId}"` */
  function ReservationIdOf(orderId: string): (r: string)
    ensures StartsWith(r, ReservationPrefix) && r[|ReservationPrefix|..] == orderId
  {
    DropPrefix(ReservationPrefix, orderId);
    ReservationPrefix + orderId
  }

  /** Inverse of ReservationIdOf: the order id a reservation id was made
      from, or None for a string that no order id yields. */
  function OrderIdOf(reservationId: string): (r: Option<string>)
    ensures r.None? <==> !StartsWith(reservationId, ReservationPrefix)
  {
    if StartsWith(reservationId, ReservationPrefix) then Some(reservationId[|ReservationPrefix|..])
    else None
  }

  lemma ReservationIdRoundTrip(orderId: string)
    ensures OrderIdOf(ReservationIdOf(orderId)) == Some(orderId)
  {
  }

  lemma OrderIdRoundTrip(reservationId: string, orderId: string)
    requires OrderIdOf(reservationId) == Some(orderId)
    ensures ReservationIdOf(orderId) == reservationId
  {
    assert reservationId == reservationId[..|ReservationPrefix|] + reservationId[|ReservationPrefix|..];
  }

  /** Different orders get different reservation ids, the same order the
      same one. */
  lemma ReservationIdInjective(a: string, b: string)
    ensures ReservationIdOf(a) == ReservationIdOf(b) <==> a == b
  {
    PrefixInjective(ReservationPrefix, a, b);
  }

  /** The answer of `reserve`, once any delay is over. */
  function Reserve(req: ReserveRequest): (r: ReserveResult)
    ensures r.Rejected? <==> req.qty <= 0
    ensures r.Rejected? ==> r.error == QtyError
    ensures r.Reserved? ==> OrderIdOf(r.reservation.reservationId) == Some(req.orderId)
    ensures r.Reserved? ==> r.reservation.status == ReservedStatus
    ensures r.Reserved? ==> r.reservation.sku == req.sku && r.reservation.qty == req.qty && req.qty > 0
  {
    if req.qty <= 0 then Rejected(QtyError)
    else Reserved(Reservation(ReservationIdOf(req.orderId), ReservedStatus, req.sku, req.qty))
  }

  /** One call of the handler with `DELAY_MS = delayMs`: the sleep comes
      first, for every request, valid or not. */
  function ReserveHandler(req: ReserveRequest, delayMs: int): (s: Served)
    ensures s.sleptMs > 0 <==> delayMs > 0
    ensures s.sleptMs > 0 ==> s.sleptMs == delayMs
    ensures s.result == Reserve(req)
  {
    Served(if delayMs > 0 then delayMs else 0, Reserve(req))
  }

  /** The configured delay changes the timing only, never the answer or
      whether the request is rejected; and since nothing is remembered
      between calls, repeating a request answers exactly as the first call
      did. */
  lemma DelayOnlyAffectsTiming(req: ReserveRequest, d1: int, d2: int)
    ensures ReserveHandler(req, d1).result == ReserveHandler(req, d2).result
  {
  }

  /** Two accepted reservations carry the same id exactly when they were
      made for the same order, whatever their sku and quantity. */
  lemma SameReservationIffSameOrder(a: ReserveRequest, b: ReserveRequest)
    requires a.qty > 0 && b.qty > 0
    ensures Reserve(a).Reserved? && Reserve(b).Reserved?
    ensures Reserve(a).reservation.reservationId == Reserve(b).reservation.reservationId
        <==> a.orderId == b.orderId
  {
    ReservationIdInjective(a.orderId, b.orderId);
  }
}
