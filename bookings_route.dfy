/** /api/bookings: a signed-in user books a court's time slot at a chosen price (POST) and
    lists their own bookings (GET). */
module BookingsRoute {
  import opened Wrappers
  import opened Tables
  import opened Domain
  import opened Persistence

  /** The JSON body of POST /api/bookings; a field the client left out is None. */
  datatype BookingRequest = BookingRequest(quadraId: Option<int>, horarioId: Option<int>, priceId: Option<int>)

  /** A booking that occupies its slot: active, with status pending or confirmed. */
  predicate HoldsSlot(b: Agendamento)
  {
    b.isActive && (b.status == Pending || b.status == Confirmed)
  }

  /** The slot part of the conflict query; the ORM drops a condition whose value is undefined,
      so an absent horarioId matches every slot of the court. */
  predicate MatchesSlot(b: Agendamento, quadraId: int, horarioId: Option<int>)
  {
    b.quadraId == quadraId && (horarioId.None? || b.horarioId == horarioId.value)
  }

  /** The conflict query of POST: the first booking holding the requested slot. */
  function ConflictIndex(rows: seq<Agendamento>, quadraId: int, horarioId: Option<int>): (r: Option<nat>)
    ensures r.Some? ==> r.value < |rows| && MatchesSlot(rows[r.value], quadraId, horarioId) && HoldsSlot(rows[r.value])
    ensures r.None? <==> forall j :: 0 <= j < |rows| ==> !(MatchesSlot(rows[j], quadraId, horarioId) && HoldsSlot(rows[j]))
  {
    FindFirst(rows, (b: Agendamento) => MatchesSlot(b, quadraId, horarioId) && HoldsSlot(b))
  }

  /** The exclusivity invariant: no two bookings hold the same (quadra, horario) slot. */
  ghost predicate NoDoubleBooking(rows: seq<Agendamento>)
  {
    forall i, j :: 0 <= i < j < |rows| && HoldsSlot(rows[i]) && HoldsSlot(rows[j]) ==>
      rows[i].quadraId != rows[j].quadraId || rows[i].horarioId != rows[j].horarioId
  }

  /** Adding a booking to a slot nobody holds keeps the slots exclusive. */
  lemma AppendToFreeSlot(rows: seq<Agendamento>, b: Agendamento)
    requires NoDoubleBooking(rows)
    requires forall j :: 0 <= j < |rows| ==> !(MatchesSlot(rows[j], b.quadraId, Some(b.horarioId)) && HoldsSlot(rows[j]))
    ensures NoDoubleBooking(rows + [b])
  {
  }

  /** POST /api/bookings. The guards run in order: session, ids present (the ORM rejects an
      undefined key), quadra and price exist, slot free; the insert needs a horarioId. */
  method Post(store: Store, session: Option<int>, req: BookingRequest, now: int) returns (resp: Response)
    requires store.Valid()
    modifies store
    ensures store.Valid()
    ensures session.None? ==> resp == Unauthorized
    ensures session.Some? && (req.quadraId.None? || req.priceId.None?) ==>
      resp == Response(500, ErrorBody("Erro ao criar agendamento"))
    ensures var db := old(store.Snapshot());
      session.Some? && req.quadraId.Some? && req.priceId.Some? &&
      (QuadraIndex(db.quadras, req.quadraId.value).None? || PriceIndex(db.prices, req.priceId.value).None?) ==>
        resp == Response(404, ErrorBody("Quadra ou preço não encontrado"))
    ensures var db := old(store.Snapshot());
      session.Some? && req.quadraId.Some? && req.priceId.Some? &&
      QuadraIndex(db.quadras, req.quadraId.value).Some? && PriceIndex(db.prices, req.priceId.value).Some? &&
      ConflictIndex(db.agendamentos, req.quadraId.value, req.horarioId).Some? ==>
        resp == Response(400, ErrorBody("Horário já está agendado"))
    ensures var db := old(store.Snapshot());
      session.Some? && req.quadraId.Some? && req.priceId.Some? && req.horarioId.None? &&
      QuadraIndex(db.quadras, req.quadraId.value).Some? && PriceIndex(db.prices, req.priceId.value).Some? &&
      ConflictIndex(db.agendamentos, req.quadraId.value, req.horarioId).None? ==>
        resp == Response(500, ErrorBody("Erro ao criar agendamento"))
    ensures var db := old(store.Snapshot());
      resp.status == 200 <==>
        session.Some? && req.quadraId.Some? && req.priceId.Some? && req.horarioId.Some? &&
        QuadraIndex(db.quadras, req.quadraId.value).Some? && PriceIndex(db.prices, req.priceId.value).Some? &&
        ConflictIndex(db.agendamentos, req.quadraId.value, req.horarioId).None?
    ensures resp.status != 200 ==> store.Snapshot() == old(store.Snapshot())
    ensures resp.status == 200 ==>
      resp.body.BookingBody? &&
      store.Snapshot() == old(store.Snapshot()).(agendamentos := old(store.agendamentos) + [resp.body.booking],
                                                  nextId := old(store.nextId) + 1)
    ensures var db := old(store.Snapshot());
      resp.status == 200 ==>
        var quadra := db.quadras[QuadraIndex(db.quadras, req.quadraId.value).value];
        var price := db.prices[PriceIndex(db.prices, req.priceId.value).value];
        resp.body.booking == Agendamento(db.nextId, session.value, req.quadraId.value, req.horarioId.value,
                                         quadra.empresaId, Pending, Some(price.value), PaymentPending, Pix,
                                         None, true, now)
    ensures NoDoubleBooking(old(store.agendamentos)) ==> NoDoubleBooking(store.agendamentos)
  {
    if session.None? {
      return Unauthorized;
    }
    if req.quadraId.None? || req.priceId.None? {
      return Response(500, ErrorBody("Erro ao criar agendamento"));
    }
    var qi := QuadraIndex(store.quadras, req.quadraId.value);
    var pi := PriceIndex(store.prices, req.priceId.value);
    if qi.None? || pi.None? {
      return Response(404, ErrorBody("Quadra ou preço não encontrado"));
    }
    var existing := ConflictIndex(store.agendamentos, req.quadraId.value, req.horarioId);
    if existing.Some? {
      return Response(400, ErrorBody("Horário já está agendado"));
    }
    if req.horarioId.None? {
      return Response(500, ErrorBody("Erro ao criar agendamento"));
    }
    var quadra := store.quadras[qi.value];
    var price := store.prices[pi.value];
    var booking := Agendamento(store.nextId, session.value, req.quadraId.value, req.horarioId.value,
                               quadra.empresaId, Pending, Some(price.value), PaymentPending, Pix,
                               None, true, now);
    AppendFreshKey(store.agendamentos, AgendamentoKey, store.nextId, booking);
    BumpKeepsValid(store.Snapshot());
    if NoDoubleBooking(store.agendamentos) {
      AppendToFreeSlot(store.agendamentos, booking);
    }
    store.agendamentos := store.agendamentos + [booking];
    store.nextId := store.nextId + 1;
    resp := Response(200, BookingBody(booking));
  }

  /** The order of GET: most recently created first. */
  predicate NewestFirst(a: Agendamento, b: Agendamento)
  {
    a.createdAt >= b.createdAt
  }

  lemma NewestFirstIsTotal()
    ensures TotalPreorder(NewestFirst)
  {
  }

  /** GET /api/bookings: the signed-in user's active bookings, newest first. */
  function Get(db: Db, session: Option<int>): (r: Response)
    ensures session.None? ==> r == Unauthorized
    ensures session.Some? ==> r.status == 200 && r.body.BookingList?
    ensures session.Some? ==> forall b :: b in r.body.bookings <==>
      b in db.agendamentos && b.userId == session.value && b.isActive
    ensures session.Some? ==> (forall b :: multiset(r.body.bookings)[b] ==
                                 if b.userId == session.value && b.isActive then multiset(db.agendamentos)[b] else 0)
    ensures session.Some? ==> SortedBy(r.body.bookings, NewestFirst)
  {
    match session
    case None => Unauthorized
    case Some(uid) =>
      var mine := Filter(db.agendamentos, (b: Agendamento) => b.userId == uid && b.isActive);
      NewestFirstIsTotal();
      SortBySorted(mine, NewestFirst);
      Response(200, BookingList(SortBy(mine, NewestFirst)))
  }
}
