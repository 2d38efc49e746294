/** /api/agendamentos: administrative CRUD on bookings. Listing shows active rows; creation
    fills defaults and checks nothing; update touches the status and payment columns only;
    delete is a soft delete. */
module AgendamentosRoute {
  import opened Wrappers
  import opened Tables
  import opened Domain
  import opened Persistence
  import BookingsRoute

  /** The JSON body of POST; a field left out (or falsy) is None. */
  datatype CreateRequest = CreateRequest(
    userId: int,
    quadraId: int,
    horarioId: int,
    status: Option<BookingStatus>,
    totalValue: Option<real>,
    paymentStatus: Option<PaymentStatus>,
    paymentMethod: Option<PaymentMethod>,
    paymentReference: Option<string>)

  /** The JSON body of PUT. None leaves the column as it is (the ORM skips undefined);
      paymentReference `Some(None)` is an explicit null. */
  datatype UpdateRequest = UpdateRequest(
    id: Option<int>,
    status: Option<BookingStatus>,
    paymentStatus: Option<PaymentStatus>,
    paymentReference: Option<Option<string>>)

  /** GET: every active booking, in stored order. */
  function Get(db: Db): (r: Response)
    ensures r.status == 200 && r.body.BookingList?
    ensures forall b :: b in r.body.bookings <==> b in db.agendamentos && b.isActive
    ensures forall b :: multiset(r.body.bookings)[b] == (if b.isActive then multiset(db.agendamentos)[b] else 0)
  {
    Response(200, BookingList(Filter(db.agendamentos, (b: Agendamento) => b.isActive)))
  }

  /** POST: one booking appended with the body's columns and the defaults pending, pending,
      pix and null reference; no availability check. */
  method Post(store: Store, req: CreateRequest, now: int) returns (resp: Response)
    requires store.Valid()
    modifies store
    ensures store.Valid()
    ensures resp.status == 201 && resp.body.BookingBody?
    ensures store.Snapshot() == old(store.Snapshot()).(agendamentos := old(store.agendamentos) + [resp.body.booking],
                                                        nextId := old(store.nextId) + 1)
    ensures var b := resp.body.booking;
      && b.id == old(store.nextId)
      && b.userId == req.userId && b.quadraId == req.quadraId && b.horarioId == req.horarioId
      && b.totalValue == req.totalValue && b.empresaId.None? && b.isActive && b.createdAt == now
      && (req.status.None? ==> b.status == Pending)
      && (req.status.Some? ==> b.status == req.status.value)
      && (req.paymentStatus.None? ==> b.paymentStatus == PaymentPending)
      && (req.paymentStatus.Some? ==> b.paymentStatus == req.paymentStatus.value)
      && (req.paymentMethod.None? ==> b.paymentMethod == Pix)
      && (req.paymentMethod.Some? ==> b.paymentMethod == req.paymentMethod.value)
      && (req.paymentReference.None? || req.paymentReference == Some("") ==> b.paymentReference.None?)
      && (req.paymentReference.Some? && req.paymentReference != Some("") ==> b.paymentReference == req.paymentReference)
  {
    var reference := if req.paymentReference == Some("") then None else req.paymentReference;
    var booking := Agendamento(store.nextId, req.userId, req.quadraId, req.horarioId, None,
                               req.status.GetOr(Pending), req.totalValue,
                               req.paymentStatus.GetOr(PaymentPending), req.paymentMethod.GetOr(Pix),
                               reference, true, now);
    AppendFreshKey(store.agendamentos, AgendamentoKey, store.nextId, booking);
    BumpKeepsValid(store.Snapshot());
    store.agendamentos := store.agendamentos + [booking];
    store.nextId := store.nextId + 1;
    resp := Response(201, BookingBody(booking));
  }

  /** Appending a booking that holds a slot some row already holds breaks exclusivity. */
  lemma AppendToHeldSlot(rows: seq<Agendamento>, j: nat, b: Agendamento)
    requires j < |rows| && BookingsRoute.HoldsSlot(rows[j]) && BookingsRoute.HoldsSlot(b)
    requires rows[j].quadraId == b.quadraId && rows[j].horarioId == b.horarioId
    ensures !BookingsRoute.NoDoubleBooking(rows + [b])
  {
    var rows' := rows + [b];
    assert rows'[j] == rows[j] && rows'[|rows|] == b;
    assert j < |rows| < |rows'|;
  }

  /** POST can double-book: called with the court and slot of a booking that holds them and
      no status, it is accepted, and the bookings then hold that slot twice. */
  method PostCanDoubleBook(store: Store, j: nat, req: CreateRequest, now: int) returns (resp: Response)
    requires store.Valid()
    requires j < |store.agendamentos| && BookingsRoute.HoldsSlot(store.agendamentos[j])
    requires req.quadraId == store.agendamentos[j].quadraId && req.horarioId == store.agendamentos[j].horarioId
    requires req.status.None?
    modifies store
    ensures resp.status == 201
    ensures !BookingsRoute.NoDoubleBooking(store.agendamentos)
  {
    ghost var rows := store.agendamentos;
    resp := Post(store, req, now);
    AppendToHeldSlot(rows, j, resp.body.booking);
  }

  /** The row PUT writes: status, paymentStatus and paymentReference where given, every other
      column as it was. */
  function Updated(b: Agendamento, req: UpdateRequest): (r: Agendamento)
    ensures r.(status := b.status, paymentStatus := b.paymentStatus, paymentReference := b.paymentReference) == b
    ensures r.status == (if req.status.Some? then req.status.value else b.status)
    ensures r.paymentStatus == (if req.paymentStatus.Some? then req.paymentStatus.value else b.paymentStatus)
    ensures r.paymentReference == (if req.paymentReference.Some? then req.paymentReference.value else b.paymentReference)
  {
    b.(status := req.status.GetOr(b.status),
       paymentStatus := req.paymentStatus.GetOr(b.paymentStatus),
       paymentReference := req.paymentReference.GetOr(b.paymentReference))
  }

  /** PUT: updates the row with the body's id; a missing id or an unknown one makes the ORM
      throw, reported as 500 with the store untouched. */
  method Put(store: Store, req: UpdateRequest) returns (resp: Response)
    requires store.Valid()
    modifies store
    ensures store.Valid()
    ensures resp.status == 200 <==> req.id.Some? && AgendamentoIndex(old(store.agendamentos), req.id.value).Some?
    ensures resp.status != 200 ==>
      resp == Response(500, ErrorBody("Erro ao atualizar agendamento")) && store.Snapshot() == old(store.Snapshot())
    ensures resp.status == 200 ==>
      var i := AgendamentoIndex(old(store.agendamentos), req.id.value).value;
      && store.Snapshot() == old(store.Snapshot()).(agendamentos := old(store.agendamentos)[i := Updated(old(store.agendamentos)[i], req)])
      && resp.body == BookingBody(store.agendamentos[i])
  {
    if req.id.None? {
      return Response(500, ErrorBody("Erro ao atualizar agendamento"));
    }
    var found := AgendamentoIndex(store.agendamentos, req.id.value);
    if found.None? {
      return Response(500, ErrorBody("Erro ao atualizar agendamento"));
    }
    var i := found.value;
    var row := Updated(store.agendamentos[i], req);
    ReplaceSameKey(store.agendamentos, AgendamentoKey, i, row);
    store.agendamentos := store.agendamentos[i := row];
    resp := Response(200, BookingBody(row));
  }

  /** DELETE: soft delete of the row with the body's id. The row stays, inactive, and no row
      with that id is listed by GET any more. */
  method Delete(store: Store, id: Option<int>) returns (resp: Response)
    requires store.Valid()
    modifies store
    ensures store.Valid()
    ensures resp.status == 200 <==> id.Some? && AgendamentoIndex(old(store.agendamentos), id.value).Some?
    ensures resp.status != 200 ==>
      resp == Response(500, ErrorBody("Erro ao remover agendamento")) && store.Snapshot() == old(store.Snapshot())
    ensures resp.status == 200 ==>
      var i := AgendamentoIndex(old(store.agendamentos), id.value).value;
      && resp == Response(200, MessageBody("Agendamento removido com sucesso"))
      && store.Snapshot() == old(store.Snapshot()).(agendamentos := old(store.agendamentos)[i := old(store.agendamentos)[i].(isActive := false)])
      && forall b :: b in Get(store.Snapshot()).body.bookings ==> b.id != id.value
  {
    if id.None? {
      return Response(500, ErrorBody("Erro ao remover agendamento"));
    }
    var found := AgendamentoIndex(store.agendamentos, id.value);
    if found.None? {
      return Response(500, ErrorBody("Erro ao remover agendamento"));
    }
    var i := found.value;
    var row := store.agendamentos[i].(isActive := false);
    ReplaceSameKey(store.agendamentos, AgendamentoKey, i, row);
    store.agendamentos := store.agendamentos[i := row];
    assert forall j :: 0 <= j < |store.agendamentos| && store.agendamentos[j].id == id.value ==> j == i;
    resp := Response(200, MessageBody("Agendamento removido com sucesso"));
  }
}
