/** src/services/agendamentoService.ts: booking creation guarded by the service availability
    test, and a customer's active bookings. */
module AgendamentoService {
  import opened Wrappers
  import opened Tables
  import opened Domain
  import opened Persistence
  import opened QuadraService
  import BookingsRoute

  /** At most one active booking, whatever its status, per (quadra, horario) slot. */
  ghost predicate OneActivePerSlot(rows: seq<Agendamento>)
  {
    forall i, j :: 0 <= i < j < |rows| && rows[i].isActive && rows[j].isActive ==>
      rows[i].quadraId != rows[j].quadraId || rows[i].horarioId != rows[j].horarioId
  }

  /** The service invariant implies the route's exclusivity invariant. */
  lemma OneActiveImpliesNoDoubleBooking(rows: seq<Agendamento>)
    requires OneActivePerSlot(rows)
    ensures BookingsRoute.NoDoubleBooking(rows)
  {
  }

  /** createBooking. The columns the call does not set take the schema defaults: payment
      pending by pix, active, no company and no total. */
  method CreateBooking(store: Store, quadraId: int, horarioId: int, clienteId: int, now: int)
    returns (r: Result<Agendamento, string>)
    requires store.Valid()
    modifies store
    ensures store.Valid()
    ensures r.Err? <==> !IsQuadraAvailable(old(store.agendamentos), quadraId, horarioId)
    ensures r.Err? ==> r.error == "Horário indisponível" && store.Snapshot() == old(store.Snapshot())
    ensures r.Ok? ==>
      r.value == Agendamento(old(store.nextId), clienteId, quadraId, horarioId, None, Pending, None,
                             PaymentPending, Pix, None, true, now) &&
      store.Snapshot() == old(store.Snapshot()).(agendamentos := old(store.agendamentos) + [r.value],
                                                  nextId := old(store.nextId) + 1)
    ensures OneActivePerSlot(old(store.agendamentos)) ==> OneActivePerSlot(store.agendamentos)
    ensures BookingsRoute.NoDoubleBooking(old(store.agendamentos)) ==> BookingsRoute.NoDoubleBooking(store.agendamentos)
  {
    var available := IsQuadraAvailable(store.agendamentos, quadraId, horarioId);
    if !available {
      return Err("Horário indisponível");
    }
    var booking := Agendamento(store.nextId, clienteId, quadraId, horarioId, None, Pending, None,
                               PaymentPending, Pix, None, true, now);
    AppendFreshKey(store.agendamentos, AgendamentoKey, store.nextId, booking);
    BumpKeepsValid(store.Snapshot());
    store.agendamentos := store.agendamentos + [booking];
    store.nextId := store.nextId + 1;
    r := Ok(booking);
  }

  /** getBookingsByCliente: the customer's active bookings, in stored order. */
  function BookingsByCliente(rows: seq<Agendamento>, clienteId: int): (r: seq<Agendamento>)
    ensures forall b :: b in r <==> b in rows && b.userId == clienteId && b.isActive
    ensures forall b :: multiset(r)[b] ==
                          (if b.userId == clienteId && b.isActive then multiset(rows)[b] else 0)
  {
    Filter(rows, (b: Agendamento) => b.userId == clienteId && b.isActive)
  }
}
