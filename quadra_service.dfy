/** src/services/quadraService.ts: a company's courts and the service-level availability test. */
module QuadraService {
  import opened Wrappers
  import opened Tables
  import opened Domain
  import BookingsRoute

  /** getQuadrasByEmpresa: the company's active courts, in stored order. */
  function QuadrasByEmpresa(quadras: seq<Quadra>, empresaId: int): (r: seq<Quadra>)
    ensures forall q :: q in r <==> q in quadras && q.empresaId == Some(empresaId) && q.isActive
    ensures forall q :: multiset(r)[q] ==
                          (if q.empresaId == Some(empresaId) && q.isActive then multiset(quadras)[q] else 0)
  {
    Filter(quadras, (q: Quadra) => q.empresaId == Some(empresaId) && q.isActive)
  }

  /** The service's slot test ignores the status: any active booking takes the slot. */
  predicate TakesSlot(b: Agendamento, quadraId: int, horarioId: int)
  {
    b.quadraId == quadraId && b.horarioId == horarioId && b.isActive
  }

  /** isQuadraAvailable: true iff no active booking, whatever its status, has this court and slot. */
  function IsQuadraAvailable(rows: seq<Agendamento>, quadraId: int, horarioId: int): (r: bool)
    ensures r <==> forall j :: 0 <= j < |rows| ==> !TakesSlot(rows[j], quadraId, horarioId)
  {
    FindFirst(rows, (b: Agendamento) => TakesSlot(b, quadraId, horarioId)).None?
  }

  /** The service test is stricter than the conflict query of POST /api/bookings: whatever it
      accepts, the route accepts too. */
  lemma ServiceTestImpliesRouteTest(rows: seq<Agendamento>, quadraId: int, horarioId: int)
    requires IsQuadraAvailable(rows, quadraId, horarioId)
    ensures BookingsRoute.ConflictIndex(rows, quadraId, Some(horarioId)).None?
  {
  }

  /** ... and strictly so: an active cancelled booking blocks the service, not the route. */
  lemma CancelledBlocksOnlyTheService(b: Agendamento)
    requires b.isActive && b.status == Cancelled
    ensures !IsQuadraAvailable([b], b.quadraId, b.horarioId)
    ensures BookingsRoute.ConflictIndex([b], b.quadraId, Some(b.horarioId)).None?
  {
    assert TakesSlot([b][0], b.quadraId, b.horarioId);
  }

  /** An inactive booking never blocks the service test. */
  lemma {:induction false} InactiveNeverBlocks(rows: seq<Agendamento>, b: Agendamento, quadraId: int, horarioId: int)
    requires !b.isActive
    ensures IsQuadraAvailable(rows + [b], quadraId, horarioId) == IsQuadraAvailable(rows, quadraId, horarioId)
  {
    var grown := rows + [b];
    assert forall j :: 0 <= j < |rows| ==> grown[j] == rows[j];
    assert !TakesSlot(grown[|rows|], quadraId, horarioId);
  }
}
