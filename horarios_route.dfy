/** /api/horarios: list active time slots; create; overwrite a slot; hard delete. */
module HorariosRoute {
  import opened Wrappers
  import opened Tables
  import opened JsValues
  import opened Domain
  import opened Persistence

  /** The JSON body of POST. `start` and `end` are the parsed dates; None is a missing or
      unparsable date (an invalid Date, which the ORM rejects). */
  datatype CreateRequest = CreateRequest(start: Option<int>, end: Option<int>, quadraId: int)

  /** The JSON body of PUT; a missing quadraId leaves the column as it is. */
  datatype UpdateRequest = UpdateRequest(id: Option<int>, start: Option<int>, end: Option<int>, quadraId: Option<int>)

  /** GET: every active slot, in stored order. */
  function Get(db: Db): (r: Response)
    ensures r.status == 200 && r.body.HorarioList?
    ensures forall h :: h in r.body.horarios <==> h in db.horarios && h.isActive
    ensures forall h :: multiset(r.body.horarios)[h] == (if h.isActive then multiset(db.horarios)[h] else 0)
  {
    Response(200, HorarioList(Filter(db.horarios, (h: Horario) => h.isActive)))
  }

  /** POST: one active slot appended; an invalid date fails with 500 and writes nothing. */
  method Post(store: Store, req: CreateRequest) returns (resp: Response)
    requires store.Valid()
    modifies store
    ensures store.Valid()
    ensures resp.status == 201 <==> req.start.Some? && req.end.Some?
    ensures resp.status != 201 ==>
      resp == Response(500, ErrorBody("Erro ao criar horário")) && store.Snapshot() == old(store.Snapshot())
    ensures resp.status == 201 ==>
      var h := Horario(old(store.nextId), req.start.value, req.end.value, req.quadraId, true);
      && resp.body == HorarioBody(h)
      && store.Snapshot() == old(store.Snapshot()).(horarios := old(store.horarios) + [h], nextId := old(store.nextId) + 1)
  {
    if req.start.None? || req.end.None? {
      return Response(500, ErrorBody("Erro ao criar horário"));
    }
    var h := Horario(store.nextId, req.start.value, req.end.value, req.quadraId, true);
    AppendFreshKey(store.horarios, HorarioKey, store.nextId, h);
    BumpKeepsValid(store.Snapshot());
    store.horarios := store.horarios + [h];
    store.nextId := store.nextId + 1;
    resp := Response(201, HorarioBody(h));
  }

  /** PUT: overwrites start and end of the row with the body's id, and its quadraId when
      given; a missing or unknown id, or an invalid date, fails with 500 and writes nothing. */
  method Put(store: Store, req: UpdateRequest) returns (resp: Response)
    requires store.Valid()
    modifies store
    ensures store.Valid()
    ensures resp.status == 200 <==>
      req.id.Some? && req.start.Some? && req.end.Some? && HorarioIndex(old(store.horarios), req.id.value).Some?
    ensures resp.status != 200 ==>
      resp == Response(500, ErrorBody("Erro ao atualizar horário")) && store.Snapshot() == old(store.Snapshot())
    ensures resp.status == 200 ==>
      var i := HorarioIndex(old(store.horarios), req.id.value).value;
      var old_h := old(store.horarios)[i];
      var h := Horario(old_h.id, req.start.value, req.end.value, req.quadraId.GetOr(old_h.quadraId), old_h.isActive);
      && store.Snapshot() == old(store.Snapshot()).(horarios := old(store.horarios)[i := h])
      && resp.body == HorarioBody(h)
  {
    if req.id.None? || req.start.None? || req.end.None? {
      return Response(500, ErrorBody("Erro ao atualizar horário"));
    }
    var found := HorarioIndex(store.horarios, req.id.value);
    if found.None? {
      return Response(500, ErrorBody("Erro ao atualizar horário"));
    }
    var i := found.value;
    var h := store.horarios[i].(start := req.start.value, end := req.end.value,
                                quadraId := req.quadraId.GetOr(store.horarios[i].quadraId));
    ReplaceSameKey(store.horarios, HorarioKey, i, h);
    store.horarios := store.horarios[i := h];
    resp := Response(200, HorarioBody(h));
  }

  /** DELETE: `Number` of the `id` query parameter must be truthy (absent, empty, 0 and NaN
      are refused with 400); the row with that id is removed from the table, every other row
      stays in order; an unknown id fails with 500. */
  method Delete(store: Store, idParam: Option<string>) returns (resp: Response)
    requires store.Valid()
    modifies store
    ensures store.Valid()
    ensures !Truthy(NumberOfParam(idParam)) ==> resp == Response(400, ErrorBody("ID inválido"))
    ensures resp.status == 200 <==>
      Truthy(NumberOfParam(idParam)) && HorarioIndex(old(store.horarios), NumberOfParam(idParam).n).Some?
    ensures Truthy(NumberOfParam(idParam)) && resp.status != 200 ==> resp == Response(500, ErrorBody("Erro ao excluir horário"))
    ensures resp.status != 200 ==> store.Snapshot() == old(store.Snapshot())
    ensures resp.status == 200 ==>
      var id := NumberOfParam(idParam).n;
      var i := HorarioIndex(old(store.horarios), id).value;
      && resp == Response(200, MessageBody("Horário excluído com sucesso"))
      && store.Snapshot() == old(store.Snapshot()).(horarios := RemoveAt(old(store.horarios), i))
      && (forall h :: h in store.horarios ==> h.id != id)
      && (forall h :: h in old(store.horarios) && h.id != id ==> h in store.horarios)
  {
    var id := NumberOfParam(idParam);
    if !Truthy(id) {
      return Response(400, ErrorBody("ID inválido"));
    }
    var found := HorarioIndex(store.horarios, id.n);
    if found.None? {
      return Response(500, ErrorBody("Erro ao excluir horário"));
    }
    var i := found.value;
    ghost var before := store.horarios;
    RemoveKeepsKeys(store.horarios, HorarioKey, store.nextId, i);
    store.horarios := RemoveAt(store.horarios, i);
    forall h | h in before && h.id != id.n ensures h in store.horarios {
      var j :| 0 <= j < |before| && before[j] == h;
      assert j != i;
      if j < i { assert store.horarios[j] == h; } else { assert store.horarios[j - 1] == h; }
    }
    resp := Response(200, MessageBody("Horário excluído com sucesso"));
  }
}
