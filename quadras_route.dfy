/** /api/quadras (the routed handler): list active courts, optionally of one company; create;
    update name, location and description; soft delete. */
module QuadrasRoute {
  import opened Wrappers
  import opened Tables
  import opened JsValues
  import opened Domain
  import opened Persistence

  /** The JSON body of POST. */
  datatype CreateRequest = CreateRequest(name: string, location: string, description: Option<string>, empresaId: Option<int>)

  /** The JSON body of PUT; None leaves the column as it is, description `Some(None)` is null. */
  datatype UpdateRequest = UpdateRequest(id: Option<int>, name: Option<string>, location: Option<string>, description: Option<Option<string>>)

  /** The `where` of GET: active, and of the company when the `empresaId` parameter is truthy
      (its `parseInt`; NaN matches no court). */
  predicate Listed(q: Quadra, empresaIdParam: Option<string>)
  {
    q.isActive &&
    (TruthyText(empresaIdParam) ==> ParseInt(empresaIdParam.value).Int? && q.empresaId == Some(ParseInt(empresaIdParam.value).n))
  }

  /** GET: the active courts, restricted to one company when asked, in stored order. */
  function Get(db: Db, empresaIdParam: Option<string>): (r: Response)
    ensures r.status == 200 && r.body.QuadraList?
    ensures !TruthyText(empresaIdParam) ==>
      forall q :: q in r.body.quadras <==> q in db.quadras && q.isActive
    ensures forall q :: q in r.body.quadras ==> q in db.quadras && q.isActive
    ensures forall q :: multiset(r.body.quadras)[q] == (if Listed(q, empresaIdParam) then multiset(db.quadras)[q] else 0)
  {
    Response(200, QuadraList(Filter(db.quadras, (q: Quadra) => Listed(q, empresaIdParam))))
  }

  /** With the decimal id of a company, GET lists exactly that company's active courts. */
  lemma GetOfCompany(db: Db, empresaId: nat)
    ensures forall q :: q in Get(db, Some(Decimal(empresaId))).body.quadras <==>
      q in db.quadras && q.isActive && q.empresaId == Some(empresaId)
  {
    ParseIntOfDigits(Decimal(empresaId));
    ToNumberDecimal(empresaId);
  }

  /** POST: one active, available court appended with the body's columns. */
  method Post(store: Store, req: CreateRequest) returns (resp: Response)
    requires store.Valid()
    modifies store
    ensures store.Valid()
    ensures resp.status == 201
    ensures var q := Quadra(old(store.nextId), req.name, req.location, req.description, req.empresaId, None, None, true, true);
      && resp.body == QuadraBody(q)
      && store.Snapshot() == old(store.Snapshot()).(quadras := old(store.quadras) + [q], nextId := old(store.nextId) + 1)
  {
    var q := Quadra(store.nextId, req.name, req.location, req.description, req.empresaId, None, None, true, true);
    AppendFreshKey(store.quadras, QuadraKey, store.nextId, q);
    BumpKeepsValid(store.Snapshot());
    store.quadras := store.quadras + [q];
    store.nextId := store.nextId + 1;
    resp := Response(201, QuadraBody(q));
  }

  /** The row PUT writes: name, location and description where given, the rest as it was. */
  function Updated(q: Quadra, req: UpdateRequest): (r: Quadra)
    ensures r.(name := q.name, location := q.location, description := q.description) == q
    ensures r.name == (if req.name.Some? then req.name.value else q.name)
    ensures r.location == (if req.location.Some? then req.location.value else q.location)
    ensures r.description == (if req.description.Some? then req.description.value else q.description)
  {
    q.(name := req.name.GetOr(q.name),
       location := req.location.GetOr(q.location),
       description := req.description.GetOr(q.description))
  }

  /** PUT: a falsy id is refused with 400 before any lookup; an unknown id makes the ORM throw
      (500). Either way the store is untouched. */
  method Put(store: Store, req: UpdateRequest) returns (resp: Response)
    requires store.Valid()
    modifies store
    ensures store.Valid()
    ensures !TruthyId(req.id) ==> resp == Response(400, ErrorBody("ID é obrigatório para atualizar quadra"))
    ensures TruthyId(req.id) && QuadraIndex(old(store.quadras), req.id.value).None? ==>
      resp == Response(500, ErrorBody("Erro ao atualizar quadra"))
    ensures resp.status == 200 <==> TruthyId(req.id) && QuadraIndex(old(store.quadras), req.id.value).Some?
    ensures resp.status != 200 ==> store.Snapshot() == old(store.Snapshot())
    ensures resp.status == 200 ==>
      var i := QuadraIndex(old(store.quadras), req.id.value).value;
      && store.Snapshot() == old(store.Snapshot()).(quadras := old(store.quadras)[i := Updated(old(store.quadras)[i], req)])
      && resp.body == QuadraBody(store.quadras[i])
  {
    if !TruthyId(req.id) {
      return Response(400, ErrorBody("ID é obrigatório para atualizar quadra"));
    }
    var found := QuadraIndex(store.quadras, req.id.value);
    if found.None? {
      return Response(500, ErrorBody("Erro ao atualizar quadra"));
    }
    var i := found.value;
    var row := Updated(store.quadras[i], req);
    ReplaceSameKey(store.quadras, QuadraKey, i, row);
    store.quadras := store.quadras[i := row];
    resp := Response(200, QuadraBody(row));
  }

  /** DELETE: the `id` query parameter must be truthy text (400 otherwise); its `Number` must
      name a court (500 otherwise, NaN included). The court is deactivated, kept, and no longer
      listed by GET. */
  method Delete(store: Store, idParam: Option<string>) returns (resp: Response)
    requires store.Valid()
    modifies store
    ensures store.Valid()
    ensures !TruthyText(idParam) ==> resp == Response(400, ErrorBody("ID é obrigatório para excluir quadra"))
    ensures resp.status == 200 <==>
      TruthyText(idParam) && ToNumber(idParam.value).Int? && QuadraIndex(old(store.quadras), ToNumber(idParam.value).n).Some?
    ensures TruthyText(idParam) && resp.status != 200 ==> resp == Response(500, ErrorBody("Erro ao excluir quadra"))
    ensures resp.status != 200 ==> store.Snapshot() == old(store.Snapshot())
    ensures resp.status == 200 ==>
      var id := ToNumber(idParam.value).n;
      var i := QuadraIndex(old(store.quadras), id).value;
      && resp == Response(200, MessageBody("Quadra desativada com sucesso"))
      && store.Snapshot() == old(store.Snapshot()).(quadras := old(store.quadras)[i := old(store.quadras)[i].(isActive := false)])
      && forall q :: q in Get(store.Snapshot(), None).body.quadras ==> q.id != id
  {
    if !TruthyText(idParam) {
      return Response(400, ErrorBody("ID é obrigatório para excluir quadra"));
    }
    var id := ToNumber(idParam.value);
    if id.NaN? {
      return Response(500, ErrorBody("Erro ao excluir quadra"));
    }
    var found := QuadraIndex(store.quadras, id.n);
    if found.None? {
      return Response(500, ErrorBody("Erro ao excluir quadra"));
    }
    var i := found.value;
    var row := store.quadras[i].(isActive := false);
    ReplaceSameKey(store.quadras, QuadraKey, i, row);
    store.quadras := store.quadras[i := row];
    assert forall j :: 0 <= j < |store.quadras| && store.quadras[j].id == id.n ==> j == i;
    resp := Response(200, MessageBody("Quadra desativada com sucesso"));
  }
}
