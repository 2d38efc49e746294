/** /api/empresas: list companies (all active ones, or every company of one owner); create;
    rename and re-address; soft delete. */
module EmpresasRoute {
  import opened Wrappers
  import opened Tables
  import opened JsValues
  import opened Domain
  import opened Persistence

  /** The JSON body of POST. */
  datatype CreateRequest = CreateRequest(name: string, address: Option<string>, contact: Option<string>, ownerId: Option<int>)

  /** The JSON body of PUT; None leaves the column as it is. */
  datatype UpdateRequest = UpdateRequest(id: Option<int>, name: Option<string>, address: Option<Option<string>>, contact: Option<Option<string>>)

  /** The `where` of GET. A truthy `ownerId` parameter selects that owner's companies, active
      or not (its `parseInt`; NaN matches none); otherwise every active company. */
  predicate Listed(e: Empresa, ownerIdParam: Option<string>)
  {
    if TruthyText(ownerIdParam) then
      ParseInt(ownerIdParam.value).Int? && e.ownerId == Some(ParseInt(ownerIdParam.value).n)
    else
      e.isActive
  }

  /** GET: the selected companies, in stored order. */
  function Get(db: Db, ownerIdParam: Option<string>): (r: Response)
    ensures r.status == 200 && r.body.EmpresaList?
    ensures !TruthyText(ownerIdParam) ==>
      forall e :: e in r.body.empresas <==> e in db.empresas && e.isActive
    ensures forall e :: e in r.body.empresas ==> e in db.empresas
    ensures forall e :: multiset(r.body.empresas)[e] == (if Listed(e, ownerIdParam) then multiset(db.empresas)[e] else 0)
  {
    Response(200, EmpresaList(Filter(db.empresas, (e: Empresa) => Listed(e, ownerIdParam))))
  }

  /** With the decimal id of an owner, GET lists every company of that owner, deactivated
      ones included. */
  lemma GetOfOwner(db: Db, ownerId: nat)
    ensures forall e :: e in Get(db, Some(Decimal(ownerId))).body.empresas <==>
      e in db.empresas && e.ownerId == Some(ownerId)
  {
    ParseIntOfDigits(Decimal(ownerId));
    ToNumberDecimal(ownerId);
  }

  /** POST: one active company appended with the body's columns and no linked user. */
  method Post(store: Store, req: CreateRequest) returns (resp: Response)
    requires store.Valid()
    modifies store
    ensures store.Valid()
    ensures OneCompanyPerUser(old(store.empresas)) ==> OneCompanyPerUser(store.empresas)
    ensures resp.status == 201
    ensures var e := Empresa(old(store.nextId), req.name, req.address, req.contact, req.ownerId, None, true);
      && resp.body == EmpresaBody(e)
      && store.Snapshot() == old(store.Snapshot()).(empresas := old(store.empresas) + [e], nextId := old(store.nextId) + 1)
  {
    var e := Empresa(store.nextId, req.name, req.address, req.contact, req.ownerId, None, true);
    AppendFreshKey(store.empresas, EmpresaKey, store.nextId, e);
    BumpKeepsValid(store.Snapshot());
    store.empresas := store.empresas + [e];
    store.nextId := store.nextId + 1;
    resp := Response(201, EmpresaBody(e));
  }

  /** The row PUT writes: name, address and contact where given; owner, link and activity
      as they were. */
  function Updated(e: Empresa, req: UpdateRequest): (r: Empresa)
    ensures r.(name := e.name, address := e.address, contact := e.contact) == e
    ensures r.name == (if req.name.Some? then req.name.value else e.name)
    ensures r.address == (if req.address.Some? then req.address.value else e.address)
    ensures r.contact == (if req.contact.Some? then req.contact.value else e.contact)
  {
    e.(name := req.name.GetOr(e.name),
       address := req.address.GetOr(e.address),
       contact := req.contact.GetOr(e.contact))
  }

  /** PUT: a missing or unknown id fails with 500 and writes nothing. */
  method Put(store: Store, req: UpdateRequest) returns (resp: Response)
    requires store.Valid()
    modifies store
    ensures store.Valid()
    ensures OneCompanyPerUser(old(store.empresas)) ==> OneCompanyPerUser(store.empresas)
    ensures resp.status == 200 <==> req.id.Some? && EmpresaIndex(old(store.empresas), req.id.value).Some?
    ensures resp.status != 200 ==>
      resp == Response(500, ErrorBody("Erro ao atualizar empresa")) && store.Snapshot() == old(store.Snapshot())
    ensures resp.status == 200 ==>
      var i := EmpresaIndex(old(store.empresas), req.id.value).value;
      && store.Snapshot() == old(store.Snapshot()).(empresas := old(store.empresas)[i := Updated(old(store.empresas)[i], req)])
      && resp.body == EmpresaBody(store.empresas[i])
  {
    if req.id.None? {
      return Response(500, ErrorBody("Erro ao atualizar empresa"));
    }
    var found := EmpresaIndex(store.empresas, req.id.value);
    if found.None? {
      return Response(500, ErrorBody("Erro ao atualizar empresa"));
    }
    var i := found.value;
    var row := Updated(store.empresas[i], req);
    ReplaceSameKey(store.empresas, EmpresaKey, i, row);
    store.empresas := store.empresas[i := row];
    resp := Response(200, EmpresaBody(row));
  }

  /** DELETE: the company with the body's id is deactivated and kept; it leaves the default
      listing but is still listed by its owner's. A missing or unknown id fails with 500. */
  method Delete(store: Store, id: Option<int>) returns (resp: Response)
    requires store.Valid()
    modifies store
    ensures store.Valid()
    ensures OneCompanyPerUser(old(store.empresas)) ==> OneCompanyPerUser(store.empresas)
    ensures resp.status == 200 <==> id.Some? && EmpresaIndex(old(store.empresas), id.value).Some?
    ensures resp.status != 200 ==>
      resp == Response(500, ErrorBody("Erro ao desativar empresa")) && store.Snapshot() == old(store.Snapshot())
    ensures resp.status == 200 ==>
      var i := EmpresaIndex(old(store.empresas), id.value).value;
      && resp == Response(200, MessageBody("Empresa desativada com sucesso"))
      && store.Snapshot() == old(store.Snapshot()).(empresas := old(store.empresas)[i := old(store.empresas)[i].(isActive := false)])
      && (forall e :: e in Get(store.Snapshot(), None).body.empresas ==> e.id != id.value)
  {
    if id.None? {
      return Response(500, ErrorBody("Erro ao desativar empresa"));
    }
    var found := EmpresaIndex(store.empresas, id.value);
    if found.None? {
      return Response(500, ErrorBody("Erro ao desativar empresa"));
    }
    var i := found.value;
    var row := store.empresas[i].(isActive := false);
    ReplaceSameKey(store.empresas, EmpresaKey, i, row);
    store.empresas := store.empresas[i := row];
    assert forall j :: 0 <= j < |store.empresas| && store.empresas[j].id == id.value ==> j == i;
    resp := Response(200, MessageBody("Empresa desativada com sucesso"));
  }

  /** Deactivating a company keeps it in its owner's listing. */
  lemma DeactivatedStillListedByOwner(db: Db, i: nat, ownerId: nat)
    requires i < |db.empresas| && db.empresas[i].ownerId == Some(ownerId)
    ensures var db' := db.(empresas := db.empresas[i := db.empresas[i].(isActive := false)]);
      db'.empresas[i] in Get(db', Some(Decimal(ownerId))).body.empresas
  {
    var db' := db.(empresas := db.empresas[i := db.empresas[i].(isActive := false)]);
    GetOfOwner(db', ownerId);
    assert db'.empresas[i] in db'.empresas;
  }
}
