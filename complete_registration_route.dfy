/** /api/empresas/complete-registration: turns an existing user into a company owner, creating
    the company linked to the user and one court per entry of the form. */
module CompleteRegistrationRoute {
  import opened Wrappers
  import opened Tables
  import opened JsValues
  import opened Domain
  import opened Persistence

  /** The JSON body the registration form sends. */
  datatype Request = Request(userId: Option<int>, empresaName: string, contact: string, quadras: seq<QuadraInput>)

  /** The company linked to the user (the user's `empresaOwned`), if any; active or not. */
  function OwnedIndex(rows: seq<Empresa>, userId: int): (r: Option<nat>)
    ensures r.Some? ==> r.value < |rows| && rows[r.value].userId == Some(userId)
    ensures r.None? <==> forall j :: 0 <= j < |rows| ==> rows[j].userId != Some(userId)
  {
    FindFirst(rows, (e: Empresa) => e.userId == Some(userId))
  }

  /** The answer of the guards that run before any write, or None when all pass: a falsy
      userId (400), an unknown user (404), a user who already has a company (400). */
  function Refusal(db: Db, userId: Option<int>): (r: Option<Response>)
    ensures r.None? <==>
      TruthyId(userId) && UserIndex(db.users, userId.value).Some? && OwnedIndex(db.empresas, userId.value).None?
    ensures !TruthyId(userId) ==> r == Some(Response(400, ErrorBody("UserId é obrigatório")))
    ensures TruthyId(userId) && UserIndex(db.users, userId.value).None? ==>
      r == Some(Response(404, ErrorBody("Usuário não encontrado")))
    ensures TruthyId(userId) && UserIndex(db.users, userId.value).Some? && OwnedIndex(db.empresas, userId.value).Some? ==>
      r == Some(Response(400, ErrorBody("Usuário já possui uma empresa cadastrada")))
  {
    if !TruthyId(userId) then Some(Response(400, ErrorBody("UserId é obrigatório")))
    else if UserIndex(db.users, userId.value).None? then Some(Response(404, ErrorBody("Usuário não encontrado")))
    else if OwnedIndex(db.empresas, userId.value).Some? then
      Some(Response(400, ErrorBody("Usuário já possui uma empresa cadastrada")))
    else None
  }

  /** The court created for one form entry: active, available, of the new company, with the
      entry's two prices. */
  function NewQuadra(input: QuadraInput, id: int, empresaId: int): Quadra
  {
    Quadra(id, input.name, input.location, Some(input.description), Some(empresaId),
           Some(input.normal), Some(input.mensalista), true, true)
  }

  /** The courts created for the entries, with consecutive ids from `firstId`. */
  function CreatedQuadras(inputs: seq<QuadraInput>, firstId: int, empresaId: int): (r: seq<Quadra>)
    ensures |r| == |inputs|
    ensures forall k :: 0 <= k < |r| ==>
      && r[k].id == firstId + k
      && r[k].empresaId == Some(empresaId)
      && r[k].name == inputs[k].name && r[k].location == inputs[k].location
      && r[k].description == Some(inputs[k].description)
      && r[k].precoNormal == Some(inputs[k].normal) && r[k].precoMensalista == Some(inputs[k].mensalista)
      && r[k].available && r[k].isActive
  {
    seq(|inputs|, k requires 0 <= k < |inputs| => NewQuadra(inputs[k], firstId + k, empresaId))
  }

  lemma CreatedQuadrasStep(inputs: seq<QuadraInput>, k: nat, firstId: int, empresaId: int)
    requires k < |inputs|
    ensures CreatedQuadras(inputs[..k + 1], firstId, empresaId) ==
      CreatedQuadras(inputs[..k], firstId, empresaId) + [NewQuadra(inputs[k], firstId + k, empresaId)]
  {
  }

  /** The creates of the courts, one per entry and in entry order, each drawing the next id. */
  method AddQuadras(store: Store, inputs: seq<QuadraInput>, empresaId: int) returns (created: seq<Quadra>)
    requires store.Valid()
    modifies store
    ensures store.Valid()
    ensures created == CreatedQuadras(inputs, old(store.nextId), empresaId)
    ensures store.Snapshot() ==
      old(store.Snapshot()).(quadras := old(store.quadras) + created, nextId := old(store.nextId) + |inputs|)
  {
    created := [];
    var k := 0;
    while k < |inputs|
      invariant 0 <= k <= |inputs|
      invariant store.Valid()
      invariant created == CreatedQuadras(inputs[..k], old(store.nextId), empresaId)
      invariant store.Snapshot() ==
        old(store.Snapshot()).(quadras := old(store.quadras) + created, nextId := old(store.nextId) + k)
    {
      var q := NewQuadra(inputs[k], store.nextId, empresaId);
      AppendFreshKey(store.quadras, QuadraKey, store.nextId, q);
      BumpKeepsValid(store.Snapshot());
      CreatedQuadrasStep(inputs, k, old(store.nextId), empresaId);
      store.quadras := store.quadras + [q];
      store.nextId := store.nextId + 1;
      created := created + [q];
      k := k + 1;
    }
    assert inputs[..k] == inputs;
  }

  /** The update of the user's type, the last write of the route. */
  method MarkAsEmpresa(store: Store, i: nat)
    requires store.Valid() && i < |store.users|
    modifies store
    ensures store.Valid()
    ensures store.Snapshot() ==
      old(store.Snapshot()).(users := old(store.users)[i := old(store.users)[i].(userType := EmpresaType)])
  {
    var u := store.users[i].(userType := EmpresaType);
    ReplaceSameKey(store.users, UserKey, i, u);
    ReplaceSameKey(store.users, UserEmail, i, u);
    store.users := store.users[i := u];
  }

  /** Linking a new company to a user who has none keeps one company per user. */
  lemma LinkNewOwnerKeepsOne(rows: seq<Empresa>, e: Empresa)
    requires OneCompanyPerUser(rows)
    requires e.userId.Some? && forall j :: 0 <= j < |rows| ==> rows[j].userId != e.userId
    ensures OneCompanyPerUser(rows + [e])
  {
  }

  /** The writes of a request that passed the guards: the company linked to the user, one
      court per entry, then the user's type. */
  method Complete(store: Store, uid: int, i: nat, req: Request) returns (e: Empresa, qs: seq<Quadra>)
    requires store.Valid() && i < |store.users| && store.users[i].id == uid
    requires forall j :: 0 <= j < |store.empresas| ==> store.empresas[j].userId != Some(uid)
    modifies store
    ensures store.Valid()
    ensures e == Empresa(old(store.nextId), req.empresaName, None, Some(req.contact), None, Some(uid), true)
    ensures qs == CreatedQuadras(req.quadras, old(store.nextId) + 1, old(store.nextId))
    ensures store.Snapshot() == old(store.Snapshot()).(
      users := old(store.users)[i := old(store.users)[i].(userType := EmpresaType)],
      empresas := old(store.empresas) + [e],
      quadras := old(store.quadras) + qs,
      nextId := old(store.nextId) + 1 + |req.quadras|)
    ensures OwnedIndex(store.empresas, uid).Some?
    ensures OneCompanyPerUser(old(store.empresas)) ==> OneCompanyPerUser(store.empresas)
  {
    e := Empresa(store.nextId, req.empresaName, None, Some(req.contact), None, Some(uid), true);
    AppendFreshKey(store.empresas, EmpresaKey, store.nextId, e);
    BumpKeepsValid(store.Snapshot());
    if OneCompanyPerUser(store.empresas) {
      LinkNewOwnerKeepsOne(store.empresas, e);
    }
    store.empresas := store.empresas + [e];
    store.nextId := store.nextId + 1;
    qs := AddQuadras(store, req.quadras, e.id);
    MarkAsEmpresa(store, i);
    assert store.empresas[|store.empresas| - 1] == e;
  }

  /** POST. When a guard refuses, nothing is written. Otherwise the company is created linked
      to the user, then one court per entry, then the user's type becomes `empresa` and nothing
      else of the user changes. A repeated request is refused, since the user now owns a
      company. */
  method Post(store: Store, req: Request) returns (resp: Response)
    requires store.Valid()
    modifies store
    ensures store.Valid()
    ensures Refusal(old(store.Snapshot()), req.userId).Some? ==>
      resp == Refusal(old(store.Snapshot()), req.userId).value && store.Snapshot() == old(store.Snapshot())
    ensures Refusal(old(store.Snapshot()), req.userId).None? ==>
      var uid := req.userId.value;
      var i := UserIndex(old(store.users), uid).value;
      var e := Empresa(old(store.nextId), req.empresaName, None, Some(req.contact), None, Some(uid), true);
      var qs := CreatedQuadras(req.quadras, old(store.nextId) + 1, old(store.nextId));
      && resp == Response(200, RegistrationCompleted(e, qs))
      && store.Snapshot() == old(store.Snapshot()).(
           users := old(store.users)[i := old(store.users)[i].(userType := EmpresaType)],
           empresas := old(store.empresas) + [e],
           quadras := old(store.quadras) + qs,
           nextId := old(store.nextId) + 1 + |req.quadras|)
    ensures resp.status == 200 ==>
      Refusal(store.Snapshot(), req.userId) == Some(Response(400, ErrorBody("Usuário já possui uma empresa cadastrada")))
    ensures OneCompanyPerUser(old(store.empresas)) ==> OneCompanyPerUser(store.empresas)
  {
    var refusal := Refusal(store.Snapshot(), req.userId);
    if refusal.Some? {
      return refusal.value;
    }
    var uid := req.userId.value;
    var i := UserIndex(store.users, uid).value;
    var e, qs := Complete(store, uid, i, req);
    assert UserIndex(store.users, uid).Some? by {
      assert store.users[i].id == uid;
    }
    resp := Response(200, RegistrationCompleted(e, qs));
  }
}
