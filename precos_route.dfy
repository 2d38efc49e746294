/** /api/precos: list active prices; create; overwrite a price; hard delete. */
module PrecosRoute {
  import opened Wrappers
  import opened Tables
  import opened JsValues
  import opened Domain
  import opened Persistence

  /** The JSON body of POST. */
  datatype CreateRequest = CreateRequest(duration: real, priceType: string, value: real)

  /** The JSON body of PUT; None leaves the column as it is. */
  datatype UpdateRequest = UpdateRequest(id: Option<int>, duration: Option<real>, priceType: Option<string>, value: Option<real>)

  /** GET: every active price, in stored order. */
  function Get(db: Db): (r: Response)
    ensures r.status == 200 && r.body.PriceList?
    ensures forall p :: p in r.body.prices <==> p in db.prices && p.isActive
    ensures forall p :: multiset(r.body.prices)[p] == (if p.isActive then multiset(db.prices)[p] else 0)
  {
    Response(200, PriceList(Filter(db.prices, (p: Price) => p.isActive)))
  }

  /** POST: one active price appended, with no company. */
  method Post(store: Store, req: CreateRequest) returns (resp: Response)
    requires store.Valid()
    modifies store
    ensures store.Valid()
    ensures resp.status == 201
    ensures var p := Price(old(store.nextId), req.duration, req.priceType, req.value, None, true);
      && resp.body == PriceBody(p)
      && store.Snapshot() == old(store.Snapshot()).(prices := old(store.prices) + [p], nextId := old(store.nextId) + 1)
  {
    var p := Price(store.nextId, req.duration, req.priceType, req.value, None, true);
    AppendFreshKey(store.prices, PriceKey, store.nextId, p);
    BumpKeepsValid(store.Snapshot());
    store.prices := store.prices + [p];
    store.nextId := store.nextId + 1;
    resp := Response(201, PriceBody(p));
  }

  /** The row PUT writes: duration, type and value where given, the rest as it was. */
  function Updated(p: Price, req: UpdateRequest): (r: Price)
    ensures r.(duration := p.duration, priceType := p.priceType, value := p.value) == p
    ensures r.duration == (if req.duration.Some? then req.duration.value else p.duration)
    ensures r.priceType == (if req.priceType.Some? then req.priceType.value else p.priceType)
    ensures r.value == (if req.value.Some? then req.value.value else p.value)
  {
    p.(duration := req.duration.GetOr(p.duration),
       priceType := req.priceType.GetOr(p.priceType),
       value := req.value.GetOr(p.value))
  }

  /** PUT: a missing or unknown id fails with 500 and writes nothing. */
  method Put(store: Store, req: UpdateRequest) returns (resp: Response)
    requires store.Valid()
    modifies store
    ensures store.Valid()
    ensures resp.status == 200 <==> req.id.Some? && PriceIndex(old(store.prices), req.id.value).Some?
    ensures resp.status != 200 ==>
      resp == Response(500, ErrorBody("Erro ao atualizar preço")) && store.Snapshot() == old(store.Snapshot())
    ensures resp.status == 200 ==>
      var i := PriceIndex(old(store.prices), req.id.value).value;
      && store.Snapshot() == old(store.Snapshot()).(prices := old(store.prices)[i := Updated(old(store.prices)[i], req)])
      && resp.body == PriceBody(store.prices[i])
  {
    if req.id.None? {
      return Response(500, ErrorBody("Erro ao atualizar preço"));
    }
    var found := PriceIndex(store.prices, req.id.value);
    if found.None? {
      return Response(500, ErrorBody("Erro ao atualizar preço"));
    }
    var i := found.value;
    var row := Updated(store.prices[i], req);
    ReplaceSameKey(store.prices, PriceKey, i, row);
    store.prices := store.prices[i := row];
    resp := Response(200, PriceBody(row));
  }

  /** DELETE: as for time slots, a falsy `Number` of the `id` parameter is refused with 400,
      an unknown id fails with 500, and otherwise that one row leaves the table. */
  method Delete(store: Store, idParam: Option<string>) returns (resp: Response)
    requires store.Valid()
    modifies store
    ensures store.Valid()
    ensures !Truthy(NumberOfParam(idParam)) ==> resp == Response(400, ErrorBody("ID inválido"))
    ensures resp.status == 200 <==>
      Truthy(NumberOfParam(idParam)) && PriceIndex(old(store.prices), NumberOfParam(idParam).n).Some?
    ensures Truthy(NumberOfParam(idParam)) && resp.status != 200 ==> resp == Response(500, ErrorBody("Erro ao excluir preço"))
    ensures resp.status != 200 ==> store.Snapshot() == old(store.Snapshot())
    ensures resp.status == 200 ==>
      var id := NumberOfParam(idParam).n;
      var i := PriceIndex(old(store.prices), id).value;
      && resp == Response(200, MessageBody("Preço excluído com sucesso"))
      && store.Snapshot() == old(store.Snapshot()).(prices := RemoveAt(old(store.prices), i))
      && (forall p :: p in store.prices ==> p.id != id)
      && (forall p :: p in old(store.prices) && p.id != id ==> p in store.prices)
  {
    var id := NumberOfParam(idParam);
    if !Truthy(id) {
      return Response(400, ErrorBody("ID inválido"));
    }
    var found := PriceIndex(store.prices, id.n);
    if found.None? {
      return Response(500, ErrorBody("Erro ao excluir preço"));
    }
    var i := found.value;
    ghost var before := store.prices;
    RemoveKeepsKeys(store.prices, PriceKey, store.nextId, i);
    store.prices := RemoveAt(store.prices, i);
    forall p | p in before && p.id != id.n ensures p in store.prices {
      var j :| 0 <= j < |before| && before[j] == p;
      assert j != i;
      if j < i { assert store.prices[j] == p; } else { assert store.prices[j - 1] == p; }
    }
    resp := Response(200, MessageBody("Preço excluído com sucesso"));
  }
}
