/** src/services/precoService.ts: a company's prices and the price of a booking. */
module PrecoService {
  import opened Wrappers
  import opened Tables
  import opened Domain

  /** getPricesByEmpresa: the company's active prices, in stored order. */
  function PricesByEmpresa(prices: seq<Price>, empresaId: int): (r: seq<Price>)
    ensures forall p :: p in r <==> p in prices && p.empresaId == Some(empresaId) && p.isActive
    ensures forall p :: multiset(r)[p] ==
                          (if p.empresaId == Some(empresaId) && p.isActive then multiset(prices)[p] else 0)
  {
    Filter(prices, (p: Price) => p.empresaId == Some(empresaId) && p.isActive)
  }

  /** A join row links the court to the price id. */
  predicate Joined(joins: seq<QuadraPrice>, quadraId: int, priceId: int)
  {
    exists k :: 0 <= k < |joins| && joins[k].quadraId == quadraId && joins[k].priceId == priceId
  }

  /** The prices joined to a court, in the order of the join table (the `findMany` on the join
      table with its price included). A join row whose price row is gone contributes nothing. */
  function JoinedPrices(joins: seq<QuadraPrice>, prices: seq<Price>, quadraId: int): (r: seq<Price>)
    ensures forall p :: p in r ==> p in prices && Joined(joins, quadraId, p.id)
  {
    if joins == [] then []
    else
      var rest := JoinedPrices(joins[1..], prices, quadraId);
      assert forall k :: 1 <= k < |joins| ==> joins[1..][k - 1] == joins[k];
      var i := PriceIndex(prices, joins[0].priceId);
      if joins[0].quadraId == quadraId && i.Some? then [prices[i.value]] + rest else rest
  }

  /** Every join row of the court whose price row exists contributes that price. */
  lemma {:induction false} JoinedPricesComplete(joins: seq<QuadraPrice>, prices: seq<Price>, quadraId: int, k: nat)
    requires k < |joins| && joins[k].quadraId == quadraId && PriceIndex(prices, joins[k].priceId).Some?
    ensures prices[PriceIndex(prices, joins[k].priceId).value] in JoinedPrices(joins, prices, quadraId)
  {
    if k > 0 {
      assert joins[1..][k - 1] == joins[k];
      JoinedPricesComplete(joins[1..], prices, quadraId, k - 1);
    }
  }

  /** The type of price a customer pays. */
  function WantedType(isMensalista: bool): string
  {
    if isMensalista then "mensalista" else "normal"
  }

  /** The amount due for `duration` hours at price `p`. */
  function Total(p: Price, duration: real): real
  {
    p.value * duration
  }

  /** Index of the first price of type `t`, if any (the `find` of calculatePrice). */
  function FirstOfType(prices: seq<Price>, t: string): (r: Option<nat>)
    ensures r.Some? ==> r.value < |prices| && prices[r.value].priceType == t
    ensures r.Some? ==> forall j :: 0 <= j < r.value ==> prices[j].priceType != t
    ensures r.None? <==> forall j :: 0 <= j < |prices| ==> prices[j].priceType != t
  {
    FindFirst(prices, (p: Price) => p.priceType == t)
  }

  /** calculatePrice: the value of the first joined price of the wanted type, times the
      duration. A missing price and a price whose value is 0 (falsy) both fail. */
  function CalculatePrice(db: Db, quadraId: int, duration: real, isMensalista: bool): (r: Result<real, string>)
    ensures r.Ok? ==> exists p :: p in db.prices && Joined(db.quadraPrices, quadraId, p.id)
                                  && p.priceType == WantedType(isMensalista) && p.value != 0.0
                                  && r.value == Total(p, duration)
    ensures var joined := JoinedPrices(db.quadraPrices, db.prices, quadraId);
      var first := FirstOfType(joined, WantedType(isMensalista));
      (r.Err? <==> first.None? || joined[first.value].value == 0.0) &&
      (r.Ok? ==> first.Some? && r.value == Total(joined[first.value], duration))
    ensures r.Err? ==> r.error == "Preço não encontrado"
  {
    var joined := JoinedPrices(db.quadraPrices, db.prices, quadraId);
    var first := FirstOfType(joined, WantedType(isMensalista));
    if first.None? || joined[first.value].value == 0.0 then Err("Preço não encontrado")
    else
      assert joined[first.value] in joined;
      Ok(Total(joined[first.value], duration))
  }

  /** Join rows of other courts never change a court's joined prices. */
  lemma {:induction false} JoinedPricesIgnoresOtherCourts(joins: seq<QuadraPrice>, prices: seq<Price>, quadraId: int, qp: QuadraPrice)
    requires qp.quadraId != quadraId
    ensures JoinedPrices(joins + [qp], prices, quadraId) == JoinedPrices(joins, prices, quadraId)
  {
    if joins != [] {
      assert (joins + [qp])[1..] == joins[1..] + [qp];
      JoinedPricesIgnoresOtherCourts(joins[1..], prices, quadraId, qp);
    }
  }

  /** Only prices joined to the court matter: linking a price to another court leaves the
      court's price unchanged. */
  lemma OtherCourtsJoinsIrrelevant(db: Db, quadraId: int, qp: QuadraPrice, duration: real, isMensalista: bool)
    requires qp.quadraId != quadraId
    ensures CalculatePrice(db.(quadraPrices := db.quadraPrices + [qp]), quadraId, duration, isMensalista)
         == CalculatePrice(db, quadraId, duration, isMensalista)
  {
    JoinedPricesIgnoresOtherCourts(db.quadraPrices, db.prices, quadraId, qp);
  }
}
