/**
 * The cart handlers as the compiled JavaScript of the sales service has
 * them. They differ from the TypeScript source in three ways: a missing
 * X-User-ID header is a 403, the body is checked with `=== undefined` and
 * `typeof` (and a quantity to remove must be positive), and the writes of
 * an add or a removal run in one transaction that is rolled back when any
 * statement throws. The header's value is `Some(n)` when present (a present
 * but non-numeric header is not modelled).
 */
module CartDist {
  import opened Common
  import opened ProductDb
  import opened CartDb

  /** GET /carrinho: 403 without the header, otherwise the same lookup as the TypeScript handler. */
  function GetCart(db: Database, userId: Option<int>, fault: Fault): (r: Response)
    reads db
    requires db.Valid()
    ensures r.status == 403 <==> userId.None?
    ensures userId.Some? ==> r == CartLookup(db.Tables(), db.catalog, userId.value, fault)
  {
    if userId.None? then Response(403, None)
    else CartLookup(db.Tables(), db.catalog, userId.value, fault)
  }

  /** The body checks of the add: idProduto present, quantidade a number above zero. */
  predicate AddRequestOk(idProduto: ProductRef, quantidade: JsValue)
  {
    !idProduto.Missing? && quantidade.Number? && quantidade.n > 0
  }

  /** The product the add's SELECT finds: JSON null matches no row. */
  predicate ProductFound(catalog: map<int, Product>, idProduto: ProductRef)
  {
    idProduto.Id? && idProduto.id in catalog
  }

  /** POST /carrinho/adicionar: the checks, then the writes in one transaction. */
  method AddToCart(db: Database, userId: Option<int>, idProduto: ProductRef, quantidade: JsValue,
                   now: int, fault: Fault) returns (r: Response)
    requires db.Valid()
    modifies db`cartOf, db`carts, db`lines, db`nextCartId
    ensures db.Products() == old(db.Products()) && db.nextProductId == old(db.nextProductId)
    ensures db.Valid() && db.catalog == old(db.catalog)
    ensures r.status in {200, 400, 403, 404, 500}
    ensures r.status == 403 <==> userId.None?
    ensures r.status == 400 <==> userId.Some? && !AddRequestOk(idProduto, quantidade)
    ensures r.status == 404 <==>
      userId.Some? && AddRequestOk(idProduto, quantidade) && fault != OnLookup && !ProductFound(db.catalog, idProduto)
    ensures r.status == 200 <==>
      userId.Some? && AddRequestOk(idProduto, quantidade) && ProductFound(db.catalog, idProduto) &&
      (fault == NoFault || (fault == OnCartInsert && userId.value in old(db.cartOf)))
    // All or nothing: a failed request leaves the cart tables exactly as they were.
    ensures r.status != 200 ==> db.Tables() == old(db.Tables())
    ensures r.status == 200 ==>
      db.Tables() == Added(old(db.Tables()), db.catalog, old(db.nextCartId), userId.value,
                           idProduto.id, quantidade.n, now) &&
      r.data == CartDetails(db.Tables(), db.catalog, TargetCart(old(db.Tables()), old(db.nextCartId), userId.value))
    ensures old(db.TotalsConsistent()) ==> db.TotalsConsistent()
  {
    if userId.None? {
      return Response(403, None);
    }
    if !AddRequestOk(idProduto, quantidade) {
      return Response(400, None);
    }
    if fault == OnLookup {
      return Response(500, None);
    }
    if !ProductFound(db.catalog, idProduto) {
      return Response(404, None);
    }
    r := AddInTransaction(db, userId.value, idProduto.id, quantidade.n, now, fault);
  }

  /** The statements between `beginTransaction` and `commit`, with `rollback` when one throws. */
  method AddInTransaction(db: Database, u: int, p: int, q: int, now: int, fault: Fault) returns (r: Response)
    requires db.Valid() && p in db.catalog && q >= 1 && fault != OnLookup
    modifies db`cartOf, db`carts, db`lines, db`nextCartId
    ensures db.Products() == old(db.Products()) && db.nextProductId == old(db.nextProductId)
    ensures db.Valid() && db.catalog == old(db.catalog)
    ensures r.status == 200 || r.status == 500
    ensures r.status == 200 <==> fault == NoFault || (fault == OnCartInsert && u in old(db.cartOf))
    ensures r.status == 500 ==> db.Tables() == old(db.Tables())
    ensures r.status == 200 ==>
      db.Tables() == Added(old(db.Tables()), db.catalog, old(db.nextCartId), u, p, q, now) &&
      r.data == CartDetails(db.Tables(), db.catalog, TargetCart(old(db.Tables()), old(db.nextCartId), u))
    ensures old(db.TotalsConsistent()) ==> db.TotalsConsistent()
  {
    var snapshot := db.Tables();
    ghost var n0 := db.nextCartId;
    var found := db.FindOrCreateCart(u, now, fault == OnCartInsert);
    if found.None? {
      r := Abort(db, snapshot, n0);
      return;
    }
    var cartId := found.value;
    if fault == OnLineWrite {
      r := Abort(db, snapshot, n0);
      return;
    }
    db.UpsertLine(cartId, p, q);
    ghost var t2 := db.Tables();
    if fault == OnTotalUpdate {
      r := Abort(db, snapshot, n0);
      return;
    }
    var _ := db.RecomputeTotal(cartId, now);
    if fault == OnReadBack {
      r := Abort(db, snapshot, n0);
      return;
    }
    assert db.Tables() == TotalRecomputed(t2, db.catalog, cartId, now) == Added(snapshot, db.catalog, n0, u, p, q, now);
    AddedKeeps(snapshot, db.catalog, n0, u, p, q, now);
    r := Response(200, CartDetails(db.Tables(), db.catalog, cartId));
  }

  /** The `catch` of a transaction: `connection.rollback()` to the snapshot taken at `beginTransaction`, then a 500. */
  method Abort(db: Database, snapshot: CartTables, ghost n0: int) returns (r: Response)
    requires db.CatalogOk() && TablesOk(snapshot, db.catalog, n0) && n0 <= db.nextCartId
    modifies db`cartOf, db`carts, db`lines
    ensures db.Valid() && db.Tables() == snapshot && db.catalog == old(db.catalog)
    ensures r.status == 500 && r.data.None?
  {
    TablesOkCounterGrows(snapshot, db.catalog, n0, db.nextCartId);
    db.Rollback(snapshot);
    r := Response(500, None);
  }

  /**
   * The removal rule of the compiled handler, for a quantity that passed the
   * check (absent, or a number above zero): delete the line when nothing or
   * at least the stored quantity is removed, otherwise keep the difference.
   */
  function RemovalDist(current: int, quantidade: Option<int>): (keep: Option<int>)
    requires quantidade.Some? ==> quantidade.value > 0
    ensures keep.None? <==> quantidade.None? || quantidade.value >= current
    ensures keep.Some? ==> keep.value == current - quantidade.value
  {
    if quantidade.None? || quantidade.value >= current then None
    else Some(current - quantidade.value)
  }

  /** A removal never raises a line's quantity, and never stores one below 1. */
  lemma RemovalDistNeverRaises(current: int, quantidade: Option<int>)
    requires quantidade.Some? ==> quantidade.value > 0
    ensures RemovalDist(current, quantidade).Some? ==>
      1 <= RemovalDist(current, quantidade).value < current
  {
  }

  /** The check on the quantity to remove: absent, or a number above zero. */
  predicate RemoveQuantityOk(quantidade: JsValue)
  {
    quantidade.Undefined? || (quantidade.Number? && quantidade.n > 0)
  }

  /** The quantity to remove, once checked. */
  function RemoveAmount(quantidade: JsValue): (a: Option<int>)
    requires RemoveQuantityOk(quantidade)
    ensures a.None? <==> quantidade.Undefined?
    ensures a.Some? ==> a.value == quantidade.n && a.value > 0
  {
    if quantidade.Undefined? then None else Some(quantidade.n)
  }

  /** Whether the removal finds the user's cart and a line of the product in it. */
  predicate LineFound(t: CartTables, u: int, idProduto: ProductRef)
  {
    idProduto.Id? && u in t.cartOf && idProduto.id in LinesIn(t, t.cartOf[u])
  }

  /** POST /carrinho/remover: the checks, then the writes in one transaction. */
  method RemoveFromCart(db: Database, userId: Option<int>, idProduto: ProductRef, quantidade: JsValue,
                        now: int, fault: Fault) returns (r: Response)
    requires db.Valid()
    modifies db`cartOf, db`carts, db`lines, db`nextCartId
    ensures db.Products() == old(db.Products()) && db.nextProductId == old(db.nextProductId)
    ensures db.Valid() && db.catalog == old(db.catalog)
    ensures r.status in {200, 400, 403, 404, 500}
    ensures r.status == 403 <==> userId.None?
    ensures r.status == 400 <==> userId.Some? && (idProduto.Missing? || !RemoveQuantityOk(quantidade))
    ensures r.status == 404 <==>
      userId.Some? && !idProduto.Missing? && RemoveQuantityOk(quantidade) && fault != OnLookup &&
      !LineFound(old(db.Tables()), userId.value, idProduto)
    ensures r.status == 200 <==>
      userId.Some? && RemoveQuantityOk(quantidade) && LineFound(old(db.Tables()), userId.value, idProduto) &&
      (fault == NoFault || fault == OnCartInsert)
    ensures r.status != 200 ==> db.Tables() == old(db.Tables())
    ensures r.status == 200 ==>
      var t, p := old(db.Tables()), idProduto.id;
      var c := t.cartOf[userId.value];
      db.Tables() == Removed(t, db.catalog, c, p, RemovalDist(LinesIn(t, c)[p], RemoveAmount(quantidade)), now) &&
      r.data == CartDetails(db.Tables(), db.catalog, c)
    ensures old(db.TotalsConsistent()) ==> db.TotalsConsistent()
  {
    if userId.None? {
      return Response(403, None);
    }
    if idProduto.Missing? || !RemoveQuantityOk(quantidade) {
      return Response(400, None);
    }
    var u := userId.value;
    if fault == OnLookup {
      return Response(500, None);
    }
    if u !in db.cartOf || !idProduto.Id? || idProduto.id !in db.lines[db.cartOf[u]] {
      return Response(404, None);
    }
    var cartId, p := db.cartOf[u], idProduto.id;
    var keep := RemovalDist(db.lines[cartId][p], RemoveAmount(quantidade));
    r := RemoveInTransaction(db, cartId, p, keep, now, fault);
  }

  /** The removal's writes between `beginTransaction` and `commit`, with `rollback` when one throws. */
  method RemoveInTransaction(db: Database, cartId: int, p: int, keep: Option<int>, now: int, fault: Fault)
    returns (r: Response)
    requires db.Valid() && cartId in db.carts && p in db.lines[cartId] && fault != OnLookup
    requires keep.Some? ==> keep.value >= 1
    modifies db`cartOf, db`carts, db`lines, db`nextCartId
    ensures db.Products() == old(db.Products()) && db.nextProductId == old(db.nextProductId)
    ensures db.Valid() && db.catalog == old(db.catalog)
    ensures r.status == 200 || r.status == 500
    ensures r.status == 200 <==> fault == NoFault || fault == OnCartInsert
    ensures r.status == 500 ==> db.Tables() == old(db.Tables())
    ensures r.status == 200 ==>
      db.Tables() == Removed(old(db.Tables()), db.catalog, cartId, p, keep, now) &&
      r.data == CartDetails(db.Tables(), db.catalog, cartId)
    ensures old(db.TotalsConsistent()) ==> db.TotalsConsistent()
  {
    var snapshot := db.Tables();
    if fault == OnLineWrite {
      r := Abort(db, snapshot, db.nextCartId);
      return;
    }
    db.KeepLine(cartId, p, keep);
    ghost var t1 := db.Tables();
    assert t1 == LineKept(snapshot, cartId, p, keep);
    if fault == OnTotalUpdate {
      r := Abort(db, snapshot, db.nextCartId);
      return;
    }
    var _ := db.RecomputeTotal(cartId, now);
    if fault == OnReadBack {
      r := Abort(db, snapshot, db.nextCartId);
      return;
    }
    assert db.Tables() == TotalRecomputed(t1, db.catalog, cartId, now);
    assert db.Tables() == Removed(snapshot, db.catalog, cartId, p, keep, now);
    RemovedKeeps(snapshot, db.catalog, db.nextCartId, cartId, p, keep, now);
    r := Response(200, CartDetails(db.Tables(), db.catalog, cartId));
  }
}
