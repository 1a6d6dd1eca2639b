/**
 * The cart handlers of the TypeScript source of the sales service
 * (GET /carrinho, POST /carrinho/adicionar, POST /carrinho/remover). They
 * run their statements on the connection pool one by one, with no
 * transaction: a statement that throws leaves the earlier writes in place
 * and the request ends with Express's 500. The caller is identified by
 * `parseInt(X-User-ID, 10)`, where `None` stands for NaN (header missing or
 * not numeric).
 */
module CartTs {
  import opened Common
  import opened ProductDb
  import opened CartDb

  /** GET /carrinho (`listarProdutosDoCarrinho`): 401 without a numeric user id, otherwise the lookup. */
  function GetCart(db: Database, userId: Option<int>, fault: Fault): (r: Response)
    reads db
    requires db.Valid()
    ensures r.status == 401 <==> userId.None?
    ensures userId.Some? ==> r == CartLookup(db.Tables(), db.catalog, userId.value, fault)
  {
    if userId.None? then Response(401, None)
    else CartLookup(db.Tables(), db.catalog, userId.value, fault)
  }

  /** The guard of the add handler: a truthy idProduto and a quantity that is a number above zero. */
  predicate AddRequestOk(idProduto: ProductRef, quantidade: JsValue)
  {
    idProduto.Id? && idProduto.id != 0 && quantidade.Number? && quantidade.n > 0
  }

  /** Whether the fault strikes a statement the add actually runs (the Carrinho insert runs only for a new user). */
  predicate AddFaultHits(t: CartTables, u: int, fault: Fault)
  {
    fault != NoFault && !(fault == OnCartInsert && u in t.cartOf)
  }

  /**
   * The tables an add leaves behind once the product is known to exist:
   * the writes made before the failing statement, or all of them.
   */
  ghost function AddEffect(t: CartTables, catalog: map<int, Product>, nextId: int, u: int, p: int, q: int,
                           now: int, fault: Fault): CartTables
  {
    var c := TargetCart(t, nextId, u);
    match fault
    case OnLookup => t
    case OnCartInsert => if u in t.cartOf then Added(t, catalog, nextId, u, p, q, now) else t
    case OnLineWrite => CartFound(t, nextId, u, now)
    case OnTotalUpdate => LineUpserted(CartFound(t, nextId, u, now), c, p, q)
    case _ => Added(t, catalog, nextId, u, p, q, now)
  }

  /** POST /carrinho/adicionar (`adicionarProdutoAoCarrinho`). */
  method AddToCart(db: Database, userId: Option<int>, idProduto: ProductRef, quantidade: JsValue,
                   now: int, fault: Fault) returns (r: Response)
    requires db.Valid()
    modifies db`cartOf, db`carts, db`lines, db`nextCartId
    ensures db.Products() == old(db.Products()) && db.nextProductId == old(db.nextProductId)
    ensures db.Valid() && db.catalog == old(db.catalog)
    ensures r.status in {200, 400, 401, 404, 500}
    ensures r.status == 401 <==> userId.None?
    ensures r.status == 400 <==> userId.Some? && !AddRequestOk(idProduto, quantidade)
    ensures r.status == 404 <==>
      userId.Some? && AddRequestOk(idProduto, quantidade) && fault != OnLookup && idProduto.id !in db.catalog
    ensures r.status == 200 <==>
      userId.Some? && AddRequestOk(idProduto, quantidade) && idProduto.id in db.catalog &&
      !AddFaultHits(old(db.Tables()), userId.value, fault)
    ensures r.status in {400, 401, 404} ==> db.Tables() == old(db.Tables())
    ensures r.status in {200, 500} ==>
      db.Tables() == AddEffect(old(db.Tables()), db.catalog, old(db.nextCartId), userId.value,
                               idProduto.id, quantidade.n, now, fault)
    ensures r.status == 200 ==>
      r.data == CartDetails(db.Tables(), db.catalog, TargetCart(old(db.Tables()), old(db.nextCartId), userId.value))
  {
    if userId.None? {
      return Response(401, None);
    }
    if !AddRequestOk(idProduto, quantidade) {
      return Response(400, None);
    }
    var u, p, q := userId.value, idProduto.id, quantidade.n;
    if fault == OnLookup {
      return Response(500, None);
    }
    if p !in db.catalog {
      return Response(404, None);
    }
    r := AddExistingProduct(db, u, p, q, now, fault);
  }

  /** The statements of the add once the product row was found: find or create the cart, upsert, recompute, read back. */
  method AddExistingProduct(db: Database, u: int, p: int, q: int, now: int, fault: Fault) returns (r: Response)
    requires db.Valid() && p in db.catalog && q >= 1 && fault != OnLookup
    modifies db`cartOf, db`carts, db`lines, db`nextCartId
    ensures db.Products() == old(db.Products()) && db.nextProductId == old(db.nextProductId)
    ensures db.Valid() && db.catalog == old(db.catalog)
    ensures r.status == 200 || r.status == 500
    ensures r.status == 200 <==> !AddFaultHits(old(db.Tables()), u, fault)
    ensures db.Tables() == AddEffect(old(db.Tables()), db.catalog, old(db.nextCartId), u, p, q, now, fault)
    ensures r.status == 200 ==>
      r.data == CartDetails(db.Tables(), db.catalog, TargetCart(old(db.Tables()), old(db.nextCartId), u))
  {
    ghost var t0, n0 := db.Tables(), db.nextCartId;
    var found := db.FindOrCreateCart(u, now, fault == OnCartInsert);
    if found.None? {
      return Response(500, None);
    }
    var cartId := found.value;
    if fault == OnLineWrite {
      return Response(500, None);
    }
    db.UpsertLine(cartId, p, q);
    ghost var t2 := db.Tables();
    assert t2 == LineUpserted(CartFound(t0, n0, u, now), cartId, p, q);
    if fault == OnTotalUpdate {
      return Response(500, None);
    }
    var _ := db.RecomputeTotal(cartId, now);
    assert db.Tables() == TotalRecomputed(t2, db.catalog, cartId, now) == Added(t0, db.catalog, n0, u, p, q, now);
    if fault == OnReadBack {
      return Response(500, None);
    }
    // The cart row was just found or inserted, so the "cart vanished" 500 branch cannot be taken.
    r := Response(200, CartDetails(db.Tables(), db.catalog, cartId));
  }

  /**
   * Every failure except one in the total's recomputation leaves consistent
   * tables consistent: before the line write nothing priced has changed,
   * and after the recompute the cart is up to date.
   */
  lemma AddEffectConsistent(t: CartTables, catalog: map<int, Product>, nextId: int, u: int, p: int, q: int,
                            now: int, fault: Fault)
    requires TablesOk(t, catalog, nextId) && Consistent(t, catalog) && p in catalog && q >= 1
    requires fault != OnTotalUpdate
    ensures Consistent(AddEffect(t, catalog, nextId, u, p, q, now, fault), catalog)
  {
    AddedSpec(t, catalog, nextId, u, p, q, now);
    if fault == OnLineWrite && u !in t.cartOf {
      CartInsertedOk(t, catalog, nextId, u, now);
    }
  }

  /**
   * Without a transaction, a failure while recomputing the total leaves a
   * cart whose stored total no longer matches its lines: an empty cart of
   * total 0 that received one unit of a product costing 100.
   */
  lemma TotalUpdateFaultBreaksTotals()
    ensures var catalog := map[5 := Product("Bola", 100, Brinquedo, None)];
      var t := CartTables(map[1 := 10], map[10 := CartRow(1, 0, 0, 0)], map[10 := map[]]);
      TablesOk(t, catalog, 11) && Consistent(t, catalog) &&
      !Consistent(AddEffect(t, catalog, 11, 1, 5, 1, 0, OnTotalUpdate), catalog)
  {
    var catalog := map[5 := Product("Bola", 100, Brinquedo, None)];
    var t := CartTables(map[1 := 10], map[10 := CartRow(1, 0, 0, 0)], map[10 := map[]]);
    LinesTotalEmpty(catalog);
    assert TotalOk(t, catalog, 10);
    var t' := AddEffect(t, catalog, 11, 1, 5, 1, 0, OnTotalUpdate);
    var none: map<int, int> := map[];
    assert LinesIn(t', 10) == none[5 := 1];
    LinesTotalUpdate(catalog, none, 5, 1);
    assert none - {5} == none;
    assert !TotalOk(t', catalog, 10);
  }

  /** The removal rule of the TypeScript handler: delete the line (None), or the quantity to keep. */
  function RemovalTs(current: int, quantidade: Option<int>): (keep: Option<int>)
    ensures keep.None? <==> quantidade.None? || quantidade.value == 0 || quantidade.value >= current
    ensures keep.Some? ==> keep.value == current - quantidade.value
  {
    if quantidade.None? || quantidade.value == 0 || quantidade.value >= current then None
    else Some(current - quantidade.value)
  }

  /** The TypeScript rule never stores a quantity below 1, whatever number is sent. */
  lemma RemovalTsKeepsPositive(current: int, quantidade: Option<int>)
    requires current >= 1
    ensures RemovalTs(current, quantidade).Some? ==> RemovalTs(current, quantidade).value >= 1
  {
  }

  /** A negative quantity is not rejected: "removing" -k units raises the stored quantity by k. */
  lemma RemovalTsNegativeRaises(current: int, k: int)
    requires current >= 1 && k > 0
    ensures RemovalTs(current, Some(-k)) == Some(current + k)
  {
  }

  /** The tables a removal leaves behind once the line is known to exist. */
  ghost function RemoveEffect(t: CartTables, catalog: map<int, Product>, c: int, p: int, keep: Option<int>,
                              now: int, fault: Fault): CartTables
  {
    match fault
    case OnLookup => t
    case OnLineWrite => t
    case OnTotalUpdate => LineKept(t, c, p, keep)
    case _ => Removed(t, catalog, c, p, keep, now)
  }

  /** Whether the removal reaches the line lookup with a truthy idProduto, a cart and a line to work on. */
  predicate LineFound(t: CartTables, userId: Option<int>, idProduto: ProductRef)
  {
    userId.Some? && idProduto.Id? && idProduto.id != 0 &&
    userId.value in t.cartOf && idProduto.id in LinesIn(t, t.cartOf[userId.value])
  }

  /** POST /carrinho/remover (`removerProdutoDoCarrinho`); `quantidade` is a JSON number or absent. */
  method RemoveFromCart(db: Database, userId: Option<int>, idProduto: ProductRef, quantidade: Option<int>,
                        now: int, fault: Fault) returns (r: Response)
    requires db.Valid()
    modifies db`cartOf, db`carts, db`lines, db`nextCartId
    ensures db.Products() == old(db.Products()) && db.nextProductId == old(db.nextProductId)
    ensures db.Valid() && db.catalog == old(db.catalog)
    ensures r.status in {200, 400, 401, 404, 500}
    ensures r.status == 401 <==> userId.None?
    ensures r.status == 400 <==> userId.Some? && !(idProduto.Id? && idProduto.id != 0)
    ensures r.status == 404 <==>
      userId.Some? && idProduto.Id? && idProduto.id != 0 && fault != OnLookup &&
      !LineFound(old(db.Tables()), userId, idProduto)
    ensures r.status == 200 <==>
      LineFound(old(db.Tables()), userId, idProduto) && (fault == NoFault || fault == OnCartInsert)
    ensures !LineFound(old(db.Tables()), userId, idProduto) ==> db.Tables() == old(db.Tables())
    ensures LineFound(old(db.Tables()), userId, idProduto) ==>
      var t, p := old(db.Tables()), idProduto.id;
      var c := t.cartOf[userId.value];
      db.Tables() == RemoveEffect(t, db.catalog, c, p, RemovalTs(LinesIn(t, c)[p], quantidade), now, fault) &&
      (r.status == 200 ==> r.data == CartDetails(db.Tables(), db.catalog, c))
  {
    if userId.None? {
      return Response(401, None);
    }
    if !(idProduto.Id? && idProduto.id != 0) {
      return Response(400, None);
    }
    var u, p := userId.value, idProduto.id;
    if fault == OnLookup {
      return Response(500, None);
    }
    if u !in db.cartOf {
      return Response(404, None);
    }
    var cartId := db.cartOf[u];
    if p !in db.lines[cartId] {
      return Response(404, None);
    }
    var keep := RemovalTs(db.lines[cartId][p], quantidade);
    r := RemoveFoundLine(db, cartId, p, keep, now, fault);
  }

  /** The writes of a removal once the line is found: each statement runs, and stays, unless one before it threw. */
  method RemoveFoundLine(db: Database, cartId: int, p: int, keep: Option<int>, now: int, fault: Fault)
    returns (r: Response)
    requires db.Valid() && cartId in db.carts && p in db.lines[cartId] && fault != OnLookup
    requires keep.Some? ==> keep.value >= 1
    modifies db`cartOf, db`carts, db`lines, db`nextCartId
    ensures db.Products() == old(db.Products()) && db.nextProductId == old(db.nextProductId)
    ensures db.Valid() && db.catalog == old(db.catalog)
    ensures r.status == 200 || r.status == 500
    ensures r.status == 200 <==> fault == NoFault || fault == OnCartInsert
    ensures db.Tables() == RemoveEffect(old(db.Tables()), db.catalog, cartId, p, keep, now, fault)
    ensures r.status == 200 ==> r.data == CartDetails(db.Tables(), db.catalog, cartId)
  {
    if fault == OnLineWrite {
      return Response(500, None);
    }
    ghost var t0 := db.Tables();
    db.KeepLine(cartId, p, keep);
    ghost var t1 := db.Tables();
    if fault == OnTotalUpdate {
      return Response(500, None);
    }
    var _ := db.RecomputeTotal(cartId, now);
    assert db.Tables() == TotalRecomputed(t1, db.catalog, cartId, now) == Removed(t0, db.catalog, cartId, p, keep, now);
    if fault == OnReadBack {
      return Response(500, None);
    }
    r := Response(200, CartDetails(db.Tables(), db.catalog, cartId));
  }
}
