/**
 * The MySQL schema the sales service ("vendas") works on: the product
 * catalog (ProdutoBase with its three subtype tables) and the cart tables
 * (Carrinho headers and ItemCarrinho lines), together with the statements
 * the cart handlers issue and the two read helpers they share:
 * `atualizarTotalCarrinho` (recompute and store the total) and
 * `obterDetalhesCarrinhoFormatado` (header plus lines joined with the
 * catalog). Money is in integer cents.
 *
 * Each statement is specified twice: as a function on the cart tables
 * taken as one value (`CartTables`), whose effect on the invariants is
 * proved by a lemma, and as a method of `Database` that performs it on the
 * mutable tables and is proved to produce exactly that value.
 */
module CartDb {
  import opened Common
  import opened ProductDb

  /** A Carrinho row (the id is the key of the carts map); times come from `NOW()`. */
  datatype CartRow = CartRow(owner: int, total: int, createdAt: int, modifiedAt: int)

  /** One formatted line of a cart: `{idProduto, quantidade, nome, preco}` keyed by idProduto. */
  datatype ItemView = ItemView(quantity: int, name: string, price: int)

  /** The cart part of a response: the header columns spread out, plus `itens`. */
  datatype CartView = CartView(cartId: Option<int>, userId: int, total: int,
                               createdAt: Option<int>, modifiedAt: Option<int>,
                               items: map<int, ItemView>)

  /**
   * The statement at which the database throws during one handler, if any:
   * a read before the first write, the Carrinho insert, the ItemCarrinho
   * write, the total recomputation, or the final read-back (with the commit,
   * where there is one).
   */
  datatype Fault = NoFault | OnLookup | OnCartInsert | OnLineWrite | OnTotalUpdate | OnReadBack

  /** An HTTP answer of a cart handler: the status code and, on success, the cart. */
  datatype Response = Response(status: int, data: Option<CartView>)

  /** The `idProduto` of a request body: absent, JSON null, or a JSON number. */
  datatype ProductRef = Missing | NullRef | Id(id: int)

  /**
   * The three cart tables: Carrinho looked up by idUsuario, Carrinho rows by
   * idCarrinho, and ItemCarrinho as idCarrinho -> idProduto -> quantidade.
   */
  datatype CartTables = CartTables(cartOf: map<int, int>, carts: map<int, CartRow>, lines: map<int, map<int, int>>)

  /** One row of `SELECT ic.quantidade, pb.preco ... JOIN ProdutoBase`. */
  datatype PricedRow = PricedRow(quantity: int, price: int)

  /** The "never bought anything" answer to GET /carrinho. */
  function EmptyCartSentinel(userId: int): (v: CartView)
    ensures v.cartId.None? && v.createdAt.None? && v.modifiedAt.None?
    ensures v.userId == userId && v.total == 0 && v.items == map[]
  {
    CartView(None, userId, 0, None, None, map[])
  }

  /** Sum of the values of a map, in no particular order. */
  ghost function SumMap<K>(m: map<K, int>): int
    decreases |m.Keys|
  {
    if m.Keys == {} then 0
    else
      var k :| k in m.Keys;
      m[k] + SumMap(m - {k})
  }

  /** The sum does not depend on which key is taken out first. */
  lemma {:induction false} SumMapSplit<K>(m: map<K, int>, k: K)
    requires k in m
    ensures SumMap(m) == m[k] + SumMap(m - {k})
    decreases |m.Keys|
  {
    var j :| j in m.Keys && SumMap(m) == m[j] + SumMap(m - {j});
    if j != k {
      var mj := m - {j};
      var mk := m - {k};
      assert mj.Keys == m.Keys - {j};
      SumMapSplit(mj, k);
      assert mk.Keys == m.Keys - {k};
      SumMapSplit(mk, j);
      assert mj - {k} == mk - {j};
    }
  }

  /** The lines of a cart after the upsert of q units of product p. */
  function Merge(lines: map<int, int>, p: int, q: int): (m: map<int, int>)
    ensures m.Keys == lines.Keys + {p}
    ensures m[p] == (if p in lines then lines[p] else 0) + q
    ensures forall p' :: p' in lines && p' != p ==> m[p'] == lines[p']
  {
    lines[p := (if p in lines then lines[p] else 0) + q]
  }

  /** What one cart line adds to the total: the JOIN drops a line whose product is gone. */
  function LineValue(catalog: map<int, Product>, p: int, q: int): int
  {
    if p in catalog then q * catalog[p].price else 0
  }

  function LineValues(catalog: map<int, Product>, lines: map<int, int>): map<int, int>
  {
    map p | p in lines :: LineValue(catalog, p, lines[p])
  }

  /** Σ quantity × current catalog price over the lines of one cart. */
  ghost function LinesTotal(catalog: map<int, Product>, lines: map<int, int>): int
  {
    SumMap(LineValues(catalog, lines))
  }

  /** A cart with no lines is worth nothing. */
  lemma LinesTotalEmpty(catalog: map<int, Product>)
    ensures LinesTotal(catalog, map[]) == 0
  {
    assert LineValues(catalog, map[]).Keys == {};
  }

  /** Writing quantity v for product p changes the total by p's new value only. */
  lemma LinesTotalUpdate(catalog: map<int, Product>, lines: map<int, int>, p: int, v: int)
    ensures LinesTotal(catalog, lines[p := v]) == LinesTotal(catalog, lines - {p}) + LineValue(catalog, p, v)
  {
    var m := LineValues(catalog, lines[p := v]);
    SumMapSplit(m, p);
    assert m - {p} == LineValues(catalog, lines - {p});
  }

  /** Deleting the line of product p takes exactly its value out of the total. */
  lemma LinesTotalDelete(catalog: map<int, Product>, lines: map<int, int>, p: int)
    requires p in lines
    ensures LinesTotal(catalog, lines) == LinesTotal(catalog, lines - {p}) + LineValue(catalog, p, lines[p])
  {
    assert lines == (lines - {p})[p := lines[p]];
    LinesTotalUpdate(catalog, lines - {p}, p, lines[p]);
    assert (lines - {p}) - {p} == lines - {p};
  }

  /** A product the cart does not hold can enter the catalog without changing the cart's total. */
  lemma LinesTotalNewProduct(catalog: map<int, Product>, lines: map<int, int>, id: int, prod: Product)
    requires id !in lines
    ensures LinesTotal(catalog[id := prod], lines) == LinesTotal(catalog, lines)
  {
    assert LineValues(catalog[id := prod], lines) == LineValues(catalog, lines);
  }

  /** No product has a negative price. */
  ghost predicate PricesOk(catalog: map<int, Product>)
  {
    forall id :: id in catalog ==> catalog[id].price >= 0
  }

  /** A sum of non-negative values is non-negative. */
  lemma {:induction false} SumMapNonNegative<K>(m: map<K, int>)
    requires forall k :: k in m ==> m[k] >= 0
    ensures SumMap(m) >= 0
    decreases |m.Keys|
  {
    if m.Keys != {} {
      var k := PickKey(m.Keys);
      SumMapSplit(m, k);
      SumMapNonNegative(m - {k});
    }
  }

  /** With no negative price and positive quantities, a cart is worth at least nothing. */
  lemma LinesTotalNonNegative(catalog: map<int, Product>, lines: map<int, int>)
    requires PricesOk(catalog) && forall p :: p in lines ==> lines[p] >= 1
    ensures LinesTotal(catalog, lines) >= 0
  {
    var m := LineValues(catalog, lines);
    forall p | p in m
      ensures m[p] >= 0
    {
      if p in catalog {
        assert m[p] == lines[p] * catalog[p].price;
      }
    }
    SumMapNonNegative(m);
  }

  /** The `itens` of a cart: every line whose product the JOIN finds, with name and price from the catalog. */
  function Items(catalog: map<int, Product>, lines: map<int, int>): (items: map<int, ItemView>)
    ensures forall p :: p in items <==> p in lines && p in catalog
    ensures forall p :: p in items ==>
      items[p] == ItemView(lines[p], catalog[p].name, catalog[p].price)
  {
    map p | p in lines && p in catalog :: ItemView(lines[p], catalog[p].name, catalog[p].price)
  }

  /** What each fetched row adds to the total. */
  function RowValues(rows: map<int, PricedRow>): map<int, int>
  {
    map p | p in rows :: rows[p].quantity * rows[p].price
  }

  /** The `reduce` of `atualizarTotalCarrinho`: Σ quantidade × preco over the fetched rows, in any order. */
  method SumRows(rows: map<int, PricedRow>) returns (total: int)
    ensures total == SumMap(RowValues(rows))
  {
    total := 0;
    var rest := rows;
    while rest.Keys != {}
      invariant total + SumMap(RowValues(rest)) == SumMap(RowValues(rows))
      decreases |rest.Keys|
    {
      ghost var left := PickKey(rest.Keys);  // witness that a row is left to choose
      var p :| p in rest.Keys;
      SumMapSplit(RowValues(rest), p);
      assert RowValues(rest) - {p} == RowValues(rest - {p});
      total := total + rest[p].quantity * rest[p].price;
      assert (rest - {p}).Keys == rest.Keys - {p};
      rest := rest - {p};
    }
    assert RowValues(rest).Keys == {};
  }

  /** What each shown item adds to the total. */
  function ItemValues(items: map<int, ItemView>): map<int, int>
  {
    map p | p in items :: items[p].quantity * items[p].price
  }

  /** Σ quantidade × preco over the items shown to the client. */
  ghost function ItemsTotal(items: map<int, ItemView>): int
  {
    SumMap(ItemValues(items))
  }

  /** When every line's product is in the catalog, the shown items add up to the lines' total. */
  lemma ItemsTotalIsLinesTotal(catalog: map<int, Product>, lines: map<int, int>)
    requires forall p :: p in lines ==> p in catalog
    ensures ItemsTotal(Items(catalog, lines)) == LinesTotal(catalog, lines)
  {
    assert ItemValues(Items(catalog, lines)) == LineValues(catalog, lines);
  }

  /** The lines of a cart, empty for an unknown cart. */
  function LinesIn(t: CartTables, c: int): map<int, int>
  {
    if c in t.lines then t.lines[c] else map[]
  }

  /** Every line of one cart has quantity at least 1 and names a catalog product. */
  ghost predicate LinesOk(catalog: map<int, Product>, m: map<int, int>)
  {
    forall p :: p in m ==> m[p] >= 1 && p in catalog
  }

  /**
   * The invariant of the cart tables: each user has at most one cart and the
   * idUsuario lookup agrees with the Carrinho rows; each (cart, product)
   * pair has one line (a map key) with quantity at least 1 naming a catalog
   * product; the AUTO_INCREMENT counter is above every cart id.
   */
  ghost predicate TablesOk(t: CartTables, catalog: map<int, Product>, nextCartId: int)
  {
    (forall u :: u in t.cartOf ==> t.cartOf[u] in t.carts && t.carts[t.cartOf[u]].owner == u) &&
    (forall c :: c in t.carts ==> t.carts[c].owner in t.cartOf && t.cartOf[t.carts[c].owner] == c) &&
    t.lines.Keys == t.carts.Keys &&
    (forall c :: c in t.lines ==> LinesOk(catalog, t.lines[c])) &&
    (forall c :: c in t.carts ==> c < nextCartId)
  }

  /** The counter only grows: a snapshot of valid tables stays valid after ids were handed out. */
  lemma TablesOkCounterGrows(t: CartTables, catalog: map<int, Product>, n: int, n': int)
    requires TablesOk(t, catalog, n) && n <= n'
    ensures TablesOk(t, catalog, n')
  {
  }

  /** The stored total of cart c equals Σ quantity × current price over its lines. */
  ghost predicate TotalOk(t: CartTables, catalog: map<int, Product>, c: int)
  {
    c in t.carts && t.carts[c].total == LinesTotal(catalog, LinesIn(t, c))
  }

  /** Every stored total is up to date. */
  ghost predicate Consistent(t: CartTables, catalog: map<int, Product>)
  {
    forall c :: c in t.carts ==> TotalOk(t, catalog, c)
  }

  /** Every total but that of cart x is up to date (between a line write and the recompute). */
  ghost predicate ConsistentExcept(t: CartTables, catalog: map<int, Product>, x: int)
  {
    forall c :: c in t.carts && c != x ==> TotalOk(t, catalog, c)
  }

  /** `obterDetalhesCarrinhoFormatado`: the header row plus its formatted lines, or no cart. */
  function CartDetails(t: CartTables, catalog: map<int, Product>, cartId: int): (r: Option<CartView>)
    ensures r.None? <==> cartId !in t.carts
    ensures r.Some? ==>
      r.value.cartId == Some(cartId) && r.value.userId == t.carts[cartId].owner &&
      r.value.total == t.carts[cartId].total &&
      r.value.createdAt == Some(t.carts[cartId].createdAt) &&
      r.value.modifiedAt == Some(t.carts[cartId].modifiedAt) &&
      r.value.items == Items(catalog, LinesIn(t, cartId))
  {
    if cartId !in t.carts then None
    else
      var row := t.carts[cartId];
      Some(CartView(Some(cartId), row.owner, row.total, Some(row.createdAt), Some(row.modifiedAt),
                    Items(catalog, LinesIn(t, cartId))))
  }

  /** When a cart's total is up to date, the total it shows is Σ quantidade × preco over the items it shows. */
  lemma DetailsTotalMatchesItems(t: CartTables, catalog: map<int, Product>, c: int)
    requires TotalOk(t, catalog, c) && LinesOk(catalog, LinesIn(t, c))
    ensures CartDetails(t, catalog, c).Some?
    ensures CartDetails(t, catalog, c).value.total == ItemsTotal(CartDetails(t, catalog, c).value.items)
  {
    ItemsTotalIsLinesTotal(catalog, LinesIn(t, c));
  }

  /** Every user's cart has a Carrinho row (the part of the invariant a read relies on). */
  ghost predicate LookupOk(t: CartTables)
  {
    forall u :: u in t.cartOf ==> t.cartOf[u] in t.carts && t.carts[t.cartOf[u]].owner == u
  }

  /**
   * The shared part of GET /carrinho once the user is known: a failing read
   * is a 500, no cart is the empty sentinel, otherwise the cart's details.
   */
  function CartLookup(t: CartTables, catalog: map<int, Product>, userId: int, fault: Fault): (r: Response)
    requires LookupOk(t)
    ensures r.status == 500 <==> fault == OnLookup || (fault == OnReadBack && userId in t.cartOf)
    ensures r.status == 500 || r.status == 200
    ensures r.status == 200 && userId !in t.cartOf ==> r.data == Some(EmptyCartSentinel(userId))
    ensures r.status == 200 && userId in t.cartOf ==> r.data == CartDetails(t, catalog, t.cartOf[userId])
    ensures r.status == 200 ==> r.data.Some? && r.data.value.userId == userId
  {
    if fault == OnLookup then Response(500, None)
    else if userId !in t.cartOf then Response(200, Some(EmptyCartSentinel(userId)))
    else if fault == OnReadBack then Response(500, None)
    // The 404 for a cart that vanished between the two reads cannot happen within one state.
    else Response(200, CartDetails(t, catalog, t.cartOf[userId]))
  }

  /** On consistent tables, every cart a GET shows adds up: total = Σ quantidade × preco of its items. */
  lemma CartLookupTotalMatchesItems(t: CartTables, catalog: map<int, Product>, n: int, userId: int, fault: Fault)
    requires TablesOk(t, catalog, n) && Consistent(t, catalog)
    requires CartLookup(t, catalog, userId, fault).status == 200
    ensures CartLookup(t, catalog, userId, fault).data.Some?
    ensures CartLookup(t, catalog, userId, fault).data.value.total ==
            ItemsTotal(CartLookup(t, catalog, userId, fault).data.value.items)
  {
    if userId in t.cartOf {
      DetailsTotalMatchesItems(t, catalog, t.cartOf[userId]);
    } else {
      assert ItemValues(map[]).Keys == {};
    }
  }

  // ---- The statements, as functions on the tables ----

  /** `INSERT INTO Carrinho (...) VALUES (?, NOW(), NOW(), 0)`: a new empty cart with id `id` for user u. */
  function CartInserted(t: CartTables, id: int, u: int, now: int): CartTables
  {
    CartTables(t.cartOf[u := id], t.carts[id := CartRow(u, 0, now, now)], t.lines[id := map[]])
  }

  /** `INSERT INTO ItemCarrinho ... ON DUPLICATE KEY UPDATE quantidade = quantidade + VALUES(quantidade)`. */
  function LineUpserted(t: CartTables, c: int, p: int, q: int): CartTables
  {
    t.(lines := t.lines[c := Merge(LinesIn(t, c), p, q)])
  }

  /** `UPDATE ItemCarrinho SET quantidade = ? WHERE idCarrinho = ? AND idProduto = ?`. */
  function LineSet(t: CartTables, c: int, p: int, q: int): CartTables
  {
    t.(lines := t.lines[c := LinesIn(t, c)[p := q]])
  }

  /** `DELETE FROM ItemCarrinho WHERE idCarrinho = ? AND idProduto = ?`. */
  function LineDeleted(t: CartTables, c: int, p: int): CartTables
  {
    t.(lines := t.lines[c := LinesIn(t, c) - {p}])
  }

  /** `atualizarTotalCarrinho`: the cart's total becomes its lines' total and its modification time `now`. */
  ghost function TotalRecomputed(t: CartTables, catalog: map<int, Product>, c: int, now: int): CartTables
  {
    if c !in t.carts then t
    else t.(carts := t.carts[c := t.carts[c].(total := LinesTotal(catalog, LinesIn(t, c)), modifiedAt := now)])
  }

  /** Creating a cart for a user without one keeps the invariant and every total. */
  lemma CartInsertedOk(t: CartTables, catalog: map<int, Product>, n: int, u: int, now: int)
    requires TablesOk(t, catalog, n) && u !in t.cartOf
    ensures n !in t.carts
    ensures TablesOk(CartInserted(t, n, u, now), catalog, n + 1)
    ensures TotalOk(CartInserted(t, n, u, now), catalog, n)
    ensures ConsistentExcept(t, catalog, n) ==> Consistent(CartInserted(t, n, u, now), catalog)
  {
    var t' := CartInserted(t, n, u, now);
    LinesTotalEmpty(catalog);
    assert LinesIn(t', n) == map[];
    CartInsertedKeepsTotals(t, catalog, n, u, now);
  }

  /** A new cart leaves the lines, and so the totals, of every other cart as they were. */
  lemma CartInsertedKeepsTotals(t: CartTables, catalog: map<int, Product>, n: int, u: int, now: int)
    requires n !in t.carts
    ensures forall c :: c in t.carts && TotalOk(t, catalog, c) ==> TotalOk(CartInserted(t, n, u, now), catalog, c)
  {
    var t' := CartInserted(t, n, u, now);
    forall c | c in t.carts && TotalOk(t, catalog, c)
      ensures TotalOk(t', catalog, c)
    {
      assert LinesIn(t', c) == LinesIn(t, c);
    }
  }

  /** The upsert of a catalog product with a positive quantity keeps the invariant and every other total. */
  lemma LineUpsertedOk(t: CartTables, catalog: map<int, Product>, n: int, c: int, p: int, q: int)
    requires TablesOk(t, catalog, n) && c in t.carts && p in catalog && q >= 1
    ensures TablesOk(LineUpserted(t, c, p, q), catalog, n)
    ensures ConsistentExcept(t, catalog, c) ==> ConsistentExcept(LineUpserted(t, c, p, q), catalog, c)
  {
    var t' := LineUpserted(t, c, p, q);
    assert LinesOk(catalog, LinesIn(t, c));
    assert LinesOk(catalog, t'.lines[c]);
    forall c' | c' in t'.carts && c' != c
      ensures LinesIn(t', c') == LinesIn(t, c')
    {
    }
  }

  /** Setting an existing line to a positive quantity keeps the invariant and every other total. */
  lemma LineSetOk(t: CartTables, catalog: map<int, Product>, n: int, c: int, p: int, q: int)
    requires TablesOk(t, catalog, n) && c in t.carts && p in LinesIn(t, c) && q >= 1
    ensures TablesOk(LineSet(t, c, p, q), catalog, n)
    ensures ConsistentExcept(t, catalog, c) ==> ConsistentExcept(LineSet(t, c, p, q), catalog, c)
  {
    var t' := LineSet(t, c, p, q);
    assert LinesOk(catalog, LinesIn(t, c));
    assert LinesOk(catalog, t'.lines[c]);
    forall c' | c' in t'.carts && c' != c
      ensures LinesIn(t', c') == LinesIn(t, c')
    {
    }
  }

  /** Deleting a line keeps the invariant and every other total. */
  lemma LineDeletedOk(t: CartTables, catalog: map<int, Product>, n: int, c: int, p: int)
    requires TablesOk(t, catalog, n) && c in t.carts
    ensures TablesOk(LineDeleted(t, c, p), catalog, n)
    ensures ConsistentExcept(t, catalog, c) ==> ConsistentExcept(LineDeleted(t, c, p), catalog, c)
  {
    var t' := LineDeleted(t, c, p);
    assert LinesOk(catalog, LinesIn(t, c));
    assert LinesOk(catalog, t'.lines[c]);
    forall c' | c' in t'.carts && c' != c
      ensures LinesIn(t', c') == LinesIn(t, c')
    {
    }
  }

  /** The write of a removal: delete the line (keep = None) or store the kept quantity. */
  function LineKept(t: CartTables, c: int, p: int, keep: Option<int>): CartTables
  {
    match keep
    case None => LineDeleted(t, c, p)
    case Some(k) => LineSet(t, c, p, k)
  }

  lemma LineKeptOk(t: CartTables, catalog: map<int, Product>, n: int, c: int, p: int, keep: Option<int>)
    requires TablesOk(t, catalog, n) && c in t.carts && p in LinesIn(t, c)
    requires keep.Some? ==> keep.value >= 1
    ensures TablesOk(LineKept(t, c, p, keep), catalog, n)
    ensures ConsistentExcept(t, catalog, c) ==> ConsistentExcept(LineKept(t, c, p, keep), catalog, c)
  {
    match keep {
      case None => LineDeletedOk(t, catalog, n, c, p);
      case Some(k) => LineSetOk(t, catalog, n, c, p, k);
    }
  }

  /** Recomputing cart c's total makes it up to date, and so makes the tables consistent if only c was stale. */
  lemma TotalRecomputedOk(t: CartTables, catalog: map<int, Product>, n: int, c: int, now: int)
    requires TablesOk(t, catalog, n) && c in t.carts
    ensures TablesOk(TotalRecomputed(t, catalog, c, now), catalog, n)
    ensures TotalOk(TotalRecomputed(t, catalog, c, now), catalog, c)
    ensures ConsistentExcept(t, catalog, c) ==> Consistent(TotalRecomputed(t, catalog, c, now), catalog)
  {
    var t' := TotalRecomputed(t, catalog, c, now);
    assert t'.carts.Keys == t.carts.Keys;
  }

  // ---- What a successful add or remove does to the tables ----

  /** The cart an add writes to: the user's cart, or the id the next Carrinho insert receives. */
  function TargetCart(t: CartTables, nextId: int, u: int): int
  {
    if u in t.cartOf then t.cartOf[u] else nextId
  }

  /** The tables once the user's cart is found or created. */
  function CartFound(t: CartTables, nextId: int, u: int, now: int): CartTables
  {
    if u in t.cartOf then t else CartInserted(t, nextId, u, now)
  }

  /** The tables after adding q units of product p to user u's cart and recomputing its total. */
  ghost function Added(t: CartTables, catalog: map<int, Product>, nextId: int, u: int, p: int, q: int, now: int): CartTables
  {
    var c := TargetCart(t, nextId, u);
    TotalRecomputed(LineUpserted(CartFound(t, nextId, u, now), c, p, q), catalog, c, now)
  }

  /**
   * An add reuses the user's cart or creates exactly one, merges the product
   * into a single line, leaves every other cart alone, brings the cart's
   * total up to date and keeps the invariant and the consistency of totals.
   */
  lemma AddedSpec(t: CartTables, catalog: map<int, Product>, nextId: int, u: int, p: int, q: int, now: int)
    requires TablesOk(t, catalog, nextId) && p in catalog && q >= 1
    ensures var t', c := Added(t, catalog, nextId, u, p, q, now), TargetCart(t, nextId, u);
      TablesOk(t', catalog, if u in t.cartOf then nextId else nextId + 1) &&
      t'.cartOf == t.cartOf[u := c] &&
      (u !in t.cartOf ==> c !in t.carts && t'.carts[c].createdAt == now) &&
      t'.carts.Keys == t.carts.Keys + {c} && t'.carts[c].owner == u &&
      t'.lines == t.lines[c := Merge(LinesIn(t, c), p, q)] &&
      TotalOk(t', catalog, c) && t'.carts[c].modifiedAt == now &&
      (forall c' :: c' in t.carts && c' != c ==> t'.carts[c'] == t.carts[c']) &&
      (Consistent(t, catalog) ==> Consistent(t', catalog))
  {
    AddedShape(t, catalog, nextId, u, p, q, now);
    AddedKeeps(t, catalog, nextId, u, p, q, now);
  }

  /** Which rows an add creates or changes. */
  lemma AddedShape(t: CartTables, catalog: map<int, Product>, nextId: int, u: int, p: int, q: int, now: int)
    requires TablesOk(t, catalog, nextId)
    ensures var t', c := Added(t, catalog, nextId, u, p, q, now), TargetCart(t, nextId, u);
      t'.cartOf == t.cartOf[u := c] &&
      (u !in t.cartOf ==> c !in t.carts && t'.carts[c].createdAt == now) &&
      t'.carts.Keys == t.carts.Keys + {c} && t'.carts[c].owner == u &&
      t'.lines == t.lines[c := Merge(LinesIn(t, c), p, q)] &&
      t'.carts[c].modifiedAt == now &&
      (forall c' :: c' in t.carts && c' != c ==> t'.carts[c'] == t.carts[c'])
  {
    var c := TargetCart(t, nextId, u);
    var t1 := CartFound(t, nextId, u, now);
    if u !in t.cartOf {
      assert nextId !in t.carts && nextId !in t.lines;
      assert t1.lines[c := Merge(LinesIn(t1, c), p, q)] == t.lines[c := Merge(LinesIn(t, c), p, q)];
    } else {
      assert t.cartOf[u := c] == t.cartOf;
    }
    assert c in t1.carts && LinesIn(t1, c) == LinesIn(t, c);
  }

  /** An add of a catalog product keeps the invariant, and the consistency of totals when there was one. */
  lemma AddedKeeps(t: CartTables, catalog: map<int, Product>, nextId: int, u: int, p: int, q: int, now: int)
    requires TablesOk(t, catalog, nextId) && p in catalog && q >= 1
    ensures var t', c := Added(t, catalog, nextId, u, p, q, now), TargetCart(t, nextId, u);
      TablesOk(t', catalog, if u in t.cartOf then nextId else nextId + 1) &&
      TotalOk(t', catalog, c) &&
      (Consistent(t, catalog) ==> Consistent(t', catalog))
  {
    var c := TargetCart(t, nextId, u);
    var t1 := CartFound(t, nextId, u, now);
    var n1 := if u in t.cartOf then nextId else nextId + 1;
    if u !in t.cartOf {
      CartInsertedOk(t, catalog, nextId, u, now);
    }
    assert TablesOk(t1, catalog, n1) && c in t1.carts;
    assert Consistent(t, catalog) ==> ConsistentExcept(t1, catalog, c);
    var t2 := LineUpserted(t1, c, p, q);
    LineUpsertedOk(t1, catalog, n1, c, p, q);
    TotalRecomputedOk(t2, catalog, n1, c, now);
  }

  /** The tables after the line of product p in cart c is deleted (keep = None) or set to a quantity. */
  ghost function Removed(t: CartTables, catalog: map<int, Product>, c: int, p: int, keep: Option<int>, now: int): CartTables
  {
    TotalRecomputed(LineKept(t, c, p, keep), catalog, c, now)
  }

  /**
   * A removal touches only the one line: it is gone (keep = None) or holds
   * the kept quantity; the cart's total is brought up to date, no other
   * cart changes, and the invariant and consistency of totals are kept.
   */
  lemma RemovedSpec(t: CartTables, catalog: map<int, Product>, n: int, c: int, p: int, keep: Option<int>, now: int)
    requires TablesOk(t, catalog, n) && c in t.carts && p in LinesIn(t, c)
    requires keep.Some? ==> keep.value >= 1
    ensures var t' := Removed(t, catalog, c, p, keep, now);
      TablesOk(t', catalog, n) &&
      t'.cartOf == t.cartOf && t'.carts.Keys == t.carts.Keys &&
      t'.lines == t.lines[c := match keep
                               case None => LinesIn(t, c) - {p}
                               case Some(k) => LinesIn(t, c)[p := k]] &&
      TotalOk(t', catalog, c) && t'.carts[c].modifiedAt == now &&
      (forall c' :: c' in t.carts && c' != c ==> t'.carts[c'] == t.carts[c']) &&
      (Consistent(t, catalog) ==> Consistent(t', catalog))
  {
    RemovedKeeps(t, catalog, n, c, p, keep, now);
  }

  /** The invariant half of `RemovedSpec`: valid tables stay valid, consistent totals stay consistent. */
  lemma RemovedKeeps(t: CartTables, catalog: map<int, Product>, n: int, c: int, p: int, keep: Option<int>, now: int)
    requires TablesOk(t, catalog, n) && c in t.carts && p in LinesIn(t, c)
    requires keep.Some? ==> keep.value >= 1
    ensures TablesOk(Removed(t, catalog, c, p, keep, now), catalog, n)
    ensures TotalOk(Removed(t, catalog, c, p, keep, now), catalog, c)
    ensures Consistent(t, catalog) ==> Consistent(Removed(t, catalog, c, p, keep, now), catalog)
  {
    LineKeptOk(t, catalog, n, c, p, keep);
    TotalRecomputedOk(LineKept(t, c, p, keep), catalog, n, c, now);
  }

  /** Under prices that are never negative, every up-to-date cart total is non-negative. */
  lemma CartTotalNonNegative(t: CartTables, catalog: map<int, Product>, n: int, c: int)
    requires TablesOk(t, catalog, n) && TotalOk(t, catalog, c) && PricesOk(catalog)
    ensures t.carts[c].total >= 0
  {
    LinesTotalNonNegative(catalog, LinesIn(t, c));
  }

  /**
   * A product that is not yet in the catalog is on no cart line, so its
   * arrival leaves the cart tables valid and every stored total up to date.
   */
  lemma NewProductKeepsCarts(t: CartTables, catalog: map<int, Product>, n: int, id: int, p: Product)
    requires TablesOk(t, catalog, n) && id !in catalog
    ensures TablesOk(t, catalog[id := p], n)
    ensures Consistent(t, catalog) ==> Consistent(t, catalog[id := p])
  {
    forall c | c in t.carts
      ensures LinesTotal(catalog[id := p], LinesIn(t, c)) == LinesTotal(catalog, LinesIn(t, c))
    {
      LinesTotalNewProduct(catalog, LinesIn(t, c), id, p);
    }
  }

  /** The tables of the sales database. */
  class Database {
    var catalog: map<int, Product>          // ProdutoBase
    var remedios: set<int>                  // Remedio(id_produto_base)
    var brinquedos: set<int>                // Brinquedo(id_produto_base)
    var racoes: set<int>                    // Racao(id_produto_base)
    var nextProductId: int                  // AUTO_INCREMENT of ProdutoBase
    var cartOf: map<int, int>               // Carrinho looked up by idUsuario
    var carts: map<int, CartRow>            // Carrinho by idCarrinho
    var lines: map<int, map<int, int>>      // ItemCarrinho: idCarrinho -> idProduto -> quantidade
    var nextCartId: int                     // AUTO_INCREMENT of Carrinho

    /** The product tables as they are now. */
    function Products(): ProductTables
      reads this
    {
      ProductTables(catalog, remedios, brinquedos, racoes)
    }

    /** Each product has exactly one subtype row, the one of its kind; ids come from the counter. */
    ghost predicate CatalogOk()
      reads this
    {
      ProductTablesOk(Products(), nextProductId)
    }

    /** The cart tables as they are now. */
    function Tables(): CartTables
      reads this
    {
      CartTables(cartOf, carts, lines)
    }

    /** The invariant of the whole database. */
    ghost predicate Valid()
      reads this
    {
      TablesOk(Tables(), catalog, nextCartId) && CatalogOk()
    }

    /** Every stored cart total is up to date with the current prices. */
    ghost predicate TotalsConsistent()
      reads this
    {
      Consistent(Tables(), catalog)
    }

    /** `connection.rollback()`: the cart tables return to a snapshot (AUTO_INCREMENT is not rolled back). */
    method Rollback(t: CartTables)
      requires CatalogOk() && TablesOk(t, catalog, nextCartId)
      modifies this`cartOf, this`carts, this`lines
      ensures Valid() && Tables() == t && catalog == old(catalog)
    {
      cartOf, carts, lines := t.cartOf, t.carts, t.lines;
    }

    /** `INSERT INTO Carrinho (idUsuario, ..., total) VALUES (?, NOW(), NOW(), 0)` for a user with no cart. */
    method InsertCart(userId: int, now: int) returns (cartId: int)
      requires Valid() && userId !in cartOf
      modifies this`carts, this`cartOf, this`lines, this`nextCartId
      ensures Valid() && catalog == old(catalog)
      ensures cartId == old(nextCartId) && nextCartId == old(nextCartId) + 1
      ensures Tables() == CartInserted(old(Tables()), cartId, userId, now)
    {
      CartInsertedOk(Tables(), catalog, nextCartId, userId, now);
      cartId := nextCartId;
      var t := CartInserted(Tables(), cartId, userId, now);
      nextCartId := nextCartId + 1;
      cartOf, carts, lines := t.cartOf, t.carts, t.lines;
    }

    /**
     * `SELECT idCarrinho FROM Carrinho WHERE idUsuario = ?`, then the insert
     * of a new cart when there is none; `insertFails` says the insert throws.
     */
    method FindOrCreateCart(userId: int, now: int, insertFails: bool) returns (cartId: Option<int>)
      requires Valid()
      modifies this`carts, this`cartOf, this`lines, this`nextCartId
      ensures Valid() && catalog == old(catalog)
      ensures nextCartId >= old(nextCartId)
      ensures cartId.None? <==> insertFails && userId !in old(cartOf)
      ensures cartId.None? ==> Tables() == old(Tables())
      ensures cartId.Some? ==>
        cartId.value == TargetCart(old(Tables()), old(nextCartId), userId) && cartId.value in carts &&
        Tables() == CartFound(old(Tables()), old(nextCartId), userId, now)
    {
      if userId in cartOf {
        return Some(cartOf[userId]);
      }
      if insertFails {
        return None;
      }
      var c := InsertCart(userId, now);
      return Some(c);
    }

    /** The upsert of `quantity` units of a catalog product into a cart. */
    method UpsertLine(cartId: int, productId: int, quantity: int)
      requires Valid() && cartId in carts && productId in catalog && quantity >= 1
      modifies this`lines
      ensures Valid() && catalog == old(catalog)
      ensures Tables() == LineUpserted(old(Tables()), cartId, productId, quantity)
    {
      LineUpsertedOk(Tables(), catalog, nextCartId, cartId, productId, quantity);
      lines := LineUpserted(Tables(), cartId, productId, quantity).lines;
    }

    /**
     * The write of a removal: `DELETE FROM ItemCarrinho WHERE ...` when
     * keep is None, otherwise `UPDATE ItemCarrinho SET quantidade = ? ...`.
     */
    method KeepLine(cartId: int, productId: int, keep: Option<int>)
      requires Valid() && cartId in carts && productId in lines[cartId]
      requires keep.Some? ==> keep.value >= 1
      modifies this`lines
      ensures Valid() && catalog == old(catalog)
      ensures Tables() == LineKept(old(Tables()), cartId, productId, keep)
    {
      LineKeptOk(Tables(), catalog, nextCartId, cartId, productId, keep);
      lines := LineKept(Tables(), cartId, productId, keep).lines;
    }

    /**
     * `atualizarTotalCarrinho`: fold quantity × price over the joined rows (in
     * whatever order the database returns them), then store the new total
     * and the modification time.
     */
    method RecomputeTotal(cartId: int, now: int) returns (total: int)
      requires Valid() && cartId in carts
      modifies this`carts
      ensures Valid() && catalog == old(catalog)
      ensures total == LinesTotal(catalog, lines[cartId])
      ensures Tables() == TotalRecomputed(old(Tables()), catalog, cartId, now)
    {
      TotalRecomputedOk(Tables(), catalog, nextCartId, cartId, now);
      var rows := map p | p in lines[cartId] && p in catalog :: PricedRow(lines[cartId][p], catalog[p].price);
      assert RowValues(rows) == LineValues(catalog, lines[cartId]);
      total := SumRows(rows);
      carts := carts[cartId := carts[cartId].(total := total, modifiedAt := now)];
    }
  
    /** The base insert of a creation: the product gets the AUTO_INCREMENT id. */
    method InsertProductBase(p: Product) returns (id: int)
      modifies this`catalog, this`nextProductId
      ensures id == old(nextProductId) && nextProductId == id + 1
      ensures Products() == BaseInserted(old(Products()), id, p)
    {
      id := nextProductId;
      nextProductId := nextProductId + 1;
      catalog := catalog[id := p];
    }

    /** The subtype insert of a creation, into the table of kind k. */
    method InsertSubtype(k: Kind, id: int)
      modifies this`remedios, this`brinquedos, this`racoes
      ensures Products() == SubtypeInserted(old(Products()), k, id)
    {
      match k {
        case Remedio => remedios := remedios + {id};
        case Brinquedo => brinquedos := brinquedos + {id};
        case Racao => racoes := racoes + {id};
      }
    }

    /** `connection.rollback()` of a creation: the product tables return to a snapshot (AUTO_INCREMENT is not rolled back). */
    method RestoreProducts(pt: ProductTables)
      modifies this`catalog, this`remedios, this`brinquedos, this`racoes
      ensures Products() == pt
    {
      catalog, remedios, brinquedos, racoes := pt.catalog, pt.remedios, pt.brinquedos, pt.racoes;
    }
  }
}
