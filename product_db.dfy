/**
 * The product tables of the sales database: ProdutoBase (the catalog) and
 * the three subtype tables Remedio, Brinquedo and Racao, each holding the
 * ids of the base rows of its kind. The two statements of a product
 * creation are functions on these tables taken as one value, and the two
 * reads of the product handlers (the listing ordered by name and the
 * lookup by id) are functions of the catalog. Prices are integer cents.
 */
module ProductDb {
  import opened Common

  /** `tipo` of a product: REMEDIO, BRINQUEDO or RACAO. */
  datatype Kind = Remedio | Brinquedo | Racao

  /** A ProdutoBase row (the id is the key of the catalog map); `descricao` may be NULL. */
  datatype Product = Product(name: string, price: int, kind: Kind, description: Option<string>)

  /** A row of `SELECT id, nome, preco, tipo, descricao FROM ProdutoBase`. */
  datatype ProductRow = ProductRow(id: int, product: Product)

  /** The four product tables. */
  datatype ProductTables = ProductTables(catalog: map<int, Product>, remedios: set<int>,
                                         brinquedos: set<int>, racoes: set<int>)

  /** The `tipo` strings the handlers accept, with the kind each names. */
  function KindOf(tipo: string): (k: Option<Kind>)
    ensures k.Some? <==> tipo in ["REMEDIO", "BRINQUEDO", "RACAO"]
    ensures k == Some(Remedio) <==> tipo == "REMEDIO"
    ensures k == Some(Brinquedo) <==> tipo == "BRINQUEDO"
    ensures k == Some(Racao) <==> tipo == "RACAO"
  {
    if tipo == "REMEDIO" then Some(Remedio)
    else if tipo == "BRINQUEDO" then Some(Brinquedo)
    else if tipo == "RACAO" then Some(Racao)
    else None
  }

  /** The ids of the catalog products of one kind. */
  function OfKind(catalog: map<int, Product>, k: Kind): set<int>
  {
    set id | id in catalog && catalog[id].kind == k
  }

  /** The rows of the subtype table of one kind. */
  function SubtypeRows(pt: ProductTables, k: Kind): set<int>
  {
    match k
    case Remedio => pt.remedios
    case Brinquedo => pt.brinquedos
    case Racao => pt.racoes
  }

  /**
   * The invariant of the product tables: every id is below the AUTO_INCREMENT
   * counter, and each subtype table holds exactly the products of its kind,
   * so every product has one subtype row, the one its `tipo` names.
   */
  ghost predicate ProductTablesOk(pt: ProductTables, nextProductId: int)
  {
    (forall id :: id in pt.catalog ==> id < nextProductId) &&
    pt.remedios == OfKind(pt.catalog, Remedio) &&
    pt.brinquedos == OfKind(pt.catalog, Brinquedo) &&
    pt.racoes == OfKind(pt.catalog, Racao)
  }

  // ---- The statements of a creation ----

  /** `INSERT INTO ProdutoBase (nome, preco, tipo, descricao) VALUES (?, ?, ?, ?)` with the generated id. */
  function BaseInserted(pt: ProductTables, id: int, p: Product): ProductTables
  {
    pt.(catalog := pt.catalog[id := p])
  }

  /** `INSERT INTO Remedio|Racao|Brinquedo (id_produto_base) VALUES (?)`, the table chosen by the kind. */
  function SubtypeInserted(pt: ProductTables, k: Kind, id: int): ProductTables
  {
    match k
    case Remedio => pt.(remedios := pt.remedios + {id})
    case Brinquedo => pt.(brinquedos := pt.brinquedos + {id})
    case Racao => pt.(racoes := pt.racoes + {id})
  }

  /** Both inserts of a committed creation. */
  function Created(pt: ProductTables, id: int, p: Product): ProductTables
  {
    SubtypeInserted(BaseInserted(pt, id, p), p.kind, id)
  }

  /** A new id joins the set of its kind and no other. */
  lemma OfKindInsert(catalog: map<int, Product>, id: int, p: Product, k: Kind)
    requires id !in catalog
    ensures OfKind(catalog[id := p], k) == if p.kind == k then OfKind(catalog, k) + {id} else OfKind(catalog, k)
  {
  }

  /**
   * A creation with the counter's id adds exactly that product to the
   * catalog and exactly one subtype row, the one of its kind, leaves every
   * other product alone, and keeps the invariant with the counter one up.
   */
  lemma CreatedOk(pt: ProductTables, n: int, p: Product)
    requires ProductTablesOk(pt, n)
    ensures n !in pt.catalog
    ensures Created(pt, n, p).catalog == pt.catalog[n := p]
    ensures forall k :: n in SubtypeRows(Created(pt, n, p), k) <==> k == p.kind
    ensures forall k :: SubtypeRows(Created(pt, n, p), k) - {n} == SubtypeRows(pt, k)
    ensures ProductTablesOk(Created(pt, n, p), n + 1)
  {
    var c := pt.catalog[n := p];
    OfKindInsert(pt.catalog, n, p, Remedio);
    OfKindInsert(pt.catalog, n, p, Brinquedo);
    OfKindInsert(pt.catalog, n, p, Racao);
    assert n !in OfKind(pt.catalog, Remedio) && n !in OfKind(pt.catalog, Brinquedo) && n !in OfKind(pt.catalog, Racao);
  }

  // ---- The reads ----

  /** Lexicographic order of names, character by character. */
  predicate NameLe(a: string, b: string)
  {
    |a| == 0 || (|b| > 0 && (a[0] < b[0] || (a[0] == b[0] && NameLe(a[1..], b[1..]))))
  }

  /** Any two names are ordered one way or the other. */
  lemma {:induction false} NameLeTotal(a: string, b: string)
    ensures NameLe(a, b) || NameLe(b, a)
    decreases |a|
  {
    if |a| > 0 && |b| > 0 && a[0] == b[0] {
      NameLeTotal(a[1..], b[1..]);
    }
  }

  /** Rows in ascending order of name (`ORDER BY nome ASC`). */
  predicate SortedByName(rows: seq<ProductRow>)
  {
    forall i :: 0 < i < |rows| ==> NameLe(rows[i - 1].product.name, rows[i].product.name)
  }

  /** Every catalog entry as a row, each once. */
  ghost function CatalogRows(catalog: map<int, Product>): multiset<ProductRow>
  {
    multiset(set id | id in catalog :: ProductRow(id, catalog[id]))
  }

  /** Taking one product out of the catalog takes exactly its row out of the rows. */
  lemma CatalogRowsSplit(catalog: map<int, Product>, id: int)
    requires id in catalog
    ensures CatalogRows(catalog) == CatalogRows(catalog - {id}) + multiset{ProductRow(id, catalog[id])}
  {
    var rest := catalog - {id};
    var r := ProductRow(id, catalog[id]);
    var a := set j | j in rest :: ProductRow(j, rest[j]);
    var b := set j | j in catalog :: ProductRow(j, catalog[j]);
    forall x | x in b
      ensures x in a + {r}
    {
      var j :| j in catalog && x == ProductRow(j, catalog[j]);
      if j != id {
        assert j in rest;
      }
    }
    assert b == a + {r};
    assert r !in a;
    assert multiset(a + {r}) == multiset(a) + multiset{r};
  }

  /** One row put into a sorted listing, before the first row whose name is not below its own. */
  function InsertByName(rows: seq<ProductRow>, r: ProductRow): (s: seq<ProductRow>)
    requires SortedByName(rows)
    ensures SortedByName(s)
    ensures multiset(s) == multiset(rows) + multiset{r}
    ensures |s| == |rows| + 1
    ensures s[0] == r || (|rows| > 0 && s[0] == rows[0])
  {
    if |rows| == 0 || NameLe(r.product.name, rows[0].product.name) then [r] + rows
    else
      NameLeTotal(r.product.name, rows[0].product.name);
      assert rows == [rows[0]] + rows[1..];
      [rows[0]] + InsertByName(rows[1..], r)
  }

  /** The rows of `SELECT ... FROM ProdutoBase ORDER BY nome ASC`: the whole catalog, sorted by name. */
  ghost function Listing(catalog: map<int, Product>): (rows: seq<ProductRow>)
    ensures SortedByName(rows)
    ensures multiset(rows) == CatalogRows(catalog)
    decreases |catalog.Keys|
  {
    if catalog.Keys == {} then []
    else
      var id := PickKey(catalog.Keys);
      CatalogRowsSplit(catalog, id);
      InsertByName(Listing(catalog - {id}), ProductRow(id, catalog[id]))
  }

  /** The only row of `SELECT ... FROM ProdutoBase WHERE id = ?`, if there is one. */
  function Lookup(catalog: map<int, Product>, id: int): (r: Option<ProductRow>)
    ensures r.None? <==> id !in catalog
    ensures r.Some? ==> r.value.id == id && r.value.product == catalog[id]
  {
    if id in catalog then Some(ProductRow(id, catalog[id])) else None
  }

  /** A product found after its creation is exactly the one created. */
  lemma CreatedIsFound(pt: ProductTables, n: int, p: Product, id: int)
    requires ProductTablesOk(pt, n)
    ensures Lookup(Created(pt, n, p).catalog, n) == Some(ProductRow(n, p))
    ensures id != n ==> Lookup(Created(pt, n, p).catalog, id) == Lookup(pt.catalog, id)
  {
  }

  /** A created product appears in the listing once, next to every product there was. */
  lemma CreatedIsListed(pt: ProductTables, n: int, p: Product)
    requires ProductTablesOk(pt, n)
    ensures multiset(Listing(Created(pt, n, p).catalog)) == multiset(Listing(pt.catalog)) + multiset{ProductRow(n, p)}
  {
    CreatedOk(pt, n, p);
    var c := pt.catalog[n := p];
    CatalogRowsSplit(c, n);
    assert c - {n} == pt.catalog;
  }
}
