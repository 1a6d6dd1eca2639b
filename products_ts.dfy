/**
 * The product handlers of the sales service as the TypeScript source has
 * them: GET /api/produtos (the catalog ordered by name), GET
 * /api/produtos/:id and POST /api/produtos, whose base insert and subtype
 * insert run in one transaction that is rolled back when either throws.
 * A failing read ends in `next(err)`, which the model answers with 500.
 */
module ProductsTs {
  import opened Common
  import opened ProductDb
  import opened CartDb

  /** The statement of a creation at which the database throws, if any. */
  datatype CreateFault = NoCreateFault | OnBaseInsert | OnSubtypeInsert | OnCommit

  /**
   * `descricao` as the body carries it. A field left out is `undefined`,
   * which the driver refuses to bind; `null` binds as SQL NULL.
   */
  datatype Description = Omitted | NullDescription | Given(text: string)

  /** The column value a bound description is stored as; `Omitted` never reaches the table. */
  function DescriptionColumn(d: Description): (c: Option<string>)
    requires !d.Omitted?
    ensures c.Some? <==> d.Given?
    ensures c.Some? ==> c.value == d.text
  {
    if d.Given? then Some(d.text) else None
  }

  /**
   * The body of POST /api/produtos: `nome` is a string or absent (`None`
   * for a missing or null field), `preco` and `tipo` any JSON value.
   */
  datatype ProductBody = ProductBody(nome: Option<string>, preco: JsValue, tipo: JsValue, descricao: Description)

  /** The answer of GET /api/produtos. */
  datatype ListResponse = ListResponse(status: int, rows: seq<ProductRow>)

  /** The answer of GET /api/produtos/:id and of POST /api/produtos. */
  datatype ProductResponse = ProductResponse(status: int, data: Option<ProductRow>)

  /** GET /api/produtos: every product, in ascending order of name. */
  ghost function ListProducts(db: Database, fails: bool): (r: ListResponse)
    reads db
    ensures r.status == 200 || r.status == 500
    ensures r.status == 500 <==> fails
    ensures r.status == 200 ==> SortedByName(r.rows) && multiset(r.rows) == CatalogRows(db.catalog)
  {
    if fails then ListResponse(500, []) else ListResponse(200, Listing(db.catalog))
  }

  /** GET /api/produtos/:id: the stored product, or 404. */
  function GetProduct(db: Database, id: int, fails: bool): (r: ProductResponse)
    reads db
    ensures r.status in {200, 404, 500}
    ensures r.status == 500 <==> fails
    ensures r.status == 404 <==> !fails && id !in db.catalog
    ensures r.status == 200 ==> id in db.catalog && r.data == Some(ProductRow(id, db.catalog[id]))
  {
    if fails then ProductResponse(500, None)
    else
      match Lookup(db.catalog, id)
      case None => ProductResponse(404, None)
      case Some(row) => ProductResponse(200, Some(row))
  }

  /** `!nome || preco === undefined || preco === null || !tipo` is false. */
  predicate FieldsPresent(b: ProductBody)
  {
    b.nome.Some? && b.nome.value != "" && !b.preco.Undefined? && !b.preco.Null? && Truthy(b.tipo)
  }

  /** `['REMEDIO', 'BRINQUEDO', 'RACAO'].includes(tipo)`. */
  predicate KindOk(tipo: JsValue)
  {
    tipo.Str? && KindOf(tipo.s).Some?
  }

  /** The checks of the TypeScript handler; a negative price passes them. */
  predicate BodyOk(b: ProductBody)
  {
    FieldsPresent(b) && KindOk(b.tipo)
  }

  /**
   * The product a checked body stores; `None` when the base insert throws:
   * the price is not a JSON number, or `descricao` was left out and its
   * `undefined` is refused as a bind value.
   */
  function Stored(b: ProductBody): (p: Option<Product>)
    requires FieldsPresent(b) && KindOk(b.tipo)
    ensures p.Some? <==> b.preco.Number? && !b.descricao.Omitted?
    ensures p.Some? ==> p.value.name == b.nome.value && p.value.price == b.preco.n &&
                        Some(p.value.kind) == KindOf(b.tipo.s) &&
                        (p.value.description.Some? <==> b.descricao.Given?) &&
                        (b.descricao.Given? ==> p.value.description == Some(b.descricao.text))
  {
    if b.preco.Number? && !b.descricao.Omitted? then
      Some(Product(b.nome.value, b.preco.n, KindOf(b.tipo.s).value, DescriptionColumn(b.descricao)))
    else None
  }

  /** POST /api/produtos in the TypeScript source. */
  method CreateProduct(db: Database, b: ProductBody, fault: CreateFault) returns (r: ProductResponse)
    requires db.Valid()
    modifies db`catalog, db`remedios, db`brinquedos, db`racoes, db`nextProductId
    ensures db.Valid() && db.Tables() == old(db.Tables())
    ensures old(db.TotalsConsistent()) ==> db.TotalsConsistent()
    ensures r.status in {201, 400, 500}
    ensures r.status == 400 <==> !BodyOk(b)
    ensures r.status == 201 <==> BodyOk(b) && b.preco.Number? && !b.descricao.Omitted? && fault == NoCreateFault
    ensures r.status != 201 ==> db.Products() == old(db.Products())
    ensures r.status == 201 ==>
      var p := Stored(b).value;
      db.Products() == Created(old(db.Products()), old(db.nextProductId), p) &&
      r.data == Some(ProductRow(old(db.nextProductId), p))
  {
    if !FieldsPresent(b) {
      return ProductResponse(400, None);
    }
    if !KindOk(b.tipo) {
      return ProductResponse(400, None);
    }
    var stored := Stored(b);
    if stored.None? {
      return ProductResponse(500, None);
    }
    r := CreateInTransaction(db, stored.value, fault);
  }

  /**
   * The inserts between `beginTransaction` and `commit`: the base row with
   * the generated id, then the row of the subtype table its kind names; a
   * throw rolls both back. The answer echoes the id and the stored fields.
   */
  method CreateInTransaction(db: Database, p: Product, fault: CreateFault) returns (r: ProductResponse)
    requires db.Valid()
    modifies db`catalog, db`remedios, db`brinquedos, db`racoes, db`nextProductId
    ensures db.Valid() && db.Tables() == old(db.Tables())
    ensures old(db.TotalsConsistent()) ==> db.TotalsConsistent()
    ensures r.status == 201 || r.status == 500
    ensures r.status == 201 <==> fault == NoCreateFault
    ensures r.status == 500 ==> db.Products() == old(db.Products())
    ensures r.status == 201 ==>
      db.Products() == Created(old(db.Products()), old(db.nextProductId), p) &&
      r.data == Some(ProductRow(old(db.nextProductId), p))
  {
    var snapshot := db.Products();
    if fault == OnBaseInsert {
      return ProductResponse(500, None);
    }
    var id := db.InsertProductBase(p);
    if fault == OnSubtypeInsert {
      r := AbortCreate(db, snapshot);
      return;
    }
    db.InsertSubtype(p.kind, id);
    if fault == OnCommit {
      r := AbortCreate(db, snapshot);
      return;
    }
    CreatedOk(snapshot, id, p);
    NewProductKeepsCarts(db.Tables(), snapshot.catalog, db.nextCartId, id, p);
    r := ProductResponse(201, Some(ProductRow(id, p)));
  }

  /** The `catch` of a creation: `connection.rollback()` to the snapshot, then a 500. */
  method AbortCreate(db: Database, snapshot: ProductTables) returns (r: ProductResponse)
    requires ProductTablesOk(snapshot, db.nextProductId - 1)
    requires TablesOk(db.Tables(), snapshot.catalog, db.nextCartId)
    modifies db`catalog, db`remedios, db`brinquedos, db`racoes
    ensures db.Valid() && db.Products() == snapshot
    ensures r.status == 500 && r.data.None?
  {
    db.RestoreProducts(snapshot);
    r := ProductResponse(500, None);
  }

  /** The TypeScript checks let a negative price into the catalog. */
  lemma NegativePriceAccepted()
    ensures var b := ProductBody(Some("Bola"), Number(-100), Str("BRINQUEDO"), NullDescription);
      BodyOk(b) && Stored(b) == Some(Product("Bola", -100, Brinquedo, None))
  {
    assert KindOf("BRINQUEDO") == Some(Brinquedo);
  }
}
