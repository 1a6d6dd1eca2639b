/**
 * POST /api/produtos as the compiled JavaScript of the sales service has
 * it: the same transaction as the TypeScript source, behind a stricter
 * check that wants the price to be a JSON number no lower than zero. The
 * listing and the lookup are the same queries as in the source and are
 * shared with it.
 */
module ProductsDist {
  import opened Common
  import opened ProductDb
  import opened CartDb
  import opened ProductsTs

  /** `!nome || typeof preco !== 'number' || preco < 0 || !tipo` is false. */
  predicate FieldsOk(b: ProductBody)
  {
    b.nome.Some? && b.nome.value != "" && b.preco.Number? && b.preco.n >= 0 && Truthy(b.tipo)
  }

  /** The checks of the compiled handler. */
  predicate BodyOk(b: ProductBody)
  {
    FieldsOk(b) && KindOk(b.tipo)
  }

  /**
   * The product a checked body stores; `None` when `descricao` was left out,
   * so that the base insert throws on its `undefined` bind value.
   */
  function Stored(b: ProductBody): (p: Option<Product>)
    requires BodyOk(b)
    ensures p.Some? <==> !b.descricao.Omitted?
    ensures p.Some? ==> p.value.price >= 0 && Some(p.value.kind) == KindOf(b.tipo.s) &&
                        p.value.name == b.nome.value && p.value.price == b.preco.n &&
                        (p.value.description.Some? <==> b.descricao.Given?) &&
                        (b.descricao.Given? ==> p.value.description == Some(b.descricao.text))
  {
    if b.descricao.Omitted? then None
    else Some(Product(b.nome.value, b.preco.n, KindOf(b.tipo.s).value, DescriptionColumn(b.descricao)))
  }

  /** POST /api/produtos in the compiled handler: no negative price ever enters the catalog. */
  method CreateProduct(db: Database, b: ProductBody, fault: CreateFault) returns (r: ProductResponse)
    requires db.Valid()
    modifies db`catalog, db`remedios, db`brinquedos, db`racoes, db`nextProductId
    ensures db.Valid() && db.Tables() == old(db.Tables())
    ensures old(db.TotalsConsistent()) ==> db.TotalsConsistent()
    ensures PricesOk(old(db.catalog)) ==> PricesOk(db.catalog)
    ensures r.status in {201, 400, 500}
    ensures r.status == 400 <==> !BodyOk(b)
    ensures r.status == 201 <==> BodyOk(b) && !b.descricao.Omitted? && fault == NoCreateFault
    ensures r.status != 201 ==> db.Products() == old(db.Products())
    ensures r.status == 201 ==>
      var p := Stored(b).value;
      db.Products() == Created(old(db.Products()), old(db.nextProductId), p) &&
      r.data == Some(ProductRow(old(db.nextProductId), p))
  {
    if !FieldsOk(b) {
      return ProductResponse(400, None);
    }
    if !KindOk(b.tipo) {
      return ProductResponse(400, None);
    }
    var stored := Stored(b);
    if stored.None? {
      return ProductResponse(500, None);
    }
    r := CreateInTransaction(db, stored.value, fault);
  }

  /** The compiled checks turn away every body whose price is negative. */
  lemma NegativePriceRejected(b: ProductBody)
    requires b.preco.Number? && b.preco.n < 0
    ensures !BodyOk(b)
  {
  }
}
