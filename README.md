# Pet-shop services: a Dafny model of the core

This project models the core of a pet-shop system built from microservices
and a web frontend:

- **Sales service (`vendas-service`).** The shopping-cart handlers (GET the
  cart, add a product, remove a product) and the product handlers (list, get,
  create). Both the TypeScript sources and the compiled JavaScript under
  `dist/` are modelled, because they behave differently. The MySQL tables
  (`Carrinho`, `ItemCarrinho`, `ProdutoBase` and the three subtype tables)
  are one `Database` class whose methods are the SQL statements the handlers
  issue. Its invariant is that every line names a catalog product with a
  positive quantity, each user has at most one cart, and ids come from the
  AUTO_INCREMENT counters. The main property is that every cart's stored
  `total` equals Σ quantidade × preco over its lines. The TypeScript
  handlers run without a transaction, so each statement's write stays when a
  later one throws. The compiled handlers run in a transaction and roll back.
- **Payment service (`pagamento-service`).** The `Pagamento` entity and its
  status lifecycle (`atualizarStatus`, `aprovarPagamento`,
  `rejeitarPagamento`, `cancelarPagamento`); `PagamentoService` (creation,
  the client checkout that charges the open cart plus the pending
  appointments by PIX, and the calls by id); and the card endpoints
  (`CartaoController`, the `CartaoDTO` constraints and the entity's
  `validateFields`).
- **Scheduling service (`servicos-service`).** `AgendamentoService`: the
  price table of `ServicoEnum`, the client and pet lookups, the staff name
  and the stored appointment.
- **Account service (`conta-service`).** `PetService`: pets scoped to their
  owning client.
- **Gateway.** The `AuthenticationFilter` of the gateway.
- **Web frontend.** The card page (`Cartao.tsx`: the input masks, the brand
  and `validate`) and the payment page (`Pagamento.tsx`: the formatters,
  `validateForm`, `handleInputChange` and `handlePaymentMethodChange`).

Imperative code with state is modelled with classes. This covers the
database, the repositories and the `Pagamento` entity: their methods carry
`modifies` clauses and state their whole new state. The request handlers
are methods over those classes. Pure code is modelled with functions and
lemmas: the masks, the form validations, the status transitions, the
filter and the DTO mappings. Generated ids are not inputs: the database and
every repository hold their own counter, standing for AUTO_INCREMENT or the
JPA identity column, and a new row takes the counter's value.

Some inputs are parameters of the model rather than effects:

- the time (`NOW()`, `LocalDateTime.now()`, `new Date()`);
- the answers of the remote services the payment and scheduling services
  call;
- the set of tokens that verify, with their subjects;
- a `fault` parameter naming the SQL statement at which the database
  throws, if any.

Money is an integer number of cents.

## Model

| member | source | states |
|---|---|---|
| ProductDb.KindOf | vendas-service/src/controllers/produtoController.ts:66-69 | a `tipo` is accepted exactly when it is REMEDIO, BRINQUEDO or RACAO, and each names its own kind |
| ProductDb.OfKindInsert | vendas-service/src/controllers/produtoController.ts:84-103 | a new product joins the id set of its own kind and no other |
| ProductDb.CreatedOk | vendas-service/src/controllers/produtoController.ts:75-103 | a creation adds the base row under the fresh id and exactly one subtype row, in the table of its kind; every product keeps exactly one subtype row |
| ProductDb.NameLeTotal | vendas-service/src/controllers/produtoController.ts:15-17 | any two names are ordered one way or the other by `ORDER BY nome` |
| ProductDb.CatalogRowsSplit | vendas-service/src/controllers/produtoController.ts:15-17 | taking one product out of the catalog takes exactly its row out of the listed rows |
| ProductDb.InsertByName | vendas-service/src/controllers/produtoController.ts:15-17 | placing a row into a listing sorted by name gives a sorted listing holding exactly the old rows plus the new one |
| ProductDb.Listing | vendas-service/src/controllers/produtoController.ts:15-17 | the listing is sorted by name and is a permutation of the catalog rows |
| ProductDb.Lookup | vendas-service/src/controllers/produtoController.ts:34-46 | the lookup finds a row exactly when the id is stored, and then the stored product |
| ProductDb.CreatedIsFound | vendas-service/src/controllers/produtoController.ts:75-108 | after a creation the new id finds exactly the created product and every other id finds what it found before |
| ProductDb.CreatedIsListed | vendas-service/src/controllers/produtoController.ts:15-17 | after a creation the listing holds the old rows plus exactly the new one |
| CartDb.EmptyCartSentinel | vendas-service/src/controllers/carrinhoController.ts:69-78 | a user without a cart gets items [], total 0, a null cart id and null dates |
| CartDb.SumMapSplit | vendas-service/src/controllers/carrinhoController.ts:18 | the `reduce` sum does not depend on the order of the rows: any one row can be taken out first |
| CartDb.Merge | vendas-service/src/controllers/carrinhoController.ts:129-134 | the upsert adds the quantity to the existing line of the product or creates it, keeps every other line, and never makes a second line for one product |
| CartDb.LinesTotalEmpty | vendas-service/src/controllers/carrinhoController.ts:9-26 | a cart without lines is worth 0 |
| CartDb.LinesTotalUpdate | vendas-service/src/controllers/carrinhoController.ts:9-26 | writing one line changes the total by that line's new value only |
| CartDb.LinesTotalDelete | vendas-service/src/controllers/carrinhoController.ts:9-26 | deleting a line takes exactly its value out of the total |
| CartDb.LinesTotalNewProduct | vendas-service/src/controllers/carrinhoController.ts:9-26 | a new catalog product that the cart does not hold leaves its total unchanged |
| CartDb.SumMapNonNegative | vendas-service/src/controllers/carrinhoController.ts:18 | a sum of non-negative values is non-negative |
| CartDb.LinesTotalNonNegative | vendas-service/src/controllers/carrinhoController.ts:9-26 | with no negative price and positive quantities a cart total is at least 0 |
| CartDb.Items | vendas-service/src/controllers/carrinhoController.ts:40-53 | the items shown are the cart's lines whose product the JOIN finds, with name and price from the catalog |
| CartDb.SumRows | vendas-service/src/controllers/carrinhoController.ts:18 | the loop over the fetched rows computes Σ quantidade × preco of the rows |
| CartDb.ItemsTotalIsLinesTotal | vendas-service/src/controllers/carrinhoController.ts:29-56 | when every line's product exists, the items shown add up to the cart's total |
| CartDb.TablesOkCounterGrows | vendas-service/src/controllers/carrinhoController.ts:122-126 | handing out more AUTO_INCREMENT ids keeps the tables valid |
| CartDb.CartDetails | vendas-service/src/controllers/carrinhoController.ts:29-56 | the details are absent exactly for an unknown cart, otherwise the header row with the formatted lines |
| CartDb.DetailsTotalMatchesItems | vendas-service/src/controllers/carrinhoController.ts:29-56 | for an up-to-date cart the total shown equals Σ quantidade × preco over the items shown |
| CartDb.CartLookup | vendas-service/src/controllers/carrinhoController.ts:63-90 | GET answers the sentinel for a user without a cart and the details of the user's cart otherwise; 500 exactly when a statement throws |
| CartDb.CartLookupTotalMatchesItems | vendas-service/src/controllers/carrinhoController.ts:63-90 | on consistent tables every cart a GET shows adds up |
| CartDb.CartInsertedOk | vendas-service/src/controllers/carrinhoController.ts:122-126 | a new cart has total 0, is up to date, and keeps the invariant |
| CartDb.CartInsertedKeepsTotals | vendas-service/src/controllers/carrinhoController.ts:122-126 | a new cart leaves the totals of every other cart up to date |
| CartDb.LineUpsertedOk | vendas-service/src/controllers/carrinhoController.ts:129-134 | the upsert keeps quantities at least 1 and every other cart's total up to date |
| CartDb.LineSetOk | vendas-service/src/controllers/carrinhoController.ts:188-192 | setting a line to a positive quantity keeps the invariant and every other total |
| CartDb.LineDeletedOk | vendas-service/src/controllers/carrinhoController.ts:186 | deleting a line keeps the invariant and every other total |
| CartDb.LineKeptOk | vendas-service/src/controllers/carrinhoController.ts:185-193 | the removal write (delete, or keep the difference) keeps the invariant and every other total |
| CartDb.TotalRecomputedOk | vendas-service/src/controllers/carrinhoController.ts:9-26 | recomputing a cart's total makes it equal to Σ quantity × current price, so the tables are consistent again |
| CartDb.AddedSpec | vendas-service/src/controllers/carrinhoController.ts:113-136 | a successful add creates a cart only for a user without one (so each user has one cart), merges the line, brings the total up to date and keeps every other cart |
| CartDb.AddedShape | vendas-service/src/controllers/carrinhoController.ts:113-134 | which rows a successful add creates or changes, and that every other cart row is untouched |
| CartDb.AddedKeeps | vendas-service/src/controllers/carrinhoController.ts:113-136 | an add keeps the invariant and the consistency of every total |
| CartDb.RemovedSpec | vendas-service/src/controllers/carrinhoController.ts:183-195 | a successful removal deletes or updates exactly that line, keeps every header, and brings the cart's total up to date |
| CartDb.RemovedKeeps | vendas-service/src/controllers/carrinhoController.ts:183-195 | a removal keeps the invariant and the consistency of every total |
| CartDb.CartTotalNonNegative | vendas-service/src/controllers/carrinhoController.ts:9-26 | under non-negative prices every up-to-date total is at least 0 |
| CartDb.NewProductKeepsCarts | vendas-service/src/controllers/produtoController.ts:75-103 | creating a product keeps every cart valid and every total up to date |
| CartDb.Database.Rollback | vendas-service/dist/src/controllers/carrinhoController.js:135-137 | a rollback returns the cart tables to the snapshot, the AUTO_INCREMENT excepted |
| CartDb.Database.InsertCart | vendas-service/src/controllers/carrinhoController.ts:122-126 | the Carrinho insert takes the next id and adds an empty cart of total 0 for the user |
| CartDb.Database.FindOrCreateCart | vendas-service/src/controllers/carrinhoController.ts:113-127 | the user's cart is reused, or a new one is inserted; a failed insert changes nothing |
| CartDb.Database.UpsertLine | vendas-service/src/controllers/carrinhoController.ts:129-134 | the tables after the upsert are the merged lines |
| CartDb.Database.KeepLine | vendas-service/src/controllers/carrinhoController.ts:185-193 | the tables after the removal write are the line deleted or set to the kept quantity |
| CartDb.Database.RecomputeTotal | vendas-service/src/controllers/carrinhoController.ts:9-26 | the returned and stored total is Σ quantity × current price of the cart's lines |
| CartDb.Database.InsertProductBase | vendas-service/src/controllers/produtoController.ts:75-81 | the base insert stores the product under the next AUTO_INCREMENT id |
| CartDb.Database.InsertSubtype | vendas-service/src/controllers/produtoController.ts:84-103 | the subtype insert adds the id to the table of its kind only |
| CartDb.Database.RestoreProducts | vendas-service/src/controllers/produtoController.ts:110-111 | a rollback returns the product tables to the snapshot |
| CartTs.AddRequestOk | vendas-service/src/controllers/carrinhoController.ts:101-103 | the add goes on exactly for a truthy idProduto and a quantidade of type number above zero |
| CartTs.GetCart | vendas-service/src/controllers/carrinhoController.ts:59-91 | GET answers 401 exactly for a non-numeric X-User-ID, else the cart lookup |
| CartTs.AddToCart | vendas-service/src/controllers/carrinhoController.ts:94-151 | 401 for a bad header, 400 for a falsy id or a quantity that is not a number > 0, 404 for an unknown product, all with no change; otherwise the writes made before any failing statement stay, and 200 returns the updated cart; the product tables and the product counter are untouched |
| CartTs.AddExistingProduct | vendas-service/src/controllers/carrinhoController.ts:113-145 | the statements after the product lookup: each write stays unless one before it threw; the product tables and the product counter are untouched |
| CartTs.AddEffectConsistent | vendas-service/src/controllers/carrinhoController.ts:113-136 | every failure except one in the total's recomputation leaves consistent tables consistent |
| CartTs.TotalUpdateFaultBreaksTotals | vendas-service/src/controllers/carrinhoController.ts:129-136 | with no transaction, a failure while recomputing the total keeps a line whose cart total is stale |
| CartTs.RemovalTs | vendas-service/src/controllers/carrinhoController.ts:185-193 | a quantity that is absent, 0 or at least the stored one deletes the line; otherwise the difference is kept |
| CartTs.RemovalTsKeepsPositive | vendas-service/src/controllers/carrinhoController.ts:185-193 | the rule never stores a quantity below 1 |
| CartTs.RemovalTsNegativeRaises | vendas-service/src/controllers/carrinhoController.ts:188-192 | a negative quantity -k raises the stored quantity by k |
| CartTs.RemoveFromCart | vendas-service/src/controllers/carrinhoController.ts:154-208 | 401 for a bad header, 400 for a falsy idProduto, 404 with no change when the user has no cart or no line of the product; otherwise the removal rule and the recompute, each write kept unless one before it threw; the product tables and the product counter are untouched |
| CartTs.RemoveFoundLine | vendas-service/src/controllers/carrinhoController.ts:183-202 | the removal's writes once the line is found, each kept unless one before it threw; the product tables and the product counter are untouched |
| CartDist.AddRequestOk | vendas-service/dist/src/controllers/carrinhoController.js:89-97 | the add goes on exactly when idProduto and quantidade are defined and quantidade is a number above zero |
| CartDist.RemoveQuantityOk | vendas-service/dist/src/controllers/carrinhoController.js:164-167 | a quantity to remove passes exactly when it is undefined or a number above zero |
| CartDist.GetCart | vendas-service/dist/src/controllers/carrinhoController.js:43-75 | GET answers 403 exactly when the X-User-ID header is missing, else the cart lookup |
| CartDist.AddToCart | vendas-service/dist/src/controllers/carrinhoController.js:80-145 | 403, 400 (idProduto or quantidade undefined, or a quantity that is not a number > 0), 404 and 500 all leave the tables exactly as they were; 200 leaves the add applied with every total up to date; the product tables and the product counter are untouched |
| CartDist.AddInTransaction | vendas-service/dist/src/controllers/carrinhoController.js:98-137 | between begin and commit either every write stays (200) or the rollback restores the snapshot (500); consistency of totals is kept; the product tables and the product counter are untouched |
| CartDist.Abort | vendas-service/dist/src/controllers/carrinhoController.js:135-139 | the catch rolls the cart tables back to the snapshot and answers 500 |
| CartDist.RemovalDist | vendas-service/dist/src/controllers/carrinhoController.js:185-193 | an absent quantity or one at least the stored one deletes the line; otherwise the difference is kept |
| CartDist.RemovalDistNeverRaises | vendas-service/dist/src/controllers/carrinhoController.js:185-193 | a kept quantity is at least 1 and below the stored one |
| CartDist.RemoveAmount | vendas-service/dist/src/controllers/carrinhoController.js:164-167 | a quantity that passed the check is absent or a number above zero |
| CartDist.RemoveFromCart | vendas-service/dist/src/controllers/carrinhoController.js:150-212 | 403, 400 (no idProduto, or a supplied quantity that is not a number > 0), 404 and 500 leave the tables unchanged; 200 applies the removal and keeps every total up to date; the product tables and the product counter are untouched |
| CartDist.RemoveInTransaction | vendas-service/dist/src/controllers/carrinhoController.js:168-204 | the removal's writes are kept together (200) or rolled back together (500); the product tables and the product counter are untouched |
| ProductsTs.FieldsPresent | vendas-service/src/controllers/produtoController.ts:62-65 | the body passes exactly with a non-empty nome, a preco neither undefined nor null, and a truthy tipo |
| ProductsTs.KindOk | vendas-service/src/controllers/produtoController.ts:66-69 | the tipo passes exactly when it is one of REMEDIO, BRINQUEDO, RACAO |
| ProductsTs.DescriptionColumn | vendas-service/src/controllers/produtoController.ts:75-78 | a bound `descricao` is stored as its string, and `null` as a NULL column |
| ProductsTs.ListProducts | vendas-service/src/controllers/produtoController.ts:12-25 | the listing is every product, sorted by name, or 500 when the query fails |
| ProductsTs.GetProduct | vendas-service/src/controllers/produtoController.ts:30-51 | 404 exactly for an unknown id, otherwise exactly the stored product |
| ProductsTs.Stored | vendas-service/src/controllers/produtoController.ts:59-78 | a checked body stores a product exactly when its price is a number and `descricao` is present (a left-out `descricao` is an `undefined` bind value, so the insert throws); the product carries the body's name, price and kind, and a NULL description for `descricao: null` |
| ProductsTs.CreateProduct | vendas-service/src/controllers/produtoController.ts:56-117 | 400 exactly when name, price or type is missing or the type is not one of the three, with nothing inserted; 201 exactly for a checked body with a numeric price and a `descricao` present (possibly null) and no failing statement, inserting the base and subtype rows and echoing the id and fields; a left-out `descricao` or any other failure is 500 with both inserts rolled back |
| ProductsTs.CreateInTransaction | vendas-service/src/controllers/produtoController.ts:71-113 | both inserts are committed together or rolled back together; cart totals are unaffected |
| ProductsTs.AbortCreate | vendas-service/src/controllers/produtoController.ts:110-113 | the catch restores the product tables and answers 500 |
| ProductsTs.NegativePriceAccepted | vendas-service/src/controllers/produtoController.ts:62 | a body with price -100 and `descricao: null` passes the checks and is stored with that price |
| ProductsDist.FieldsOk | vendas-service/dist/src/controllers/produtoController.js:50-53 | the body passes exactly with a non-empty nome, a preco of type number at least 0, and a truthy tipo |
| ProductsDist.Stored | vendas-service/dist/src/controllers/produtoController.js:48-61 | a checked body stores a product exactly when `descricao` is present; that product has the body's non-negative price, name and the kind its type names, and a NULL description for `descricao: null` |
| ProductsDist.CreateProduct | vendas-service/dist/src/controllers/produtoController.js:45-90 | 400 exactly when the name is empty, the price is not a number ≥ 0, or the type is missing or unknown; 201 exactly for a checked body with `descricao` present (possibly null) and no failing statement, inserting base and subtype rows; a left-out `descricao` or any other failure is 500 with both inserts rolled back; a catalog with no negative price keeps none |
| ProductsDist.NegativePriceRejected | vendas-service/dist/src/controllers/produtoController.js:50 | every body with a negative price is turned away |
| Payment.UpdateStatus | pagamento-service/src/main/java/br/unifor/pagamento/model/Pagamento.java:55-65 | `atualizarStatus` refuses exactly when the status is CANCELADO, or APROVADO and the target is not CANCELADO; otherwise the target becomes the status |
| Payment.Approve | pagamento-service/src/main/java/br/unifor/pagamento/model/Pagamento.java:68-73 | approval succeeds exactly from PENDENTE and yields APROVADO |
| Payment.Reject | pagamento-service/src/main/java/br/unifor/pagamento/model/Pagamento.java:76-81 | rejection succeeds exactly from PENDENTE and yields REJEITADO |
| Payment.Cancel | pagamento-service/src/main/java/br/unifor/pagamento/model/Pagamento.java:84-92 | cancellation is refused exactly from CANCELADO or REJEITADO and otherwise yields CANCELADO |
| Payment.CanceledIsTerminal | pagamento-service/src/main/java/br/unifor/pagamento/model/Pagamento.java:56-92 | no sequence of status calls leaves CANCELADO |
| Payment.ApprovedEndsApprovedOrCanceled | pagamento-service/src/main/java/br/unifor/pagamento/model/Pagamento.java:60-92 | after APROVADO every sequence of calls ends in APROVADO or CANCELADO |
| Payment.StatusChecksExclusive | pagamento-service/src/main/java/br/unifor/pagamento/model/Pagamento.java:95-112 | exactly one of the four isX checks holds for a non-null status, none for null |
| Payment.Pagamento.IsPendente | pagamento-service/src/main/java/br/unifor/pagamento/model/Pagamento.java:95-97 | the status is PENDENTE |
| Payment.Pagamento.IsAprovado | pagamento-service/src/main/java/br/unifor/pagamento/model/Pagamento.java:100-102 | the status is APROVADO |
| Payment.Pagamento.IsRejeitado | pagamento-service/src/main/java/br/unifor/pagamento/model/Pagamento.java:105-107 | the status is REJEITADO |
| Payment.Pagamento.IsCancelado | pagamento-service/src/main/java/br/unifor/pagamento/model/Pagamento.java:110-112 | the status is CANCELADO |
| Payment.Pagamento.Load | pagamento-service/src/main/java/br/unifor/pagamento/model/Pagamento.java:15-41 | a payment loaded from a record holds exactly that record |
| Payment.Pagamento.Process | pagamento-service/src/main/java/br/unifor/pagamento/model/Pagamento.java:44-52 | `processarPagamento` copies its five arguments and sets PENDENTE; the user id is untouched |
| Payment.Pagamento.Transit | pagamento-service/src/main/java/br/unifor/pagamento/model/Pagamento.java:55-92 | a refused transition leaves the status; an accepted one sets the new status |
| Payment.Pagamento.SetStatus | pagamento-service/src/main/java/br/unifor/pagamento/model/Pagamento.java:55-65 | the call succeeds exactly when `UpdateStatus` allows it, and the status changes only then |
| Payment.Pagamento.ApprovePayment | pagamento-service/src/main/java/br/unifor/pagamento/model/Pagamento.java:68-73 | success exactly from PENDENTE, the status becomes APROVADO; otherwise unchanged |
| Payment.Pagamento.RejectPayment | pagamento-service/src/main/java/br/unifor/pagamento/model/Pagamento.java:76-81 | success exactly from PENDENTE, the status becomes REJEITADO; otherwise unchanged |
| Payment.Pagamento.CancelPayment | pagamento-service/src/main/java/br/unifor/pagamento/model/Pagamento.java:84-92 | refused exactly from CANCELADO or REJEITADO, with the status unchanged; from any other status, `null` included, the status becomes CANCELADO |
| PaymentService.PaymentRepository.SaveNew | pagamento-service/src/main/java/br/unifor/pagamento/Service/PagamentoService.java:115 | a new payment is stored under a fresh id and nothing else changes |
| PaymentService.PaymentRepository.Save | pagamento-service/src/main/java/br/unifor/pagamento/Service/PagamentoService.java:143-159 | saving a loaded payment overwrites exactly its row |
| PaymentService.PaymentRepository.Delete | pagamento-service/src/main/java/br/unifor/pagamento/Service/PagamentoService.java:161-164 | the row is removed and nothing else |
| PaymentService.CreateError | pagamento-service/src/main/java/br/unifor/pagamento/Service/PagamentoService.java:99-101 | the checks in order: a null or ≤ 0 amount, then a null user, then a null method; no error exactly when all hold |
| PaymentService.CreatePayment | pagamento-service/src/main/java/br/unifor/pagamento/Service/PagamentoService.java:98-116 | a refused request saves nothing; an accepted one saves once, under a fresh id, a PENDENTE payment with the given fields |
| PaymentService.SalesTotal | pagamento-service/src/main/java/unifor/pagamento/pagamento/Service/PagamentoService.java:69-83 | the cart total counts only for a successful answer with data and a total; anything else counts 0 |
| PaymentService.ServicesSum | pagamento-service/src/main/java/br/unifor/pagamento/Service/PagamentoService.java:80-88 | the running total of the loop: each appointment adds its value, a null value adds nothing (stated by ServicesSumOfValues and NullServiceSkipped) |
| PaymentService.CheckoutAmount | pagamento-service/src/main/java/br/unifor/pagamento/Service/PagamentoService.java:49-53 | the cart total plus the services total, a failed lookup counting 0 (stated by NoAnswersNothingDue and Checkout) |
| PaymentService.ServicesSumAppend | pagamento-service/src/main/java/br/unifor/pagamento/Service/PagamentoService.java:80-88 | the services sum of two lists is the sum of their sums |
| PaymentService.NullServiceSkipped | pagamento-service/src/main/java/br/unifor/pagamento/Service/PagamentoService.java:83-87 | an appointment without a value adds nothing to the sum |
| PaymentService.ServicesSumOfValues | pagamento-service/src/main/java/br/unifor/pagamento/Service/PagamentoService.java:80-88 | the services sum is the plain sum of the non-null values, in order |
| PaymentService.SumServices | pagamento-service/src/main/java/br/unifor/pagamento/Service/PagamentoService.java:80-88 | the loop computes the services sum of the appointments |
| PaymentService.ServicesTotal | pagamento-service/src/main/java/br/unifor/pagamento/Service/PagamentoService.java:77-94 | a failed or empty lookup counts 0, otherwise the services sum |
| PaymentService.NoAnswersNothingDue | pagamento-service/src/main/java/br/unifor/pagamento/Service/PagamentoService.java:49-58 | with no cart and no appointments the amount is 0 and checkout is refused |
| PaymentService.Checkout | pagamento-service/src/main/java/br/unifor/pagamento/Service/PagamentoService.java:38-62 | a missing client or CPF, then an amount ≤ 0, then a missing user refuse with nothing saved; otherwise one PENDENTE PIX payment of sales + services is saved |
| PaymentService.FindPayment | pagamento-service/src/main/java/br/unifor/pagamento/Service/PagamentoService.java:118-121 | the lookup fails with NotFound exactly for an unknown id |
| PaymentService.TransitionedOk | pagamento-service/src/main/java/br/unifor/pagamento/Service/PagamentoService.java:143-159 | an applied transition yields the row with the new status |
| PaymentService.Load | pagamento-service/src/main/java/br/unifor/pagamento/Service/PagamentoService.java:118-121 | the entity loaded holds exactly the stored row |
| PaymentService.ApproveById | pagamento-service/src/main/java/br/unifor/pagamento/Service/PagamentoService.java:143-147 | an unknown id fails before any change; otherwise the entity transition is applied and saved, or refused with nothing saved |
| PaymentService.RejectById | pagamento-service/src/main/java/br/unifor/pagamento/Service/PagamentoService.java:149-153 | as ApproveById, for rejection |
| PaymentService.CancelById | pagamento-service/src/main/java/br/unifor/pagamento/Service/PagamentoService.java:155-159 | as ApproveById, for cancellation |
| PaymentService.DeleteById | pagamento-service/src/main/java/unifor/pagamento/pagamento/Service/PagamentoService.java:174-177 | an unknown id fails with nothing removed; otherwise exactly that row is removed |
| PaymentService.ApprovedThenOnlyCancel | pagamento-service/src/main/java/br/unifor/pagamento/Service/PagamentoService.java:143-159 | a PENDENTE payment approved through the service can afterwards be cancelled but neither approved nor rejected again |
| Cards.ValidateFields | pagamento-service/src/main/java/br/unifor/pagamento/model/Cartao.java:43-55 | the checks in order number (16 digits), CPF (11 digits), expiry (4 digits); no error exactly when all hold |
| Cards.Violations | pagamento-service/src/main/java/unifor/pagamento/pagamento/dto/CartaoDTO.java:14-37 | every bean-validation constraint of the DTO that the body breaks: blank or non-matching number, date, CVV and CPF, a blank holder, a null type or user |
| Cards.DigitsNotBlank | pagamento-service/src/main/java/unifor/pagamento/pagamento/dto/CartaoDTO.java:14-16 | a value of 16 digits is never blank |
| Cards.NoViolationsIffValid | pagamento-service/src/main/java/unifor/pagamento/pagamento/dto/CartaoDTO.java:12-37 | a DTO has no constraint violation exactly when every field constraint holds |
| Cards.ToDto | pagamento-service/src/main/java/unifor/pagamento/pagamento/controller/CartaoController.java:24-35 | the DTO shows "**** **** **** " and the characters from index 12, drops the CVV and copies the other fields |
| Cards.MaskShowsLastFour | pagamento-service/src/main/java/unifor/pagamento/pagamento/controller/CartaoController.java:27 | for a 16-digit number the masked number ends with its last four digits |
| Cards.MaskHidesFirstTwelve | pagamento-service/src/main/java/unifor/pagamento/pagamento/controller/CartaoController.java:27 | the masked number does not depend on the first twelve digits |
| Cards.ToEntity | pagamento-service/src/main/java/unifor/pagamento/pagamento/controller/CartaoController.java:37-48 | every DTO field is copied to the entity, the CVV included |
| Cards.ValidDtoPassesEntityChecks | pagamento-service/src/main/java/br/unifor/pagamento/model/Cartao.java:43-55 | a DTO that meets its constraints gives an entity that passes `validateFields` |
| Cards.ToDtoOfToEntity | pagamento-service/src/main/java/unifor/pagamento/pagamento/controller/CartaoController.java:24-48 | mapping a DTO to an entity and back keeps every field but the number (masked) and the CVV (dropped) |
| Cards.CardRepository.Insert | pagamento-service/src/main/java/br/unifor/pagamento/model/Cartao.java:43-44 | a card that fails validation is not stored; otherwise it is stored under a fresh id |
| Cards.CardRepository.Delete | pagamento-service/src/main/java/unifor/pagamento/pagamento/controller/CartaoController.java:69-76 | the card is removed and nothing else |
| Cards.CreateCard | pagamento-service/src/main/java/unifor/pagamento/pagamento/controller/CartaoController.java:52-59 | 400 exactly when the DTO has a violation; otherwise the body id is ignored, the card stored and the masked DTO returned with 201 |
| Cards.CardsOfUser | pagamento-service/src/main/java/unifor/pagamento/pagamento/controller/CartaoController.java:61-67 | exactly the cards of that user, each masked |
| Cards.DeleteCard | pagamento-service/src/main/java/unifor/pagamento/pagamento/controller/CartaoController.java:69-76 | 404 with no change for an unknown id; otherwise the card is removed with 204 |
| Scheduling.Price | servicos-service/src/main/java/br/unifor/fazeragendamento/model/ServicoEnum.java:14-16 | every service has a positive price |
| Scheduling.PriceTable | servicos-service/src/main/java/br/unifor/fazeragendamento/model/ServicoEnum.java:3-16 | three services, each once; BANHO 50.00, TOSA 40.00, CONSULTA 80.00, the most expensive |
| Scheduling.StaffName | servicos-service/src/main/java/br/unifor/fazeragendamento/service/AgendamentoService.java:56-60 | "Veterinário: " + name for CONSULTA and "Auxiliar: " + name for any other value, null included |
| Scheduling.StaffPrefixDecides | servicos-service/src/main/java/br/unifor/fazeragendamento/service/AgendamentoService.java:56-60 | a staff name carries the veterinarian's prefix exactly for CONSULTA |
| Scheduling.LookupError | servicos-service/src/main/java/br/unifor/fazeragendamento/service/AgendamentoService.java:40-41 | the client's lookup fails first, then the pet's; no error exactly when both found a name |
| Scheduling.NewAppointment | servicos-service/src/main/java/br/unifor/fazeragendamento/service/AgendamentoService.java:44-60 | date and service from the request, names from the lookups, the table price when a service is chosen, the prefixed staff name |
| Scheduling.AppointmentRepository.Insert | servicos-service/src/main/java/br/unifor/fazeragendamento/service/AgendamentoService.java:62 | the appointment is stored under a fresh id |
| Scheduling.CreateAppointment | servicos-service/src/main/java/br/unifor/fazeragendamento/service/AgendamentoService.java:32-63 | a null id, then a failed lookup, refuse with nothing stored; otherwise exactly the built appointment is stored once |
| Scheduling.Details | servicos-service/src/main/java/br/unifor/fazeragendamento/service/AgendamentoService.java:97-100 | an unknown id fails; otherwise the stored appointment |
| Pets.PetsOf | conta-service/src/main/java/br/com/petshop/conta_service/service/PetService.java:30-32 | exactly the pets owned by that client |
| Pets.FindOwned | conta-service/src/main/java/br/com/petshop/conta_service/service/PetService.java:34-36 | a pet is found exactly when it exists and belongs to that client |
| Pets.FindOwnedAgreesWithListing | conta-service/src/main/java/br/com/petshop/conta_service/service/PetService.java:30-36 | the scoped lookup finds exactly the pets of the client's listing |
| Pets.UpdateIsolatesClients | conta-service/src/main/java/br/com/petshop/conta_service/service/PetService.java:38-48 | an update changes no other client's listing and only that pet in its owner's |
| Pets.DeleteIsolatesClients | conta-service/src/main/java/br/com/petshop/conta_service/service/PetService.java:50-54 | a delete removes the pet from its owner's listing and from no one else's |
| Pets.CreateJoinsOwnerOnly | conta-service/src/main/java/br/com/petshop/conta_service/service/PetService.java:22-27 | a new pet joins its owner's listing and no one else's |
| Pets.PetRepository.Insert | conta-service/src/main/java/br/com/petshop/conta_service/service/PetService.java:26 | the pet is stored under a fresh id |
| Pets.PetRepository.Save | conta-service/src/main/java/br/com/petshop/conta_service/service/PetService.java:47 | the pet's row is overwritten |
| Pets.PetRepository.Delete | conta-service/src/main/java/br/com/petshop/conta_service/service/PetService.java:53 | the pet's row is removed |
| Pets.CreatePet | conta-service/src/main/java/br/com/petshop/conta_service/service/PetService.java:22-27 | the pet is stored under a fresh id with its owner set to the client, and the client then finds it |
| Pets.UpdatePetOfClient | conta-service/src/main/java/br/com/petshop/conta_service/service/PetService.java:38-48 | a missing or foreign pet fails with no change; otherwise only the four fields are overwritten and the owner kept |
| Pets.DeletePetOfClient | conta-service/src/main/java/br/com/petshop/conta_service/service/PetService.java:50-54 | a missing or foreign pet fails with no change; otherwise only that pet is removed |
| Pets.UpdatePet | conta-service/src/main/java/br/com/petshop/conta_service/service/PetService.java:61-69 | by id alone: an unknown id fails; otherwise the four fields are overwritten and the owner kept |
| Pets.DeletePet | conta-service/src/main/java/br/com/petshop/conta_service/service/PetService.java:71-75 | by id alone: an unknown id fails; otherwise that pet is removed |
| Gateway.TokenOf | gateway/src/main/java/com/gateway/gateway/config/AuthenticationFilter.java:37 | the token is the header with the seven characters of "Bearer " taken off |
| Gateway.TokenOfRoundTrip | gateway/src/main/java/com/gateway/gateway/config/AuthenticationFilter.java:32-37 | the token is recovered exactly from a header built from it |
| Gateway.Filter | gateway/src/main/java/com/gateway/gateway/config/AuthenticationFilter.java:26-53 | no Authorization header: forwarded unchanged; 401 exactly for a first value without the prefix or with a token that does not verify; a forwarded request is the one that arrived (taking `mutate()` to copy the headers) |
| Gateway.FirstValueDecides | gateway/src/main/java/com/gateway/gateway/config/AuthenticationFilter.java:30 | only the first Authorization value decides |
| Gateway.SubjectNeverForwarded | gateway/src/main/java/com/gateway/gateway/config/AuthenticationFilter.java:41-45 | a request with a valid token is forwarded without X-User-ID, taking `mutate()` to copy the headers |
| Gateway.CallerChosenUserIdPasses | gateway/src/main/java/com/gateway/gateway/config/AuthenticationFilter.java:26-28 | an X-User-ID sent by the caller without a token is forwarded untouched |
| Gateway.FilterIntended | gateway/src/main/java/com/gateway/gateway/config/AuthenticationFilter.java:41-53 | the same decisions as the filter, with the token's subject installed as X-User-ID |
| Gateway.IntendedCarriesSubject | gateway/src/main/java/com/gateway/gateway/config/AuthenticationFilter.java:41-45 | a request forwarded for a token carries exactly that token's subject |
| Masks.OnlyDigits | VetFofinhosRonaldo-main/src/pages/Cartao/Cartao.tsx:13 | `replace(/\D/g, '')` returns only digits and is no longer than its input |
| Masks.OnlyDigitsAppend | VetFofinhosRonaldo-main/src/pages/Cartao/Cartao.tsx:13 | the digits of a concatenation are the concatenation of the digits |
| Masks.OnlyDigitsOfDigits | VetFofinhosRonaldo-main/src/pages/Cartao/Cartao.tsx:13 | a string of digits is its own digits |
| Masks.OnlyDigitsSkipsMark | VetFofinhosRonaldo-main/src/pages/Cartao/Cartao.tsx:24-30 | an inserted punctuation mark is dropped again |
| Masks.Take | VetFofinhosRonaldo-main/src/pages/Cartao/Cartao.tsx:13 | `slice(0, n)` is a prefix of at most n characters, the whole string when it is short |
| Masks.Blocks | VetFofinhosRonaldo-main/src/pages/Cartao/Cartao.tsx:13 | `replace(/(.{4})/g, '$1 ')` on digits: a space after every complete block of four (its shape is stated by BlocksIsGroupedPlusSpace) |
| Masks.Grouped | VetFofinhosRonaldo-main/src/pages/Cartao/Cartao.tsx:13 | digits in blocks of four with one space between blocks (its shape is stated by GroupedShape) |
| Masks.TrimStart | VetFofinhosRonaldo-main/src/pages/Cartao/Cartao.tsx:13 | no longer than its input, and what is left does not start with white space |
| Masks.TrimEnd | VetFofinhosRonaldo-main/src/pages/Cartao/Cartao.tsx:13 | no longer than its input, and what is left does not end with white space |
| Masks.Trim | VetFofinhosRonaldo-main/src/pages/Cartao/Cartao.tsx:13 | `trim()`: no longer than its input, and no white space is left at either end |
| Masks.TrimStartDropsOnlySpace | VetFofinhosRonaldo-main/src/pages/Cartao/Cartao.tsx:13 | the leading trim keeps a suffix and drops only white space |
| Masks.TrimEndDropsOnlySpace | VetFofinhosRonaldo-main/src/pages/Cartao/Cartao.tsx:13 | the trailing trim keeps a prefix and drops only white space |
| Masks.TrimEmptyIffAllSpace | VetFofinhosRonaldo-main/src/pages/Cartao/Cartao.tsx:13 | `trim()` leaves nothing exactly when the string is all white space |
| Masks.BlocksIsGroupedPlusSpace | VetFofinhosRonaldo-main/src/pages/Cartao/Cartao.tsx:13 | the blocks replacement is the grouping plus one trailing space after a complete last block |
| Masks.GroupedEnds | VetFofinhosRonaldo-main/src/pages/Cartao/Cartao.tsx:13 | a grouping of digits starts and ends with a digit |
| Masks.TrimKeepsSolidEnds | VetFofinhosRonaldo-main/src/pages/Cartao/Cartao.tsx:13 | `trim()` leaves alone a string that starts and ends with a non-space character |
| Masks.TrimDropsTrailingSpace | VetFofinhosRonaldo-main/src/pages/Cartao/Cartao.tsx:13 | `trim()` drops the single trailing space |
| Masks.TrimmedBlocks | VetFofinhosRonaldo-main/src/pages/Cartao/Cartao.tsx:13 | the trimmed blocks are the digits in groups of four with no trailing space |
| Masks.GroupedShape | VetFofinhosRonaldo-main/src/pages/Cartao/Cartao.tsx:13 | spaces sit exactly at every fifth position and removing them gives the digits back |
| Masks.DotInFirstRunOfFour | VetFofinhosRonaldo-main/src/pages/Cartao/Cartao.tsx:26-27 | `replace(/(\d{3})(\d)/, '$1.$2')` changes the string exactly when four digits stand together from the search start, and then inserts one character |
| Masks.DashBeforeLast | VetFofinhosRonaldo-main/src/pages/Cartao/Cartao.tsx:28 | `replace(/(\d{3})(\d{1,2})$/, '$1-$2')` inserts one character exactly when the string ends with four digits, and otherwise changes nothing; the dash goes before the last two characters when five digits end the string, else before the last one, and every other character keeps its place |
| Masks.CpfPunctuated | VetFofinhosRonaldo-main/src/pages/Cartao/Cartao.tsx:24-30 | the three CPF replacements insert at most three characters |
| Masks.DotKeepsDigits | VetFofinhosRonaldo-main/src/pages/Cartao/Cartao.tsx:24-30 | the dot replacement keeps every digit in order |
| Masks.DashKeepsDigits | VetFofinhosRonaldo-main/src/pages/Cartao/Cartao.tsx:24-30 | the dash replacement keeps every digit in order |
| Masks.CpfKeepsDigits | VetFofinhosRonaldo-main/src/pages/Cartao/Cartao.tsx:24-30 | the CPF punctuation keeps every digit in order |
| Masks.FirstDotOfEleven | VetFofinhosRonaldo-main/src/pages/Cartao/Cartao.tsx:24-30 | on eleven digits the first replacement puts the dot after the third digit |
| Masks.SecondDotOfEleven | VetFofinhosRonaldo-main/src/pages/Cartao/Cartao.tsx:24-30 | the second replacement skips the runs the first dot broke and puts a dot after the sixth digit |
| Masks.DashOfEleven | VetFofinhosRonaldo-main/src/pages/Cartao/Cartao.tsx:24-30 | the dash replacement then puts the dash before the last two digits |
| Masks.CpfOfElevenDigits | VetFofinhosRonaldo-main/src/pages/Cartao/Cartao.tsx:24-30 | eleven digits come out as ddd.ddd.ddd-dd, fourteen characters |
| CardForm.GroupedSplit | VetFofinhosRonaldo-main/src/pages/Cartao/Cartao.tsx:12-14 | grouping whole blocks followed by more digits puts one space between the two groupings |
| CardForm.MaskCardNumber | VetFofinhosRonaldo-main/src/pages/Cartao/Cartao.tsx:12-14 | the mask is the first sixteen digits typed, grouped by four, and keeps exactly those digits; at most 19 characters |
| CardForm.CardNumberMaskOfDigits | VetFofinhosRonaldo-main/src/pages/Cartao/Cartao.tsx:13 | on digits, the blocks trimmed and cut to 19 characters are the first sixteen digits grouped by four |
| CardForm.GroupedCutAfterSixteen | VetFofinhosRonaldo-main/src/pages/Cartao/Cartao.tsx:13 | past sixteen digits, `slice(0, 19)` of the grouping is the grouping of the first sixteen |
| CardForm.MaskDate | VetFofinhosRonaldo-main/src/pages/Cartao/Cartao.tsx:16-18 | at most five characters, a slash after the first two digits once there are two, exactly MM/YY from four digits on |
| CardForm.MaskCvv | VetFofinhosRonaldo-main/src/pages/Cartao/Cartao.tsx:20-22 | the first three digits typed |
| CardForm.MaskCpf | VetFofinhosRonaldo-main/src/pages/Cartao/Cartao.tsx:24-30 | at most 14 characters; eleven digits typed give ddd.ddd.ddd-dd, which keeps all eleven |
| CardForm.CardFlag | VetFofinhosRonaldo-main/src/pages/Cartao/Cartao.tsx:32-38 | visa, mastercard, amex exactly for a first digit 4, 5, 3; default for anything else or no digit |
| CardForm.Validate | VetFofinhosRonaldo-main/src/pages/Cartao/Cartao.tsx:119-131 | each of the six messages (number, holder, MM/AA format, expired, CVV, CPF) is returned exactly when every earlier check passes and its own fails; no message exactly when all pass |
| CardForm.CardRefusedInItsExpiryMonth | VetFofinhosRonaldo-main/src/pages/Cartao/Cartao.tsx:124-127 | as written, a card is refused as expired during its own expiry month |
| CardForm.ExpiryMonthOfDecember2025 | VetFofinhosRonaldo-main/src/pages/Cartao/Cartao.tsx:124-125 | "12/25" names December 2025 |
| CardForm.ValidateIntended | VetFofinhosRonaldo-main/src/pages/Cartao/Cartao.tsx:119-131 | as `validate`, with a card good through the end of its expiry month |
| CardForm.IntendedDiffersOnlyInExpiryMonth | VetFofinhosRonaldo-main/src/pages/Cartao/Cartao.tsx:124-127 | the intended check accepts all the written one accepts and differs only during the expiry month |
| CardForm.MaskedFieldsPassFormatChecks | VetFofinhosRonaldo-main/src/pages/Cartao/Cartao.tsx:12-30 | fields filled through the masks with enough digits pass the number, format, CVV and CPF checks |
| PaymentForm.FormatCardNumber | VetFofinhosRonaldo-main/src/pages/Pagamento/Pagamento.tsx:211-214 | the input's digits in order, in groups of four, one space between, none at the end |
| PaymentForm.FormatDate | VetFofinhosRonaldo-main/src/pages/Pagamento/Pagamento.tsx:216-219 | the digits unchanged below four digits, one slash after the first two from four on; no digit lost |
| PaymentForm.SlashKeepsDigits | VetFofinhosRonaldo-main/src/pages/Pagamento/Pagamento.tsx:216-219 | the slash after the first two digits is the only character added; the digits before and after it are unchanged |
| PaymentForm.FormatCpf | VetFofinhosRonaldo-main/src/pages/Pagamento/Pagamento.tsx:221-227 | keeps every digit; eleven digits give ddd.ddd.ddd-dd |
| PaymentForm.FormattersIdempotent | VetFofinhosRonaldo-main/src/pages/Pagamento/Pagamento.tsx:211-227 | formatting a formatted value changes nothing |
| PaymentForm.PositiveIffNonzeroDigit | VetFofinhosRonaldo-main/src/pages/Pagamento/Pagamento.tsx:232 | a digit string is a positive number exactly when one digit is not zero |
| PaymentForm.ValidateForm | VetFofinhosRonaldo-main/src/pages/Pagamento/Pagamento.tsx:230-279 | each of the six messages is returned exactly when every earlier check passes and its own fails, in the order amount (no non-zero digit), card number, holder, expiry, CVV, CPF; the four card checks apply only to CARTAO; valid exactly when every check passes |
| PaymentForm.Stored | VetFofinhosRonaldo-main/src/pages/Pagamento/Pagamento.tsx:285-295 | the amount is stored as its digits only and the CVV as at most four digits, a prefix of those typed; the number, expiry and CPF go through their formatters; the holder and card type are stored as typed; every field keeps exactly the digits typed, except that the CVV keeps its first four |
| PaymentForm.InputChanged | VetFofinhosRonaldo-main/src/pages/Pagamento/Pagamento.tsx:281-301 | only the named field changes; the amount becomes digits only, the CVV at most four digits, the holder and card type are kept as typed, the number, expiry and CPF are formatted; the field keeps the digits typed (the CVV its first four) |
| PaymentForm.SameDigitsSameVerdict | VetFofinhosRonaldo-main/src/pages/Pagamento/Pagamento.tsx:230-279 | `validateForm` depends only on the method, the digits of five fields and the trimmed holder |
| PaymentForm.FormattingKeepsVerdict | VetFofinhosRonaldo-main/src/pages/Pagamento/Pagamento.tsx:281-301 | formatting never changes the verdict on what was typed, except the CVV cut to four digits |
| PaymentForm.MethodChanged | VetFofinhosRonaldo-main/src/pages/Pagamento/Pagamento.tsx:303-314 | the method is set; PIX empties the four card fields, CARTAO keeps them |
| PaymentForm.PixIgnoresCardFields | VetFofinhosRonaldo-main/src/pages/Pagamento/Pagamento.tsx:238-265 | with PIX only the amount and the CPF decide |
| PaymentForm.BackFromPixNeedsCardAgain | VetFofinhosRonaldo-main/src/pages/Pagamento/Pagamento.tsx:303-312 | going to PIX and back to the card fails on the amount or on the card number |

## Left out

- Network, HTTP framing and JSON parsing: a request body is a datatype of the fields a handler reads, and numbers in it are integers.
- Concurrency and transaction isolation: two requests never interleave in this model.
- JavaScript `Number` is modelled as an integer number of cents, with no floating point and no precision loss above 2^53.
- ProductsTs.CreateProduct and ProductsDist.CreateProduct: a left-out `descricao` is `undefined`, and the model takes the mysql2 driver's `execute` to refuse an `undefined` bind value by throwing, so the creation is rolled back and answered with 500. The mysql2 sources are not part of this model. A `descricao` that is a number or a boolean is not modelled.
- MySQL's coercion of a non-number `preco` (a string such as "12") is not modelled. A non-number price reaching the insert is a failing statement, which is a 500.
- Names compared by `ORDER BY nome` use code-point order; the database collation is not modelled.
- Route parameters are integers; parsing `:id` from the path is not modelled.
- In the compiled handlers, an `x-user-id` header that is present but not numeric parses to `NaN`; that case is not modelled, and a present header is a user id.
- The 404 branch of the TypeScript GET handler cannot be reached (the lookup always answers), so it has no member.
- Java `null` inside entity strings (name, CPF) is not modelled; those fields are non-null strings. `null` is modelled where the source tests for it: amounts, status, method, ids and remote answers.
- Exceptions thrown by the remote client lookup in the checkout propagate and are not caught; the model stops at the `None` answer.
- Pass-through listings of the payment service (`listarTodos`, `buscarPorStatus`, `buscarPorUsuario` and similar) are repository calls with no logic and are not modelled.
- The `Pet` entity (`Pet.java`) is not part of this model. A pet is its owner and the four fields the service overwrites.
- The `Cartao` entity of the `unifor` package is not part of this model. It is taken to be the `br` one (`model/Cartao.java`), which has the same checks.
- Pets.CreatePet: the body's own `id` is not modelled. JPA `save` merges a pet whose body carries the id of an existing pet onto that row, moving it to this client. The model always inserts under a fresh id, because `Pet.java` and its id mapping are not part of this model. Pets.CreateJoinsOwnerOnly and the ownership scoping therefore hold only for bodies without an id.
- CartTs.RemoveFromCart: `quantidade` is an optional integer. The TypeScript handler never checks its type, so a `true` acts as 1 and a numeric string such as "2" is coerced by `>=` and `-`; those bodies are not modelled.
- PaymentService.ServicesTotal: a `null` element of the appointments array is not modelled. In the source it makes the loop throw inside the `try`, so the whole services total falls back to 0; in the model every element is an appointment whose value may be null.
- Cards.CardsOfUser: a set, because the order in which the repository returns the cards is not modelled.
- Gateway.Filter: the model takes `exchange.getRequest().mutate().header(...)` to write into a copy of the headers, so a request it builds and then drops leaves the original request as it was. The Spring Cloud Gateway and Spring Web sources are not part of this model; if the request builder wraps the original header map instead of copying it, `X-User-ID` reaches the service after all, and Gateway.SubjectNeverForwarded and the gateway row under "## Findings" do not describe the running gateway.
- JWT parsing and signature checking are a map from the tokens that verify to their subjects; header names are matched exactly (no case folding).
- CardForm.Validate: the current time is the month it falls in plus one flag for the very first millisecond of that month (`atMonthStart`). Times within a month are not modelled.
- The `maxLength` attributes of the inputs, the `idUsuario` and `idPedido` fields of the payment page, and `formatCurrency` are presentation only and are not modelled.
- Rendering, navigation, the `fetch` calls of the pages and their loading states are not modelled.

## Findings

| source | as written | input that shows it | evidently intended | confidence | as-written member | corrected member |
|---|---|---|---|---|---|---|
| vendas-service/src/controllers/carrinhoController.ts:129-136 | the line upsert and the total recomputation are separate statements with no transaction | one unit of product 5 (price 100) added to the empty cart 10 of user 1, with the `UPDATE Carrinho SET total` failing: the line is kept and the stored total stays 0 | all writes of an add commit together or not at all, so every total stays Σ quantidade × preco | not executed | CartTs.TotalUpdateFaultBreaksTotals | CartDist.AddInTransaction |
| vendas-service/src/controllers/carrinhoController.ts:185-192 | `quantidade` is never checked to be positive before `quantidadeAtual - quantidade` is stored | removing -3 units from a line of 2 stores 5 | only a positive quantity is accepted, and a removal never raises a line | not executed | CartTs.RemovalTsNegativeRaises | CartDist.RemovalDistNeverRaises |
| vendas-service/src/controllers/produtoController.ts:62 | the price is only checked to be present | a body `{nome: "Bola", preco: -100, tipo: "BRINQUEDO", descricao: null}` is stored with price -100 | a negative price is turned away with 400 | not executed | ProductsTs.NegativePriceAccepted | ProductsDist.NegativePriceRejected |
| gateway/src/main/java/com/gateway/gateway/config/AuthenticationFilter.java:41-53 | `exchange.getRequest().mutate().header(...)` builds a request that is never passed on; the original exchange goes down the chain | a request with `Authorization: Bearer t`, where t verifies, reaches the service without `X-User-ID` | the request forwarded carries the token's subject as `X-User-ID` | not executed; rests on `mutate()` copying the headers (see "## Left out") | Gateway.SubjectNeverForwarded | Gateway.IntendedCarriesSubject |
| VetFofinhosRonaldo-main/src/pages/Cartao/Cartao.tsx:124-127 | a card counts as expired once the first instant of its expiry month has passed | a card marked `12/25`, checked on 2 December 2025, is refused as expired | a card is good through the end of its expiry month | not executed | CardForm.CardRefusedInItsExpiryMonth | CardForm.IntendedDiffersOnlyInExpiryMonth |
