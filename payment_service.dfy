/**
 * The payment service (`PagamentoService`, which exists in two copies, one
 * calling the other services through RestTemplate and one through
 * WebClient, with the same logic): payment creation, the checkout that
 * charges a client for the open cart and the pending appointments, and the
 * lookups and lifecycle calls by id. The repository is a class holding the
 * stored rows by id; the client, cart and appointment lookups and the
 * clocks are parameters.
 */
module PaymentService {
  import opened Common
  import opened Payment

  /** The PagamentoException of each check, and the entity's IllegalStateException. */
  datatype PaymentError = InvalidAmount | MissingUser | MissingMethod | NotFound(id: int)
                        | InvalidClient | NothingDue | IllegalState

  /** What a service call returns: the stored payment with its id, or the exception. */
  datatype Outcome = Done(id: int, payment: PaymentRecord) | Failed(error: PaymentError)

  /** `PagamentoRepository`: the stored payments by id and the next generated id. */
  class PaymentRepository {
    var rows: map<int, PaymentRecord>
    var nextId: int

    /** Every stored payment was created by the service: positive amount, status and method set, id already generated. */
    ghost predicate Valid()
      reads this
    {
      forall id :: id in rows ==> id < nextId && RecordOk(rows[id])
    }

    constructor ()
      ensures rows == map[] && Valid()
    {
      rows, nextId := map[], 1;
    }

    /** `save` of a new entity: a fresh id is generated and the entity stored under it. */
    method SaveNew(p: Pagamento) returns (id: int)
      modifies this
      ensures id == old(nextId) && nextId == id + 1
      ensures rows == old(rows)[id := p.Record()]
    {
      id := nextId;
      rows := rows[id := p.Record()];
      nextId := nextId + 1;
    }

    /** `save` of a loaded entity: its row is overwritten. */
    method Save(id: int, p: Pagamento)
      modifies this`rows
      ensures rows == old(rows)[id := p.Record()]
    {
      rows := rows[id := p.Record()];
    }

    /** `delete`. */
    method Delete(id: int)
      modifies this`rows
      ensures rows == old(rows) - {id}
    {
      rows := rows - {id};
    }
  }

  /** The columns the service always fills in. */
  predicate RecordOk(r: PaymentRecord)
  {
    r.valor > 0 && r.status.Some? && r.formaPagamento.Some?
  }

  // ---- Creation ----

  /** The checks of `criarPagamento`, in order: amount, user, method. */
  function CreateError(valor: Option<int>, forma: Option<Method>, idUsuario: Option<int>): (e: Option<PaymentError>)
    ensures e == Some(InvalidAmount) <==> valor.None? || valor.value <= 0
    ensures e == Some(MissingUser) <==> valor.Some? && valor.value > 0 && idUsuario.None?
    ensures e == Some(MissingMethod) <==> valor.Some? && valor.value > 0 && idUsuario.Some? && forma.None?
    ensures e.None? <==> valor.Some? && valor.value > 0 && idUsuario.Some? && forma.Some?
  {
    if valor.None? || valor.value <= 0 then Some(InvalidAmount)
    else if idUsuario.None? then Some(MissingUser)
    else if forma.None? then Some(MissingMethod)
    else None
  }

  /**
   * `criarPagamento`: after its checks, a new PENDENTE payment with the
   * given fields and the current time, saved once under a new id; a failed
   * check saves nothing.
   */
  method CreatePayment(repo: PaymentRepository, valor: Option<int>, forma: Option<Method>, idPedido: int,
                       nome: string, cpf: string, idUsuario: Option<int>, now: int) returns (r: Outcome)
    requires repo.Valid()
    modifies repo
    ensures repo.Valid()
    ensures r.Failed? <==> CreateError(valor, forma, idUsuario).Some?
    ensures r.Failed? ==> r.error == CreateError(valor, forma, idUsuario).value &&
                          repo.rows == old(repo.rows) && repo.nextId == old(repo.nextId)
    ensures r.Done? ==>
      r.id == old(repo.nextId) && r.id !in old(repo.rows) && repo.rows == old(repo.rows)[r.id := r.payment] &&
      r.payment == PaymentRecord(valor.value, now, Some(Pendente), forma, idPedido, nome, cpf, idUsuario.value)
  {
    var e := CreateError(valor, forma, idUsuario);
    if e.Some? {
      return Failed(e.value);
    }
    var p := new Pagamento();
    p.valor := valor.value;
    p.formaPagamento := forma;
    p.idPedido := idPedido;
    p.nomeCliente := nome;
    p.cpfCliente := cpf;
    p.idUsuario := idUsuario.value;
    p.status := Some(Pendente);
    p.dataPagamento := now;
    var id := repo.SaveNew(p);
    r := Done(id, p.Record());
  }

  // ---- Checkout ----

  /** `ClienteDTO` as the account service returns it. */
  datatype Client = Client(nome: string, cpf: Option<string>)

  /** `CarrinhoResponseDTO` as the sales service returns it. */
  datatype CartAnswer = CartAnswer(success: bool, data: Option<CartData>)
  datatype CartData = CartData(total: Option<int>)

  /** `AgendamentoResponseDTO`, of which only the service value is read. */
  datatype Appointment = Appointment(valorServico: Option<int>)

  /**
   * `buscarTotalVendas`: the cart total of a successful answer with data and
   * total, and 0 otherwise; `None` is a null answer or a thrown call.
   */
  function SalesTotal(cart: Option<CartAnswer>): (t: int)
    ensures cart.Some? && cart.value.success && cart.value.data.Some? && cart.value.data.value.total.Some? ==>
              t == cart.value.data.value.total.value
    ensures t != 0 ==> cart.Some? && cart.value.success && cart.value.data.Some? && cart.value.data.value.total == Some(t)
  {
    match cart
    case Some(CartAnswer(true, Some(CartData(Some(total))))) => total
    case _ => 0
  }

  /** The value an appointment adds to the services total: nothing when it is null. */
  function ServiceValue(a: Appointment): int
  {
    if a.valorServico.Some? then a.valorServico.value else 0
  }

  /** The sum of the non-null service values, in the order of the array. */
  function ServicesSum(appts: seq<Appointment>): int
  {
    if |appts| == 0 then 0 else ServicesSum(appts[..|appts| - 1]) + ServiceValue(appts[|appts| - 1])
  }

  /** The services total splits over any cut of the array. */
  lemma {:induction false} ServicesSumAppend(a: seq<Appointment>, b: seq<Appointment>)
    ensures ServicesSum(a + b) == ServicesSum(a) + ServicesSum(b)
    decreases |b|
  {
    if |b| > 0 {
      var c := b[..|b| - 1];
      assert (a + b)[..|a + b| - 1] == a + c;
      assert (a + b)[|a + b| - 1] == b[|b| - 1];
      ServicesSumAppend(a, c);
    } else {
      assert a + b == a;
    }
  }

  /** An appointment with a null value changes nothing, wherever it sits. */
  lemma NullServiceSkipped(a: seq<Appointment>, b: seq<Appointment>)
    ensures ServicesSum(a + [Appointment(None)] + b) == ServicesSum(a + b)
  {
    var z := [Appointment(None)];
    assert a + z + b == (a + z) + b;
    ServicesSumAppend(a + z, b);
    ServicesSumAppend(a, z);
    ServicesSumAppend(a, b);
    assert z[..0] == [];
    assert ServicesSum(z) == 0;
  }

  /** The services total is the sum of exactly the values that are present. */
  lemma {:induction false} ServicesSumOfValues(appts: seq<Appointment>, values: seq<int>)
    requires |values| == |appts|
    requires forall i :: 0 <= i < |appts| ==> appts[i].valorServico == Some(values[i])
    ensures ServicesSum(appts) == Sum(values)
    decreases |appts|
  {
    if |appts| > 0 {
      ServicesSumOfValues(appts[..|appts| - 1], values[..|values| - 1]);
    }
  }

  /** Plain sum of a sequence, last element last. */
  function Sum(values: seq<int>): int
  {
    if |values| == 0 then 0 else Sum(values[..|values| - 1]) + values[|values| - 1]
  }

  /** The loop of `buscarTotalServicos` over a non-null array. */
  method SumServices(appts: seq<Appointment>) returns (total: int)
    ensures total == ServicesSum(appts)
  {
    total := 0;
    var i := 0;
    while i < |appts|
      invariant 0 <= i <= |appts|
      invariant total == ServicesSum(appts[..i])
    {
      if appts[i].valorServico.Some? {
        total := total + appts[i].valorServico.value;
      }
      assert appts[..i + 1][..i] == appts[..i];
      i := i + 1;
    }
    assert appts[..|appts|] == appts;
  }

  /** `buscarTotalServicos`: the loop's sum, or 0 for a null answer or a thrown call (`None`). */
  method ServicesTotal(appts: Option<seq<Appointment>>) returns (t: int)
    ensures appts.None? ==> t == 0
    ensures appts.Some? ==> t == ServicesSum(appts.value)
  {
    if appts.None? {
      return 0;
    }
    t := SumServices(appts.value);
  }

  /** The amount a checkout charges. */
  function CheckoutAmount(cart: Option<CartAnswer>, appts: Option<seq<Appointment>>): int
  {
    SalesTotal(cart) + (if appts.Some? then ServicesSum(appts.value) else 0)
  }

  /** Failed lookups count as nothing owed: with neither answer there is nothing to charge. */
  lemma NoAnswersNothingDue()
    ensures CheckoutAmount(None, None) == 0
  {
  }

  /**
   * `processarCheckoutCliente`: a client without a CPF is refused; otherwise
   * the cart total and the services total are added, a non-positive sum is
   * refused, and the sum is charged by PIX for the client's name and CPF,
   * with the current time in milliseconds as order id.
   */
  method Checkout(repo: PaymentRepository, client: Option<Client>, cart: Option<CartAnswer>,
                  appts: Option<seq<Appointment>>, idUsuario: Option<int>, nowMillis: int, now: int)
    returns (r: Outcome)
    requires repo.Valid()
    modifies repo
    ensures repo.Valid()
    ensures client.None? || client.value.cpf.None? ==> r == Failed(InvalidClient)
    ensures client.Some? && client.value.cpf.Some? && CheckoutAmount(cart, appts) <= 0 ==> r == Failed(NothingDue)
    ensures client.Some? && client.value.cpf.Some? && CheckoutAmount(cart, appts) > 0 && idUsuario.None? ==>
              r == Failed(MissingUser)
    ensures r.Failed? ==> repo.rows == old(repo.rows) && repo.nextId == old(repo.nextId)
    ensures r.Done? <==> client.Some? && client.value.cpf.Some? && CheckoutAmount(cart, appts) > 0 && idUsuario.Some?
    ensures r.Done? ==>
      r.id == old(repo.nextId) && repo.rows == old(repo.rows)[r.id := r.payment] &&
      r.payment == PaymentRecord(CheckoutAmount(cart, appts), now, Some(Pendente), Some(Pix), nowMillis,
                                 client.value.nome, client.value.cpf.value, idUsuario.value)
  {
    if client.None? || client.value.cpf.None? {
      return Failed(InvalidClient);
    }
    var sales := SalesTotal(cart);
    var services := ServicesTotal(appts);
    var amount := sales + services;
    if amount <= 0 {
      return Failed(NothingDue);
    }
    r := CreatePayment(repo, Some(amount), Some(Pix), nowMillis, client.value.nome, client.value.cpf.value, idUsuario, now);
  }

  // ---- Calls by id ----

  /** `buscarPorId`: the stored payment, or a PagamentoException for an unknown id. */
  function FindPayment(repo: PaymentRepository, id: int): (r: Outcome)
    reads repo
    ensures r.Failed? <==> id !in repo.rows
    ensures r.Failed? ==> r.error == NotFound(id)
    ensures r.Done? ==> r.id == id && r.payment == repo.rows[id]
  {
    if id in repo.rows then Done(id, repo.rows[id]) else Failed(NotFound(id))
  }

  /** The outcome of a lifecycle call on a stored payment: the refused transition, or the saved new status. */
  function Transitioned(id: int, old_: PaymentRecord, t: Transition): Outcome
  {
    match t
    case Refused => Failed(IllegalState)
    case Moved(s) => Done(id, old_.(status := Some(s)))
  }

  /** A stored payment after a lifecycle call is still one the service could have created. */
  lemma TransitionedOk(id: int, r: PaymentRecord, t: Transition)
    requires RecordOk(r)
    ensures Transitioned(id, r, t).Done? ==> RecordOk(Transitioned(id, r, t).payment)
    ensures Transitioned(id, r, t).Done? ==> Transitioned(id, r, t).payment.status == Some(t.to)
  {
  }

  /** Loads the entity behind a found payment. */
  method Load(repo: PaymentRepository, id: int) returns (p: Pagamento)
    requires id in repo.rows
    ensures fresh(p) && p.Record() == repo.rows[id]
  {
    p := new Pagamento.Load(repo.rows[id]);
  }

  /** `aprovarPagamento(id)`: find, approve, save; an unknown id or a refused approval changes nothing. */
  method ApproveById(repo: PaymentRepository, id: int) returns (r: Outcome)
    requires repo.Valid()
    modifies repo`rows
    ensures repo.Valid()
    ensures id !in old(repo.rows) ==> r == Failed(NotFound(id))
    ensures id in old(repo.rows) ==> r == Transitioned(id, old(repo.rows[id]), Approve(old(repo.rows[id].status)))
    ensures r.Failed? ==> repo.rows == old(repo.rows)
    ensures r.Done? ==> repo.rows == old(repo.rows)[id := r.payment]
  {
    if id !in repo.rows {
      return Failed(NotFound(id));
    }
    var p := Load(repo, id);
    var ok := p.ApprovePayment();
    if !ok {
      return Failed(IllegalState);
    }
    repo.Save(id, p);
    r := Done(id, p.Record());
  }

  /** `rejeitarPagamento(id)`: find, reject, save; an unknown id or a refused rejection changes nothing. */
  method RejectById(repo: PaymentRepository, id: int) returns (r: Outcome)
    requires repo.Valid()
    modifies repo`rows
    ensures repo.Valid()
    ensures id !in old(repo.rows) ==> r == Failed(NotFound(id))
    ensures id in old(repo.rows) ==> r == Transitioned(id, old(repo.rows[id]), Reject(old(repo.rows[id].status)))
    ensures r.Failed? ==> repo.rows == old(repo.rows)
    ensures r.Done? ==> repo.rows == old(repo.rows)[id := r.payment]
  {
    if id !in repo.rows {
      return Failed(NotFound(id));
    }
    var p := Load(repo, id);
    var ok := p.RejectPayment();
    if !ok {
      return Failed(IllegalState);
    }
    repo.Save(id, p);
    r := Done(id, p.Record());
  }

  /** `cancelarPagamento(id)`: find, cancel, save; an unknown id or a refused cancellation changes nothing. */
  method CancelById(repo: PaymentRepository, id: int) returns (r: Outcome)
    requires repo.Valid()
    modifies repo`rows
    ensures repo.Valid()
    ensures id !in old(repo.rows) ==> r == Failed(NotFound(id))
    ensures id in old(repo.rows) ==> r == Transitioned(id, old(repo.rows[id]), Cancel(old(repo.rows[id].status)))
    ensures r.Failed? ==> repo.rows == old(repo.rows)
    ensures r.Done? ==> repo.rows == old(repo.rows)[id := r.payment]
  {
    if id !in repo.rows {
      return Failed(NotFound(id));
    }
    var p := Load(repo, id);
    var ok := p.CancelPayment();
    if !ok {
      return Failed(IllegalState);
    }
    repo.Save(id, p);
    r := Done(id, p.Record());
  }

  /** `deletarPagamento(id)`: an unknown id is a PagamentoException, a known one is removed. */
  method DeleteById(repo: PaymentRepository, id: int) returns (e: Option<PaymentError>)
    requires repo.Valid()
    modifies repo`rows
    ensures repo.Valid()
    ensures e.Some? <==> id !in old(repo.rows)
    ensures e.Some? ==> e.value == NotFound(id) && repo.rows == old(repo.rows)
    ensures e.None? ==> repo.rows == old(repo.rows) - {id}
  {
    if id !in repo.rows {
      return Some(NotFound(id));
    }
    repo.Delete(id);
    e := None;
  }

  /** A payment approved through the service can afterwards only be cancelled; approving or rejecting it again is refused. */
  lemma ApprovedThenOnlyCancel(id: int, r: PaymentRecord)
    requires r.status == Some(Pendente)
    ensures var a := Transitioned(id, r, Approve(r.status));
      a.Done? && a.payment.status == Some(Aprovado) &&
      Transitioned(id, a.payment, Approve(a.payment.status)) == Failed(IllegalState) &&
      Transitioned(id, a.payment, Reject(a.payment.status)) == Failed(IllegalState) &&
      Transitioned(id, a.payment, Cancel(a.payment.status)) == Done(id, r.(status := Some(Cancelado)))
  {
  }
}
