/**
 * The payment entity of the payment service (`Pagamento`) and its
 * lifecycle: a payment is created PENDENTE and then approved, rejected or
 * cancelled, each transition guarded; a refused transition is the
 * entity's IllegalStateException and leaves the status as it was.
 * Amounts are integer cents; times are parameters.
 */
module Payment {
  import opened Common

  /** StatusPagamento. */
  datatype Status = Pendente | Aprovado | Rejeitado | Cancelado

  /** FormaDePagamento. */
  datatype Method = CartaoDebito | CartaoCredito | Pix

  /** The outcome of a transition: the new status, or the IllegalStateException. */
  datatype Transition = Moved(to: Status) | Refused

  /** `atualizarStatus`: nothing leaves CANCELADO, and APROVADO may only become CANCELADO. */
  function UpdateStatus(from: Option<Status>, to: Status): (t: Transition)
    ensures t.Refused? <==> from == Some(Cancelado) || (from == Some(Aprovado) && to != Cancelado)
    ensures t.Moved? ==> t.to == to
  {
    if from == Some(Cancelado) then Refused
    else if from == Some(Aprovado) && to != Cancelado then Refused
    else Moved(to)
  }

  /** `aprovarPagamento`: only a pending payment is approved. */
  function Approve(from: Option<Status>): (t: Transition)
    ensures t.Moved? <==> from == Some(Pendente)
    ensures t.Moved? ==> t.to == Aprovado
  {
    if from != Some(Pendente) then Refused else Moved(Aprovado)
  }

  /** `rejeitarPagamento`: only a pending payment is rejected. */
  function Reject(from: Option<Status>): (t: Transition)
    ensures t.Moved? <==> from == Some(Pendente)
    ensures t.Moved? ==> t.to == Rejeitado
  {
    if from != Some(Pendente) then Refused else Moved(Rejeitado)
  }

  /** `cancelarPagamento`: anything but a cancelled or rejected payment is cancelled. */
  function Cancel(from: Option<Status>): (t: Transition)
    ensures t.Refused? <==> from == Some(Cancelado) || from == Some(Rejeitado)
    ensures t.Moved? ==> t.to == Cancelado
  {
    if from == Some(Cancelado) then Refused
    else if from == Some(Rejeitado) then Refused
    else Moved(Cancelado)
  }

  /** One call on the entity's lifecycle. */
  datatype Op = SetStatus(to: Status) | DoApprove | DoReject | DoCancel

  /** The transition one call makes. */
  function Apply(from: Option<Status>, op: Op): Transition
  {
    match op
    case SetStatus(to) => UpdateStatus(from, to)
    case DoApprove => Approve(from)
    case DoReject => Reject(from)
    case DoCancel => Cancel(from)
  }

  /** The status after a series of calls, each refused call leaving it as it was. */
  function Run(from: Option<Status>, ops: seq<Op>): Option<Status>
    decreases |ops|
  {
    if |ops| == 0 then from
    else
      var next := match Apply(from, ops[0]) case Moved(s) => Some(s) case Refused => from;
      Run(next, ops[1..])
  }

  /** CANCELADO is terminal: no call of any kind leaves it. */
  lemma {:induction false} CanceledIsTerminal(ops: seq<Op>)
    ensures Run(Some(Cancelado), ops) == Some(Cancelado)
    decreases |ops|
  {
    if |ops| > 0 {
      assert Apply(Some(Cancelado), ops[0]).Refused?;
      CanceledIsTerminal(ops[1..]);
    }
  }

  /** An approved payment can only stay approved or end up cancelled. */
  lemma {:induction false} ApprovedEndsApprovedOrCanceled(ops: seq<Op>)
    ensures Run(Some(Aprovado), ops) in {Some(Aprovado), Some(Cancelado)}
    decreases |ops|
  {
    if |ops| > 0 {
      match Apply(Some(Aprovado), ops[0]) {
        case Refused => ApprovedEndsApprovedOrCanceled(ops[1..]);
        case Moved(s) =>
          assert s == Cancelado;
          CanceledIsTerminal(ops[1..]);
      }
    }
  }

  /** The four `isX` checks: for a non-null status exactly one holds, for null none does. */
  lemma StatusChecksExclusive(s: Option<Status>)
    ensures var n := (if s == Some(Pendente) then 1 else 0) + (if s == Some(Aprovado) then 1 else 0) +
                     (if s == Some(Rejeitado) then 1 else 0) + (if s == Some(Cancelado) then 1 else 0);
      n == (if s.Some? then 1 else 0)
  {
    match s {
      case None =>
      case Some(Pendente) =>
      case Some(Aprovado) =>
      case Some(Rejeitado) =>
      case Some(Cancelado) =>
    }
  }

  /** The columns of one stored payment (the id is the repository's key). */
  datatype PaymentRecord = PaymentRecord(valor: int, dataPagamento: int, status: Option<Status>,
                                         formaPagamento: Option<Method>, idPedido: int,
                                         nomeCliente: string, cpfCliente: string, idUsuario: int)

  /** The entity; Lombok's no-argument constructor leaves every field null (zero or empty here). */
  class Pagamento {
    var valor: int
    var dataPagamento: int
    var status: Option<Status>
    var formaPagamento: Option<Method>
    var idPedido: int
    var nomeCliente: string
    var cpfCliente: string
    var idUsuario: int

    constructor ()
      ensures status.None? && formaPagamento.None?
    {
      valor, dataPagamento, status, formaPagamento := 0, 0, None, None;
      idPedido, nomeCliente, cpfCliente, idUsuario := 0, "", "", 0;
    }

    /** The entity's columns as a value. */
    function Record(): PaymentRecord
      reads this
    {
      PaymentRecord(valor, dataPagamento, status, formaPagamento, idPedido, nomeCliente, cpfCliente, idUsuario)
    }

    /** The entity loaded from a stored row. */
    constructor Load(r: PaymentRecord)
      ensures Record() == r
    {
      valor, dataPagamento, status, formaPagamento := r.valor, r.dataPagamento, r.status, r.formaPagamento;
      idPedido, nomeCliente, cpfCliente, idUsuario := r.idPedido, r.nomeCliente, r.cpfCliente, r.idUsuario;
    }

    /** `processarPagamento`: copies its five arguments, stamps the time and starts PENDENTE; idUsuario is left alone. */
    method Process(v: int, forma: Method, pedido: int, nome: string, cpf: string, now: int)
      modifies this
      ensures Record() == old(Record()).(valor := v, formaPagamento := Some(forma), idPedido := pedido,
                                        nomeCliente := nome, cpfCliente := cpf, dataPagamento := now,
                                        status := Some(Pendente))
    {
      valor := v;
      formaPagamento := Some(forma);
      idPedido := pedido;
      nomeCliente := nome;
      cpfCliente := cpf;
      dataPagamento := now;
      status := Some(Pendente);
    }

    /** Performs a transition on the status; `ok` is false where the entity throws. */
    method Transit(t: Transition) returns (ok: bool)
      modifies this`status
      ensures ok <==> t.Moved?
      ensures status == (if ok then Some(t.to) else old(status))
    {
      match t {
        case Refused => ok := false;
        case Moved(s) =>
          status := Some(s);
          ok := true;
      }
    }

    /** `atualizarStatus(novoStatus)`. */
    method SetStatus(novo: Status) returns (ok: bool)
      modifies this`status
      ensures ok <==> UpdateStatus(old(status), novo).Moved?
      ensures status == (if ok then Some(novo) else old(status))
    {
      ok := Transit(UpdateStatus(status, novo));
    }

    /** `aprovarPagamento()`. */
    method ApprovePayment() returns (ok: bool)
      modifies this`status
      ensures ok <==> old(status) == Some(Pendente)
      ensures status == (if ok then Some(Aprovado) else old(status))
    {
      ok := Transit(Approve(status));
    }

    /** `rejeitarPagamento()`. */
    method RejectPayment() returns (ok: bool)
      modifies this`status
      ensures ok <==> old(status) == Some(Pendente)
      ensures status == (if ok then Some(Rejeitado) else old(status))
    {
      ok := Transit(Reject(status));
    }

    /** `cancelarPagamento()`. */
    method CancelPayment() returns (ok: bool)
      modifies this`status
      ensures ok <==> old(status) != Some(Cancelado) && old(status) != Some(Rejeitado)
      ensures status == (if ok then Some(Cancelado) else old(status))
    {
      ok := Transit(Cancel(status));
    }

    predicate IsPendente() reads this { status == Some(Pendente) }
    predicate IsAprovado() reads this { status == Some(Aprovado) }
    predicate IsRejeitado() reads this { status == Some(Rejeitado) }
    predicate IsCancelado() reads this { status == Some(Cancelado) }
  }
}
