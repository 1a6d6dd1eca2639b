/**
 * Appointment creation in the scheduling service: the price table of the
 * services (`ServicoEnum`), and `criarAgendamento`, which checks the ids,
 * looks the client and the pet up in the account service, and stores an
 * appointment whose price comes from the table and whose staff name is
 * prefixed by the kind of service. Prices are integer cents; the two
 * lookups are parameters.
 */
module Scheduling {
  import opened Common

  /** ServicoEnum. */
  datatype Service = Banho | Tosa | Consulta

  /** `getValor`, in cents: BANHO 50.00, TOSA 40.00, CONSULTA 80.00. */
  function Price(s: Service): (cents: int)
    ensures cents > 0
  {
    match s
    case Banho => 5000
    case Tosa => 4000
    case Consulta => 8000
  }

  /** Every service of the enum, in declaration order. */
  const AllServices: seq<Service> := [Banho, Tosa, Consulta]

  /** There are exactly three services, each once, and CONSULTA costs strictly more than the other two. */
  lemma PriceTable()
    ensures |AllServices| == 3 && forall s: Service :: s in AllServices
    ensures forall i, j :: 0 <= i < j < |AllServices| ==> AllServices[i] != AllServices[j]
    ensures Price(Banho) == 5000 && Price(Tosa) == 4000 && Price(Consulta) == 8000
    ensures forall s: Service :: s != Consulta ==> Price(s) < Price(Consulta)
  {
    forall s: Service ensures s in AllServices {
      match s {
        case Banho => assert AllServices[0] == s;
        case Tosa => assert AllServices[1] == s;
        case Consulta => assert AllServices[2] == s;
      }
    }
  }

  /** Java's string concatenation of a possibly null string. */
  function JavaText(s: Option<string>): string
  {
    if s.Some? then s.value else "null"
  }

  const VetPrefix: string := "Veterinário: "
  const AssistantPrefix: string := "Auxiliar: "

  /** The staff name: the veterinarian's prefix for CONSULTA, the assistant's for anything else, null included. */
  function StaffName(servico: Option<Service>, nome: Option<string>): (n: string)
    ensures servico == Some(Consulta) ==> n == VetPrefix + JavaText(nome)
    ensures servico != Some(Consulta) ==> n == AssistantPrefix + JavaText(nome)
  {
    (if servico == Some(Consulta) then VetPrefix else AssistantPrefix) + JavaText(nome)
  }

  /** The prefix tells the two kinds of staff apart: a name starts with the veterinarian's prefix exactly for CONSULTA. */
  lemma StaffPrefixDecides(servico: Option<Service>, nome: Option<string>)
    ensures VetPrefix <= StaffName(servico, nome) <==> servico == Some(Consulta)
  {
    if servico != Some(Consulta) {
      var n := StaffName(servico, nome);
      assert n[0] == 'A' && VetPrefix[0] == 'V';
    }
  }

  /** The body of POST /agendamentos. */
  datatype AppointmentRequest = AppointmentRequest(idCliente: Option<int>, idPet: Option<int>, data: Option<int>,
                                                   servico: Option<Service>, nomeFuncionario: Option<string>)

  /** The answer of a lookup in the account service: a body with a name, an empty body, a 404, or any other failure. */
  datatype Lookup = Found(nome: string) | EmptyBody | NotFound | Failed

  /** A stored Agendamento. */
  datatype Appointment = Appointment(data: Option<int>, servico: Option<Service>, nomePet: string, nomeCliente: string,
                                     valorServico: Option<int>, nomeFuncionario: string)

  /** The exception `criarAgendamento` or `pegarDetalhes` ends in. */
  datatype ScheduleError = MissingIds | ClientNotFound | ClientLookupFailed | PetNotFound | PetLookupFailed
                         | NullBody | AppointmentNotFound(id: int)

  /** The lookups in their order: the client's, then the pet's; then the pet's name is read before the client's. */
  function LookupError(client: Lookup, pet: Lookup): (e: Option<ScheduleError>)
    ensures e.None? <==> client.Found? && pet.Found?
    ensures client.NotFound? ==> e == Some(ClientNotFound)
    ensures client.Failed? ==> e == Some(ClientLookupFailed)
    ensures !client.NotFound? && !client.Failed? && pet.NotFound? ==> e == Some(PetNotFound)
    ensures !client.NotFound? && !client.Failed? && pet.Failed? ==> e == Some(PetLookupFailed)
  {
    if client.NotFound? then Some(ClientNotFound)
    else if client.Failed? then Some(ClientLookupFailed)
    else if pet.NotFound? then Some(PetNotFound)
    else if pet.Failed? then Some(PetLookupFailed)
    else if pet.EmptyBody? || client.EmptyBody? then Some(NullBody)
    else None
  }

  /** The appointment built from a request and the two found names. */
  function NewAppointment(req: AppointmentRequest, clientName: string, petName: string): (a: Appointment)
    ensures a.data == req.data && a.servico == req.servico
    ensures a.nomePet == petName && a.nomeCliente == clientName
    ensures a.valorServico.Some? <==> req.servico.Some?
    ensures req.servico.Some? ==> a.valorServico == Some(Price(req.servico.value))
    ensures a.nomeFuncionario == StaffName(req.servico, req.nomeFuncionario)
  {
    Appointment(req.data, req.servico, petName, clientName,
                if req.servico.Some? then Some(Price(req.servico.value)) else None,
                StaffName(req.servico, req.nomeFuncionario))
  }

  /** `AgendamentoRepository`. */
  class AppointmentRepository {
    var rows: map<int, Appointment>
    var nextId: int

    ghost predicate Valid()
      reads this
    {
      forall id :: id in rows ==> id < nextId
    }

    constructor ()
      ensures rows == map[] && Valid()
    {
      rows, nextId := map[], 1;
    }

    /** `save` of a new appointment. */
    method Insert(a: Appointment) returns (id: int)
      requires Valid()
      modifies this
      ensures Valid()
      ensures id == old(nextId) && id !in old(rows) && rows == old(rows)[id := a] && nextId == id + 1
    {
      id := nextId;
      rows := rows[id := a];
      nextId := nextId + 1;
    }
  }

  /** The outcome of a call: the stored appointment with its id, or the exception. */
  datatype Outcome = Done(id: int, appointment: Appointment) | Failure(error: ScheduleError)

  /**
   * `criarAgendamento`: a null client or pet id is an IllegalArgumentException;
   * a failed lookup throws; otherwise the appointment is built and saved.
   * Nothing is stored on any failure.
   */
  method CreateAppointment(repo: AppointmentRepository, req: AppointmentRequest, client: Lookup, pet: Lookup)
    returns (r: Outcome)
    requires repo.Valid()
    modifies repo
    ensures repo.Valid()
    ensures req.idCliente.None? || req.idPet.None? ==> r == Failure(MissingIds)
    ensures req.idCliente.Some? && req.idPet.Some? && LookupError(client, pet).Some? ==>
              r == Failure(LookupError(client, pet).value)
    ensures r.Failure? ==> repo.rows == old(repo.rows) && repo.nextId == old(repo.nextId)
    ensures r.Done? <==> req.idCliente.Some? && req.idPet.Some? && client.Found? && pet.Found?
    ensures r.Done? ==>
      r.id == old(repo.nextId) && r.id !in old(repo.rows) &&
      r.appointment == NewAppointment(req, client.nome, pet.nome) &&
      repo.rows == old(repo.rows)[r.id := r.appointment]
  {
    if req.idCliente.None? || req.idPet.None? {
      return Failure(MissingIds);
    }
    var e := LookupError(client, pet);
    if e.Some? {
      return Failure(e.value);
    }
    var a := NewAppointment(req, client.nome, pet.nome);
    var id := repo.Insert(a);
    r := Done(id, a);
  }

  /** `pegarDetalhes`: the stored appointment, or a RuntimeException for an unknown id. */
  function Details(repo: AppointmentRepository, id: int): (r: Outcome)
    reads repo
    ensures r.Failure? <==> id !in repo.rows
    ensures r.Failure? ==> r.error == AppointmentNotFound(id)
    ensures r.Done? ==> r.id == id && r.appointment == repo.rows[id]
  {
    if id in repo.rows then Done(id, repo.rows[id]) else Failure(AppointmentNotFound(id))
  }
}
