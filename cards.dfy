/**
 * The stored payment cards of the payment service: the entity's own check
 * before every insert and update (`Cartao.validateFields`), the field
 * constraints of the request body (`CartaoDTO`), and the card endpoints,
 * which mask the number and never return the CVV.
 */
module Cards {
  import opened Common

  /** TipoCartao. */
  datatype CardType = Credito | Debito

  /** A stored card (the id is the repository's key). */
  datatype Card = Card(numero: string, nome: string, validade: string, cvv: string,
                       tipo: CardType, cpf: string, idUsuario: int)

  /** The whole string matches `\d{n}`. */
  predicate DigitsOfLength(s: string, n: nat)
  {
    |s| == n && AllDigits(s)
  }

  // ---- Cartao.validateFields ----

  /** The IllegalArgumentException of each check of the entity. */
  datatype CardError = BadNumber | BadCpf | BadExpiry

  /** The entity's checks in their order: number (16 digits), CPF (11), expiry (4, MMYY); the first failing one throws. */
  function ValidateFields(c: Card): (e: Option<CardError>)
    ensures e == Some(BadNumber) <==> !DigitsOfLength(c.numero, 16)
    ensures e == Some(BadCpf) <==> DigitsOfLength(c.numero, 16) && !DigitsOfLength(c.cpf, 11)
    ensures e == Some(BadExpiry) <==> DigitsOfLength(c.numero, 16) && DigitsOfLength(c.cpf, 11) &&
                                      !DigitsOfLength(c.validade, 4)
    ensures e.None? <==> DigitsOfLength(c.numero, 16) && DigitsOfLength(c.cpf, 11) && DigitsOfLength(c.validade, 4)
  {
    if !DigitsOfLength(c.numero, 16) then Some(BadNumber)
    else if !DigitsOfLength(c.cpf, 11) then Some(BadCpf)
    else if !DigitsOfLength(c.validade, 4) then Some(BadExpiry)
    else None
  }

  // ---- CartaoDTO ----

  /** The request body of a card; `None` is a missing or null field. */
  datatype CardDto = CardDto(id: Option<int>, numero: Option<string>, nome: Option<string>, validade: Option<string>,
                             cvv: Option<string>, tipo: Option<CardType>, cpf: Option<string>, idUsuario: Option<int>)

  /** `@NotBlank`: present, with a character above the space that `trim()` would keep. */
  predicate NotBlank(s: Option<string>)
  {
    s.Some? && exists i :: 0 <= i < |s.value| && s.value[i] > ' '
  }

  /** `@Pattern(regexp = "\d{n}")`: a missing value passes, a present one must match whole. */
  predicate PatternOk(s: Option<string>, n: nat)
  {
    s.None? || DigitsOfLength(s.value, n)
  }

  /** One violated constraint of the body. */
  datatype Violation = NumeroBlank | NumeroPattern | NomeBlank | ValidadeBlank | ValidadePattern
                     | CvvBlank | CvvPattern | TipoNull | CpfBlank | CpfPattern | IdUsuarioNull

  /** Every constraint the body breaks (bean validation reports them all). */
  function Violations(d: CardDto): set<Violation>
  {
    (if NotBlank(d.numero) then {} else {NumeroBlank}) +
    (if PatternOk(d.numero, 16) then {} else {NumeroPattern}) +
    (if NotBlank(d.nome) then {} else {NomeBlank}) +
    (if NotBlank(d.validade) then {} else {ValidadeBlank}) +
    (if PatternOk(d.validade, 4) then {} else {ValidadePattern}) +
    (if NotBlank(d.cvv) then {} else {CvvBlank}) +
    (if PatternOk(d.cvv, 3) then {} else {CvvPattern}) +
    (if d.tipo.Some? then {} else {TipoNull}) +
    (if NotBlank(d.cpf) then {} else {CpfBlank}) +
    (if PatternOk(d.cpf, 11) then {} else {CpfPattern}) +
    (if d.idUsuario.Some? then {} else {IdUsuarioNull})
  }

  /** A body that passes bean validation, stated field by field. */
  predicate DtoValid(d: CardDto)
  {
    d.numero.Some? && DigitsOfLength(d.numero.value, 16) &&
    NotBlank(d.nome) &&
    d.validade.Some? && DigitsOfLength(d.validade.value, 4) &&
    d.cvv.Some? && DigitsOfLength(d.cvv.value, 3) &&
    d.tipo.Some? &&
    d.cpf.Some? && DigitsOfLength(d.cpf.value, 11) &&
    d.idUsuario.Some?
  }

  /** A string of n > 0 digits is never blank. */
  lemma DigitsNotBlank(s: string, n: nat)
    requires n > 0 && DigitsOfLength(s, n)
    ensures NotBlank(Some(s))
  {
    assert s[0] > ' ';
  }

  /** The body has no violation exactly when every field is as the constraints describe. */
  lemma NoViolationsIffValid(d: CardDto)
    ensures Violations(d) == {} <==> DtoValid(d)
  {
    if DtoValid(d) {
      DigitsNotBlank(d.numero.value, 16);
      DigitsNotBlank(d.validade.value, 4);
      DigitsNotBlank(d.cvv.value, 3);
      DigitsNotBlank(d.cpf.value, 11);
    }
  }

  // ---- CartaoController ----

  /** The prefix that hides the first twelve digits. */
  const MaskPrefix: string := "**** **** **** "

  /** `toDTO`: the number masked as the prefix and the characters from index 12 on, the CVV left out, every other field copied. */
  function ToDto(id: int, c: Card): (d: CardDto)
    requires |c.numero| >= 12
    ensures d.numero == Some(MaskPrefix + c.numero[12..])
    ensures d.cvv.None?
    ensures d.id == Some(id) && d.nome == Some(c.nome) && d.validade == Some(c.validade) &&
            d.tipo == Some(c.tipo) && d.cpf == Some(c.cpf) && d.idUsuario == Some(c.idUsuario)
  {
    CardDto(Some(id), Some(MaskPrefix + c.numero[12..]), Some(c.nome), Some(c.validade), None,
            Some(c.tipo), Some(c.cpf), Some(c.idUsuario))
  }

  /** For a valid card the masked number is nineteen characters, shows only the last four digits, and shows them all. */
  lemma MaskShowsLastFour(id: int, c: Card)
    requires DigitsOfLength(c.numero, 16)
    ensures var m := ToDto(id, c).numero.value;
      |m| == 19 && m[..15] == MaskPrefix && m[15..] == c.numero[12..16] &&
      forall i :: 0 <= i < 15 ==> !IsDigit(m[i])
  {
  }

  /** Two cards whose numbers share the last four digits are masked alike: the first twelve never show. */
  lemma MaskHidesFirstTwelve(c1: Card, c2: Card)
    requires DigitsOfLength(c1.numero, 16) && DigitsOfLength(c2.numero, 16)
    requires c1.numero[12..] == c2.numero[12..]
    ensures ToDto(0, c1).numero == ToDto(0, c2).numero
  {
  }

  /** `toEntity`: every field of a validated body, the CVV included (the id is the repository's to give). */
  function ToEntity(d: CardDto): (c: Card)
    requires DtoValid(d)
    ensures Some(c.numero) == d.numero && Some(c.nome) == d.nome && Some(c.validade) == d.validade &&
            Some(c.cvv) == d.cvv && Some(c.tipo) == d.tipo && Some(c.cpf) == d.cpf && Some(c.idUsuario) == d.idUsuario
  {
    Card(d.numero.value, d.nome.value, d.validade.value, d.cvv.value, d.tipo.value, d.cpf.value, d.idUsuario.value)
  }

  /** A body that passed bean validation always passes the entity's own checks. */
  lemma ValidDtoPassesEntityChecks(d: CardDto)
    requires DtoValid(d)
    ensures ValidateFields(ToEntity(d)).None?
  {
  }

  /** `toDTO` after `toEntity` gives back the body with the new id, the number masked and the CVV dropped. */
  lemma ToDtoOfToEntity(id: int, d: CardDto)
    requires DtoValid(d)
    ensures ToDto(id, ToEntity(d)) == d.(id := Some(id), numero := Some(MaskPrefix + d.numero.value[12..]), cvv := None)
  {
  }

  /** `CartaoRepository`: the stored cards by id and the next generated id. */
  class CardRepository {
    var cards: map<int, Card>
    var nextId: int

    /** Every stored card passed the entity's checks, and its id was generated. */
    ghost predicate Valid()
      reads this
    {
      forall id :: id in cards ==> id < nextId && ValidateFields(cards[id]).None?
    }

    constructor ()
      ensures cards == map[] && Valid()
    {
      cards, nextId := map[], 1;
    }

    /** `save` of a card without id: `@PrePersist` runs the entity's checks, and a card that passes gets a new id. */
    method Insert(c: Card) returns (r: Option<int>)
      requires Valid()
      modifies this
      ensures Valid()
      ensures r.None? <==> ValidateFields(c).Some?
      ensures r.None? ==> cards == old(cards) && nextId == old(nextId)
      ensures r.Some? ==> r.value == old(nextId) && r.value !in old(cards) && cards == old(cards)[r.value := c]
    {
      if ValidateFields(c).Some? {
        return None;
      }
      r := Some(nextId);
      cards := cards[nextId := c];
      nextId := nextId + 1;
    }

    /** `deleteById`. */
    method Delete(id: int)
      modifies this`cards
      ensures cards == old(cards) - {id}
    {
      cards := cards - {id};
    }
  }

  /** The answer of an endpoint: the status and, for 201, the masked card. */
  datatype CardResponse = CardResponse(status: int, body: Option<CardDto>)

  /**
   * POST /api/cartoes: a body that fails bean validation is a 400 and
   * stores nothing; otherwise any id in the body is ignored, the card is
   * stored under a new id and returned masked with 201.
   */
  method CreateCard(repo: CardRepository, d: CardDto) returns (r: CardResponse)
    requires repo.Valid()
    modifies repo
    ensures repo.Valid()
    ensures r.status == 400 <==> Violations(d) != {}
    ensures r.status == 400 ==> repo.cards == old(repo.cards) && r.body.None?
    ensures r.status != 400 ==>
      r.status == 201 && old(repo.nextId) !in old(repo.cards) &&
      repo.cards == old(repo.cards)[old(repo.nextId) := ToEntity(d)] &&
      r.body == Some(ToDto(old(repo.nextId), ToEntity(d)))
  {
    NoViolationsIffValid(d);
    if !DtoValid(d) {
      return CardResponse(400, None);
    }
    var body := d.(id := None);
    var c := ToEntity(body);
    ValidDtoPassesEntityChecks(body);
    var id := repo.Insert(c);
    r := CardResponse(201, Some(ToDto(id.value, c)));
  }

  /** GET /api/cartoes/usuario/{idUsuario}: the user's cards, each masked (the order is the repository's and not modelled). */
  function CardsOfUser(repo: CardRepository, u: int): (s: set<CardDto>)
    reads repo
    requires repo.Valid()
    ensures forall d :: d in s ==> d.idUsuario == Some(u) && d.cvv.None?
    ensures forall id :: id in repo.cards && repo.cards[id].idUsuario == u ==> ToDto(id, repo.cards[id]) in s
    ensures forall d :: d in s ==>
      exists id :: id in repo.cards && repo.cards[id].idUsuario == u && d == ToDto(id, repo.cards[id])
  {
    set id | id in repo.cards && repo.cards[id].idUsuario == u :: ToDto(id, repo.cards[id])
  }

  /** DELETE /api/cartoes/{id}: 404 and no change for an unknown id, else the card is removed and 204. */
  method DeleteCard(repo: CardRepository, id: int) returns (status: int)
    requires repo.Valid()
    modifies repo`cards
    ensures repo.Valid()
    ensures status == 404 <==> id !in old(repo.cards)
    ensures status == 404 ==> repo.cards == old(repo.cards)
    ensures status != 404 ==> status == 204 && repo.cards == old(repo.cards) - {id}
  {
    if id !in repo.cards {
      return 404;
    }
    repo.Delete(id);
    status := 204;
  }
}
