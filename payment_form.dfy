/**
 * The checkout payment page of the web frontend (`Pagamento.tsx`): the
 * formatting applied to each field as it is typed (`formatCardNumber`,
 * `formatDate`, `formatCPF`, `handleInputChange`), the switch between card
 * and PIX (`handlePaymentMethodChange`), and `validateForm`, which names the
 * first field that is wrong before the payment is sent.
 */
module PaymentForm {
  import opened Common
  import opened Masks

  // ---- The formatters ----

  /** `formatCardNumber`: the digits grouped by four, one space between groups. */
  function FormatCardNumber(v: string): (r: string)
    ensures r == Grouped(OnlyDigits(v))
    ensures OnlyDigits(r) == OnlyDigits(v)
    ensures forall i :: 0 <= i < |r| ==> (r[i] == ' ' <==> i % 5 == 4)
  {
    TrimmedBlocks(OnlyDigits(v));
    GroupedShape(OnlyDigits(v));
    if v == "" then "" else Trim(Blocks(OnlyDigits(v)))
  }

  /** `formatDate`: a slash after the first two digits, only once there are four; nothing is cut. */
  function FormatDate(v: string): (r: string)
    ensures OnlyDigits(r) == OnlyDigits(v)
    ensures |OnlyDigits(v)| < 4 ==> r == OnlyDigits(v)
    ensures |OnlyDigits(v)| >= 4 ==>
      (|r| == |OnlyDigits(v)| + 1 && r[2] == '/' && r[..2] == OnlyDigits(v)[..2] && r[3..] == OnlyDigits(v)[2..])
  {
    var d := OnlyDigits(v);
    OnlyDigitsOfDigits(d);
    if |d| >= 4 then
      SlashKeepsDigits(d);
      d[..2] + "/" + d[2..]
    else if v == "" then ""
    else d
  }

  /** A slash put after the first two digits is the only character added. */
  lemma SlashKeepsDigits(d: string)
    requires AllDigits(d) && |d| >= 2
    ensures var r := d[..2] + "/" + d[2..];
      OnlyDigits(r) == d && |r| == |d| + 1 && r[2] == '/' && r[..2] == d[..2] && r[3..] == d[2..]
  {
    var r := d[..2] + "/" + d[2..];
    assert r == d[..2] + ['/'] + d[2..];
    OnlyDigitsSkipsMark(d[..2], '/', d[2..]);
    OnlyDigitsOfDigits(d[..2]);
    OnlyDigitsOfDigits(d[2..]);
    assert d[..2] + d[2..] == d;
  }

  /** `formatCPF`: the CPF punctuation of the digits; nothing is cut. */
  function FormatCpf(v: string): (r: string)
    ensures OnlyDigits(r) == OnlyDigits(v)
    ensures var d := OnlyDigits(v);
      |d| == 11 ==> r == d[..3] + "." + d[3..6] + "." + d[6..9] + "-" + d[9..]
  {
    var d := OnlyDigits(v);
    CpfKeepsDigits(d);
    OnlyDigitsOfDigits(d);
    if |d| == 11 then CpfOfElevenDigits(d); CpfPunctuated(d)
    else if v == "" then ""
    else CpfPunctuated(d)
  }

  /** Formatting an already formatted value changes nothing. */
  lemma FormattersIdempotent(v: string)
    ensures FormatCardNumber(FormatCardNumber(v)) == FormatCardNumber(v)
    ensures FormatDate(FormatDate(v)) == FormatDate(v)
    ensures FormatCpf(FormatCpf(v)) == FormatCpf(v)
  {
    var d := OnlyDigits(v);
    OnlyDigitsOfDigits(d);
    CpfKeepsDigits(d);
  }

  // ---- Amounts ----

  /** `Number(d)` for a string of decimal digits (`Number('')` is 0). */
  function DecimalValue(d: string): nat
    requires AllDigits(d)
  {
    if |d| == 0 then 0 else 10 * DecimalValue(d[..|d| - 1]) + DigitValue(d[|d| - 1])
  }

  predicate HasNonzeroDigit(d: string)
  {
    exists i :: 0 <= i < |d| && d[i] != '0'
  }

  /** A string of digits stands for a positive number exactly when one of its digits is not zero. */
  lemma {:induction false} PositiveIffNonzeroDigit(d: string)
    requires AllDigits(d)
    ensures DecimalValue(d) > 0 <==> HasNonzeroDigit(d)
    decreases |d|
  {
    if |d| > 0 {
      var p := d[..|d| - 1];
      var c := d[|d| - 1];
      PositiveIffNonzeroDigit(p);
      if HasNonzeroDigit(p) {
        var i :| 0 <= i < |p| && p[i] != '0';
        assert d[i] == p[i];
      }
      if HasNonzeroDigit(d) && c == '0' {
        var i :| 0 <= i < |d| && d[i] != '0';
        assert i < |p| && p[i] == d[i];
      }
      if c != '0' {
        assert d[|d| - 1] != '0';
      }
    }
  }

  // ---- The form ----

  /** `FormaPagamento`. */
  datatype PaymentMethod = Cartao | Pix

  /** `PaymentFormData`; the optional fields are `undefined` until first set. */
  datatype PaymentFormData = PaymentFormData(valor: string, formaPagamento: PaymentMethod,
                                             numeroCartao: Option<string>, nomeTitular: Option<string>,
                                             dataValidade: Option<string>, cvv: Option<string>,
                                             tipoCartao: Option<string>, cpfCliente: string)

  /** An optional field as the checks read it: `undefined` fails each of them exactly as `''` does. */
  function Text(o: Option<string>): string
  {
    if o.Some? then o.value else ""
  }

  /** The message `validateForm` sets, one per check. */
  datatype FormError = AmountInvalid | CardNumberInvalid | HolderRequired | ExpiryInvalid | CvvInvalid | CpfInvalid

  predicate CardFieldsOk(f: PaymentFormData)
  {
    |OnlyDigits(Text(f.numeroCartao))| == 16 && Trim(Text(f.nomeTitular)) != "" &&
    |OnlyDigits(Text(f.dataValidade))| == 4 && 3 <= |OnlyDigits(Text(f.cvv))| <= 4
  }

  /**
   * `validateForm`: the amount, then for a card payment the number, the
   * holder, the expiry and the CVV, then the CPF; `None` is `true`.
   */
  function ValidateForm(f: PaymentFormData): (e: Option<FormError>)
    ensures e == Some(AmountInvalid) <==> !HasNonzeroDigit(OnlyDigits(f.valor))
    ensures f.formaPagamento == Pix ==> e == None || e == Some(AmountInvalid) || e == Some(CpfInvalid)
    ensures e == Some(CardNumberInvalid) <==>
      HasNonzeroDigit(OnlyDigits(f.valor)) && f.formaPagamento == Cartao && |OnlyDigits(Text(f.numeroCartao))| != 16
    ensures e == Some(HolderRequired) <==>
      HasNonzeroDigit(OnlyDigits(f.valor)) && f.formaPagamento == Cartao && |OnlyDigits(Text(f.numeroCartao))| == 16 &&
      Trim(Text(f.nomeTitular)) == ""
    ensures e == Some(ExpiryInvalid) <==>
      HasNonzeroDigit(OnlyDigits(f.valor)) && f.formaPagamento == Cartao && |OnlyDigits(Text(f.numeroCartao))| == 16 &&
      Trim(Text(f.nomeTitular)) != "" && |OnlyDigits(Text(f.dataValidade))| != 4
    ensures e == Some(CvvInvalid) <==>
      HasNonzeroDigit(OnlyDigits(f.valor)) && f.formaPagamento == Cartao && |OnlyDigits(Text(f.numeroCartao))| == 16 &&
      Trim(Text(f.nomeTitular)) != "" && |OnlyDigits(Text(f.dataValidade))| == 4 &&
      !(3 <= |OnlyDigits(Text(f.cvv))| <= 4)
    ensures e == Some(CpfInvalid) <==>
      HasNonzeroDigit(OnlyDigits(f.valor)) && (f.formaPagamento == Pix || CardFieldsOk(f)) &&
      |OnlyDigits(f.cpfCliente)| != 11
    ensures e.None? <==>
      HasNonzeroDigit(OnlyDigits(f.valor)) && (f.formaPagamento == Pix || CardFieldsOk(f)) &&
      |OnlyDigits(f.cpfCliente)| == 11
  {
    var amount := OnlyDigits(f.valor);
    PositiveIffNonzeroDigit(amount);
    assert f.valor == "" ==> amount == "";
    if f.valor == "" || DecimalValue(amount) <= 0 then Some(AmountInvalid)
    else if f.formaPagamento == Cartao && |OnlyDigits(Text(f.numeroCartao))| != 16 then Some(CardNumberInvalid)
    else if f.formaPagamento == Cartao && Trim(Text(f.nomeTitular)) == "" then Some(HolderRequired)
    else if f.formaPagamento == Cartao && |OnlyDigits(Text(f.dataValidade))| != 4 then Some(ExpiryInvalid)
    else if f.formaPagamento == Cartao && !(3 <= |OnlyDigits(Text(f.cvv))| <= 4) then Some(CvvInvalid)
    else
      assert HasNonzeroDigit(amount);
      assert f.formaPagamento == Pix || CardFieldsOk(f);
      if |OnlyDigits(f.cpfCliente)| != 11 then Some(CpfInvalid) else None
  }

  // ---- The handlers ----

  /** The inputs `handleInputChange` serves, by their `name`. */
  datatype Field = Valor | NumeroCartao | NomeTitular | DataValidade | Cvv | TipoCartao | CpfCliente

  /** The value a field holds. */
  function Get(f: PaymentFormData, field: Field): Option<string>
  {
    match field
    case Valor => Some(f.valor)
    case NumeroCartao => f.numeroCartao
    case NomeTitular => f.nomeTitular
    case DataValidade => f.dataValidade
    case Cvv => f.cvv
    case TipoCartao => f.tipoCartao
    case CpfCliente => Some(f.cpfCliente)
  }

  /** The field set to a value as typed, with no formatting. */
  function SetRaw(f: PaymentFormData, field: Field, v: string): PaymentFormData
  {
    match field
    case Valor => f.(valor := v)
    case NumeroCartao => f.(numeroCartao := Some(v))
    case NomeTitular => f.(nomeTitular := Some(v))
    case DataValidade => f.(dataValidade := Some(v))
    case Cvv => f.(cvv := Some(v))
    case TipoCartao => f.(tipoCartao := Some(v))
    case CpfCliente => f.(cpfCliente := v)
  }

  /** Setting one field changes that field and no other. */
  lemma SetRawFrame(f: PaymentFormData, field: Field, x: string)
    ensures SetRaw(f, field, x).formaPagamento == f.formaPagamento
    ensures Get(SetRaw(f, field, x), field) == Some(x)
    ensures forall other :: other != field ==> Get(SetRaw(f, field, x), other) == Get(f, other)
  {
  }

  /**
   * What `handleInputChange` stores for a value typed into a field: the
   * amount keeps only its digits, the CVV its first four digits, the number,
   * the expiry and the CPF go through their formatter, and the holder and
   * card type are kept as typed.
   */
  function Stored(field: Field, v: string): (x: string)
    ensures OnlyDigits(x) == (if field == Cvv then Take(OnlyDigits(v), 4) else OnlyDigits(v))
    ensures field == Valor ==> AllDigits(x) && x == OnlyDigits(v)
    ensures field == Cvv ==> AllDigits(x) && |x| <= 4 && x <= OnlyDigits(v)
    ensures field == NomeTitular || field == TipoCartao ==> x == v
    ensures field == NumeroCartao ==> x == FormatCardNumber(v)
    ensures field == DataValidade ==> x == FormatDate(v)
    ensures field == CpfCliente ==> x == FormatCpf(v)
  {
    OnlyDigitsOfDigits(OnlyDigits(v));
    OnlyDigitsOfDigits(Take(OnlyDigits(v), 4));
    match field
    case Valor => OnlyDigits(v)
    case NumeroCartao => FormatCardNumber(v)
    case NomeTitular => v
    case DataValidade => FormatDate(v)
    case Cvv => Take(OnlyDigits(v), 4)
    case TipoCartao => v
    case CpfCliente => FormatCpf(v)
  }

  /** `handleInputChange`: the field takes the stored form of the value typed; the rest of the form is kept. */
  function InputChanged(f: PaymentFormData, field: Field, v: string): (g: PaymentFormData)
    ensures g.formaPagamento == f.formaPagamento
    ensures forall other :: other != field ==> Get(g, other) == Get(f, other)
    ensures Get(g, field).Some? && OnlyDigits(Get(g, field).value) ==
      (if field == Cvv then Take(OnlyDigits(v), 4) else OnlyDigits(v))
    ensures field == Valor ==> AllDigits(g.valor) && g.valor == OnlyDigits(v)
    ensures field == Cvv ==> g.cvv.Some? && AllDigits(g.cvv.value) && |g.cvv.value| <= 4 && g.cvv.value <= OnlyDigits(v)
    ensures field == NomeTitular || field == TipoCartao ==> Get(g, field) == Some(v)
    ensures field == NumeroCartao ==> g.numeroCartao == Some(FormatCardNumber(v))
    ensures field == DataValidade ==> g.dataValidade == Some(FormatDate(v))
    ensures field == CpfCliente ==> g.cpfCliente == FormatCpf(v)
  {
    SetRawFrame(f, field, Stored(field, v));
    SetRaw(f, field, Stored(field, v))
  }

  /** `validateForm` reads only the method, the digits of five fields and the trimmed holder. */
  lemma SameDigitsSameVerdict(f: PaymentFormData, g: PaymentFormData)
    requires f.formaPagamento == g.formaPagamento
    requires OnlyDigits(f.valor) == OnlyDigits(g.valor) && OnlyDigits(f.cpfCliente) == OnlyDigits(g.cpfCliente)
    requires OnlyDigits(Text(f.numeroCartao)) == OnlyDigits(Text(g.numeroCartao))
    requires OnlyDigits(Text(f.dataValidade)) == OnlyDigits(Text(g.dataValidade))
    requires OnlyDigits(Text(f.cvv)) == OnlyDigits(Text(g.cvv))
    requires Trim(Text(f.nomeTitular)) == Trim(Text(g.nomeTitular))
    ensures ValidateForm(f) == ValidateForm(g)
  {
  }

  /** The formatting never changes the verdict of `validateForm` on what was typed, except that a CVV is cut to four digits. */
  lemma FormattingKeepsVerdict(f: PaymentFormData, field: Field, v: string)
    ensures field != Cvv ==> ValidateForm(InputChanged(f, field, v)) == ValidateForm(SetRaw(f, field, v))
    ensures field == Cvv ==>
      ValidateForm(InputChanged(f, field, v)) == ValidateForm(SetRaw(f, field, Take(OnlyDigits(v), 4)))
  {
    var g := InputChanged(f, field, v);
    var raw := SetRaw(f, field, if field == Cvv then Take(OnlyDigits(v), 4) else v);
    OnlyDigitsOfDigits(Take(OnlyDigits(v), 4));
    match field {
      case Valor => OnlyDigitsOfDigits(OnlyDigits(v));
      case NumeroCartao =>
      case NomeTitular =>
      case DataValidade =>
      case Cvv =>
      case TipoCartao =>
      case CpfCliente =>
    }
    SameDigitsSameVerdict(g, raw);
  }

  /** `handlePaymentMethodChange`: the method is set; choosing PIX empties the four card fields, choosing a card keeps them. */
  function MethodChanged(f: PaymentFormData, m: PaymentMethod): (g: PaymentFormData)
    ensures g.formaPagamento == m
    ensures g.valor == f.valor && g.cpfCliente == f.cpfCliente && g.tipoCartao == f.tipoCartao
    ensures m == Cartao ==> g == f.(formaPagamento := Cartao)
    ensures m == Pix ==> Text(g.numeroCartao) == "" && Text(g.nomeTitular) == "" &&
                         Text(g.dataValidade) == "" && Text(g.cvv) == ""
  {
    match m
    case Pix =>
      f.(formaPagamento := Pix, numeroCartao := Some(""), nomeTitular := Some(""), dataValidade := Some(""), cvv := Some(""))
    case Cartao =>
      f.(formaPagamento := Cartao)
  }

  /** With PIX chosen only the amount and the CPF decide, whatever the card fields hold. */
  lemma PixIgnoresCardFields(f: PaymentFormData)
    ensures ValidateForm(MethodChanged(f, Pix)).None? <==>
      HasNonzeroDigit(OnlyDigits(f.valor)) && |OnlyDigits(f.cpfCliente)| == 11
  {
  }

  /** Going to PIX and back to the card loses the card: the form fails on the amount or on the card number. */
  lemma BackFromPixNeedsCardAgain(f: PaymentFormData)
    ensures var e := ValidateForm(MethodChanged(MethodChanged(f, Pix), Cartao));
      e == Some(AmountInvalid) || e == Some(CardNumberInvalid)
  {
    var g := MethodChanged(MethodChanged(f, Pix), Cartao);
    assert g.formaPagamento == Cartao && Text(g.numeroCartao) == "";
    assert OnlyDigits("") == "";
  }
}
