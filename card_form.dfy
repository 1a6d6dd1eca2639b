/**
 * The card registration page of the web frontend (`Cartao.tsx`): the masks
 * applied to each field as it is typed, the card brand shown for a number,
 * and `validate`, which names the first field that is wrong. The current
 * time is a parameter.
 */
module CardForm {
  import opened Common
  import opened Masks

  // ---- The masks ----

  /** `maskCardNumber`: the first sixteen digits typed, and only those, grouped by four; at most 19 characters. */
  function MaskCardNumber(v: string): (m: string)
    ensures m == Grouped(Take(OnlyDigits(v), 16))
    ensures OnlyDigits(m) == Take(OnlyDigits(v), 16)
    ensures |m| <= 19
  {
    CardNumberMaskOfDigits(OnlyDigits(v));
    Take(Trim(Blocks(OnlyDigits(v))), 19)
  }

  /** Grouping a whole number of blocks followed by more digits puts one space between the two groupings. */
  lemma {:induction false} GroupedSplit(a: string, b: string)
    requires |a| % 4 == 0 && |a| > 0 && |b| > 0
    ensures Grouped(a + b) == Grouped(a) + " " + Grouped(b)
    decreases |a|
  {
    var ab := a + b;
    assert ab[..4] == a[..4];
    if |a| == 4 {
      assert ab[4..] == b;
    } else {
      assert ab[4..] == a[4..] + b;
      GroupedSplit(a[4..], b);
    }
  }

  /** On digits, the blocks trimmed and cut to 19 characters are the first sixteen digits grouped by four. */
  lemma CardNumberMaskOfDigits(d: string)
    requires AllDigits(d)
    ensures Take(Trim(Blocks(d)), 19) == Grouped(Take(d, 16))
    ensures OnlyDigits(Grouped(Take(d, 16))) == Take(d, 16)
    ensures |Grouped(Take(d, 16))| <= 19
  {
    TrimmedBlocks(d);
    if |d| > 16 {
      GroupedCutAfterSixteen(d);
      assert Take(d, 16) == d[..16];
    } else {
      assert Take(d, 16) == d;
    }
    GroupedShape(Take(d, 16));
  }

  /** Past sixteen digits, the first 19 characters of the grouping are the grouping of the first sixteen. */
  lemma GroupedCutAfterSixteen(d: string)
    requires AllDigits(d) && |d| > 16
    ensures Take(Grouped(d), 19) == Grouped(d[..16])
  {
    var a := d[..16];
    assert a + d[16..] == d;
    GroupedSplit(a, d[16..]);
    GroupedShape(a);
  }

  /** `maskDate`: a slash after the first two digits once there are two; at most five characters, exactly `MM/YY` from four digits on. */
  function MaskDate(v: string): (m: string)
    ensures |m| <= 5
    ensures |OnlyDigits(v)| >= 2 ==> |m| >= 3 && m[..2] == OnlyDigits(v)[..2] && m[2] == '/'
    ensures |OnlyDigits(v)| >= 4 ==> m == OnlyDigits(v)[..2] + "/" + OnlyDigits(v)[2..4]
    ensures |OnlyDigits(v)| >= 4 ==> ExpiryFormatOk(m)
  {
    var d := OnlyDigits(v);
    Take(if |d| >= 2 then d[..2] + "/" + d[2..] else d, 5)
  }

  /** `maskCVV`: the first three digits. */
  function MaskCvv(v: string): (c: string)
    ensures AllDigits(c) && |c| <= 3
    ensures c <= OnlyDigits(v)
    ensures |OnlyDigits(v)| >= 3 ==> |c| == 3
  {
    Take(OnlyDigits(v), 3)
  }

  /** `maskCPF`: the CPF punctuation of the digits, cut to 14 characters; eleven digits give `ddd.ddd.ddd-dd`, which keeps all eleven. */
  function MaskCpf(v: string): (m: string)
    ensures |m| <= 14
    ensures var d := OnlyDigits(v);
      |d| == 11 ==> m == d[..3] + "." + d[3..6] + "." + d[6..9] + "-" + d[9..] && OnlyDigits(m) == d
  {
    var d := OnlyDigits(v);
    if |d| == 11 then
      CpfOfElevenDigits(d);
      CpfKeepsDigits(d);
      OnlyDigitsOfDigits(d);
      Take(CpfPunctuated(d), 14)
    else Take(CpfPunctuated(d), 14)
  }

  // ---- The brand ----

  /** The brand icons. */
  datatype Flag = Visa | Mastercard | Amex | DefaultFlag

  /** `getCardFlag`: by the first digit, 4 visa, 5 mastercard, 3 amex, anything else (or no digit) default. */
  function CardFlag(number: string): (f: Flag)
    ensures var d := OnlyDigits(number);
      (f == Visa <==> |d| > 0 && d[0] == '4') &&
      (f == Mastercard <==> |d| > 0 && d[0] == '5') &&
      (f == Amex <==> |d| > 0 && d[0] == '3') &&
      (f == DefaultFlag <==> |d| == 0 || d[0] !in {'3', '4', '5'})
  {
    var d := OnlyDigits(number);
    if |d| > 0 && d[0] == '4' then Visa
    else if |d| > 0 && d[0] == '5' then Mastercard
    else if |d| > 0 && d[0] == '3' then Amex
    else DefaultFlag
  }

  // ---- validate ----

  /** The fields of the form, as the masks left them. */
  datatype CardFormData = CardFormData(numeroCartao: string, nomeTitular: string, dataValidade: string,
                                       cvv: string, cpfTitular: string)

  /** The message `validate` returns, one per check. */
  datatype CardFormError = NumberInvalid | HolderRequired | ExpiryInvalid | Expired | CvvInvalid | CpfInvalid

  /** The current time: the month it falls in, counted as year·12 + month − 1, and whether it is the very first instant of that month. */
  datatype Clock = Clock(month: int, atMonthStart: bool)

  /** `/^\d{2}\/\d{2}$/`. */
  predicate ExpiryFormatOk(s: string)
  {
    |s| == 5 && IsDigit(s[0]) && IsDigit(s[1]) && s[2] == '/' && IsDigit(s[3]) && IsDigit(s[4])
  }

  /** The month `new Date(Number('20' + yy), Number(mm) - 1)` starts, counted like the clock (a month 00 or above 12 rolls over). */
  function ExpiryMonth(s: string): int
    requires ExpiryFormatOk(s)
  {
    var mm := DigitValue(s[0]) * 10 + DigitValue(s[1]);
    var yy := DigitValue(s[3]) * 10 + DigitValue(s[4]);
    (2000 + yy) * 12 + (mm - 1)
  }

  /** `exp < now`: the first instant of the expiry month is already past. */
  predicate ExpiredAt(s: string, now: Clock)
    requires ExpiryFormatOk(s)
  {
    ExpiryMonth(s) < now.month || (ExpiryMonth(s) == now.month && !now.atMonthStart)
  }

  /** `validate` as written: the first failing check, in the order number, holder, format, expiry, CVV, CPF; `None` is `''`. */
  function Validate(f: CardFormData, now: Clock): (e: Option<CardFormError>)
    ensures e == Some(NumberInvalid) <==> |OnlyDigits(f.numeroCartao)| != 16
    ensures e == Some(HolderRequired) <==> |OnlyDigits(f.numeroCartao)| == 16 && f.nomeTitular == ""
    ensures e == Some(ExpiryInvalid) <==>
      |OnlyDigits(f.numeroCartao)| == 16 && f.nomeTitular != "" && !ExpiryFormatOk(f.dataValidade)
    ensures e == Some(Expired) <==>
      |OnlyDigits(f.numeroCartao)| == 16 && f.nomeTitular != "" && ExpiryFormatOk(f.dataValidade) &&
      ExpiredAt(f.dataValidade, now)
    ensures e == Some(CvvInvalid) <==>
      |OnlyDigits(f.numeroCartao)| == 16 && f.nomeTitular != "" && ExpiryFormatOk(f.dataValidade) &&
      !ExpiredAt(f.dataValidade, now) && |f.cvv| != 3
    ensures e == Some(CpfInvalid) <==>
      |OnlyDigits(f.numeroCartao)| == 16 && f.nomeTitular != "" && ExpiryFormatOk(f.dataValidade) &&
      !ExpiredAt(f.dataValidade, now) && |f.cvv| == 3 && |OnlyDigits(f.cpfTitular)| != 11
    ensures e.None? <==>
      |OnlyDigits(f.numeroCartao)| == 16 && f.nomeTitular != "" && ExpiryFormatOk(f.dataValidade) &&
      !ExpiredAt(f.dataValidade, now) && |f.cvv| == 3 && |OnlyDigits(f.cpfTitular)| == 11
  {
    if |OnlyDigits(f.numeroCartao)| != 16 then Some(NumberInvalid)
    else if f.nomeTitular == "" then Some(HolderRequired)
    else if !ExpiryFormatOk(f.dataValidade) then Some(ExpiryInvalid)
    else if ExpiredAt(f.dataValidade, now) then Some(Expired)
    else if |f.cvv| != 3 then Some(CvvInvalid)
    else if |OnlyDigits(f.cpfTitular)| != 11 then Some(CpfInvalid)
    else None
  }

  /**
   * As written, a card is refused as expired during its own expiry month
   * (a card marked `12/25` is refused from the second instant of December
   * 2025 on), where the intended check accepts it.
   */
  lemma CardRefusedInItsExpiryMonth(f: CardFormData, now: Clock)
    requires |OnlyDigits(f.numeroCartao)| == 16 && f.nomeTitular != "" && ExpiryFormatOk(f.dataValidade)
    requires ExpiryMonth(f.dataValidade) == now.month && !now.atMonthStart
    ensures Validate(f, now) == Some(Expired)
    ensures ValidateIntended(f, now) != Some(Expired)
  {
  }

  /** `12/25` names December 2025. */
  lemma ExpiryMonthOfDecember2025()
    ensures ExpiryFormatOk("12/25") && ExpiryMonth("12/25") == 2025 * 12 + 11
  {
  }

  /** A card stays good through the last instant of its expiry month. */
  predicate ExpiredIntended(s: string, now: Clock)
    requires ExpiryFormatOk(s)
  {
    ExpiryMonth(s) < now.month
  }

  /** `validate` with the expiry month counted in full; every other check as written. */
  function ValidateIntended(f: CardFormData, now: Clock): (e: Option<CardFormError>)
    ensures e.None? <==>
      |OnlyDigits(f.numeroCartao)| == 16 && f.nomeTitular != "" && ExpiryFormatOk(f.dataValidade) &&
      ExpiryMonth(f.dataValidade) >= now.month && |f.cvv| == 3 && |OnlyDigits(f.cpfTitular)| == 11
  {
    if |OnlyDigits(f.numeroCartao)| != 16 then Some(NumberInvalid)
    else if f.nomeTitular == "" then Some(HolderRequired)
    else if !ExpiryFormatOk(f.dataValidade) then Some(ExpiryInvalid)
    else if ExpiredIntended(f.dataValidade, now) then Some(Expired)
    else if |f.cvv| != 3 then Some(CvvInvalid)
    else if |OnlyDigits(f.cpfTitular)| != 11 then Some(CpfInvalid)
    else None
  }

  /** The intended check accepts what the written one accepts, and differs from it only during the expiry month. */
  lemma IntendedDiffersOnlyInExpiryMonth(f: CardFormData, now: Clock)
    ensures Validate(f, now).None? ==> ValidateIntended(f, now).None?
    ensures Validate(f, now) != ValidateIntended(f, now) ==>
      Validate(f, now) == Some(Expired) && ExpiryFormatOk(f.dataValidade) && ExpiryMonth(f.dataValidade) == now.month
  {
  }

  /** A form filled through the masks with enough digits passes every check but the holder's name and the expiry. */
  lemma MaskedFieldsPassFormatChecks(number: string, date: string, cvv: string, cpf: string)
    requires |OnlyDigits(number)| >= 16 && |OnlyDigits(date)| >= 4 && |OnlyDigits(cvv)| >= 3 && |OnlyDigits(cpf)| == 11
    ensures |OnlyDigits(MaskCardNumber(number))| == 16
    ensures ExpiryFormatOk(MaskDate(date))
    ensures |MaskCvv(cvv)| == 3
    ensures |OnlyDigits(MaskCpf(cpf))| == 11
  {
  }
}
