/**
 * PaymentRequestValidator: a request is checked field by field in a fixed
 * order and the first failing check names the reason; a request that passes
 * every check yields no reason.
 */
module Validator {
  import opened Wrappers
  import opened JavaText
  import opened Model
  import opened Request

  /** Why a request is rejected. Only the malformed-card reason carries data: the masked card suffix. */
  datatype Reason =
    | RequestMissing
    | CardNumberMissing
    | CardNumberLength
    | CardNumberFormat(masked: string)
    | ExpiryMonthInvalid
    | ExpiryYearInPast
    | ExpiryDateNotInFuture
    | CurrencyMissing
    | CurrencyLength
    | CurrencyUnsupported
    | AmountNotPositive
    | CvvMissing
    | CvvFormat

  /** The checks, in the order the validator runs them. */
  datatype Check = PresenceCheck | CardNumberCheck | ExpiryMonthCheck | ExpiryDateCheck | CurrencyCheck | AmountCheck | CvvCheck

  function Rank(c: Check): nat {
    match c
    case PresenceCheck => 0
    case CardNumberCheck => 1
    case ExpiryMonthCheck => 2
    case ExpiryDateCheck => 3
    case CurrencyCheck => 4
    case AmountCheck => 5
    case CvvCheck => 6
  }

  /** The check that produces a reason. */
  function CheckOf(r: Reason): Check {
    match r
    case RequestMissing => PresenceCheck
    case CardNumberMissing | CardNumberLength | CardNumberFormat(_) => CardNumberCheck
    case ExpiryMonthInvalid => ExpiryMonthCheck
    case ExpiryYearInPast | ExpiryDateNotInFuture => ExpiryDateCheck
    case CurrencyMissing | CurrencyLength | CurrencyUnsupported => CurrencyCheck
    case AmountNotPositive => AmountCheck
    case CvvMissing | CvvFormat => CvvCheck
  }

  const ValidCurrencies: set<string> := {"USD", "GBP", "EUR"}

  // What each check accepts, stated on its own terms.

  /** A card number is present and, once trimmed, is 14 to 19 ASCII digits. */
  predicate CardNumberOk(card: Option<string>) {
    card.Some? && 14 <= |Trim(card.value)| <= 19 && AllDigits(Trim(card.value))
  }

  predicate MonthInRange(month: int) {
    1 <= month <= 12
  }

  /** The expiry month comes strictly after the current month. */
  predicate ExpiresAfter(month: int, year: int, now: YearMonth) {
    year > now.year || (year == now.year && month > now.month)
  }

  /** A currency is present and its trimmed, upper-cased code is supported. */
  predicate CurrencyOk(currency: Option<string>) {
    currency.Some? && Upper(Trim(currency.value)) in ValidCurrencies
  }

  predicate AmountOk(amount: int) {
    amount > 0
  }

  /** A verification code is present and, once trimmed, is three or four ASCII digits. */
  predicate CvvOk(cvv: Option<string>) {
    cvv.Some? && 3 <= |Trim(cvv.value)| <= 4 && AllDigits(Trim(cvv.value))
  }

  /** Whether a present request passes one check. */
  predicate Satisfies(req: PaymentRequest, now: YearMonth, c: Check) {
    match c
    case PresenceCheck => true
    case CardNumberCheck => CardNumberOk(req.cardNumber)
    case ExpiryMonthCheck => MonthInRange(req.expiryMonth)
    case ExpiryDateCheck => ExpiresAfter(req.expiryMonth, req.expiryYear, now)
    case CurrencyCheck => CurrencyOk(req.currency)
    case AmountCheck => AmountOk(req.amount)
    case CvvCheck => CvvOk(req.cvv)
  }

  predicate IsValid(req: PaymentRequest, now: YearMonth) {
    && CardNumberOk(req.cardNumber)
    && MonthInRange(req.expiryMonth)
    && ExpiresAfter(req.expiryMonth, req.expiryYear, now)
    && CurrencyOk(req.currency)
    && AmountOk(req.amount)
    && CvvOk(req.cvv)
  }

  /** The card-number check: presence, then the trimmed number's length and digits. */
  function ValidateCardNumber(card: Option<string>): (r: Option<Reason>)
    ensures r.None? <==> CardNumberOk(card)
    ensures r.Some? ==> CheckOf(r.value) == CardNumberCheck
    ensures r.Some? && r.value.CardNumberFormat? ==>
      && card.Some?
      && var pan := Trim(card.value);
      && 14 <= |pan| <= 19 && !AllDigits(pan)
      && r.value.masked == "****" + pan[|pan| - 4..]
  {
    if card.None? then
      Some(CardNumberMissing)
    else
      var pan := Trim(card.value);
      if pan == [] then Some(CardNumberMissing) else ValidateTrimmedCard(pan)
  }

  /**
   * The trimmed card number must be 14 to 19 characters long, then digits only;
   * a malformed number is reported by "****" and its last four characters.
   */
  function ValidateTrimmedCard(pan: string): (r: Option<Reason>)
    ensures r.None? <==> 14 <= |pan| <= 19 && AllDigits(pan)
    ensures r.Some? ==> r.value == CardNumberLength || r.value.CardNumberFormat?
    ensures r == Some(CardNumberLength) <==> !(14 <= |pan| <= 19)
    ensures r.Some? && r.value.CardNumberFormat? ==>
      && 14 <= |pan| <= 19 && !AllDigits(pan)
      && r.value.masked == "****" + pan[|pan| - 4..]
  {
    if |pan| < 14 || |pan| > 19 then
      Some(CardNumberLength)
    else if !AllDigits(pan) then
      Some(CardNumberFormat("****" + pan[|pan| - 4..]))
    else
      None
  }

  /** Which card-number reason is given: absent or blank, then a trimmed length outside 14..19, then anything else. */
  lemma CardNumberReasons(card: Option<string>)
    ensures ValidateCardNumber(card) == Some(CardNumberMissing) <==> card.None? || Trim(card.value) == []
    ensures ValidateCardNumber(card) == Some(CardNumberLength) <==>
      card.Some? && Trim(card.value) != [] && !(14 <= |Trim(card.value)| <= 19)
  {
  }

  function ValidateExpiryMonth(month: int): (r: Option<Reason>)
    ensures r.None? <==> MonthInRange(month)
    ensures r.Some? ==> r.value == ExpiryMonthInvalid
  {
    if month < 1 then Some(ExpiryMonthInvalid)
    else if month > 12 then Some(ExpiryMonthInvalid)
    else None
  }

  /** The expiry must fall strictly after the current month; the current month itself is refused. */
  function ValidateExpiryDate(month: int, year: int, now: YearMonth): (r: Option<Reason>)
    ensures r.None? <==> ExpiresAfter(month, year, now)
    ensures MonthInRange(month) && MonthInRange(now.month) ==>
      (r.None? <==> year * 12 + month > now.year * 12 + now.month)
    ensures r == Some(ExpiryYearInPast) <==> year < now.year
    ensures r == Some(ExpiryDateNotInFuture) <==> year == now.year && month <= now.month
  {
    if year < now.year then Some(ExpiryYearInPast)
    else if year == now.year && month <= now.month then Some(ExpiryDateNotInFuture)
    else None
  }

  /** The currency check: presence, then the normalized code's length and membership. */
  function ValidateCurrency(currency: Option<string>): (r: Option<Reason>)
    ensures r.None? <==> CurrencyOk(currency)
    ensures r.Some? ==> CheckOf(r.value) == CurrencyCheck
  {
    if currency.None? then
      Some(CurrencyMissing)
    else
      var v := currency.value;
      BlankCurrencyIsUnsupported(currency);
      if IsBlank(v) then Some(CurrencyMissing) else ValidateCurrencyCode(Upper(Trim(v)))
  }

  /** The code must be three characters long, then one of the supported codes. */
  function ValidateCurrencyCode(code: string): (r: Option<Reason>)
    ensures r.None? <==> code in ValidCurrencies
    ensures r.Some? ==> r.value == CurrencyLength || r.value == CurrencyUnsupported
    ensures r == Some(CurrencyLength) <==> |code| != 3
  {
    SupportedCodeShape(code);
    if |code| != 3 then
      Some(CurrencyLength)
    else if code !in ValidCurrencies then
      Some(CurrencyUnsupported)
    else
      None
  }

  /** Which currency reason is given: absent or blank, then a trimmed code not three long, then an unsupported code. */
  lemma CurrencyReasons(currency: Option<string>)
    ensures ValidateCurrency(currency) == Some(CurrencyMissing) <==> currency.None? || IsBlank(currency.value)
    ensures ValidateCurrency(currency) == Some(CurrencyLength) <==>
      currency.Some? && !IsBlank(currency.value) && |Trim(currency.value)| != 3
  {
  }

  /** A blank currency is never a supported one. */
  lemma BlankCurrencyIsUnsupported(currency: Option<string>)
    ensures currency.Some? && IsBlank(currency.value) ==> !CurrencyOk(currency)
  {
    if currency.Some? && CurrencyOk(currency) {
      SupportedCodeIsNotBlank(currency.value);
    }
  }

  /** Each supported code is three capital letters. */
  lemma SupportedCodeShape(code: string)
    ensures code in ValidCurrencies ==> |code| == 3 && 'A' <= code[0] <= 'Z'
  {
  }

  /** A string whose normalized form is a supported code is not blank. */
  lemma SupportedCodeIsNotBlank(s: string)
    requires Upper(Trim(s)) in ValidCurrencies
    ensures !IsBlank(s)
  {
    SupportedCodeShape(Upper(Trim(s)));
    CapitalStartIsNotBlank(Trim(s));
    BlankTrimsToBlank(s);
  }

  lemma CapitalStartIsNotBlank(t: string)
    requires |t| >= 1 && 'A' <= Upper(t)[0] <= 'Z'
    ensures !IsBlank(t)
  {
    assert Upper(t)[0] == UpperChar(t[0]);
    UpperKeepsSpacing(t[0]);
  }

  function ValidateAmount(amount: int): (r: Option<Reason>)
    ensures r.None? <==> AmountOk(amount)
    ensures r.Some? ==> r.value == AmountNotPositive
  {
    if amount <= 0 then Some(AmountNotPositive) else None
  }

  /** The verification-code check: presence (an empty string counts as absent), then ^[0-9]{3,4}$ on the trimmed code. */
  function ValidateCvv(cvv: Option<string>): (r: Option<Reason>)
    ensures r.None? <==> CvvOk(cvv)
    ensures r == Some(CvvMissing) <==> cvv.None? || cvv.value == []
    ensures r.Some? ==> CheckOf(r.value) == CvvCheck
  {
    if cvv.None? then
      Some(CvvMissing)
    else
      var v := cvv.value;
      if v == [] then Some(CvvMissing) else ValidateCvvCode(Trim(v))
  }

  /** The trimmed verification code must match ^[0-9]{3,4}$. */
  function ValidateCvvCode(code: string): (r: Option<Reason>)
    ensures r.None? <==> 3 <= |code| <= 4 && AllDigits(code)
    ensures r.Some? ==> r.value == CvvFormat
  {
    if !(3 <= |code| <= 4 && AllDigits(code)) then Some(CvvFormat) else None
  }

  /** The checks after the presence test, in the order the validator runs them. */
  const Order: seq<Check> := [CardNumberCheck, ExpiryMonthCheck, ExpiryDateCheck, CurrencyCheck, AmountCheck, CvvCheck]

  /** The checks in cs come in strictly increasing rank. */
  predicate Ordered(cs: seq<Check>) {
    forall i, j :: 0 <= i < j < |cs| ==> Rank(cs[i]) < Rank(cs[j])
  }

  /** One check applied to a present request. */
  function RunCheck(req: PaymentRequest, now: YearMonth, c: Check): (r: Option<Reason>)
    ensures r.None? <==> Satisfies(req, now, c)
    ensures r.Some? ==> CheckOf(r.value) == c
  {
    match c
    case PresenceCheck => None
    case CardNumberCheck => ValidateCardNumber(req.cardNumber)
    case ExpiryMonthCheck => ValidateExpiryMonth(req.expiryMonth)
    case ExpiryDateCheck => ValidateExpiryDate(req.expiryMonth, req.expiryYear, now)
    case CurrencyCheck => ValidateCurrency(req.currency)
    case AmountCheck => ValidateAmount(req.amount)
    case CvvCheck => ValidateCvv(req.cvv)
  }

  /**
   * The checks cs run one after the other, stopping at the first that fails:
   * its reason, or none when every check passes.
   */
  function FirstFailure(req: PaymentRequest, now: YearMonth, cs: seq<Check>): (r: Option<Reason>)
    requires Ordered(cs)
    ensures r.None? <==> forall c :: c in cs ==> Satisfies(req, now, c)
    ensures r.Some? ==> CheckOf(r.value) in cs && !Satisfies(req, now, CheckOf(r.value))
    ensures r.Some? ==> forall c :: c in cs && Rank(c) < Rank(CheckOf(r.value)) ==> Satisfies(req, now, c)
    ensures r.Some? ==> r == RunCheck(req, now, CheckOf(r.value))
  {
    if cs == [] then
      None
    else
      var r := RunCheck(req, now, cs[0]);
      if r.Some? then
        r
      else
        assert forall c :: c in cs ==> c == cs[0] || c in cs[1..];
        FirstFailure(req, now, cs[1..])
  }

  /** Every check other than the presence test is in Order. */
  lemma OrderCoversChecks(c: Check)
    ensures c == PresenceCheck || c in Order
  {
  }

  /**
   * validatePaymentRequest: the reason of the first failing check, in the
   * order presence, card number, expiry month, expiry date, currency,
   * amount, verification code; none when all pass.
   */
  function ValidatePaymentRequest(request: Option<PaymentRequest>, now: YearMonth): (r: Option<Reason>)
    ensures request.None? ==> r == Some(RequestMissing)
    ensures request.Some? ==> (r.None? <==> IsValid(request.value, now))
    ensures request.Some? && r.Some? ==>
      && CheckOf(r.value) != PresenceCheck
      && !Satisfies(request.value, now, CheckOf(r.value))
      && PassesBefore(request.value, now, CheckOf(r.value))
      && r == RunCheck(request.value, now, CheckOf(r.value))
  {
    if request.None? then
      Some(RequestMissing)
    else
      var req := request.value;
      OrderIsOrdered();
      var r := FirstFailure(req, now, Order);
      ValidIffOrderPasses(req, now);
      if r.Some? then FailureFollowsPasses(req, now, r.value); r else r
  }

  lemma OrderIsOrdered()
    ensures Ordered(Order)
  {
  }

  /** Passing every check of Order is exactly validity. */
  lemma ValidIffOrderPasses(req: PaymentRequest, now: YearMonth)
    ensures (forall c :: c in Order ==> Satisfies(req, now, c)) <==> IsValid(req, now)
  {
    assert Order[0] == CardNumberCheck && Order[1] == ExpiryMonthCheck && Order[2] == ExpiryDateCheck;
    assert Order[3] == CurrencyCheck && Order[4] == AmountCheck && Order[5] == CvvCheck;
    if IsValid(req, now) {
      forall c | c in Order
        ensures Satisfies(req, now, c)
      {
      }
    } else {
      var i :| 0 <= i < 6 && !Satisfies(req, now, Order[i]);
      assert Order[i] in Order;
    }
  }

  /** A check of Order whose earlier checks in Order all pass has every earlier check passing. */
  lemma FailureFollowsPasses(req: PaymentRequest, now: YearMonth, reason: Reason)
    requires forall c :: c in Order && Rank(c) < Rank(CheckOf(reason)) ==> Satisfies(req, now, c)
    ensures PassesBefore(req, now, CheckOf(reason))
  {
    forall c | Rank(c) < Rank(CheckOf(reason))
      ensures Satisfies(req, now, c)
    {
      OrderCoversChecks(c);
    }
  }

  /** Every check ranked before c is passed. */
  predicate PassesBefore(req: PaymentRequest, now: YearMonth, c: Check) {
    forall c' :: Rank(c') < Rank(c) ==> Satisfies(req, now, c')
  }

  /**
   * A malformed card number is reported as "****" and the card's last four;
   * the report is never the card number itself.
   */
  lemma MaskedCardReason(req: PaymentRequest, now: YearMonth)
    requires ValidatePaymentRequest(Some(req), now).Some?
    requires ValidatePaymentRequest(Some(req), now).value.CardNumberFormat?
    ensures var m := ValidatePaymentRequest(Some(req), now).value.masked;
      && req.cardNumber.Some?
      && m == "****" + CardNumberLastFour(req)
      && m != Trim(req.cardNumber.value)
      && m != req.cardNumber.value
  {
    var r := ValidatePaymentRequest(Some(req), now);
    CardReasonFromCardCheck(req, now);
    CardFormatMask(req, r.value.masked);
  }

  lemma CardReasonFromCardCheck(req: PaymentRequest, now: YearMonth)
    requires ValidatePaymentRequest(Some(req), now).Some?
    requires ValidatePaymentRequest(Some(req), now).value.CardNumberFormat?
    ensures ValidateCardNumber(req.cardNumber) == ValidatePaymentRequest(Some(req), now)
  {
  }

  lemma CardFormatMask(req: PaymentRequest, m: string)
    requires ValidateCardNumber(req.cardNumber) == Some(CardNumberFormat(m))
    ensures req.cardNumber.Some?
    ensures m == "****" + CardNumberLastFour(req)
    ensures m != Trim(req.cardNumber.value) && m != req.cardNumber.value
  {
    LastFourOfLongCard(req);
  }
}
