/**
 * PaymentGatewayService: a submission is given a fresh identifier and
 * validated; a rejected request is answered at once and kept nowhere; a
 * valid one is sent to the bank, whose verdict becomes Authorized or
 * Declined and is stored. Lookup hides missing and rejected payments alike.
 *
 * The identifier generator and the clock are parameters (id, now); the bank
 * client is the function bank, from the request sent to its outcome.
 */
module Gateway {
  import opened Wrappers
  import opened JavaText
  import opened Model
  import opened Request
  import opened Validator
  import opened Repository

  /** The service-level failures: the bank could not be reached, or no visible payment has the identifier. */
  datatype ServiceError = BankUnavailable(httpStatus: int) | InvalidId(id: PaymentId)

  /** The HTTP status carried by the bank-unavailable failure. */
  const ServiceUnavailable: int := 503

  /** Everything one submission produces: its answer, the store after it, and the request sent to the bank, if any. */
  datatype Submission = Submission(
    result: Result<PaymentResponse, ServiceError>,
    store: Store,
    sent: Option<BankRequest>)

  /** No ASCII lower-case letter occurs in s. */
  predicate NoLowerCase(s: string) {
    forall i :: 0 <= i < |s| ==> !('a' <= s[i] <= 'z')
  }

  /** normalizeCurrency: trimmed and upper-cased; an absent currency stays absent. */
  function NormalizeCurrency(currency: Option<string>): (r: Option<string>)
    ensures r.None? <==> currency.None?
    ensures r.Some? ==>
      && HasSolidEnds(r.value) && NoLowerCase(r.value)
      && |r.value| == |Trim(currency.value)|
      && forall i :: 0 <= i < |r.value| ==> r.value[i] == UpperChar(Trim(currency.value)[i])
  {
    if currency.Some? then
      UpperOfSolid(Trim(currency.value));
      Some(Upper(Trim(currency.value)))
    else
      None
  }

  /** Upper-casing keeps solid ends and leaves no lower-case letter. */
  lemma UpperOfSolid(t: string)
    requires HasSolidEnds(t)
    ensures HasSolidEnds(Upper(t)) && NoLowerCase(Upper(t))
  {
    var u := Upper(t);
    if t != [] {
      assert u[0] == UpperChar(t[0]) && u[|u| - 1] == UpperChar(t[|t| - 1]);
      UpperKeepsSpacing(t[0]);
      UpperKeepsSpacing(t[|t| - 1]);
    }
    forall i | 0 <= i < |u|
      ensures !('a' <= u[i] <= 'z')
    {
      assert u[i] == UpperChar(t[i]);
    }
  }

  /** Normalizing a normalized currency changes nothing. */
  lemma NormalizeIdempotent(currency: Option<string>)
    ensures NormalizeCurrency(NormalizeCurrency(currency)) == NormalizeCurrency(currency)
  {
    if currency.Some? {
      var t := Trim(currency.value);
      UpperOfSolid(t);
      TrimOfSolid(Upper(t));
      UpperIdempotent(t);
    }
  }

  /** buildBankRequest: card number, verification code and amount as given, expiry as "MM/YYYY", currency normalized. */
  function BuildBankRequest(req: PaymentRequest): (b: BankRequest)
    ensures b.cardNumber == req.cardNumber && b.cvv == req.cvv && b.amount == req.amount
    ensures b.expiryDate == ExpiryDate(req)
    ensures b.currency == NormalizeCurrency(req.currency)
  {
    BankRequest(req.cardNumber, ExpiryDate(req), NormalizeCurrency(req.currency), req.amount, req.cvv)
  }

  /** buildResponse: the masked record of a request under an identifier and a status. */
  function BuildResponse(req: PaymentRequest, id: PaymentId, status: PaymentStatus): (p: PaymentResponse)
    ensures p.status == status && Masks(p, req, id)
  {
    PaymentResponse(id, status, CardNumberLastFour(req), ExpiryDateForResponse(req),
      req.expiryMonth, req.expiryYear, NormalizeCurrency(req.currency), req.amount)
  }

  /** The record is the masked form of the request under the identifier. */
  predicate Masks(p: PaymentResponse, req: PaymentRequest, id: PaymentId) {
    && p.id == id
    && p.lastFourDigits == CardNumberLastFour(req)
    && p.cardExpiryDate == ExpiryDateForResponse(req)
    && p.expiryMonth == req.expiryMonth && p.expiryYear == req.expiryYear
    && p.currency == NormalizeCurrency(req.currency) && p.amount == req.amount
  }

  /** The bank's verdict as a payment status. */
  function StatusOf(verdict: BankResponse): (s: PaymentStatus)
    ensures s != Rejected
    ensures s == Authorized <==> verdict.authorized
  {
    if verdict.authorized then Authorized else Declined
  }

  /** The store invariant: a rejected payment is never kept. */
  predicate NoRejected(store: Store) {
    forall id :: id in store ==> store[id].status != Rejected
  }

  /** The part of processPayment after validation: build the bank request, consult the bank, map and keep its verdict. */
  function SendToBank(store: Store, req: PaymentRequest, id: PaymentId,
                      bank: BankRequest -> Option<BankResponse>): (s: Submission)
    ensures s.sent == Some(BuildBankRequest(req))
    ensures bank(s.sent.value).None? ==>
      s.result == Err(BankUnavailable(ServiceUnavailable)) && s.store == store
    ensures bank(s.sent.value).Some? ==>
      && s.result.Ok?
      && (s.result.value.status == Authorized <==> bank(s.sent.value).value.authorized)
      && s.result.value.status != Rejected
      && s.store == Add(store, s.result.value)
    ensures s.result.Ok? ==> Masks(s.result.value, req, id)
    ensures NoRejected(store) ==> NoRejected(s.store)
  {
    var bankReq := BuildBankRequest(req);
    match bank(bankReq)
    case None =>
      Submission(Err(BankUnavailable(ServiceUnavailable)), store, Some(bankReq))
    case Some(verdict) =>
      var response := BuildResponse(req, id, StatusOf(verdict));
      AddKeepsNoRejected(store, response);
      Submission(Ok(response), Add(store, response), Some(bankReq))
  }

  /** Adding a payment that is not rejected keeps the store free of rejected payments. */
  lemma AddKeepsNoRejected(store: Store, payment: PaymentResponse)
    ensures NoRejected(store) && payment.status != Rejected ==> NoRejected(Add(store, payment))
  {
  }

  /** processPayment, with the request present. */
  function ProcessPayment(store: Store, req: PaymentRequest, id: PaymentId, now: YearMonth,
                          bank: BankRequest -> Option<BankResponse>): (s: Submission)
    ensures !IsValid(req, now) ==>
      && s.result.Ok? && s.result.value.status == Rejected
      && s.sent.None? && s.store == store
    ensures IsValid(req, now) ==> s.sent == Some(BuildBankRequest(req))
    ensures s.sent.Some? && bank(s.sent.value).None? ==>
      s.result == Err(BankUnavailable(ServiceUnavailable)) && s.store == store
    ensures s.sent.Some? && bank(s.sent.value).Some? ==>
      && s.result.Ok?
      && (s.result.value.status == Authorized <==> bank(s.sent.value).value.authorized)
      && s.result.value.status != Rejected
      && s.store == Add(store, s.result.value)
    ensures s.result.Ok? ==> Masks(s.result.value, req, id)
    ensures s.result.Err? ==> s.result.error == BankUnavailable(ServiceUnavailable)
    ensures NoRejected(store) ==> NoRejected(s.store)
  {
    if ValidatePaymentRequest(Some(req), now).Some? then
      Submission(Ok(BuildResponse(req, id, Rejected)), store, None)
    else
      SendToBank(store, req, id, bank)
  }

  /** getPaymentById: the stored record, unless it is missing or rejected, which both read as an invalid identifier. */
  function GetPaymentById(store: Store, id: PaymentId): (r: Result<PaymentResponse, ServiceError>)
    ensures r.Err? <==> id !in store || store[id].status == Rejected
    ensures r.Err? ==> r.error == InvalidId(id)
    ensures r.Ok? ==> r.value == store[id] && r.value.status != Rejected
  {
    match Get(store, id)
    case None => Err(InvalidId(id))
    case Some(found) =>
      if found.status == Rejected then Err(InvalidId(id)) else Ok(found)
  }

  /** After a submission the bank judged, looking its identifier up returns exactly the record submit returned. */
  lemma SubmitThenLookup(store: Store, req: PaymentRequest, id: PaymentId, now: YearMonth,
                         bank: BankRequest -> Option<BankResponse>)
    ensures var s := ProcessPayment(store, req, id, now, bank);
      s.result.Ok? && s.result.value.status != Rejected ==>
        s.result.value.id == id && GetPaymentById(s.store, id) == s.result
  {
  }

  /**
   * A rejected submission's identifier is handed to the caller but is never
   * found afterwards, and the bank never saw the request.
   */
  lemma RejectedIsNeverFound(store: Store, req: PaymentRequest, id: PaymentId, now: YearMonth,
                             bank: BankRequest -> Option<BankResponse>)
    requires id !in store
    requires !IsValid(req, now)
    ensures var s := ProcessPayment(store, req, id, now, bank);
      && s.result.Ok? && s.result.value.id == id && s.result.value.status == Rejected
      && s.sent.None?
      && GetPaymentById(s.store, id) == Err(InvalidId(id))
  {
  }

  /** When the bank is unavailable the submission fails with 503 and its identifier is never found. */
  lemma UnavailableIsNeverFound(store: Store, req: PaymentRequest, id: PaymentId, now: YearMonth,
                                bank: BankRequest -> Option<BankResponse>)
    requires id !in store
    requires IsValid(req, now)
    requires bank(BuildBankRequest(req)).None?
    ensures var s := ProcessPayment(store, req, id, now, bank);
      && s.result == Err(BankUnavailable(503))
      && GetPaymentById(s.store, id) == Err(InvalidId(id))
  {
  }

  /** A submission changes what lookup answers for its own identifier only. */
  lemma SubmitLeavesOtherPayments(store: Store, req: PaymentRequest, id: PaymentId, now: YearMonth,
                                  bank: BankRequest -> Option<BankResponse>, other: PaymentId)
    requires other != id
    ensures GetPaymentById(ProcessPayment(store, req, id, now, bank).store, other) == GetPaymentById(store, other)
  {
  }

  /**
   * For a request that passes validation, the record shows exactly the last
   * four digits of the card (never the whole number) and a supported,
   * upper-case currency, and the bank is sent that same currency.
   */
  lemma ValidSubmissionIsMasked(store: Store, req: PaymentRequest, id: PaymentId, now: YearMonth,
                                bank: BankRequest -> Option<BankResponse>)
    requires IsValid(req, now)
    ensures var s := ProcessPayment(store, req, id, now, bank);
      var pan := Trim(req.cardNumber.value);
      && s.sent.Some? && s.sent.value.currency.Some?
      && s.sent.value.currency.value in ValidCurrencies
      && (s.result.Ok? ==>
        && |s.result.value.lastFourDigits| == 4
        && s.result.value.lastFourDigits == pan[|pan| - 4..]
        && s.result.value.lastFourDigits != req.cardNumber.value
        && s.result.value.currency == s.sent.value.currency)
  {
    LastFourOfLongCard(req);
  }

  /**
   * The bank request carries the card number, verification code and amount as
   * given, the normalized currency, and an expiry that reads back as the
   * request's month and year, in seven characters while the year has four digits.
   */
  lemma BankRequestFields(req: PaymentRequest)
    requires 0 <= req.expiryMonth < 100 && 0 <= req.expiryYear
    ensures var b := BuildBankRequest(req);
      && b.cardNumber == req.cardNumber && b.cvv == req.cvv && b.amount == req.amount
      && b.currency == NormalizeCurrency(req.currency)
      && ParseExpiry(b.expiryDate) == Some((req.expiryMonth, req.expiryYear))
      && (req.expiryYear < 10000 ==> |b.expiryDate| == 7 && b.expiryDate[2] == '/')
  {
    ExpiryDateRoundTrip(req);
  }
}
