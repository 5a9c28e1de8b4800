/**
 * The gateway wired to the HTTP bank client, and concrete submissions taken
 * from the gateway's tests.
 */
module Scenarios {
  import opened Wrappers
  import opened JavaText
  import opened Model
  import opened Request
  import opened Validator
  import opened Repository
  import opened Gateway
  import BankClient

  /** The bank as the service sees it: the HTTP client posting to url over transport. */
  function ClientBank(url: string, transport: BankClient.Post -> BankClient.Exchange): BankRequest -> Option<BankResponse> {
    r => BankClient.ProcessPayment(url, r, transport).outcome
  }

  /**
   * Over the HTTP client, a valid request whose POST throws or is answered
   * outside 2xx fails with 503 and leaves the store as it was.
   */
  lemma TransportFailureIsUnavailable(store: Store, req: PaymentRequest, id: PaymentId, now: YearMonth,
                                      url: string, transport: BankClient.Post -> BankClient.Exchange)
    requires IsValid(req, now)
    requires var e := transport(BankClient.Post(url, BuildBankRequest(req)));
      e.Failed? || !BankClient.Is2xx(e.status)
    ensures var s := ProcessPayment(store, req, id, now, ClientBank(url, transport));
      s.result == Err(BankUnavailable(503)) && s.store == store
  {
  }

  /** Over the HTTP client, a 2xx answer with a body decides the status by its authorized flag. */
  lemma TransportVerdictDecides(store: Store, req: PaymentRequest, id: PaymentId, now: YearMonth,
                                url: string, transport: BankClient.Post -> BankClient.Exchange)
    requires IsValid(req, now)
    requires var e := transport(BankClient.Post(url, BuildBankRequest(req)));
      e.Answered? && BankClient.Is2xx(e.status) && e.body.Some?
    ensures var s := ProcessPayment(store, req, id, now, ClientBank(url, transport));
      var verdict := transport(BankClient.Post(url, BuildBankRequest(req))).body.value;
      && s.result.Ok?
      && s.result.value.status == (if verdict.authorized then Authorized else Declined)
      && GetPaymentById(s.store, id) == s.result
  {
    SubmitThenLookup(store, req, id, now, ClientBank(url, transport));
  }

  const Today := YearMonth(2026, 10)

  /** A request expiring in December of next year, for 1000 minor units. */
  function SampleRequest(card: string, currency: string, cvv: string): PaymentRequest {
    PaymentRequest(Some(card), 12, Today.year + 1, Some(currency), 1000, Some(cvv))
  }

  function Approving(authorized: bool): BankRequest -> Option<BankResponse> {
    r => Some(BankResponse(authorized, None, None))
  }

  lemma GbpNormalizes()
    ensures Upper(Trim("gbp")) == "GBP"
  {
    TrimOfSolid("gbp");
    UpperGbp();
  }

  lemma UpperGbp()
    ensures Upper("gbp") == "GBP"
  {
    var u := Upper("gbp");
    assert u[0] == 'G' && u[1] == 'B' && u[2] == 'P';
  }

  lemma UpperCodeIsItself(code: string)
    requires code in ValidCurrencies
    ensures Upper(Trim(code)) == code
  {
    TrimOfSolid(code);
    var u := Upper(code);
    assert u[0] == code[0] && u[1] == code[1] && u[2] == code[2];
  }

  /** Currency codes are accepted in any letter case and stored upper-cased. */
  lemma LowerCaseCurrencyAccepted()
    ensures ValidateCurrency(Some("gbp")).None?
    ensures NormalizeCurrency(Some(" gbp ")) == Some("GBP")
  {
    GbpNormalizes();
    assert " gbp " == " " + "gbp" + " ";
    TrimOfPadded(" ", "gbp", " ");
    TrimOfSolid("gbp");
  }

  /** The sample request with a card of 14 to 19 digits and a supported upper-case currency passes validation. */
  lemma SampleIsValid(card: string, currency: string, cvv: string)
    requires 14 <= |card| <= 19 && AllDigits(card)
    requires currency in ValidCurrencies
    requires 3 <= |cvv| <= 4 && AllDigits(cvv)
    ensures IsValid(SampleRequest(card, currency, cvv), Today)
  {
    var req := SampleRequest(card, currency, cvv);
    assert CardNumberOk(req.cardNumber) by { TrimOfSolid(card); }
    assert CurrencyOk(req.currency) by { UpperCodeIsItself(currency); }
    assert CvvOk(req.cvv) by { TrimOfSolid(cvv); }
  }

  lemma SampleCardDigits()
    ensures var card := "1234567890123451";
      |card| == 16 && AllDigits(card) && card[12..] == "3451"
  {
  }

  lemma SampleLastFour(card: string, currency: string, cvv: string)
    requires 14 <= |card| && AllDigits(card)
    ensures CardNumberLastFour(SampleRequest(card, currency, cvv)) == card[|card| - 4..]
  {
    var req := SampleRequest(card, currency, cvv);
    assert req.cardNumber == Some(card);
    assert HasSolidEnds(card);
    TrimOfSolid(card);
    assert Trim(req.cardNumber.value) == card;
    LastFourOfLongCard(req);
  }

  /** A valid sample request, answered by the bank: stored under its identifier with the card's last four and the code as given. */
  lemma JudgedSample(card: string, currency: string, cvv: string, id: PaymentId, authorized: bool)
    requires 14 <= |card| <= 19 && AllDigits(card)
    requires currency in ValidCurrencies
    requires 3 <= |cvv| <= 4 && AllDigits(cvv)
    ensures var s := ProcessPayment(EmptyStore, SampleRequest(card, currency, cvv), id, Today, Approving(authorized));
      && s.result.Ok?
      && s.result.value.status == (if authorized then Authorized else Declined)
      && s.result.value.lastFourDigits == card[|card| - 4..]
      && s.result.value.currency == Some(currency)
      && s.result.value.amount == 1000
      && GetPaymentById(s.store, id) == s.result
  {
    var req := SampleRequest(card, currency, cvv);
    var bank := Approving(authorized);
    SampleIsValid(card, currency, cvv);
    var s := ProcessPayment(EmptyStore, req, id, Today, bank);
    assert s.sent == Some(BuildBankRequest(req));
    assert bank(s.sent.value) == Some(BankResponse(authorized, None, None));
    assert Masks(s.result.value, req, id);
    SampleLastFour(card, currency, cvv);
    assert NormalizeCurrency(req.currency) == Some(currency) by {
      UpperCodeIsItself(currency);
    }
    SubmitThenLookup(EmptyStore, req, id, Today, bank);
  }

  /** A valid card, authorized by the bank: stored as Authorized with its last four digits, and found again by lookup. */
  lemma AuthorizedScenario()
    ensures var req := SampleRequest("1234567890123451", "GBP", "123");
      var s := ProcessPayment(EmptyStore, req, 7, Today, Approving(true));
      && s.result.Ok?
      && s.result.value.status == Authorized
      && s.result.value.lastFourDigits == "3451"
      && s.result.value.currency == Some("GBP")
      && s.result.value.amount == 1000
      && GetPaymentById(s.store, 7) == s.result
  {
    SampleCardDigits();
    JudgedSample("1234567890123451", "GBP", "123", 7, true);
  }

  /** A card of fewer than fourteen digits is rejected for its length, without a bank call and without being stored. */
  lemma ShortCardRejected(card: string, currency: string, cvv: string, id: PaymentId)
    requires 1 <= |card| < 14 && AllDigits(card)
    ensures var req := SampleRequest(card, currency, cvv);
      var s := ProcessPayment(EmptyStore, req, id, Today, Approving(true));
      && ValidatePaymentRequest(Some(req), Today) == Some(CardNumberLength)
      && s.result.Ok? && s.result.value.status == Rejected
      && s.sent.None? && s.store == EmptyStore
      && GetPaymentById(s.store, id) == Err(InvalidId(id))
  {
    var req := SampleRequest(card, currency, cvv);
    TrimOfSolid(card);
    assert ValidateCardNumber(req.cardNumber) == Some(CardNumberLength);
    RejectedIsNeverFound(EmptyStore, req, id, Today, Approving(true));
  }

  /** A thirteen-digit card is rejected for its length, without a bank call and without being stored. */
  lemma ShortCardScenario()
    ensures var req := SampleRequest("1234567890123", "GBP", "123");
      var s := ProcessPayment(EmptyStore, req, 7, Today, Approving(true));
      && ValidatePaymentRequest(Some(req), Today) == Some(CardNumberLength)
      && s.result.Ok? && s.result.value.status == Rejected
      && s.sent.None? && s.store == EmptyStore
      && GetPaymentById(s.store, 7) == Err(InvalidId(7))
  {
    ShortCardRejected("1234567890123", "GBP", "123", 7);
  }

  /** Two valid submissions of one request, authorized and then declined, are both stored and each found under its own identifier. */
  lemma TwoSubmissions(card: string, currency: string, cvv: string)
    requires 14 <= |card| <= 19 && AllDigits(card)
    requires currency in ValidCurrencies
    requires 3 <= |cvv| <= 4 && AllDigits(cvv)
    ensures var req := SampleRequest(card, currency, cvv);
      var first := ProcessPayment(EmptyStore, req, 1, Today, Approving(true));
      var second := ProcessPayment(first.store, req, 2, Today, Approving(false));
      && first.result.Ok? && first.result.value.status == Authorized
      && second.result.Ok? && second.result.value.status == Declined
      && GetPaymentById(second.store, 1) == first.result
      && GetPaymentById(second.store, 2) == second.result
  {
    var req := SampleRequest(card, currency, cvv);
    SampleIsValid(card, currency, cvv);
    var first := ProcessPayment(EmptyStore, req, 1, Today, Approving(true));
    SubmitThenLookup(EmptyStore, req, 1, Today, Approving(true));
    SubmitLeavesOtherPayments(first.store, req, 2, Today, Approving(false), 1);
    SubmitThenLookup(first.store, req, 2, Today, Approving(false));
  }

  /** Two submissions of a sixteen-digit card in US dollars, authorized and then declined. */
  lemma TwoSubmissionsScenario()
    ensures var req := SampleRequest("1234567890123451", "USD", "123");
      var first := ProcessPayment(EmptyStore, req, 1, Today, Approving(true));
      var second := ProcessPayment(first.store, req, 2, Today, Approving(false));
      && first.result.Ok? && first.result.value.status == Authorized
      && second.result.Ok? && second.result.value.status == Declined
      && GetPaymentById(second.store, 1) == first.result
      && GetPaymentById(second.store, 2) == second.result
  {
    SampleCardDigits();
    TwoSubmissions("1234567890123451", "USD", "123");
  }
}
