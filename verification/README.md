# Payment gateway core, modelled in Dafny

This project models the decision logic of a card payment gateway. A merchant submits a
payment request. The gateway validates it field by field and answers REJECTED at once when a
check fails. Otherwise it sends the request to the acquiring bank and maps the bank's verdict
to AUTHORIZED or DECLINED. It keeps the masked result under a fresh payment identifier.
Lookup returns a kept payment, except that a missing identifier and a rejected payment both
read as an invalid identifier.

All of it is pure functions over immutable datatypes:

- `wrappers.dfy`: `Option` for Java's null and `Optional`; `Result` for "returns or throws".
- `java_text.dfy`: the `java.lang.String` behaviour the gateway relies on:
  - `trim` strips code points at or below U+0020;
  - `isBlank` uses the `Character.isWhitespace` set;
  - `toUpperCase(Locale.ROOT)` is modelled on ASCII letters;
  - the digit class `[0-9]`.
- `decimal.dfy`: `String.format("%0<width>d")` as it renders under a locale with ASCII digits, and the reading of digit strings back into numbers. The `%d` of an int concatenated into a string is the same rendering at width 0.
- `model.dfy`: the payment request, the bank request and response, the status, and the stored
  payment record. The record has no field for the full card number or the verification code.
- `request.dfy`: the values derived from a request:
  - the card's last four characters;
  - the bank's `MM/YYYY` expiry;
  - the API's `MM/YY` expiry;
  - the masking `toString`.
- `validator.dfy`: the validator. Each check has a reference predicate saying what it
  accepts. `ValidatePaymentRequest` is proved to report the first failing check in the fixed
  order, and nothing exactly when the request satisfies every predicate.
- `bank_client.dfy`: the HTTP bank client. The transport is a function from the single POST
  to its outcome: either a `RestClientException` (the only exception the client catches) or a
  status with an optional body.
- `repository.dfy`: the payment store as a map, with the add/get behaviour its tests assert.
- `gateway.dfy`: the service: `processPayment`, `getPaymentById`, the request builders and
  currency normalization. It also proves the lookup-after-submit lemmas.
- `scenarios.dfy`: the service wired to the HTTP client, plus concrete submissions taken from the
  tests, stated for whole families of inputs and then instantiated.

Inputs from outside the program are parameters:

- the clock (`YearMonth.now()`) is `now: YearMonth`. The validator reads the clock twice, once for the year and once for the month, so a year can end between the reads and give a pair such as (Y, January). `now` is unconstrained, so that pair is covered too;
- the identifier generator (`UUID.randomUUID()`) is `id: PaymentId`;
- the acquiring bank is `bank: BankRequest -> Option<BankResponse>`;
- the HTTP transport is `transport: Post -> Exchange`.

The store is threaded through the operations as a value.

## Model

| member | source | states |
|---|---|---|
| JavaText.Trim | src/main/java/com/checkout/payment/gateway/validation/PaymentRequestValidator.java:79 | the trimmed string is no longer than the input, and neither end is a character at or below U+0020 |
| JavaText.TrimIsInfix | src/main/java/com/checkout/payment/gateway/model/PaymentRequest.java:32 | the trimmed string is the stretch of the input that starts right after its leading trimmable characters |
| JavaText.TrimEmptyIffAllTrimmable | src/main/java/com/checkout/payment/gateway/validation/PaymentRequestValidator.java:75 | `trim().isEmpty()` holds exactly when every character is at or below U+0020 |
| JavaText.TrimOfPadded | src/main/java/com/checkout/payment/gateway/service/PaymentGatewayService.java:113 | trimming removes exactly the padding around a string whose ends are not trimmable |
| JavaText.TrimOfSolid | src/main/java/com/checkout/payment/gateway/model/PaymentRequest.java:32 | a string whose ends are not trimmable is its own trim |
| JavaText.TrimIdempotent | src/main/java/com/checkout/payment/gateway/service/PaymentGatewayService.java:113 | trimming twice gives the same as trimming once |
| JavaText.LeadingAreTrimmable | src/main/java/com/checkout/payment/gateway/validation/PaymentRequestValidator.java:79 | every character that trim drops from the front is at or below U+0020 |
| JavaText.TrailingAreTrimmable | src/main/java/com/checkout/payment/gateway/validation/PaymentRequestValidator.java:79 | every character that trim drops from the back is at or below U+0020 |
| JavaText.IsBlank | src/main/java/com/checkout/payment/gateway/validation/PaymentRequestValidator.java:119 | `isBlank` holds exactly when every character is Java whitespace (in the set of `Character.isWhitespace`) |
| JavaText.BlankTrimsToBlank | src/main/java/com/checkout/payment/gateway/validation/PaymentRequestValidator.java:119-122 | the trim of a blank string is blank |
| JavaText.Upper | src/main/java/com/checkout/payment/gateway/validation/PaymentRequestValidator.java:122 | upper-casing keeps the length and maps each character by itself |
| JavaText.UpperIdempotent | src/main/java/com/checkout/payment/gateway/service/PaymentGatewayService.java:113 | upper-casing twice gives the same as upper-casing once |
| JavaText.UpperKeepsSpacing | src/main/java/com/checkout/payment/gateway/validation/PaymentRequestValidator.java:122 | upper-casing neither creates nor removes whitespace or trimmable characters |
| Decimal.Digits | src/main/java/com/checkout/payment/gateway/model/PaymentRequest.java:93-96 | the decimal form of a number is non-empty, all digits, has no leading zero, and reads back as the number |
| Decimal.Format | src/main/java/com/checkout/payment/gateway/model/PaymentRequest.java:79 | a non-negative number renders as digits that read back to it; a negative one as a minus sign before digits that read back to its magnitude; the length is the width, or the length of the unpadded rendering (sign included) when that is longer |
| Decimal.ValueOfZeroPadded | src/main/java/com/checkout/payment/gateway/model/PaymentRequest.java:86 | zero padding does not change the number the digits denote |
| Decimal.FormatLength | src/main/java/com/checkout/payment/gateway/model/PaymentRequest.java:79 | a non-negative number below 10^width renders in exactly width characters |
| Decimal.DigitsLength | src/main/java/com/checkout/payment/gateway/model/PaymentRequest.java:79 | a number below 10^k has at most k digits, and one at or above 10^(k-1) has at least k |
| Request.CardNumberLastFour | src/main/java/com/checkout/payment/gateway/model/PaymentRequest.java:27-34 | empty when the card number is absent or blank after trim; otherwise a suffix of the trimmed number, of length min(4, trimmed length) |
| Request.LastFourOfLongCard | src/main/java/com/checkout/payment/gateway/model/PaymentRequest.java:33 | for a trimmed number of at least four characters, the result is exactly its last four |
| Request.FormattedExpiry | src/main/java/com/checkout/payment/gateway/model/PaymentRequest.java:76-87 | `%02d/` of the month followed by the zero-padded year reads back to the month and year, with the slash at index 2 |
| Request.ExpiryDate | src/main/java/com/checkout/payment/gateway/model/PaymentRequest.java:76-80 | for a month in 0..99 and a non-negative year, the bank expiry reads back as `MM/Y...` to exactly that month and year |
| Request.ExpiryDateForResponse | src/main/java/com/checkout/payment/gateway/model/PaymentRequest.java:82-87 | for a month in 0..99 and a non-negative year, the API expiry reads back to the month and the year modulo 100 |
| Request.ExpiryDateRoundTrip | src/main/java/com/checkout/payment/gateway/model/PaymentRequest.java:76-80 | the bank expiry reads back to the request's month and year; it is seven characters with '/' at index 2 whenever the year has at most four digits |
| Request.JavaRem | src/main/java/com/checkout/payment/gateway/model/PaymentRequest.java:85 | Java's `%`: the dividend is the quotient truncated toward zero times the divisor plus the remainder; the remainder is the mathematical one for a non-negative dividend and lies in (-b, 0] for a negative one |
| Request.ExpiryDateForResponseRoundTrip | src/main/java/com/checkout/payment/gateway/model/PaymentRequest.java:82-87 | the API expiry is five characters with '/' at index 2, and reads back to the month and the year modulo 100 |
| Request.ResponseExpiryAbbreviatesWire | src/main/java/com/checkout/payment/gateway/model/PaymentRequest.java:76-87 | both expiry renderings read back to the same month; the API year is the bank year modulo 100 |
| Request.Describe | src/main/java/com/checkout/payment/gateway/model/PaymentRequest.java:89-99 | the log line starts with `PaymentRequest{cardNumber=****` and ends with `, cvv=****}` |
| Request.DescribeHidesSecrets | src/main/java/com/checkout/payment/gateway/model/PaymentRequest.java:89-99 | the log line does not depend on the card number or the verification code |
| Validator.ValidateCardNumber | src/main/java/com/checkout/payment/gateway/validation/PaymentRequestValidator.java:74-92 | no reason exactly when the trimmed number is 14 to 19 digits; a format reason only for a valid-length number that is not all digits, masked as `****` plus its last four |
| Validator.ValidateTrimmedCard | src/main/java/com/checkout/payment/gateway/validation/PaymentRequestValidator.java:79-91 | the length check comes before the digit check: a length reason exactly when the length is outside 14..19 |
| Validator.CardNumberReasons | src/main/java/com/checkout/payment/gateway/validation/PaymentRequestValidator.java:75-84 | the missing reason exactly when the number is absent or blank after trim; the length reason exactly when it is present but its trimmed length is outside 14..19 |
| Validator.ValidateExpiryMonth | src/main/java/com/checkout/payment/gateway/validation/PaymentRequestValidator.java:94-102 | no reason exactly when the month is 1 to 12 |
| Validator.ValidateExpiryDate | src/main/java/com/checkout/payment/gateway/validation/PaymentRequestValidator.java:104-116 | no reason exactly when the expiry falls after the current month, which for valid months means a later month count; the past-year reason exactly for an earlier year; the not-in-future reason exactly for this year at or before this month |
| Validator.ValidateCurrency | src/main/java/com/checkout/payment/gateway/validation/PaymentRequestValidator.java:118-135 | no reason exactly when the trimmed, upper-cased code is USD, GBP or EUR |
| Validator.ValidateCurrencyCode | src/main/java/com/checkout/payment/gateway/validation/PaymentRequestValidator.java:122-134 | the length check comes before the membership check: a length reason exactly when the code is not three characters |
| Validator.CurrencyReasons | src/main/java/com/checkout/payment/gateway/validation/PaymentRequestValidator.java:119-128 | the missing reason exactly when the currency is absent or blank; the length reason exactly when it is present, not blank, and trims to other than three characters |
| Validator.BlankCurrencyIsUnsupported | src/main/java/com/checkout/payment/gateway/validation/PaymentRequestValidator.java:119-133 | a blank currency is never an accepted one |
| Validator.SupportedCodeShape | src/main/java/com/checkout/payment/gateway/validation/PaymentRequestValidator.java:13 | each supported code is three characters starting with a capital letter |
| Validator.SupportedCodeIsNotBlank | src/main/java/com/checkout/payment/gateway/validation/PaymentRequestValidator.java:118-133 | a string that normalizes to a supported code is not blank |
| Validator.ValidateAmount | src/main/java/com/checkout/payment/gateway/validation/PaymentRequestValidator.java:137-142 | no reason exactly when the amount is positive |
| Validator.ValidateCvv | src/main/java/com/checkout/payment/gateway/validation/PaymentRequestValidator.java:144-156 | no reason exactly when the trimmed code is three or four digits; the missing reason exactly for an absent or empty code |
| Validator.ValidateCvvCode | src/main/java/com/checkout/payment/gateway/validation/PaymentRequestValidator.java:150-155 | no reason exactly when the code matches `^[0-9]{3,4}$` |
| Validator.RunCheck | src/main/java/com/checkout/payment/gateway/validation/PaymentRequestValidator.java:27-63 | one check gives no reason exactly when the request satisfies its predicate, and any reason belongs to that check |
| Validator.FirstFailure | src/main/java/com/checkout/payment/gateway/validation/PaymentRequestValidator.java:27-65 | running checks in rank order gives no reason exactly when all pass; otherwise it gives the reason of a failing check that every earlier check passes |
| Validator.OrderCoversChecks | src/main/java/com/checkout/payment/gateway/validation/PaymentRequestValidator.java:22-65 | every check other than the presence test is run |
| Validator.OrderIsOrdered | src/main/java/com/checkout/payment/gateway/validation/PaymentRequestValidator.java:27-63 | the checks run in strictly increasing rank: card, month, date, currency, amount, verification code |
| Validator.ValidIffOrderPasses | src/main/java/com/checkout/payment/gateway/validation/PaymentRequestValidator.java:22-66 | passing every check in the order is exactly validity |
| Validator.FailureFollowsPasses | src/main/java/com/checkout/payment/gateway/validation/PaymentRequestValidator.java:27-63 | a failure found after the earlier checks in the order passed comes after every earlier check passing |
| Validator.ValidatePaymentRequest | src/main/java/com/checkout/payment/gateway/validation/PaymentRequestValidator.java:22-66 | an absent request gives the missing-request reason; a present one gives no reason exactly when it is valid, and otherwise the reason of a failing check that every earlier-ranked check passes |
| Validator.MaskedCardReason | src/main/java/com/checkout/payment/gateway/validation/PaymentRequestValidator.java:86-89 | a format reason carries `****` plus the card's last four, never the card number itself |
| Validator.CardReasonFromCardCheck | src/main/java/com/checkout/payment/gateway/validation/PaymentRequestValidator.java:27-30 | a card-format reason from the whole validator is the card check's own answer |
| Validator.CardFormatMask | src/main/java/com/checkout/payment/gateway/validation/PaymentRequestValidator.java:86-88 | the card check's mask is `****` plus the last four and differs from the number |
| BankClient.Classify | src/main/java/com/checkout/payment/gateway/client/AcquiringBankClientImpl.java:26-36 | the bank's body exactly for a 2xx answer that has one; nothing for a `RestClientException`, a non-2xx status or a missing body |
| BankClient.ProcessPayment | src/main/java/com/checkout/payment/gateway/client/AcquiringBankClientImpl.java:21-37 | exactly one POST, to the configured address, with the request unchanged; the outcome is the body of a 2xx answer with a body, and nothing otherwise, a caught `RestClientException` included |
| BankClient.NonSuccessIsUnavailable | src/main/java/com/checkout/payment/gateway/client/AcquiringBankClient.java:9-16 | any non-2xx answer, with or without a body, reads as unavailable |
| Repository.Add | src/test/java/com/checkout/payment/gateway/repository/PaymentsRepositoryTest.java:23-35 | after add, the identifier is present and holds the record, and every other identifier keeps its record |
| Repository.Get | src/test/java/com/checkout/payment/gateway/repository/PaymentsRepositoryTest.java:36-59 | get is empty exactly for an identifier never added; otherwise it returns the stored record |
| Repository.GetAfterAdd | src/test/java/com/checkout/payment/gateway/repository/PaymentsRepositoryTest.java:83-104 | after an add, get returns the new record under its identifier and the old answer under every other |
| Repository.AddOverwrites | src/test/java/com/checkout/payment/gateway/repository/PaymentsRepositoryTest.java:61-82 | a second add under the same identifier replaces the first |
| Repository.GetFromEmpty | src/test/java/com/checkout/payment/gateway/repository/PaymentsRepositoryTest.java:52-59 | nothing is found in an empty store |
| Gateway.NormalizeCurrency | src/main/java/com/checkout/payment/gateway/service/PaymentGatewayService.java:111-116 | absent stays absent; otherwise the trimmed code upper-cased character by character, with solid ends and no lower-case letter |
| Gateway.UpperOfSolid | src/main/java/com/checkout/payment/gateway/service/PaymentGatewayService.java:113 | upper-casing keeps non-trimmable ends and leaves no lower-case letter |
| Gateway.NormalizeIdempotent | src/main/java/com/checkout/payment/gateway/service/PaymentGatewayService.java:111-116 | normalizing a normalized currency changes nothing |
| Gateway.BuildBankRequest | src/main/java/com/checkout/payment/gateway/service/PaymentGatewayService.java:81-90 | card number, verification code and amount pass unchanged, the expiry is the request's `MM/YYYY` rendering and the currency is the normalized one |
| Gateway.BuildResponse | src/main/java/com/checkout/payment/gateway/service/PaymentGatewayService.java:93-109 | the record carries the given status and is the masked form of the request under the identifier: the card's last four, the `MM/YY` expiry, month, year, amount and the normalized currency |
| Gateway.AddKeepsNoRejected | src/main/java/com/checkout/payment/gateway/service/PaymentGatewayService.java:61-63 | storing a payment that is not rejected keeps the store free of rejected payments |
| Gateway.StatusOf | src/main/java/com/checkout/payment/gateway/service/PaymentGatewayService.java:57-59 | the status is never Rejected, and is Authorized exactly when the bank authorized |
| Gateway.SendToBank | src/main/java/com/checkout/payment/gateway/service/PaymentGatewayService.java:40-64 | the bank gets the built request; no verdict gives the 503 error and an unchanged store; a verdict gives its status and stores exactly the returned record; the store never gains a rejected payment |
| Gateway.ProcessPayment | src/main/java/com/checkout/payment/gateway/service/PaymentGatewayService.java:30-65 | an invalid request is answered Rejected, sent nowhere and stored nowhere; a valid one is sent to the bank as built; an absent verdict gives the 503 error with the store unchanged; a verdict is mapped and the returned record is what is stored; every record is the masked form of the request |
| Gateway.GetPaymentById | src/main/java/com/checkout/payment/gateway/service/PaymentGatewayService.java:67-74 | an invalid-identifier error exactly when the identifier is missing or its payment was rejected; otherwise the stored record unchanged |
| Gateway.SubmitThenLookup | src/main/java/com/checkout/payment/gateway/service/PaymentGatewayService.java:61-74 | after a judged submission, looking up its identifier returns exactly what submit returned |
| Gateway.RejectedIsNeverFound | src/main/java/com/checkout/payment/gateway/service/PaymentGatewayService.java:34-38 | a rejected submission returns its identifier, never reaches the bank, and its identifier is never found afterwards |
| Gateway.UnavailableIsNeverFound | src/main/java/com/checkout/payment/gateway/service/PaymentGatewayService.java:49-54 | with the bank unavailable the submission fails with 503 and its identifier is never found |
| Gateway.SubmitLeavesOtherPayments | src/main/java/com/checkout/payment/gateway/service/PaymentGatewayService.java:61-64 | a submission changes the lookup answer for its own identifier only |
| Gateway.ValidSubmissionIsMasked | src/main/java/com/checkout/payment/gateway/service/PaymentGatewayService.java:93-109 | for a valid request, the record shows exactly the last four of the card and never the whole number, and the record and the bank carry the same supported, normalized currency |
| Gateway.BankRequestFields | src/main/java/com/checkout/payment/gateway/service/PaymentGatewayService.java:81-90 | for a month below 100 and a non-negative year, the bank request carries card number, verification code and amount unchanged and the normalized currency; its expiry reads back to the month and year, and is a seven-character `MM/YYYY` while the year has at most four digits |
| Scenarios.TransportFailureIsUnavailable | src/main/java/com/checkout/payment/gateway/service/PaymentGatewayService.java:44-54 | over the HTTP client, a `RestClientException` or a non-2xx answer fails the submission with 503 and leaves the store unchanged |
| Scenarios.TransportVerdictDecides | src/main/java/com/checkout/payment/gateway/service/PaymentGatewayService.java:44-63 | over the HTTP client, a 2xx answer with a body decides the status by its authorized flag, and the record is found again |
| Scenarios.GbpNormalizes | src/test/java/com/checkout/payment/gateway/validation/PaymentRequestValidatorTest.java:243-248 | `gbp` normalizes to `GBP` |
| Scenarios.UpperCodeIsItself | src/main/java/com/checkout/payment/gateway/validation/PaymentRequestValidator.java:13 | a supported code is its own normalized form |
| Scenarios.LowerCaseCurrencyAccepted | src/test/java/com/checkout/payment/gateway/validation/PaymentRequestValidatorTest.java:243-248 | the lower-case code `gbp` passes the currency check, and ` gbp ` is stored as `GBP` |
| Scenarios.SampleIsValid | src/test/java/com/checkout/payment/gateway/validation/PaymentRequestValidatorTest.java:41-45 | a request with a 14- to 19-digit card, a future expiry, a supported code, a positive amount and a 3- or 4-digit verification code is valid |
| Scenarios.SampleLastFour | src/test/java/com/checkout/payment/gateway/service/PaymentGatewayServiceTest.java:218-230 | a card of at least fourteen digits shows exactly its last four |
| Scenarios.JudgedSample | src/test/java/com/checkout/payment/gateway/service/PaymentGatewayServiceTest.java:133-159 | a valid request judged by the bank is stored with the matching status, the card's last four and the currency as given, and is found again |
| Scenarios.AuthorizedScenario | src/test/java/com/checkout/payment/gateway/controller/PaymentGatewayControllerTest.java:83-107 | card `1234567890123451` in GBP, authorized: stored as Authorized with last four `3451`, and found again |
| Scenarios.ShortCardRejected | src/test/java/com/checkout/payment/gateway/validation/PaymentRequestValidatorTest.java:66-75 | a card of fewer than fourteen digits gets the length reason, is answered Rejected, is not sent, and is not stored |
| Scenarios.ShortCardScenario | src/test/java/com/checkout/payment/gateway/validation/PaymentRequestValidatorTest.java:66-75 | the thirteen-digit card `1234567890123` is rejected for its length and never stored |
| Scenarios.TwoSubmissions | src/test/java/com/checkout/payment/gateway/repository/PaymentsRepositoryTest.java:83-104 | two submissions, one authorized and one declined, are both stored and each is found under its own identifier |
| Scenarios.TwoSubmissionsScenario | src/test/java/com/checkout/payment/gateway/repository/PaymentsRepositoryTest.java:83-104 | the same, for a sixteen-digit card in USD |

## Left out

- HTTP and JSON are out: RestTemplate, the client timeouts and the serialization annotations. The transport is a function parameter yielding a `RestClientException` or a status with an optional body.
- Exceptions other than `RestClientException` are out. The client does not catch them (a malformed address, say, or a request that cannot be serialized), so they would reach the service and the caller. The model has no such outcome.
- The controller's mapping of REJECTED to 400 and of the rest to 200 is out, and so is the exception handler's mapping of exceptions to HTTP statuses. Both are framework wiring. The service's errors are the datatype `ServiceError`, and 503 is kept as the bank-unavailable code.
- Logging is out, because it has no effect on results.
- Concurrency is out. The store is a map threaded sequentially through the operations.
- PaymentsRepository.java is not part of this model. The store follows the add/get behaviour that PaymentsRepositoryTest asserts.
- AcquiringBankPaymentRequest.java is not part of this model. Its fields are those `buildBankRequest` sets.
- The clock, the UUID generator and the bank are parameters and are not modelled themselves.
- JavaText.Upper: only ASCII letters are upper-cased. `toUpperCase(Locale.ROOT)` also maps other Unicode letters, and one character can map to several.
- Validator.ValidateCardNumber, Request.CardNumberLastFour, Validator.ValidateCurrencyCode: lengths count Unicode scalar values, while Java's `length()` and `substring` count UTF-16 units. A character outside the Basic Multilingual Plane counts once here and twice in Java. For example, twelve digits followed by an emoji get the length reason here but the format reason in Java, and the last four or the currency length can differ the same way.
- Decimal.Format: digits are rendered as under a locale whose zero digit is ASCII '0'. `String.format` without a locale uses the JVM's default format locale. Under a locale with other digits, such as Persian, the bank expiry would be sent in non-ASCII digits.
- Validator.ValidatePaymentRequest: reasons are error kinds, not message texts. Only the masked card suffix is kept, as the payload of `CardNumberFormat`. Month, year, amount and currency code are no longer carried. The supported-currency list in the message is left out too.
- The request's integer fields are unbounded. Java's 32-bit `int` cannot overflow in any computation the core performs. The only arithmetic is comparisons, `% 100` and formatting.
- A null request at service level is out. `processPayment(null)` would dereference null while building the rejected response, so the service model takes a present request. The validator still models the null request.
- The bank response's authorization code and error message are carried but never used, as in the service.
- Request.Describe: the contract fixes the masked prefix and suffix and the independence from the card number and the code. The middle fields are written out in the body, but their exact rendering is not stated as a property.
- One validator test expects the message for a past month of the current year to mention "past". The code reports "Expiry date is not in the future" for that case. In January the test's month 0 fails the month check instead. The model follows the code, and message wording is out in any case.
