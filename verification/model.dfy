/**
 * The records the gateway exchanges: the caller's payment request, the
 * bank's wire request and verdict, and the masked payment record that is
 * returned and stored.
 */
module Model {
  import opened Wrappers

  /** The public API request. Java's nullable String fields become options. */
  datatype PaymentRequest = PaymentRequest(
    cardNumber: Option<string>,
    expiryMonth: int,
    expiryYear: int,
    currency: Option<string>,
    amount: int,
    cvv: Option<string>)

  /** The request sent to the acquiring bank; the expiry travels as "MM/YYYY". */
  datatype BankRequest = BankRequest(
    cardNumber: Option<string>,
    expiryDate: string,
    currency: Option<string>,
    amount: int,
    cvv: Option<string>)

  /** The acquiring bank's verdict. */
  datatype BankResponse = BankResponse(
    authorized: bool,
    authorizationCode: Option<string>,
    errorMessage: Option<string>)

  datatype PaymentStatus = Authorized | Declined | Rejected

  /** An opaque payment identifier (a random UUID in the running system). */
  type PaymentId = nat

  /**
   * The payment record returned to callers and kept by the store. It has
   * no field for the full card number or the card verification code.
   */
  datatype PaymentResponse = PaymentResponse(
    id: PaymentId,
    status: PaymentStatus,
    lastFourDigits: string,
    cardExpiryDate: string,
    expiryMonth: int,
    expiryYear: int,
    currency: Option<string>,
    amount: int)

  /** A reading of the clock, as java.time.YearMonth gives it. */
  datatype YearMonth = YearMonth(year: int, month: int)
}
