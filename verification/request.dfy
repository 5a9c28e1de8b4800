/** Values derived from a payment request: the card's last four, the two expiry renderings, the masked log line. */
module Request {
  import opened Wrappers
  import opened JavaText
  import opened Decimal
  import opened Model

  function Min(a: int, b: int): int {
    if a < b then a else b
  }

  /** The last four characters of the trimmed card number, fewer if it is shorter, "" if it is absent or blank. */
  function CardNumberLastFour(req: PaymentRequest): (r: string)
    ensures req.cardNumber.None? || Trim(req.cardNumber.value) == [] ==> r == []
    ensures req.cardNumber.Some? ==>
      var pan := Trim(req.cardNumber.value);
      |r| == Min(4, |pan|) && r == pan[|pan| - |r|..]
  {
    if req.cardNumber.None? then
      []
    else
      var pan := Trim(req.cardNumber.value);
      if pan == [] then [] else if |pan| >= 4 then pan[|pan| - 4..] else pan
  }

  lemma LastFourOfLongCard(req: PaymentRequest)
    requires req.cardNumber.Some? && |Trim(req.cardNumber.value)| >= 4
    ensures var pan := Trim(req.cardNumber.value);
      CardNumberLastFour(req) == pan[|pan| - 4..]
  {
  }

  /** Reads "MM/Y..." back: two digits, a slash, then one or more digits. */
  function ParseExpiry(s: string): Option<(int, int)> {
    if |s| >= 4 && AllDigits(s[..2]) && s[2] == '/' && AllDigits(s[3..]) then
      Some((ValueOf(s[..2]), ValueOf(s[3..])))
    else
      None
  }

  /** Two digits, a slash and a run of digits parse back to the two numbers. */
  lemma ParseJoined(mm: string, rest: string)
    requires |mm| == 2 && AllDigits(mm) && 1 <= |rest| && AllDigits(rest)
    ensures (mm + "/" + rest)[2] == '/'
    ensures ParseExpiry(mm + "/" + rest) == Some((ValueOf(mm), ValueOf(rest)))
  {
    var r := mm + "/" + rest;
    assert r[..2] == mm && r[3..] == rest;
  }

  /** "%02d/" of the month followed by "%0<width>d" of the year decodes back to the pair, at width + 3 characters. */
  lemma FormattedExpiry(m: int, y: int, width: nat)
    requires 1 <= width
    ensures 0 <= m < 100 && 0 <= y ==>
      var r := Format(m, 2) + "/" + Format(y, width);
      |r| >= 3 + width && r[2] == '/' && ParseExpiry(r) == Some((m, y))
    ensures 0 <= m < 100 && 0 <= y < Pow10(width) ==>
      |Format(m, 2) + "/" + Format(y, width)| == 3 + width
  {
    if 0 <= m < 100 && 0 <= y {
      assert Pow10(2) == 100;
      FormatLength(m, 2);
      ParseJoined(Format(m, 2), Format(y, width));
      if y < Pow10(width) {
        FormatLength(y, width);
      }
    }
  }

  /** The bank's "MM/YYYY" expiry: String.format("%02d/%04d", month, year). */
  function ExpiryDate(req: PaymentRequest): (r: string)
    ensures 0 <= req.expiryMonth < 100 && 0 <= req.expiryYear ==>
      ParseExpiry(r) == Some((req.expiryMonth, req.expiryYear))
  {
    FormattedExpiry(req.expiryMonth, req.expiryYear, 4);
    Format(req.expiryMonth, 2) + "/" + Format(req.expiryYear, 4)
  }

  /** The bank's expiry reads back as the request's month and year, in seven characters while the year has four digits. */
  lemma ExpiryDateRoundTrip(req: PaymentRequest)
    requires 0 <= req.expiryMonth < 100 && 0 <= req.expiryYear
    ensures ParseExpiry(ExpiryDate(req)) == Some((req.expiryMonth, req.expiryYear))
    ensures req.expiryYear < 10000 ==> |ExpiryDate(req)| == 7 && ExpiryDate(req)[2] == '/'
  {
    FormattedExpiry(req.expiryMonth, req.expiryYear, 4);
    assert Pow10(4) == 10000;
  }

  /** Java's % on int: the remainder takes the sign of the dividend. */
  function JavaRem(a: int, b: int): (r: int)
    requires b > 0
    ensures 0 <= a ==> r == a % b
    ensures a < 0 ==> -b < r <= 0
    ensures a == (if 0 <= a then a / b else -((-a) / b)) * b + r
  {
    if 0 <= a then a % b else -((-a) % b)
  }

  /** The API's "MM/YY" expiry: String.format("%02d/%02d", month, year % 100). */
  function ExpiryDateForResponse(req: PaymentRequest): (r: string)
    ensures 0 <= req.expiryMonth < 100 && 0 <= req.expiryYear ==>
      ParseExpiry(r) == Some((req.expiryMonth, req.expiryYear % 100))
  {
    FormattedExpiry(req.expiryMonth, JavaRem(req.expiryYear, 100), 2);
    Format(req.expiryMonth, 2) + "/" + Format(JavaRem(req.expiryYear, 100), 2)
  }

  /** The API's expiry is five characters and reads back as the month and the year's last two digits. */
  lemma ExpiryDateForResponseRoundTrip(req: PaymentRequest)
    requires 0 <= req.expiryMonth < 100 && 0 <= req.expiryYear
    ensures var r := ExpiryDateForResponse(req);
      |r| == 5 && r[2] == '/' && ParseExpiry(r) == Some((req.expiryMonth, req.expiryYear % 100))
  {
    FormattedExpiry(req.expiryMonth, req.expiryYear % 100, 2);
    assert Pow10(2) == 100;
  }

  /** Both expiry renderings read back to the same month; the response's year is the wire year modulo 100. */
  lemma ResponseExpiryAbbreviatesWire(req: PaymentRequest)
    requires 0 <= req.expiryMonth < 100 && 0 <= req.expiryYear
    ensures var w := ParseExpiry(ExpiryDate(req));
      var v := ParseExpiry(ExpiryDateForResponse(req));
      && w.Some? && v.Some?
      && v.value.0 == w.value.0
      && v.value.1 == w.value.1 % 100
  {
    ExpiryDateRoundTrip(req);
    ExpiryDateForResponseRoundTrip(req);
  }

  function ShowNullable(s: Option<string>): string {
    if s.None? then "null" else s.value
  }

  /**
   * The fields of PaymentRequest.toString that are printed as they are; an int
   * concatenated to a string reads as "%d", which is Format at width 0.
   */
  function DescribeOpenFields(req: PaymentRequest): string {
    ", expiryMonth=" + Format(req.expiryMonth, 0)
      + ", expiryYear=" + Format(req.expiryYear, 0)
      + ", currency='" + ShowNullable(req.currency) + "'"
      + ", amount=" + Format(req.amount, 0)
  }

  /** PaymentRequest.toString: the card number and the verification code print as "****" whatever they hold. */
  function Describe(req: PaymentRequest): (r: string)
    ensures |r| >= 41 && r[..30] == "PaymentRequest{cardNumber=****"
    ensures r[|r| - 11..] == ", cvv=****}"
  {
    var head := "PaymentRequest{cardNumber=****";
    var tail := ", cvv=****}";
    Framed(head, DescribeOpenFields(req), tail);
    head + DescribeOpenFields(req) + tail
  }

  /** A string framed by head and tail starts with head and ends with tail. */
  lemma Framed(head: string, mid: string, tail: string)
    ensures var r := head + mid + tail;
      |r| >= |head| + |tail| && r[..|head|] == head && r[|r| - |tail|..] == tail
  {
    var r := head + mid + tail;
    assert r[..|head|] == head;
    assert r[|r| - |tail|..] == tail;
  }

  /** The log line of a request does not depend on its card number or its verification code. */
  lemma DescribeHidesSecrets(req: PaymentRequest, cardNumber: Option<string>, cvv: Option<string>)
    ensures Describe(req.(cardNumber := cardNumber, cvv := cvv)) == Describe(req)
  {
  }
}
