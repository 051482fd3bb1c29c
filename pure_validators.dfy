/**
 * Local calendar time, as the JavaScript `Date` of the browser's time zone
 * presents it; the card-expiry comparison only needs these four fields.
 */
module Calendar {

  /** A local date and time: year, month 1..12, day of month, milliseconds since midnight. */
  datatype LocalTime = LocalTime(year: int, month: int, day: int, msOfDay: int)

  predicate IsLeapYear(year: int) {
    year % 4 == 0 && (year % 100 != 0 || year % 400 == 0)
  }

  /** The length of a month in the proleptic Gregorian calendar that `Date` uses. */
  function DaysInMonth(year: int, month: int): (d: int)
    ensures 28 <= d <= 31
  {
    if month == 2 then (if IsLeapYear(year) then 29 else 28)
    else if month == 4 || month == 6 || month == 9 || month == 11 then 30
    else 31
  }

  predicate ValidTime(t: LocalTime) {
    1 <= t.month <= 12 && 1 <= t.day <= DaysInMonth(t.year, t.month) && 0 <= t.msOfDay < 86400000
  }

  /** `a < b` on the time line. */
  predicate Before(a: LocalTime, b: LocalTime) {
    a.year < b.year
    || (a.year == b.year && a.month < b.month)
    || (a.year == b.year && a.month == b.month && a.day < b.day)
    || (a.year == b.year && a.month == b.month && a.day == b.day && a.msOfDay < b.msOfDay)
  }

  /**
   * `new Date(year, month - 1, 1)` followed by `setMonth(month, 0)`: day 0 of
   * the following month, which is midnight at the start of the month's last day.
   */
  function EndOfMonth(year: int, month: int): (t: LocalTime)
    requires 1 <= month <= 12
    ensures ValidTime(t) && t.day == DaysInMonth(year, month) && t.msOfDay == 0
  {
    LocalTime(year, month, DaysInMonth(year, month), 0)
  }
}

/**
 * The newer validators (`pure-validators.ts`). Each one turns the control's
 * value to a string (missing values count as empty), and all but `required`
 * accept an empty value, leaving that case to `required`.
 */
module PureValidators {
  import opened Wrappers
  import opened Text
  import opened Patterns
  import opened Luhn
  import opened Calendar
  import opened Validation

  /** A value that is empty or white space only; the other validators accept it. */
  predicate Blank(value: string) {
    Trim(value) == ""
  }

  /** `required`: a value is present exactly when it has a character that is not white space. */
  function Required(value: string, message: string): (r: ValidationResult)
    ensures r.Valid? <==> exists i :: 0 <= i < |value| && !IsSpace(value[i])
    ensures r.Invalid? ==> r == Failure("required", OrDefault(message, "This field is required"))
  {
    TrimEmptyIff(value);
    if value == "" || Trim(value) == "" then Failure("required", OrDefault(message, "This field is required"))
    else Valid
  }

  /** `email`: the trimmed value is blank or has the shape `local@domain.tld`. */
  function Email(value: string, message: string): (r: ValidationResult)
    ensures Blank(value) ==> r.Valid?
    ensures r.Valid? <==> Blank(value) || MatchesEmail(Trim(value))
    ensures r.Invalid? ==> r == Failure("email", OrDefault(message, "Please enter a valid email address"))
  {
    var v := Trim(value);
    if v == "" then Valid
    else if MatchesEmail(v) then Valid
    else Failure("email", OrDefault(message, "Please enter a valid email address"))
  }

  /** `phone`: a non-blank accepted value carries exactly ten digits. */
  function Phone(value: string, message: string): (r: ValidationResult)
    ensures Blank(value) ==> r.Valid?
    ensures r.Valid? <==> Blank(value) || MatchesPurePhone(Trim(value))
    ensures r.Valid? && !Blank(value) ==> |Digits(Trim(value))| == 10
    ensures r.Invalid? ==> r == Failure("phone", OrDefault(message, "Please enter a valid phone number"))
  {
    var v := Trim(value);
    if v == "" then Valid
    else if MatchesPurePhone(v) then PurePhoneDigits(v); Valid
    else Failure("phone", OrDefault(message, "Please enter a valid phone number"))
  }

  /** `zipCode`: after trimming, exactly "ddddd" or "ddddd-dddd". */
  function ZipCode(value: string, message: string): (r: ValidationResult)
    ensures Blank(value) ==> r.Valid?
    ensures r.Valid? <==> Blank(value) || IsZipShape(Trim(value))
    ensures r.Invalid? ==> r == Failure("zipCode", OrDefault(message, "Please enter a valid ZIP code"))
  {
    var v := Trim(value);
    if v == "" then Valid
    else if IsZipShape(v) then Valid
    else Failure("zipCode", OrDefault(message, "Please enter a valid ZIP code"))
  }

  /**
   * `creditCard`: every non-digit is dropped first; a value with no digits is
   * accepted, any other passes exactly when it has 13 to 19 digits whose Luhn
   * sum is a multiple of 10.
   */
  predicate CardNumberAccepted(value: string) {
    var d := Digits(value);
    d == [] || (13 <= |d| <= 19 && PassesLuhn(d))
  }

  method CreditCard(value: string, message: string) returns (r: ValidationResult)
    ensures r.Valid? <==> CardNumberAccepted(value)
    ensures r.Invalid? ==> r == Failure("creditCard", OrDefault(message, "Please enter a valid credit card number"))
  {
    var v := Digits(value);
    if v == "" {
      return Valid;
    }
    var sum := LuhnChecksum(v);
    if sum % 10 != 0 || |v| < 13 || |v| > 19 {
      return Failure("creditCard", OrDefault(message, "Please enter a valid credit card number"));
    }
    return Valid;
  }

  /** `cvv`: after dropping non-digits, zero (nothing entered), three or four digits. */
  function Cvv(value: string, message: string): (r: ValidationResult)
    ensures r.Valid? <==> |Digits(value)| == 0 || |Digits(value)| == 3 || |Digits(value)| == 4
    ensures r.Invalid? ==> r == Failure("cvv", OrDefault(message, "Please enter a valid CVV"))
  {
    var v := Digits(value);
    if v == "" then Valid
    else if |v| != 3 && |v| != 4 then Failure("cvv", OrDefault(message, "Please enter a valid CVV"))
    else Valid
  }

  /** The card of an MM/YY value has expired at `now`: midnight of its month's last day is already past. */
  predicate ExpiredAt(v: string, now: LocalTime)
    requires IsExpiryShape(v) && 1 <= ExpiryMonth(v) <= 12
  {
    Before(EndOfMonth(ExpiryYear(v), ExpiryMonth(v)), now)
  }

  /**
   * `cardExpiration`: the trimmed value must be MM/YY with a month 1..12, and
   * the start of the last day of that month must not lie before `now`. Each
   * failure has its own default message.
   */
  function CardExpiration(value: string, message: string, now: LocalTime): (r: ValidationResult)
    ensures Blank(value) ==> r.Valid?
    ensures !Blank(value) && !IsExpiryShape(Trim(value)) ==>
      r == Failure("cardExpiration", OrDefault(message, "Please enter a valid expiration date (MM/YY)"))
    ensures !Blank(value) && IsExpiryShape(Trim(value)) && !(1 <= ExpiryMonth(Trim(value)) <= 12) ==>
      r == Failure("cardExpiration", OrDefault(message, "Please enter a valid month (01-12)"))
    ensures !Blank(value) && IsExpiryShape(Trim(value)) && 1 <= ExpiryMonth(Trim(value)) <= 12 && ExpiredAt(Trim(value), now) ==>
      r == Failure("cardExpiration", OrDefault(message, "Card has expired"))
    ensures r.Valid? <==>
      (Blank(value) || (IsExpiryShape(Trim(value)) && 1 <= ExpiryMonth(Trim(value)) <= 12 && !ExpiredAt(Trim(value), now)))
  {
    var v := Trim(value);
    if v == "" then Valid
    else if !IsExpiryShape(v) then
      Failure("cardExpiration", OrDefault(message, "Please enter a valid expiration date (MM/YY)"))
    else
      var month := ExpiryMonth(v);
      var year := ExpiryYear(v);
      if month < 1 || month > 12 then
        Failure("cardExpiration", OrDefault(message, "Please enter a valid month (01-12)"))
      else if Before(EndOfMonth(year, month), now) then
        Failure("cardExpiration", OrDefault(message, "Card has expired"))
      else Valid
  }

  /** `minLength`: a non-blank trimmed value shorter than `min` is rejected. */
  function MinLength(value: string, min: int, message: string): (r: ValidationResult)
    ensures r.Valid? <==> Blank(value) || |Trim(value)| >= min
    ensures r.Invalid? ==>
      r == Failure("minLength", OrDefault(message, "Minimum length is " + IntToString(min) + " characters"))
  {
    var v := Trim(value);
    if v == "" then Valid
    else if |v| < min then
      Failure("minLength", OrDefault(message, "Minimum length is " + IntToString(min) + " characters"))
    else Valid
  }

  /** The patterns `sanitize` tries, in its order. */
  const DangerousPatterns: seq<Pattern> := [ScriptTag, JavascriptScheme, EventHandlerAttribute]

  /** One of the three dangerous patterns occurs in `v`. */
  predicate HasDangerousPattern(v: string) {
    exists j :: 0 <= j < |DangerousPatterns| && Test(DangerousPatterns[j], v)
  }

  /**
   * `sanitize`: tries each dangerous pattern on the trimmed value and stops at
   * the first that occurs; a value is accepted when none of them occurs.
   */
  method Sanitize(value: string, message: string) returns (r: ValidationResult)
    ensures r.Valid? <==> Blank(value) || !HasDangerousPattern(Trim(value))
    ensures r.Invalid? ==> r == Failure("sanitize", OrDefault(message, "Invalid characters detected"))
  {
    var v := Trim(value);
    if v == "" {
      return Valid;
    }
    for k := 0 to |DangerousPatterns|
      invariant forall j :: 0 <= j < k ==> !Test(DangerousPatterns[j], v)
    {
      if Test(DangerousPatterns[k], v) {
        return Failure("sanitize", OrDefault(message, "Invalid characters detected"));
      }
    }
    return Valid;
  }
}
