/**
 * The older validators, the static methods of `CustomValidators`. They test
 * the raw value without trimming it, treat an empty value as valid (except
 * `required` and `matchField`), and take their message as a TypeScript
 * default parameter.
 */
module CustomValidators {
  import opened Wrappers
  import opened Text
  import opened Patterns
  import opened Luhn
  import opened Calendar
  import opened Validation

  /** `required`: empty or white space only is missing. */
  function Required(value: string, message: Option<string>): (r: ValidationResult)
    ensures r.Valid? <==> exists i :: 0 <= i < |value| && !IsSpace(value[i])
    ensures r.Invalid? ==> r == Failure("required", DefaultParam(message, "This field is required"))
  {
    TrimEmptyIff(value);
    if value == "" || Trim(value) == "" then Failure("required", DefaultParam(message, "This field is required"))
    else Valid
  }

  /** `email`: the same pattern as the newer validator, tested on the untrimmed value. */
  function Email(value: string, message: Option<string>): (r: ValidationResult)
    ensures r.Valid? <==> value == "" || MatchesEmail(value)
    ensures r.Invalid? ==> r == Failure("email", DefaultParam(message, "Please enter a valid email address"))
  {
    if value == "" then Valid
    else if MatchesEmail(value) then Valid
    else Failure("email", DefaultParam(message, "Please enter a valid email address"))
  }

  /** `phone`: an optional '+' followed by digits, white space, '-', '(' and ')' only. */
  function Phone(value: string, message: Option<string>): (r: ValidationResult)
    ensures r.Valid? <==> value == "" || MatchesLegacyPhone(value)
    ensures r.Invalid? ==> r == Failure("phone", DefaultParam(message, "Please enter a valid phone number"))
  {
    if value == "" then Valid
    else if MatchesLegacyPhone(value) then Valid
    else Failure("phone", DefaultParam(message, "Please enter a valid phone number"))
  }

  /** `zipCode`: exactly "ddddd" or "ddddd-dddd", untrimmed. */
  function ZipCode(value: string, message: Option<string>): (r: ValidationResult)
    ensures r.Valid? <==> value == "" || IsZipShape(value)
    ensures r.Invalid? ==> r == Failure("zipCode", DefaultParam(message, "Please enter a valid ZIP code"))
  {
    if value == "" then Valid
    else if IsZipShape(value) then Valid
    else Failure("zipCode", DefaultParam(message, "Please enter a valid ZIP code"))
  }

  /** `s.replace(/[\s-]/g, '')`: white space and dashes removed, everything else kept in order. */
  function DropSpacesAndDashes(s: string): (r: string)
    ensures |r| <= |s|
    ensures forall i :: 0 <= i < |r| ==> !IsSpace(r[i]) && r[i] != '-'
  {
    if s == [] then []
    else if IsSpace(s[|s| - 1]) || s[|s| - 1] == '-' then DropSpacesAndDashes(s[..|s| - 1])
    else DropSpacesAndDashes(s[..|s| - 1]) + [s[|s| - 1]]
  }

  /** Dropping white space and dashes leaves the digits of a value as they were. */
  lemma {:induction false} DropKeepsDigits(s: string)
    ensures Digits(DropSpacesAndDashes(s)) == Digits(s)
  {
    if s != [] {
      var init, last := s[..|s| - 1], s[|s| - 1];
      DropKeepsDigits(init);
      if !(IsSpace(last) || last == '-') {
        DigitsAppend(DropSpacesAndDashes(init), [last]);
        assert [last][..0] == [];
      }
    }
  }

  /** Every character other than white space and '-' survives the removal. */
  lemma {:induction false} DropKeepsOthers(s: string, i: nat)
    requires i < |s| && !IsSpace(s[i]) && s[i] != '-'
    ensures s[i] in DropSpacesAndDashes(s)
  {
    if i < |s| - 1 {
      DropKeepsOthers(s[..|s| - 1], i);
    }
  }

  /**
   * The legacy card-number rule: once white space and dashes are gone, the
   * value must be 13 to 19 digits and pass the Luhn check.
   */
  predicate CardNumberAccepted(value: string) {
    var cleaned := DropSpacesAndDashes(value);
    value == "" || (AllDigits(cleaned) && 13 <= |cleaned| <= 19 && PassesLuhn(cleaned))
  }

  /** `creditCard`: the shape is checked first, then the Luhn loop runs on the cleaned digits. */
  method CreditCard(value: string, message: Option<string>) returns (r: ValidationResult)
    ensures r.Valid? <==> CardNumberAccepted(value)
    ensures r.Invalid? ==> r == Failure("creditCard", DefaultParam(message, "Please enter a valid credit card number"))
  {
    if value == "" {
      return Valid;
    }
    var cleaned := DropSpacesAndDashes(value);
    if !(AllDigits(cleaned) && 13 <= |cleaned| <= 19) {
      return Failure("creditCard", DefaultParam(message, "Please enter a valid credit card number"));
    }
    var sum := LuhnChecksum(cleaned);
    if sum % 10 == 0 {
      return Valid;
    }
    return Failure("creditCard", DefaultParam(message, "Please enter a valid credit card number"));
  }

  /** The month of an MM/YY value lies before the current calendar month. */
  predicate ExpiredBefore(v: string, currentYear: int, currentMonth: int)
    requires IsExpiryShape(v)
  {
    ExpiryYear(v) < currentYear || (ExpiryYear(v) == currentYear && ExpiryMonth(v) < currentMonth)
  }

  /**
   * `cardExpiration`: MM/YY with a month 1..12 that is not before the month of
   * `now`; all failures share one message.
   */
  function CardExpiration(value: string, message: Option<string>, now: LocalTime): (r: ValidationResult)
    ensures r.Valid? <==>
      (value == "" || (IsExpiryShape(value) && 1 <= ExpiryMonth(value) <= 12 && !ExpiredBefore(value, now.year, now.month)))
    ensures r.Invalid? ==> r == Failure("cardExpiration", DefaultParam(message, "Please enter a valid expiration date"))
  {
    if value == "" then Valid
    else if !IsExpiryShape(value) then Failure("cardExpiration", DefaultParam(message, "Please enter a valid expiration date"))
    else
      var month := ExpiryMonth(value);
      var year := ExpiryYear(value);
      if month < 1 || month > 12 then Failure("cardExpiration", DefaultParam(message, "Please enter a valid expiration date"))
      else if year < now.year || (year == now.year && month < now.month) then
        Failure("cardExpiration", DefaultParam(message, "Please enter a valid expiration date"))
      else Valid
  }

  /** `cvv`: three or four digits and nothing else. */
  function Cvv(value: string, message: Option<string>): (r: ValidationResult)
    ensures r.Valid? <==> value == "" || ((|value| == 3 || |value| == 4) && AllDigits(value))
    ensures r.Invalid? ==> r == Failure("cvv", DefaultParam(message, "Please enter a valid CVV"))
  {
    if value == "" then Valid
    else if (|value| == 3 || |value| == 4) && AllDigits(value) then Valid
    else Failure("cvv", DefaultParam(message, "Please enter a valid CVV"))
  }

  /** `minLength`: the raw length is at least `min`; the error records `min` as `requiredLength`. */
  function MinLength(value: string, min: int, message: string): (r: ValidationResult)
    ensures r.Valid? <==> value == "" || |value| >= min
    ensures r.Invalid? ==>
      r == Invalid("minLength", OrDefault(message, "Minimum length is " + IntToString(min) + " characters"), Some(min))
  {
    if value == "" then Valid
    else if |value| >= min then Valid
    else Invalid("minLength", OrDefault(message, "Minimum length is " + IntToString(min) + " characters"), Some(min))
  }

  /** `maxLength`: the raw length is at most `max`; the error records `max` as `requiredLength`. */
  function MaxLength(value: string, max: int, message: string): (r: ValidationResult)
    ensures r.Valid? <==> value == "" || |value| <= max
    ensures r.Invalid? ==>
      r == Invalid("maxLength", OrDefault(message, "Maximum length is " + IntToString(max) + " characters"), Some(max))
  {
    if value == "" then Valid
    else if |value| <= max then Valid
    else Invalid("maxLength", OrDefault(message, "Maximum length is " + IntToString(max) + " characters"), Some(max))
  }

  /**
   * `matchField`: compares the value with the sibling control `name` of the
   * parent group (`siblings`, the values of the group's controls). Without a
   * parent or without such a sibling there is nothing to compare.
   */
  function MatchField(value: string, siblings: Option<map<string, string>>, name: string, message: Option<string>): (r: ValidationResult)
    ensures r.Invalid? <==> siblings.Some? && name in siblings.value && siblings.value[name] != value
    ensures r.Invalid? ==> r == Failure("matchField", DefaultParam(message, "Fields must match"))
  {
    match siblings
    case None => Valid
    case Some(group) =>
      if name !in group then Valid
      else if value == group[name] then Valid
      else Failure("matchField", DefaultParam(message, "Fields must match"))
  }

  /** `sanitize`: none of the characters < > " ' & may appear. */
  function Sanitize(value: string, message: Option<string>): (r: ValidationResult)
    ensures r.Valid? <==> forall i :: 0 <= i < |value| ==> value[i] !in "<>\"'&"
    ensures r.Invalid? ==> r == Failure("sanitize", DefaultParam(message, "Invalid characters detected"))
  {
    if value == "" then Valid
    else if HasMarkupChar(value) then Failure("sanitize", DefaultParam(message, "Invalid characters detected"))
    else Valid
  }
}
