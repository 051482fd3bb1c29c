/**
 * How the two generations of validators relate. Both are still wired into
 * forms, so a value can meet one rule in one place and the other elsewhere.
 */
module ValidatorGenerations {
  import opened Wrappers
  import opened Text
  import opened Patterns
  import opened Luhn
  import opened Calendar
  import opened Validation
  import PureValidators
  import CustomValidators

  /** Every card number the older validator accepts, the newer one accepts too. */
  lemma LegacyCardAcceptedByPure(value: string)
    requires CustomValidators.CardNumberAccepted(value)
    ensures PureValidators.CardNumberAccepted(value)
  {
    if value != "" {
      var cleaned := CustomValidators.DropSpacesAndDashes(value);
      CustomValidators.DropKeepsDigits(value);
      DigitsOfDigits(cleaned);
      assert Digits(value) == cleaned;
    }
  }

  /**
   * The converse fails: text without a single digit (other than white space
   * and dashes) is no card number to the older validator but passes the newer
   * one, which only looks at digits.
   */
  lemma DigitlessCardOnlyPure(value: string)
    requires forall i :: 0 <= i < |value| ==> !IsDigit(value[i])
    requires exists i :: 0 <= i < |value| && !IsSpace(value[i]) && value[i] != '-'
    ensures PureValidators.CardNumberAccepted(value)
    ensures !CustomValidators.CardNumberAccepted(value)
  {
    DigitsOfNonDigits(value);
    var cleaned := CustomValidators.DropSpacesAndDashes(value);
    CustomValidators.DropKeepsDigits(value);
    if AllDigits(cleaned) {
      DigitsOfDigits(cleaned);
      var i :| 0 <= i < |value| && !IsSpace(value[i]) && value[i] != '-';
      CustomValidators.DropKeepsOthers(value, i);
    }
  }

  /**
   * The one moment the two expiry rules part: during the last day of the
   * expiry month itself, after midnight. The newer rule compares with
   * midnight at the start of that day, the older one with the month.
   */
  predicate LastDayAfterMidnight(v: string, now: LocalTime)
    requires IsExpiryShape(v)
  {
    ExpiryYear(v) == now.year && ExpiryMonth(v) == now.month
    && now.day == DaysInMonth(now.year, now.month) && now.msOfDay > 0
  }

  /** For a real calendar time, expired under the newer rule means expired under the older one or in that last day. */
  lemma ExpiryRulesCompared(v: string, now: LocalTime)
    requires IsExpiryShape(v) && 1 <= ExpiryMonth(v) <= 12 && ValidTime(now)
    ensures PureValidators.ExpiredAt(v, now)
        <==> CustomValidators.ExpiredBefore(v, now.year, now.month) || LastDayAfterMidnight(v, now)
  {
  }

  /**
   * On a value without surrounding white space, the two `cardExpiration`
   * validators agree except after midnight on the expiry month's last day.
   */
  lemma CardExpirationGenerations(value: string, m: string, m': Option<string>, now: LocalTime)
    requires Trim(value) == value && ValidTime(now)
    ensures PureValidators.CardExpiration(value, m, now).Valid?
        <==> CustomValidators.CardExpiration(value, m', now).Valid?
             && !(IsExpiryShape(value) && LastDayAfterMidnight(value, now))
  {
    if value != "" && IsExpiryShape(value) && 1 <= ExpiryMonth(value) <= 12 {
      ExpiryRulesCompared(value, now);
    }
  }

  /**
   * After midnight on the last day of the expiry month, the newer rule says
   * "Card has expired" while the older one still accepts the card.
   */
  lemma LastDayDisagreement(v: string, now: LocalTime)
    requires IsExpiryShape(v) && 1 <= ExpiryMonth(v) <= 12 && ValidTime(now) && LastDayAfterMidnight(v, now)
    ensures PureValidators.CardExpiration(v, "", now) == Failure("cardExpiration", "Card has expired")
    ensures CustomValidators.CardExpiration(v, None, now).Valid?
  {
    TrimNoEdges(v);
  }

  /** Such a moment exists: "12/25" at noon on 31 December 2025. */
  lemma LastDayWitness()
    ensures var v, now := "12/25", LocalTime(2025, 12, 31, 43200000);
      IsExpiryShape(v) && ExpiryMonth(v) == 12 && ValidTime(now) && LastDayAfterMidnight(v, now)
  {
    var v := "12/25";
    assert IsExpiryShape(v) && v[0] == '1' && v[1] == '2' && v[3] == '2' && v[4] == '5';
    ExpiryFields(v);
  }

  /** Without surrounding white space, the two email validators agree. */
  lemma EmailGenerations(value: string, m: string, m': Option<string>)
    requires Trim(value) == value
    ensures PureValidators.Email(value, m).Valid? <==> CustomValidators.Email(value, m').Valid?
  {
  }

  /** An address the pattern accepts begins with a local character and ends with a letter, so `trim` leaves it alone. */
  lemma EmailHasNoEdges(address: string)
    requires MatchesEmail(address)
    ensures address != [] && !IsSpace(address[0]) && !IsSpace(address[|address| - 1])
    ensures Trim(address) == address
  {
    EmailEnds(address);
    TrimNoEdges(address);
  }

  /** No text that begins with white space matches the email pattern. */
  lemma LeadingSpaceNotEmail(s: string)
    requires s != [] && IsSpace(s[0])
    ensures !MatchesEmail(s)
  {
    forall j | 0 < j < |s|
      ensures !EmailSplitAt(s, j)
    {
      assert !IsLocalChar(s[0]);
    }
  }

  /** With it they do not: the newer validator trims first, the older one refuses the leading space. */
  lemma EmailSurroundingSpace(address: string)
    requires MatchesEmail(address)
    ensures PureValidators.Email(" " + address, "").Valid?
    ensures !CustomValidators.Email(" " + address, None).Valid?
  {
    var s := " " + address;
    EmailHasNoEdges(address);
    assert TrimStart(address) == address;
    assert s[1..] == address;
    assert TrimStart(s) == TrimStart(address);
    assert Trim(s) == address;
    LeadingSpaceNotEmail(s);
    assert !PureValidators.Blank(s);
  }

  /**
   * A `javascript:` link (in any letter case) without markup characters is
   * refused by the newer `sanitize` and let through by the older one.
   */
  lemma JavascriptSchemeGenerations(s: string)
    requires StartsWithIgnoreCase(s, "javascript:") && !HasMarkupChar(s) && !IsSpace(s[|s| - 1])
    ensures PureValidators.HasDangerousPattern(Trim(s))
    ensures CustomValidators.Sanitize(s, None).Valid?
  {
    assert LowerAscii(s[0]) == 'j';
    TrimNoEdges(s);
    assert MatchLength(JavascriptScheme, s) == 11;
    assert PureValidators.DangerousPatterns[1] == JavascriptScheme;
  }

  /**
   * Short markup such as `<b>`, `<i>` or `<br>` is refused by the older
   * `sanitize` and let through by the newer one: it holds a markup character
   * but is too short to open a script tag.
   */
  lemma MarkupGenerations(s: string)
    requires s != [] && s[0] == '<' && |s| < 7 && !IsSpace(s[|s| - 1])
    requires forall i :: 1 <= i < |s| ==> LowerAscii(s[i]) != '<' && LowerAscii(s[i]) != 'j' && LowerAscii(s[i]) != 'o'
    ensures !PureValidators.HasDangerousPattern(Trim(s))
    ensures !CustomValidators.Sanitize(s, None).Valid?
  {
    TrimNoEdges(s);
    assert HasMarkupChar(s);
    ShortTagNoMatch(ScriptTag, s);
    ShortTagNoMatch(JavascriptScheme, s);
    ShortTagNoMatch(EventHandlerAttribute, s);
  }
}
