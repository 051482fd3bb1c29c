/**
 * The display formatters of `ui-formatters.ts`: masking and grouping card
 * numbers, MM/YY, phone and ZIP formatting, display sanitizing, truncation,
 * names and addresses, and card-brand detection.
 */
module UiFormatters {
  import opened Text
  import opened Patterns

  /** `maskCardNumber`: everything but the last four characters is hidden behind a fixed mask. */
  function MaskCardNumber(cardNumber: string): (r: string)
    ensures |cardNumber| < 4 ==> r == cardNumber
    ensures |cardNumber| >= 4 ==> |r| == 19 && r[..15] == "**** **** **** " && r[15..] == cardNumber[|cardNumber| - 4..]
  {
    if |cardNumber| < 4 then cardNumber
    else "**** **** **** " + cardNumber[|cardNumber| - 4..]
  }

  /** Two card numbers with the same last four characters cannot be told apart once masked. */
  lemma MaskShowsOnlyLastFour(a: string, b: string)
    requires |a| >= 4 && |b| >= 4 && a[|a| - 4..] == b[|b| - 4..]
    ensures MaskCardNumber(a) == MaskCardNumber(b)
  {
  }

  /** Masking a masked number changes nothing. */
  lemma MaskIdempotent(cardNumber: string)
    ensures MaskCardNumber(MaskCardNumber(cardNumber)) == MaskCardNumber(cardNumber)
  {
    var m := MaskCardNumber(cardNumber);
    if |cardNumber| >= 4 {
      assert m[|m| - 4..] == cardNumber[|cardNumber| - 4..];
    }
  }

  /**
   * `cleaned.replace(/(\d{4})(?=\d)/g, '$1 ')` on a digit string: scanning from
   * the left, every run of four digits that is followed by another digit gets
   * a space after it, so the digits come out in groups of four.
   */
  function GroupDigits(d: string): (r: string)
    requires AllDigits(d)
    ensures d != [] ==> |r| == |d| + (|d| - 1) / 4
    ensures d == [] ==> r == []
    ensures forall k :: 0 <= k < |r| ==> (r[k] == ' ' <==> k % 5 == 4)
    ensures forall k :: 0 <= k < |r| ==> r[k] == ' ' || IsDigit(r[k])
    decreases |d|
  {
    if |d| <= 4 then d
    else
      var rest := GroupDigits(d[4..]);
      GroupShift(|d|);
      var r := d[..4] + " " + rest;
      assert forall k :: 5 <= k < |r| ==> r[k] == rest[k - 5];
      r
  }

  /** Positions five apart lie in the same column of the groups; one more group of four adds one separator. */
  lemma GroupShift(n: int)
    requires n >= 5
    ensures (n - 1) / 4 == (n - 5) / 4 + 1
    ensures forall k :: k >= 5 ==> ((k % 5 == 4) <==> ((k - 5) % 5 == 4))
  {
  }

  /** A grouping begins and ends with a digit. */
  lemma GroupedEdges(d: string)
    requires AllDigits(d)
    ensures var g := GroupDigits(d); g != [] ==> IsDigit(g[0]) && IsDigit(g[|g| - 1])
  {
    var g := GroupDigits(d);
    if g != [] {
      LastNotSeparator(|d| - 1);
      assert g[|g| - 1] != ' ';
    }
  }

  /** A grouping has nothing for `trim` to remove. */
  lemma GroupedIsTrimmed(d: string)
    requires AllDigits(d)
    ensures Trim(GroupDigits(d)) == GroupDigits(d)
  {
    GroupedEdges(d);
    TrimNoEdges(GroupDigits(d));
  }

  /** The last character of a grouping is never in the separator column. */
  lemma LastNotSeparator(m: nat)
    ensures (m + m / 4) % 5 != 4
  {
    var q, r := m / 4, m % 4;
    assert m + m / 4 == 5 * q + r;
  }

  /** The grouping only inserts spaces: the digits read back are the digits grouped. */
  lemma {:induction false} GroupDigitsKeepsDigits(d: string)
    requires AllDigits(d)
    ensures Digits(GroupDigits(d)) == d
    decreases |d|
  {
    if |d| <= 4 {
      DigitsOfDigits(d);
    } else {
      var rest := GroupDigits(d[4..]);
      GroupDigitsKeepsDigits(d[4..]);
      DigitsAppend(d[..4] + " ", rest);
      DigitsAppend(d[..4], " ");
      DigitsOfDigits(d[..4]);
      assert Digits(" ") == [] by { DigitsOfNonDigits(" "); }
      assert d[..4] + d[4..] == d;
    }
  }

  /**
   * `formatCardNumber`: the digits of the input in groups of four separated by
   * single spaces; the closing `trim` never has anything to remove.
   */
  function FormatCardNumber(cardNumber: string): (r: string)
    ensures Digits(r) == Digits(cardNumber)
    ensures forall k :: 0 <= k < |r| ==> (r[k] == ' ' <==> k % 5 == 4)
    ensures forall k :: 0 <= k < |r| ==> r[k] == ' ' || IsDigit(r[k])
    ensures Digits(cardNumber) != [] ==> |r| == |Digits(cardNumber)| + (|Digits(cardNumber)| - 1) / 4
  {
    var d := Digits(cardNumber);
    GroupDigitsKeepsDigits(d);
    GroupedIsTrimmed(d);
    Trim(GroupDigits(d))
  }

  /** Formatting an already formatted card number changes nothing. */
  lemma FormatCardNumberIdempotent(cardNumber: string)
    ensures FormatCardNumber(FormatCardNumber(cardNumber)) == FormatCardNumber(cardNumber)
  {
  }

  /** `formatExpiration`: the first four digits, with a '/' after the first two once there are two. */
  function FormatExpiration(expiration: string): (r: string)
    ensures |r| <= 5
    ensures |Digits(expiration)| < 2 ==> r == Digits(expiration)
    ensures |Digits(expiration)| >= 2 ==> |r| >= 3 && r[2] == '/' && Digits(r) == Digits(expiration)[..if |Digits(expiration)| < 4 then |Digits(expiration)| else 4]
    ensures |Digits(expiration)| >= 2 ==>
      |r| == 1 + (if |Digits(expiration)| < 4 then |Digits(expiration)| else 4) && AllDigits(r[..2]) && AllDigits(r[3..])
    ensures |Digits(expiration)| >= 4 ==> IsExpiryShape(r)
  {
    var d := Digits(expiration);
    if |d| >= 2 then
      var e := if |d| < 4 then |d| else 4;
      DigitsKeptAroundSeparator(d[..2], '/', d[2..e]);
      assert d[..2] + d[2..e] == d[..e];
      d[..2] + "/" + d[2..e]
    else d
  }

  /** Splicing a non-digit separator between two digit strings leaves their digits. */
  lemma DigitsKeptAroundSeparator(a: string, separator: char, b: string)
    requires AllDigits(a) && AllDigits(b) && !IsDigit(separator)
    ensures Digits(a + [separator] + b) == a + b
  {
    DigitsAppend(a + [separator], b);
    DigitsAppend(a, [separator]);
    DigitsOfDigits(a);
    DigitsOfDigits(b);
    DigitsOfNonDigits([separator]);
  }

  /** Formatting an MM/YY value twice is the same as once. */
  lemma {:induction false} FormatExpirationIdempotent(expiration: string)
    ensures FormatExpiration(FormatExpiration(expiration)) == FormatExpiration(expiration)
  {
    var d := Digits(expiration);
    if |d| < 2 {
      DigitsOfDigits(d);
    } else {
      var e := if |d| < 4 then |d| else 4;
      var r := FormatExpiration(expiration);
      assert r == d[..2] + "/" + d[2..e];
      var d' := Digits(r);
      assert d' == d[..e];
      assert d'[..2] == d[..2] && d'[2..if |d'| < 4 then |d'| else 4] == d[2..e];
    }
  }

  /** `formatPhone`: exactly ten digits become "(ddd) ddd-dddd"; any other input is returned as it was. */
  function FormatPhone(phone: string): (r: string)
    ensures |Digits(phone)| != 10 ==> r == phone
    ensures |Digits(phone)| == 10 ==> |r| == 14 && Digits(r) == Digits(phone)
    ensures |Digits(phone)| == 10 ==> r[0] == '(' && r[4] == ')' && r[5] == ' ' && r[9] == '-'
  {
    var d := Digits(phone);
    if |d| == 10 then
      var r := "(" + d[..3] + ") " + d[3..6] + "-" + d[6..];
      PhoneLayoutDigits(d);
      r
    else phone
  }

  /** The digits of the "(ddd) ddd-dddd" layout are the ten digits laid out. */
  lemma PhoneLayoutDigits(d: string)
    requires AllDigits(d) && |d| == 10
    ensures Digits("(" + d[..3] + ") " + d[3..6] + "-" + d[6..]) == d
  {
    DigitsOfDigits(d[..3]);
    DigitsOfDigits(d[3..6]);
    DigitsOfDigits(d[6..]);
    DigitsOfNonDigits("(");
    DigitsOfNonDigits(") ");
    DigitsOfNonDigits("-");
    DigitsAppend("(", d[..3]);
    DigitsAppend("(" + d[..3], ") ");
    DigitsAppend("(" + d[..3] + ") ", d[3..6]);
    DigitsAppend("(" + d[..3] + ") " + d[3..6], "-");
    DigitsAppend("(" + d[..3] + ") " + d[3..6] + "-", d[6..]);
    assert d[..3] + d[3..6] + d[6..] == d;
  }

  /** "(xxx) yyy-zzzz" matches the newer phone pattern, each optional character taken. */
  lemma LayoutMatchesPure(x: string, y: string, z: string)
    requires |x| == 3 && |y| == 3 && |z| == 4 && AllDigits(x) && AllDigits(y) && AllDigits(z)
    ensures MatchesPurePhone("(" + x + ") " + y + "-" + z)
  {
    var s := "(" + x + ") " + y + "-" + z;
    var t := ") " + y + "-" + z;
    var u := " " + y + "-" + z;
    var b := y + "-" + z;
    assert s[0] == '(' && s[1..] == x + t;
    assert (x + t)[..3] == x && (x + t)[3..] == t;
    assert t[0] == ')' && t[1..] == u;
    assert u[0] == ' ' && u[1..] == b;
    assert b[..3] == y && b[3..] == "-" + z;
    assert ("-" + z)[1..] == z;
  }

  /** "(xxx) yyy-zzzz" is made of characters of the older phone pattern's class. */
  lemma LayoutMatchesLegacy(x: string, y: string, z: string)
    requires |x| == 3 && |y| == 3 && |z| == 4 && AllDigits(x) && AllDigits(y) && AllDigits(z)
    ensures MatchesLegacyPhone("(" + x + ") " + y + "-" + z)
  {
    var s := "(" + x + ") " + y + "-" + z;
    assert s[0] == '(';
    forall i | 0 <= i < |s|
      ensures IsLegacyPhoneChar(s[i])
    {
      if 1 <= i < 4 {
        assert s[i] == x[i - 1];
      } else if 6 <= i < 9 {
        assert s[i] == y[i - 6];
      } else if 10 <= i {
        assert s[i] == z[i - 10];
      }
    }
  }

  /** A formatted ten-digit phone number satisfies both phone validators' patterns. */
  lemma FormattedPhoneAccepted(phone: string)
    requires |Digits(phone)| == 10
    ensures MatchesPurePhone(FormatPhone(phone))
    ensures MatchesLegacyPhone(FormatPhone(phone))
  {
    var d := Digits(phone);
    assert FormatPhone(phone) == "(" + d[..3] + ") " + d[3..6] + "-" + d[6..];
    LayoutMatchesPure(d[..3], d[3..6], d[6..]);
    LayoutMatchesLegacy(d[..3], d[3..6], d[6..]);
  }

  /** Formatting a phone number twice is the same as once. */
  lemma FormatPhoneIdempotent(phone: string)
    ensures FormatPhone(FormatPhone(phone)) == FormatPhone(phone)
  {
    if |Digits(phone)| == 10 {
      var d := Digits(phone);
      assert FormatPhone(phone) == "(" + d[..3] + ") " + d[3..6] + "-" + d[6..];
    }
  }

  /** `formatZipCode`: up to five digits as they are, six to nine as "ddddd-d...", more returned unchanged. */
  function FormatZipCode(zip: string): (r: string)
    ensures |Digits(zip)| <= 5 ==> r == Digits(zip)
    ensures 5 < |Digits(zip)| <= 9 ==> |r| == |Digits(zip)| + 1 && r[5] == '-' && Digits(r) == Digits(zip)
    ensures |Digits(zip)| > 9 ==> r == zip
  {
    var d := Digits(zip);
    if |d| <= 5 then d
    else if |d| <= 9 then
      DigitsKeptAroundSeparator(d[..5], '-', d[5..]);
      assert d[..5] + d[5..] == d;
      d[..5] + "-" + d[5..]
    else zip
  }

  /** A ZIP code of five or nine digits comes out in a shape both ZIP validators accept. */
  lemma FormattedZipAccepted(zip: string)
    requires |Digits(zip)| == 5 || |Digits(zip)| == 9
    ensures IsZipShape(FormatZipCode(zip))
  {
    var d := Digits(zip);
    if |d| == 9 {
      var r := FormatZipCode(zip);
      assert r == d[..5] + "-" + d[5..];
      assert r[..5] == d[..5] && r[6..] == d[5..];
    }
  }

  /** Formatting a ZIP code twice is the same as once. */
  lemma FormatZipCodeIdempotent(zip: string)
    ensures FormatZipCode(FormatZipCode(zip)) == FormatZipCode(zip)
  {
    var d := Digits(zip);
    if |d| <= 5 {
      DigitsOfDigits(d);
    }
  }

  /**
   * `sanitizeForDisplay`: the script-tag, `javascript:` and event-handler
   * patterns are removed, in that order, one pass each, and the result is
   * trimmed.
   */
  function SanitizeForDisplay(text: string): (r: string)
    ensures |r| <= |text|
    ensures r != [] ==> !IsSpace(r[0]) && !IsSpace(r[|r| - 1])
  {
    if text == "" then ""
    else
      var removed := RemovePatterns(text);
      TrimShape(removed);
      Trim(removed)
  }

  /** The three `replace` calls, in their order. */
  function RemovePatterns(text: string): (r: string)
    ensures |r| <= |text|
  {
    RemoveAll(EventHandlerAttribute, RemoveAll(JavascriptScheme, RemoveAll(ScriptTag, text)))
  }

  /** Text in which none of the patterns occurs is only trimmed. */
  lemma SanitizeHarmlessText(text: string)
    requires !Test(ScriptTag, text) && !Test(JavascriptScheme, text) && !Test(EventHandlerAttribute, text)
    ensures SanitizeForDisplay(text) == Trim(text)
  {
    RemoveAllNoMatch(ScriptTag, text);
    RemoveAllNoMatch(JavascriptScheme, text);
    RemoveAllNoMatch(EventHandlerAttribute, text);
  }

  /** `text.slice(0, end)`: a negative `end` counts from the end of the text. */
  function SlicePrefix(text: string, end: int): (r: string)
    ensures 0 <= end <= |text| ==> r == text[..end]
    ensures end < 0 ==> r == text[..if |text| + end < 0 then 0 else |text| + end]
    ensures end > |text| ==> r == text
  {
    var e := if end < 0 then (if |text| + end < 0 then 0 else |text| + end) else if end > |text| then |text| else end;
    text[..e]
  }

  /**
   * `truncateText`: text longer than `maxLength` keeps its first
   * `maxLength - 3` characters and gets "...". Below a limit of 3 the slice
   * end is negative and counts from the end of the text; an empty text is
   * returned as it is even for a negative limit.
   */
  function TruncateText(text: string, maxLength: int): (r: string)
    ensures |text| <= maxLength || text == "" ==> r == text
    ensures |text| > maxLength >= 3 ==> |r| == maxLength && r == text[..maxLength - 3] + "..."
    ensures text != "" && |text| > maxLength && maxLength < 3 ==>
      var keep := |text| + maxLength - 3;
      r == text[..if keep < 0 then 0 else keep] + "..."
  {
    if text == "" || |text| <= maxLength then text
    else SlicePrefix(text, maxLength - 3) + "..."
  }

  /**
   * With a limit below 3 the result is longer than the limit: the negative
   * slice end counts from the end of the text, so "abcdef" cut to 0 keeps
   * "abc" and becomes "abc...".
   */
  lemma TruncateBelowThree()
    ensures TruncateText("abcdef", 0) == "abc..."
  {
  }

  /** `formatName`: both sanitized parts, joined by one space, trimmed. */
  function FormatName(firstName: string, lastName: string): (r: string)
    ensures r != [] ==> !IsSpace(r[0]) && !IsSpace(r[|r| - 1])
  {
    JoinTrimmed(SanitizeForDisplay(firstName), SanitizeForDisplay(lastName))
  }

  /**
   * Two surviving names are joined by exactly one space; when one of them
   * is sanitized away, the other is the whole name.
   */
  lemma FormatNameParts(firstName: string, lastName: string)
    ensures var f, l := SanitizeForDisplay(firstName), SanitizeForDisplay(lastName);
      && (f != "" && l != "" ==> FormatName(firstName, lastName) == f + " " + l)
      && (f == "" ==> FormatName(firstName, lastName) == l)
      && (l == "" ==> FormatName(firstName, lastName) == f)
  {
    JoinTrimmedNoEdges(SanitizeForDisplay(firstName), SanitizeForDisplay(lastName));
  }

  /** `parts.filter(Boolean)`: the empty strings dropped. */
  function NonEmpty(parts: seq<string>): (r: seq<string>)
    ensures |r| <= |parts|
    ensures forall i :: 0 <= i < |r| ==> r[i] != ""
  {
    if parts == [] then []
    else if parts[|parts| - 1] == "" then NonEmpty(parts[..|parts| - 1])
    else NonEmpty(parts[..|parts| - 1]) + [parts[|parts| - 1]]
  }

  /** `parts.join(separator)`. */
  function Join(parts: seq<string>, separator: string): string {
    if parts == [] then ""
    else if |parts| == 1 then parts[0]
    else Join(parts[..|parts| - 1], separator) + separator + parts[|parts| - 1]
  }

  /** The line "city, state zip" of an address, each part sanitized; never empty. */
  function CityLine(city: string, state: string, zip: string): (r: string)
    ensures |r| >= 3
  {
    SanitizeForDisplay(city) + ", " + SanitizeForDisplay(state) + " " + SanitizeForDisplay(zip)
  }

  /**
   * `formatAddress`: the sanitized first line, the sanitized second line when
   * one was given, and the city line, with empty parts left out, joined by ", ".
   * The city line is never empty, so it always ends the result.
   */
  function FormatAddress(address1: string, address2: string, city: string, state: string, zip: string): (r: string)
    ensures var line1 := SanitizeForDisplay(address1);
      var line2 := if address2 != "" then SanitizeForDisplay(address2) else "";
      r == Lead(line1) + Lead(line2) + CityLine(city, state, zip)
  {
    var parts := [SanitizeForDisplay(address1), if address2 != "" then SanitizeForDisplay(address2) else "", CityLine(city, state, zip)];
    AddressLayout(parts[0], parts[1], parts[2]);
    Join(NonEmpty(parts), AddressSeparator)
  }

  /** A present part followed by the separator; an absent part contributes nothing. */
  function Lead(part: string): string {
    if part == "" then "" else part + AddressSeparator
  }

  /** What `formatAddress` puts between the parts. */
  const AddressSeparator := ", "

  /** A part as `filter(Boolean)` keeps it: the empty string dropped. */
  function Present(part: string): seq<string> {
    if part == "" then [] else [part]
  }

  lemma NonEmptyThree(a: string, b: string, c: string)
    requires c != ""
    ensures NonEmpty([a, b, c]) == Present(a) + Present(b) + [c]
  {
    var parts := [a, b, c];
    assert parts[..2] == [a, b] && parts[..2][..1] == [a] && [a][..0] == [];
    assert NonEmpty([a]) == Present(a);
    assert NonEmpty([a, b]) == Present(a) + Present(b);
  }

  lemma JoinPair(x: string, y: string, separator: string)
    ensures Join([x, y], separator) == x + separator + y
  {
    assert [x, y][..1] == [x];
  }

  lemma JoinTriple(x: string, y: string, z: string, separator: string)
    ensures Join([x, y, z], separator) == x + separator + y + separator + z
  {
    assert [x, y, z][..2] == [x, y];
    JoinPair(x, y, separator);
  }

  /** The address, written out part by part: each non-empty line followed by ", ", then the city line. */
  lemma AddressLayout(line1: string, line2: string, cityLine: string)
    requires cityLine != ""
    ensures Join(NonEmpty([line1, line2, cityLine]), AddressSeparator) == Lead(line1) + Lead(line2) + cityLine
  {
    NonEmptyThree(line1, line2, cityLine);
    if line1 == "" && line2 == "" {
      assert Present(line1) + Present(line2) + [cityLine] == [cityLine];
      assert Lead(line1) + Lead(line2) + cityLine == cityLine;
    } else if line1 == "" {
      assert Present(line1) + Present(line2) + [cityLine] == [line2, cityLine];
      LeadPair(line2, cityLine);
      assert Lead(line1) + Lead(line2) == Lead(line2);
    } else if line2 == "" {
      assert Present(line1) + Present(line2) + [cityLine] == [line1, cityLine];
      LeadPair(line1, cityLine);
      assert Lead(line1) + Lead(line2) == Lead(line1);
    } else {
      assert Present(line1) + Present(line2) + [cityLine] == [line1, line2, cityLine];
      LeadTriple(line1, line2, cityLine);
    }
  }

  lemma LeadPair(x: string, y: string)
    requires x != ""
    ensures Join([x, y], AddressSeparator) == Lead(x) + y
  {
    JoinPair(x, y, AddressSeparator);
  }

  lemma LeadTriple(x: string, y: string, z: string)
    requires x != "" && y != ""
    ensures Join([x, y, z], AddressSeparator) == Lead(x) + Lead(y) + z
  {
    JoinTriple(x, y, z, AddressSeparator);
    assert Lead(x) + Lead(y) + z == x + AddressSeparator + y + AddressSeparator + z;
  }

  /** `detectCardType`: the brand the leading digits announce. */
  function DetectCardType(cardNumber: string): (r: string)
    ensures r in {"visa", "mastercard", "amex", "discover", "unknown"}
    ensures var d := Digits(cardNumber);
      && (r == "visa" <==> |d| >= 1 && d[0] == '4')
      && (r == "mastercard" <==> |d| >= 2 && d[0] == '5' && '1' <= d[1] <= '5')
      && (r == "amex" <==> |d| >= 2 && d[0] == '3' && (d[1] == '4' || d[1] == '7'))
      && (r == "discover" <==> (|d| >= 4 && d[..4] == "6011") || (|d| >= 2 && d[..2] == "65"))
  {
    var d := Digits(cardNumber);
    if |d| >= 1 && d[0] == '4' then "visa"
    else if |d| >= 2 && d[0] == '5' && '1' <= d[1] <= '5' then "mastercard"
    else if |d| >= 2 && d[0] == '3' && (d[1] == '4' || d[1] == '7') then "amex"
    else if (|d| >= 4 && d[..4] == "6011") || (|d| >= 2 && d[..2] == "65") then "discover"
    else "unknown"
  }

  /** The brand only depends on the digits, so a formatted or masked-free number keeps its brand. */
  lemma DetectCardTypeOnDigits(a: string, b: string)
    requires Digits(a) == Digits(b)
    ensures DetectCardType(a) == DetectCardType(b)
  {
  }

  /** `getCardDisplayName`: the brand's display name; anything unrecognised shows as "Card". */
  function GetCardDisplayName(cardType: string): (r: string)
    ensures r != ""
    ensures r == "Card" <==> cardType !in {"visa", "mastercard", "amex", "discover"}
    ensures cardType == "visa" ==> r == "Visa"
    ensures cardType == "mastercard" ==> r == "Mastercard"
    ensures cardType == "amex" ==> r == "American Express"
    ensures cardType == "discover" ==> r == "Discover"
  {
    var names := map["visa" := "Visa", "mastercard" := "Mastercard", "amex" := "American Express",
                     "discover" := "Discover", "unknown" := "Card"];
    if cardType in names && names[cardType] != "" then names[cardType] else names["unknown"]
  }

  /** A number whose brand is recognised is shown under that brand's name, never as the plain "Card". */
  lemma DisplayNameOfDetected(cardNumber: string)
    ensures GetCardDisplayName(DetectCardType(cardNumber)) == "Card" <==> DetectCardType(cardNumber) == "unknown"
  {
  }
}
