/**
 * The specific regular expressions of the validators and formatters, written
 * out as predicates over characters. Each predicate is what `regex.test(s)`
 * answers for its expression; the comment above it gives the expression.
 */
module Patterns {
  import opened Wrappers
  import opened Text

  predicate AllLetters(s: string) {
    forall i :: 0 <= i < |s| ==> IsAsciiLetter(s[i])
  }

  /** `[a-zA-Z0-9._%+-]` */
  predicate IsLocalChar(c: char) {
    IsAsciiLetter(c) || IsDigit(c) || c == '.' || c == '_' || c == '%' || c == '+' || c == '-'
  }

  /** `[a-zA-Z0-9.-]` */
  predicate IsDomainChar(c: char) {
    IsAsciiLetter(c) || IsDigit(c) || c == '.' || c == '-'
  }

  /** `t` splits at the '.' in position `k` into `[a-zA-Z0-9.-]+` and `[a-zA-Z]{2,}`. */
  predicate DomainSplitAt(t: string, k: int) {
    0 < k < |t| && t[k] == '.' && |t| - k - 1 >= 2
    && (forall j :: 0 <= j < k ==> IsDomainChar(t[j]))
    && AllLetters(t[k + 1..])
  }

  /** `[a-zA-Z0-9.-]+\.[a-zA-Z]{2,}` over the whole of `t`. */
  predicate MatchesDomain(t: string) {
    exists k :: 0 < k < |t| && DomainSplitAt(t, k)
  }

  /** `s` splits at the '@' in position `i` into `[a-zA-Z0-9._%+-]+` and a matching domain. */
  predicate EmailSplitAt(s: string, i: int) {
    0 < i < |s| && s[i] == '@'
    && (forall j :: 0 <= j < i ==> IsLocalChar(s[j]))
    && MatchesDomain(s[i + 1..])
  }

  /** `^[a-zA-Z0-9._%+-]+@[a-zA-Z0-9.-]+\.[a-zA-Z]{2,}$` */
  predicate MatchesEmail(s: string) {
    exists i :: 0 < i < |s| && EmailSplitAt(s, i)
  }

  /** A domain the pattern accepts holds no '@' and has a '.' in it. */
  lemma DomainShape(t: string)
    requires MatchesDomain(t)
    ensures forall j :: 0 <= j < |t| ==> t[j] != '@'
    ensures exists k :: 0 <= k < |t| && t[k] == '.'
  {
    var k :| 0 < k < |t| && DomainSplitAt(t, k);
    forall j | k < j < |t| ensures t[j] != '@' {
      assert t[j] == t[k + 1..][j - k - 1];
    }
  }

  /** An address the email pattern accepts has exactly one '@', and a '.' after it. */
  lemma EmailShape(s: string, i: nat)
    requires MatchesEmail(s) && i < |s| && s[i] == '@'
    ensures forall j :: 0 <= j < |s| && s[j] == '@' ==> j == i
    ensures exists k :: i < k < |s| && s[k] == '.'
  {
    var i' :| 0 < i' < |s| && EmailSplitAt(s, i');
    var t := s[i' + 1..];
    DomainShape(t);
    forall j | i' < j < |s| ensures s[j] != '@' {
      assert s[j] == t[j - i' - 1];
    }
    var k :| 0 <= k < |t| && t[k] == '.';
    assert s[i' + 1 + k] == '.';
  }

  /** An address the email pattern accepts begins with a local character and ends with a letter. */
  lemma EmailEnds(address: string)
    requires MatchesEmail(address)
    ensures address != [] && IsLocalChar(address[0]) && IsAsciiLetter(address[|address| - 1])
  {
    var i :| 0 < i < |address| && EmailSplitAt(address, i);
    var t := address[i + 1..];
    DomainEndsWithLetter(t);
    assert address[|address| - 1] == t[|t| - 1];
  }

  /** A domain the pattern accepts ends with a letter of its top-level part. */
  lemma DomainEndsWithLetter(t: string)
    requires MatchesDomain(t)
    ensures t != [] && IsAsciiLetter(t[|t| - 1])
  {
    var k :| 0 < k < |t| && DomainSplitAt(t, k);
    var tld := t[k + 1..];
    assert |tld| >= 2;
    assert IsAsciiLetter(tld[|tld| - 1]);
    assert t[|t| - 1] == tld[|tld| - 1];
  }

  /** `s` with its first character dropped when that character is `c` (an optional literal `c?`). */
  function DropChar(s: string, c: char): string {
    if s != [] && s[0] == c then s[1..] else s
  }

  /** `[-. ]` */
  predicate IsPhoneSeparator(c: char) {
    c == '-' || c == '.' || c == ' '
  }

  /** An optional `[-. ]?`. */
  function DropSeparator(s: string): string {
    if s != [] && IsPhoneSeparator(s[0]) then s[1..] else s
  }

  /**
   * `^\(?([0-9]{3})\)?[-. ]?([0-9]{3})[-. ]?([0-9]{4})$`. No optional character
   * of the expression is a digit, so it matches deterministically: an optional
   * character is taken exactly when it is present.
   */
  predicate MatchesPurePhone(s: string) {
    var a := DropChar(s, '(');
    |a| >= 3 && AllDigits(a[..3]) &&
    var b := DropSeparator(DropChar(a[3..], ')'));
    |b| >= 3 && AllDigits(b[..3]) &&
    var c := DropSeparator(b[3..]);
    |c| == 4 && AllDigits(c)
  }

  /** Removing a leading non-digit character leaves the digits alone. */
  lemma DropFirstNonDigit(s: string)
    requires s != [] && !IsDigit(s[0])
    ensures Digits(s[1..]) == Digits(s)
  {
    assert s == [s[0]] + s[1..];
    DigitsAppend([s[0]], s[1..]);
    assert [s[0]][..0] == [];
  }

  /** Dropping an optional non-digit character leaves the digits alone. */
  lemma DropKeepsDigits(s: string, c: char)
    requires !IsDigit(c)
    ensures Digits(DropChar(s, c)) == Digits(s)
    ensures Digits(DropSeparator(s)) == Digits(s)
  {
    if s != [] && s[0] == c {
      DropFirstNonDigit(s);
    }
    if s != [] && IsPhoneSeparator(s[0]) {
      DropFirstNonDigit(s);
    }
  }

  /** Three digits followed by the rest: the digits are those three, then the digits of the rest. */
  lemma DigitsAfterThree(a: string)
    requires |a| >= 3 && AllDigits(a[..3])
    ensures Digits(a) == a[..3] + Digits(a[3..])
  {
    assert a == a[..3] + a[3..];
    DigitsAppend(a[..3], a[3..]);
    DigitsOfDigits(a[..3]);
  }

  /** A phone number the pure pattern accepts has exactly ten digits and 10 to 14 characters. */
  lemma PurePhoneDigits(s: string)
    requires MatchesPurePhone(s)
    ensures |Digits(s)| == 10
    ensures 10 <= |s| <= 14
  {
    var a := DropChar(s, '(');
    var b := DropSeparator(DropChar(a[3..], ')'));
    var c := DropSeparator(b[3..]);
    DropKeepsDigits(s, '(');
    DigitsAfterThree(a);
    DropKeepsDigits(a[3..], ')');
    DropKeepsDigits(DropChar(a[3..], ')'), ')');
    DigitsAfterThree(b);
    DropKeepsDigits(b[3..], ')');
    DigitsOfDigits(c);
  }

  /** `[\d\s\-\(\)]` */
  predicate IsLegacyPhoneChar(c: char) {
    IsDigit(c) || IsSpace(c) || c == '-' || c == '(' || c == ')'
  }

  /** `^\+?[\d\s\-\(\)]+$` ('+' is not in the class, so the optional '+' is taken when present). */
  predicate MatchesLegacyPhone(s: string) {
    var t := DropChar(s, '+');
    |t| >= 1 && forall i :: 0 <= i < |t| ==> IsLegacyPhoneChar(t[i])
  }

  /** `^\d{5}(-\d{4})?$` */
  predicate IsZipShape(s: string) {
    (|s| == 5 && AllDigits(s))
    || (|s| == 10 && AllDigits(s[..5]) && s[5] == '-' && AllDigits(s[6..]))
  }

  /** `^(\d{2})\/(\d{2})$` */
  predicate IsExpiryShape(s: string) {
    |s| == 5 && IsDigit(s[0]) && IsDigit(s[1]) && s[2] == '/' && IsDigit(s[3]) && IsDigit(s[4])
  }

  /** `parseInt(match[1], 10)`: the month digits of an MM/YY value. */
  function ExpiryMonth(s: string): int
    requires IsExpiryShape(s)
  {
    ParseDigits(s[..2])
  }

  /** `parseInt(match[2], 10) + 2000`: the four-digit year of an MM/YY value. */
  function ExpiryYear(s: string): int
    requires IsExpiryShape(s)
  {
    ParseDigits(s[3..]) + 2000
  }

  /** The month and the year of an MM/YY value, digit by digit. */
  lemma ExpiryFields(s: string)
    requires IsExpiryShape(s)
    ensures ExpiryMonth(s) == 10 * DigitValue(s[0]) + DigitValue(s[1])
    ensures ExpiryYear(s) == 2000 + 10 * DigitValue(s[3]) + DigitValue(s[4])
  {
    var mm, yy := s[..2], s[3..];
    assert mm[..1] == [s[0]] && mm[1] == s[1] && [s[0]][..0] == [];
    assert ParseDigits([s[0]]) == DigitValue(s[0]);
    assert ParseDigits(mm) == ParseDigits(mm[..1]) * 10 + DigitValue(mm[1]);
    assert yy[..1] == [s[3]] && yy[1] == s[4] && [s[3]][..0] == [];
    assert ParseDigits([s[3]]) == DigitValue(s[3]);
    assert ParseDigits(yy) == ParseDigits(yy[..1]) * 10 + DigitValue(yy[1]);
  }

  /** `/[<>\"'&]/.test(s)` */
  predicate HasMarkupChar(s: string) {
    exists i :: 0 <= i < |s| && (s[i] == '<' || s[i] == '>' || s[i] == '"' || s[i] == '\'' || s[i] == '&')
  }

  /** The three case-insensitive patterns of the pure `sanitize` validator and of `sanitizeForDisplay`. */
  datatype Pattern =
    | ScriptTag              // /<script\b[^<]*(?:(?!<\/script>)<[^<]*)*<\/script>/gi
    | JavascriptScheme       // /javascript:/gi
    | EventHandlerAttribute  // /on\w+\s*=/gi

  /** The first position at or after `k` where a "</script>" (any case) begins. */
  function FindCloseTag(s: string, k: nat): (r: Option<nat>)
    requires k <= |s|
    ensures r.Some? ==> k <= r.value && r.value + 9 <= |s| && StartsWithIgnoreCase(s[r.value..], "</script>")
    ensures r.Some? ==> forall j :: k <= j < r.value ==> !StartsWithIgnoreCase(s[j..], "</script>")
    ensures r.None? ==> forall j :: k <= j <= |s| ==> !StartsWithIgnoreCase(s[j..], "</script>")
    decreases |s| - k
  {
    if StartsWithIgnoreCase(s[k..], "</script>") then Some(k)
    else if k == |s| then None
    else FindCloseTag(s, k + 1)
  }

  /** The length of the leading run of `\w` characters. */
  function WordRun(s: string): (n: nat)
    ensures n <= |s|
    ensures forall i :: 0 <= i < n ==> IsWordChar(s[i])
    ensures n < |s| ==> !IsWordChar(s[n])
  {
    if s != [] && IsWordChar(s[0]) then 1 + WordRun(s[1..]) else 0
  }

  /** The length of the leading run of `\s` characters. */
  function SpaceRun(s: string): (n: nat)
    ensures n <= |s|
    ensures forall i :: 0 <= i < n ==> IsSpace(s[i])
    ensures n < |s| ==> !IsSpace(s[n])
  {
    if s != [] && IsSpace(s[0]) then 1 + SpaceRun(s[1..]) else 0
  }

  /**
   * The length of the match of `p` that begins at the first character of `s`,
   * or 0 when none begins there (no pattern matches the empty string).
   *   - ScriptTag: "<script" followed by a non-word character (the `\b`), then
   *     everything up to and including the first "</script>" after it; the
   *     middle part of the expression admits exactly the text that contains no
   *     "</script>".
   *   - EventHandlerAttribute: "on", one or more word characters, white space,
   *     '='. Word characters, white space and '=' are disjoint, so the greedy
   *     runs are the only way to match.
   */
  function MatchLength(p: Pattern, s: string): (n: nat)
    ensures n <= |s|
  {
    match p
    case ScriptTag =>
      if StartsWithIgnoreCase(s, "<script") && |s| > 7 && !IsWordChar(s[7]) then
        match FindCloseTag(s, 7)
        case Some(j) => j + 9
        case None => 0
      else 0
    case JavascriptScheme =>
      if StartsWithIgnoreCase(s, "javascript:") then 11 else 0
    case EventHandlerAttribute =>
      if StartsWithIgnoreCase(s, "on") && |s| > 2 && IsWordChar(s[2]) then
        var w := 2 + WordRun(s[2..]);
        var e := w + SpaceRun(s[w..]);
        if e < |s| && s[e] == '=' then e + 1 else 0
      else 0
  }

  /** `p.test(s)`: a match begins somewhere in `s`. */
  predicate Test(p: Pattern, s: string) {
    MatchLength(p, s) > 0 || (s != [] && Test(p, s[1..]))
  }

  /** `s.replace(p, '')` with the global flag: matches are removed left to right, in one pass. */
  function RemoveAll(p: Pattern, s: string): (r: string)
    ensures |r| <= |s|
    decreases |s|
  {
    if s == [] then []
    else
      var n := MatchLength(p, s);
      if n > 0 then RemoveAll(p, s[n..]) else [s[0]] + RemoveAll(p, s[1..])
  }

  /** Text in which the pattern does not occur comes through the removal unchanged. */
  lemma {:induction false} RemoveAllNoMatch(p: Pattern, s: string)
    requires !Test(p, s)
    ensures RemoveAll(p, s) == s
    decreases |s|
  {
    if s != [] {
      RemoveAllNoMatch(p, s[1..]);
    }
  }

  /** A character outside the pattern's alphabet of starting characters keeps any match from starting on it. */
  lemma MatchNeedsStart(p: Pattern, s: string)
    requires s != [] && LowerAscii(s[0]) != '<' && LowerAscii(s[0]) != 'j' && LowerAscii(s[0]) != 'o'
    ensures MatchLength(p, s) == 0
  {
  }

  /** Text made only of letters other than 'j', 'o', digits and spaces, for instance, contains no pattern. */
  lemma {:induction false} NoStartNoMatch(p: Pattern, s: string)
    requires forall i :: 0 <= i < |s| ==> LowerAscii(s[i]) != '<' && LowerAscii(s[i]) != 'j' && LowerAscii(s[i]) != 'o'
    ensures !Test(p, s)
    decreases |s|
  {
    if s != [] {
      MatchNeedsStart(p, s);
      NoStartNoMatch(p, s[1..]);
    }
  }

  /** A short tag opening with '<', with no other starting character, contains no pattern: it is too short for "<script". */
  lemma ShortTagNoMatch(p: Pattern, s: string)
    requires s != [] && s[0] == '<' && |s| < 7
    requires forall i :: 1 <= i < |s| ==> LowerAscii(s[i]) != '<' && LowerAscii(s[i]) != 'j' && LowerAscii(s[i]) != 'o'
    ensures !Test(p, s)
  {
    assert !StartsWithIgnoreCase(s, "<script");
    assert MatchLength(p, s) == 0;
    NoStartNoMatch(p, s[1..]);
  }
}
