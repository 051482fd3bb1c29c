/** The usual optional value: `None` stands for JavaScript's `undefined`/`null`. */
module Wrappers {
  datatype Option<+T> = None | Some(value: T) {
    function GetOr(default: T): T {
      match this
      case Some(v) => v
      case None => default
    }
  }
}

/**
 * Character classes and string helpers shared by the validators and formatters:
 * the ECMAScript `\d`, `\s` and `\w` classes, `String.prototype.trim`, the
 * `replace(/\D/g, '')` digit filter, and decimal conversion of numbers.
 */
module Text {

  /** `\d` in an ECMAScript regular expression: the ASCII digits only. */
  predicate IsDigit(c: char) {
    '0' <= c <= '9'
  }

  /** `parseInt(c, 10)` of a single digit character (0 for anything else). */
  function DigitValue(c: char): (v: int)
    ensures 0 <= v <= 9
    ensures IsDigit(c) ==> v == c as int - '0' as int
  {
    if IsDigit(c) then c as int - '0' as int else 0
  }

  function DigitChar(n: nat): (c: char)
    requires n < 10
    ensures IsDigit(c) && DigitValue(c) == n
  {
    (n + '0' as int) as char
  }

  predicate AllDigits(s: string) {
    forall i :: 0 <= i < |s| ==> IsDigit(s[i])
  }

  /**
   * The ECMAScript white-space and line-terminator characters, the set that
   * both `\s` and `String.prototype.trim` use.
   */
  predicate IsSpace(c: char) {
    c == '\t' || c == '\n' || c == '\U{000B}' || c == '\U{000C}' || c == '\r' || c == ' '
    || c == '\U{00A0}' || c == '\U{1680}' || ('\U{2000}' <= c <= '\U{200A}')
    || c == '\U{2028}' || c == '\U{2029}' || c == '\U{202F}' || c == '\U{205F}'
    || c == '\U{3000}' || c == '\U{FEFF}'
  }

  predicate IsAsciiLetter(c: char) {
    ('a' <= c <= 'z') || ('A' <= c <= 'Z')
  }

  /** `\w`: ASCII letters, digits and underscore. */
  predicate IsWordChar(c: char) {
    IsAsciiLetter(c) || IsDigit(c) || c == '_'
  }

  /** ASCII case folding, which is all that a non-Unicode `/i` regular expression does to ASCII text. */
  function LowerAscii(c: char): char {
    if 'A' <= c <= 'Z' then (c as int + 32) as char else c
  }

  /** `s` starts with `pattern`, ignoring ASCII case (`pattern` is written in lower case). */
  predicate StartsWithIgnoreCase(s: string, pattern: string) {
    |pattern| <= |s| && forall i :: 0 <= i < |pattern| ==> LowerAscii(s[i]) == pattern[i]
  }

  /** `s.replace(/\D/g, '')`: the digits of `s`, in order. */
  function Digits(s: string): (r: string)
    ensures AllDigits(r)
    ensures |r| <= |s|
  {
    if s == [] then []
    else if IsDigit(s[|s| - 1]) then Digits(s[..|s| - 1]) + [s[|s| - 1]]
    else Digits(s[..|s| - 1])
  }

  lemma {:induction false} DigitsAppend(a: string, b: string)
    ensures Digits(a + b) == Digits(a) + Digits(b)
    decreases |b|
  {
    if b == [] {
      assert a + b == a;
    } else {
      assert (a + b)[..|a + b| - 1] == a + b[..|b| - 1];
      DigitsAppend(a, b[..|b| - 1]);
    }
  }

  lemma {:induction false} DigitsOfDigits(s: string)
    requires AllDigits(s)
    ensures Digits(s) == s
  {
    if s != [] {
      DigitsOfDigits(s[..|s| - 1]);
    }
  }

  /** A string with no digit at all yields the empty digit string. */
  lemma {:induction false} DigitsOfNonDigits(s: string)
    requires forall i :: 0 <= i < |s| ==> !IsDigit(s[i])
    ensures Digits(s) == []
  {
    if s != [] {
      DigitsOfNonDigits(s[..|s| - 1]);
    }
  }

  /** `s.trimStart()`: drops the leading white space and nothing else. */
  function TrimStart(s: string): (r: string)
    ensures |r| <= |s| && r == s[|s| - |r|..]
    ensures forall i :: 0 <= i < |s| - |r| ==> IsSpace(s[i])
    ensures r != [] ==> !IsSpace(r[0])
  {
    if s != [] && IsSpace(s[0]) then TrimStart(s[1..]) else s
  }

  /** `s.trimEnd()`: drops the trailing white space and nothing else. */
  function TrimEnd(s: string): (r: string)
    ensures |r| <= |s| && r == s[..|r|]
    ensures forall i :: |r| <= i < |s| ==> IsSpace(s[i])
    ensures r != [] ==> !IsSpace(r[|r| - 1])
  {
    if s != [] && IsSpace(s[|s| - 1]) then TrimEnd(s[..|s| - 1]) else s
  }

  /** `s.trim()`. */
  function Trim(s: string): string {
    TrimEnd(TrimStart(s))
  }

  /** The result of `trim` never begins or ends with white space, and is a contiguous part of the input. */
  lemma TrimShape(s: string)
    ensures var t := Trim(s);
      && (t != [] ==> !IsSpace(t[0]) && !IsSpace(t[|t| - 1]))
      && |TrimStart(s)| <= |s| && t == s[|s| - |TrimStart(s)|..][..|t|]
  {
  }

  /** `s.trim() === ''` exactly when every character of `s` is white space. */
  lemma TrimEmptyIff(s: string)
    ensures Trim(s) == [] <==> forall i :: 0 <= i < |s| ==> IsSpace(s[i])
  {
    var u := TrimStart(s);
    if Trim(s) == [] {
      assert u == [];
    } else {
      assert !IsSpace(u[0]) && u[0] == s[|s| - |u|];
    }
  }

  /** A value that neither begins nor ends with white space is left alone by `trim`. */
  lemma TrimNoEdges(s: string)
    requires s != [] ==> !IsSpace(s[0]) && !IsSpace(s[|s| - 1])
    ensures Trim(s) == s
  {
  }

  /** Every character is white space (true of the empty string). */
  predicate AllSpace(s: string) {
    forall i :: 0 <= i < |s| ==> IsSpace(s[i])
  }

  /** `${a} ${b}`.trim(): two name parts joined by a space, the white space at either end dropped. */
  function JoinTrimmed(a: string, b: string): (r: string)
    ensures r != [] ==> !IsSpace(r[0]) && !IsSpace(r[|r| - 1])
  {
    TrimShape(a + " " + b);
    Trim(a + " " + b)
  }

  /** The joined text is empty exactly when both parts are white space only. */
  lemma JoinTrimmedEmptyIff(a: string, b: string)
    ensures JoinTrimmed(a, b) == "" <==> AllSpace(a) && AllSpace(b)
  {
    var s := a + " " + b;
    TrimEmptyIff(s);
    if AllSpace(a) && AllSpace(b) {
      forall i | 0 <= i < |s| ensures IsSpace(s[i]) {
        if i < |a| { assert s[i] == a[i]; }
        else if i > |a| { assert s[i] == b[i - |a| - 1]; }
      }
    }
    if JoinTrimmed(a, b) == "" {
      forall i | 0 <= i < |a| ensures IsSpace(a[i]) { assert s[i] == a[i]; }
      forall i | 0 <= i < |b| ensures IsSpace(b[i]) { assert s[|a| + 1 + i] == b[i]; }
    }
  }

  /** A single leading space is all `trim` removes from " " + b when b has no white space at its ends. */
  lemma TrimLeadingSpace(b: string)
    requires b != [] ==> !IsSpace(b[0]) && !IsSpace(b[|b| - 1])
    ensures Trim(" " + b) == b
  {
    assert (" " + b)[1..] == b;
    assert TrimStart(" " + b) == TrimStart(b);
    TrimNoEdges(b);
  }

  /** A single trailing space is all `trim` removes from a + " " when a has no white space at its ends. */
  lemma TrimTrailingSpace(a: string)
    requires a != [] ==> !IsSpace(a[0]) && !IsSpace(a[|a| - 1])
    ensures Trim(a + " ") == a
  {
    var s := a + " ";
    assert s[..|s| - 1] == a;
    if a == [] {
      assert TrimStart(s) == [];
    } else {
      assert s[0] == a[0];
      assert TrimStart(s) == s;
      assert TrimEnd(s) == TrimEnd(a);
      TrimNoEdges(a);
    }
  }

  /** Parts without white space at their ends are joined by exactly one space, and an empty part drops out. */
  lemma JoinTrimmedNoEdges(a: string, b: string)
    requires a != [] ==> !IsSpace(a[0]) && !IsSpace(a[|a| - 1])
    requires b != [] ==> !IsSpace(b[0]) && !IsSpace(b[|b| - 1])
    ensures a != [] && b != [] ==> JoinTrimmed(a, b) == a + " " + b
    ensures a == [] ==> JoinTrimmed(a, b) == b
    ensures b == [] ==> JoinTrimmed(a, b) == a
  {
    if a == [] {
      assert a + " " + b == " " + b;
      TrimLeadingSpace(b);
    } else if b == [] {
      assert a + " " + b == a + " ";
      TrimTrailingSpace(a);
    } else {
      var s := a + " " + b;
      assert s[0] == a[0] && s[|s| - 1] == b[|b| - 1];
      TrimNoEdges(s);
    }
  }

  /** A first part that neither begins nor ends with white space is kept whole at the front of the joined text. */
  lemma JoinTrimmedPrefix(a: string, b: string)
    requires a != [] && !IsSpace(a[0]) && !IsSpace(a[|a| - 1])
    ensures |JoinTrimmed(a, b)| >= |a| && JoinTrimmed(a, b)[..|a|] == a
  {
    var s := a + " " + b;
    assert s[0] == a[0];
    assert TrimStart(s) == s;
    var r := TrimEnd(s);
    assert !IsSpace(s[|a| - 1]);
    assert |r| >= |a|;
    assert r[..|a|] == s[..|a|] == a;
  }

  /** `n.toString()` for a non-negative integer: decimal digits, no leading zero. */
  function NatToString(n: nat): (r: string)
    ensures |r| >= 1 && AllDigits(r)
    ensures |r| > 1 ==> r[0] != '0'
  {
    if n < 10 then [DigitChar(n)] else NatToString(n / 10) + [DigitChar(n % 10)]
  }

  /** The decimal value of a digit string (`parseInt(s, 10)` for an all-digit `s`). */
  function ParseDigits(s: string): nat {
    if s == [] then 0 else ParseDigits(s[..|s| - 1]) * 10 + DigitValue(s[|s| - 1])
  }

  /** Reading back the decimal string of a number gives the number. */
  lemma {:induction false} ParseNatToString(n: nat)
    ensures ParseDigits(NatToString(n)) == n
  {
    var r := NatToString(n);
    if n >= 10 {
      ParseNatToString(n / 10);
      assert r[..|r| - 1] == NatToString(n / 10);
    }
  }

  /** Distinct numbers have distinct decimal strings. */
  lemma NatToStringInjective(m: nat, n: nat)
    requires NatToString(m) == NatToString(n)
    ensures m == n
  {
    ParseNatToString(m);
    ParseNatToString(n);
  }

  /** `String(i)` for any integer. */
  function IntToString(i: int): (r: string)
    ensures |r| >= 1
    ensures r[0] == '-' <==> i < 0
  {
    if i < 0 then "-" + NatToString(-i) else NatToString(i)
  }
}
