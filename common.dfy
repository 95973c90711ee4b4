/** Optional values: Kotlin's nullable types `T?`. */
module Wrappers {
  datatype Option<+T> = None | Some(value: T) {
    /** Kotlin's elvis operator `x ?: default`. */
    function GetOr(default: T): T {
      match this
      case Some(v) => v
      case None => default
    }
  }
}

/**
 * The few Kotlin string operations the screens rely on, over `seq<char>`.
 * Character classes (whitespace, digits, case) are the ASCII part of Kotlin's
 * Unicode-aware ones.
 */
module Text {
  import opened Wrappers

  /** `Char.isWhitespace` on ASCII: space, TAB..CR and the four separators FS..US. */
  predicate IsWhitespace(c: char) {
    c == ' ' || ('\t' <= c <= '\r') || ('\U{1C}' <= c <= '\U{1F}')
  }

  /** `CharSequence.isBlank()`: empty or whitespace only. */
  predicate IsBlank(s: string) {
    forall i :: 0 <= i < |s| ==> IsWhitespace(s[i])
  }

  /** Drops leading whitespace. */
  function TrimStart(s: string): (r: string)
    ensures |r| <= |s| && r == s[|s| - |r|..]
    ensures IsBlank(s[..|s| - |r|])
    ensures r == [] || !IsWhitespace(r[0])
  {
    if s != [] && IsWhitespace(s[0]) then TrimStart(s[1..]) else s
  }

  /** Drops trailing whitespace. */
  function TrimEnd(s: string): (r: string)
    ensures |r| <= |s| && r == s[..|r|]
    ensures IsBlank(s[|r|..])
    ensures r == [] || !IsWhitespace(r[|r| - 1])
  {
    if s != [] && IsWhitespace(s[|s| - 1]) then
      var t := s[..|s| - 1];
      var r := TrimEnd(t);
      assert t[..|r|] == s[..|r|];
      assert s[|r|..] == t[|r|..] + [s[|s| - 1]];
      BlankConcat(t[|r|..], [s[|s| - 1]]);
      r
    else s
  }

  /** `String.trim()`. */
  function Trim(s: string): string {
    TrimEnd(TrimStart(s))
  }

  lemma BlankConcat(a: string, b: string)
    requires IsBlank(a) && IsBlank(b)
    ensures IsBlank(a + b)
  {
    forall i | 0 <= i < |a + b| ensures IsWhitespace((a + b)[i]) {
      if i >= |a| { assert (a + b)[i] == b[i - |a|]; }
    }
  }

  /** The trimmed text has no whitespace at either end, and is empty exactly for a blank input. */
  lemma TrimSpec(s: string)
    ensures var r := Trim(s);
      && (r == [] || (!IsWhitespace(r[0]) && !IsWhitespace(r[|r| - 1])))
      && (r == [] <==> IsBlank(s))
  {
    var t := TrimStart(s);
    var r := TrimEnd(t);
    if r != [] {
      assert r[0] == t[0];
      assert t[0] == s[|s| - |t|];
    } else {
      assert t[|r|..] == t;
      assert s == s[..|s| - |t|] + t;
      BlankConcat(s[..|s| - |t|], t);
    }
  }

  predicate IsDigit(c: char) {
    '0' <= c <= '9'
  }

  predicate AllDigits(s: string) {
    forall i :: 0 <= i < |s| ==> IsDigit(s[i])
  }

  /** `String.startsWith(prefix)`. */
  predicate StartsWith(s: string, prefix: string) {
    |prefix| <= |s| && s[..|prefix|] == prefix
  }

  /** `String.endsWith(suffix)`. */
  predicate EndsWith(s: string, suffix: string) {
    |suffix| <= |s| && s[|s| - |suffix|..] == suffix
  }

  /**
   * `String.substringBefore(delimiter)` for a one-character delimiter: the text
   * before the first occurrence, or the whole string when there is none.
   */
  function SubstringBefore(s: string, delimiter: char): (r: string)
    ensures |r| <= |s| && s[..|r|] == r
    ensures delimiter !in r
    ensures |r| == |s| || s[|r|] == delimiter
  {
    if s == [] || s[0] == delimiter then [] else [s[0]] + SubstringBefore(s[1..], delimiter)
  }

  function LowerAscii(c: char): char {
    if 'A' <= c <= 'Z' then (c as int + 32) as char else c
  }

  /** `String.equals(other, ignoreCase = true)`, folding ASCII letters only. */
  predicate EqualsIgnoreCase(a: string, b: string) {
    |a| == |b| && forall i :: 0 <= i < |a| ==> LowerAscii(a[i]) == LowerAscii(b[i])
  }

  /** `String.contains(other, ignoreCase = true)`, folding ASCII letters only. */
  predicate ContainsIgnoreCase(s: string, part: string) {
    exists i :: 0 <= i <= |s| - |part| && MatchesAt(s, part, i)
  }

  /** `part` occurs at index `i` of `s`, ignoring ASCII case. */
  predicate MatchesAt(s: string, part: string, i: int)
    requires 0 <= i <= |s| - |part|
  {
    EqualsIgnoreCase(s[i..i + |part|], part)
  }

  /** Kotlin's string template for a nullable value: `null` prints as "null". */
  function Template(s: Option<string>): string {
    s.GetOr("null")
  }

  function DigitChar(d: nat): (c: char)
    requires d < 10
    ensures IsDigit(c)
  {
    ('0' as int + d) as char
  }

  function DigitValue(c: char): (d: nat)
    requires IsDigit(c)
    ensures d < 10 && DigitChar(d) == c
  {
    c as int - '0' as int
  }

  /** The decimal value of a string of digits, most significant first. */
  function DigitsValue(s: string): nat
    requires AllDigits(s)
  {
    if s == [] then 0 else DigitsValue(s[..|s| - 1]) * 10 + DigitValue(s[|s| - 1])
  }

  /** `Int.toString()` on a non-negative number. */
  function NatToString(n: nat): (r: string)
    ensures |r| >= 1 && AllDigits(r)
    ensures n >= 10 ==> |r| >= 2
    ensures r[0] == '0' <==> n == 0
  {
    if n < 10 then [DigitChar(n)] else NatToString(n / 10) + [DigitChar(n % 10)]
  }

  /** `Int.toString()`. */
  function IntToString(n: int): string {
    if n < 0 then "-" + NatToString(-n) else NatToString(n)
  }

  const MinInt32: int := -0x8000_0000
  const MaxInt32: int := 0x7FFF_FFFF

  /**
   * `String.toIntOrNull()`: an optional sign, then one or more digits, and a value
   * that fits in 32 bits; anything else is null.
   */
  function ParseInt(s: string): Option<int> {
    if s == [] then None
    else
      var start := if s[0] == '-' || s[0] == '+' then 1 else 0;
      if start == |s| || !AllDigits(s[start..]) then None
      else
        var magnitude := DigitsValue(s[start..]);
        var v: int := if s[0] == '-' then -(magnitude as int) else magnitude;
        if MinInt32 <= v <= MaxInt32 then Some(v) else None
  }

  /** `"%02d".format(n)`: at least two digits, zero-padded on the left. */
  function PadTwo(n: nat): string {
    if n < 10 then "0" + NatToString(n) else NatToString(n)
  }

  lemma {:induction false} DigitsValueOfNatToString(n: nat)
    ensures DigitsValue(NatToString(n)) == n
  {
    if n >= 10 {
      var s := NatToString(n);
      assert s[..|s| - 1] == NatToString(n / 10);
      DigitsValueOfNatToString(n / 10);
    }
  }

  /** Printing a 32-bit number and parsing it back gives the number. */
  lemma ParseIntOfIntToString(n: int)
    requires MinInt32 <= n <= MaxInt32
    ensures ParseInt(IntToString(n)) == Some(n)
  {
    var s := IntToString(n);
    if n < 0 {
      DigitsValueOfNatToString(-n);
      assert s[1..] == NatToString(-n);
    } else {
      DigitsValueOfNatToString(n);
      assert s[0..] == s;
    }
  }

  /**
   * The padded counter has at least two digits, pads to width two and no
   * further (a leading zero only in a two-digit result), and still denotes the number.
   */
  lemma PadTwoSpec(n: nat)
    ensures var r := PadTwo(n);
      && |r| >= 2 && AllDigits(r) && DigitsValue(r) == n
      && (|r| == 2 || r[0] != '0')
  {
    var r := PadTwo(n);
    DigitsValueOfNatToString(n);
    if n < 10 {
      assert r[..|r| - 1] == "0";
    }
  }

  /** A string of at most two digits parses, and its value is below 100. */
  lemma ParseTwoDigits(s: string)
    requires 1 <= |s| <= 2 && AllDigits(s)
    ensures ParseInt(s).Some? && 0 <= ParseInt(s).value < 100
    ensures ParseInt(s).value == DigitsValue(s)
  {
    assert IsDigit(s[0]);
    assert s[0..] == s;
    if |s| == 2 {
      assert s[..1][..0] == [];
      assert DigitsValue(s[..1]) == DigitValue(s[0]);
    } else {
      assert s[..|s| - 1] == [];
      assert DigitsValue(s) == DigitValue(s[0]);
    }
  }
}

/**
 * What a network call can come back with. Every call the screens make is replaced
 * by one of these values, given to the model as a parameter.
 */
module Remote {
  import opened Wrappers

  /** An exception thrown by a call, split the way the source's catch blocks split them. */
  datatype Failure =
    | IoFailure(message: string)                                      // java.io.IOException
    | HttpFailure(message: string, code: int, errorBody: Option<string>)  // retrofit2.HttpException
    | OtherFailure(message: string)                                   // any other exception

  /** A suspending call either returns a value or throws. */
  datatype Outcome<+T> = Ok(value: T) | Fail(failure: Failure)

  /** retrofit2.Response / okhttp3.Response: status line, parsed body and raw error body. */
  datatype Response<+B> = Response(code: int, statusMessage: string, body: Option<B>, errorBody: Option<string>) {
    /** `isSuccessful`: a 2xx status code. */
    predicate IsSuccessful() {
      200 <= code < 300
    }
  }

  /** The server's API root, which several screens prefix to relative image paths. */
  const ApiRoot := "https://" + "cd89-2001-ee0-4b6d-f0a0-bc15-4b82-50c3-ee65.ngrok-free.app/mevabe_api/"

  /** The success/message envelope several endpoints answer with. */
  datatype ApiResponse = ApiResponse(success: bool, message: string)
}
