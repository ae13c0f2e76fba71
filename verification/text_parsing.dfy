/** The two pieces of .NET string handling the core relies on:
    `ulong.TryParse` with the default `NumberStyles.Integer`
    (`[whitespace][sign]digits[whitespace]`) and `string.ToLower`. */
module TextParsing {
  import opened Common

  predicate IsDigit(c: char) {
    '0' <= c <= '9'
  }

  predicate AllDigits(s: string) {
    forall i :: 0 <= i < |s| ==> IsDigit(s[i])
  }

  /** The characters `NumberStyles.AllowLeadingWhite` and
      `AllowTrailingWhite` skip: U+0009 to U+000D and U+0020. */
  predicate IsNumberWhite(c: char) {
    c == ' ' || '\t' <= c <= '\r'
  }

  function DigitValue(c: char): nat
    requires IsDigit(c)
  {
    c as int - '0' as int
  }

  function DigitChar(d: nat): char
    requires d < 10
  {
    ('0' as int + d) as char
  }

  /** The value of a string of decimal digits, most significant first. */
  function DecimalValue(s: string): nat
    requires AllDigits(s)
  {
    if |s| == 0 then 0 else 10 * DecimalValue(s[..|s| - 1]) + DigitValue(s[|s| - 1])
  }

  /** The end of `s[..end]` once trailing white space is dropped. */
  function TextEnd(s: string, end: nat): (n: nat)
    requires end <= |s|
    ensures n <= end
    ensures forall i :: n <= i < end ==> IsNumberWhite(s[i])
    ensures n > 0 ==> !IsNumberWhite(s[n - 1])
    decreases end
  {
    if end > 0 && IsNumberWhite(s[end - 1]) then TextEnd(s, end - 1) else end
  }

  /** The start of `s[start..end]` once leading white space is dropped. */
  function TextStart(s: string, start: nat, end: nat): (n: nat)
    requires start <= end <= |s|
    ensures start <= n <= end
    ensures forall i :: start <= i < n ==> IsNumberWhite(s[i])
    ensures n < end ==> !IsNumberWhite(s[n])
    decreases end - start
  {
    if start < end && IsNumberWhite(s[start]) then TextStart(s, start + 1, end) else start
  }

  /** `s` without the white space around it. */
  function Trim(s: string): string {
    var end := TextEnd(s, |s|);
    s[TextStart(s, 0, end)..end]
  }

  predicate AllWhite(s: string) {
    forall i :: 0 <= i < |s| ==> IsNumberWhite(s[i])
  }

  /** `body` spells the number `v` in `NumberStyles.Integer` once white
      space is trimmed: a non-empty run of digits, optionally after a plus
      sign, or after a minus sign when the value is zero. */
  predicate SignedNumeral(body: string, v: int) {
    || (|body| > 0 && AllDigits(body) && DecimalValue(body) == v)
    || (|body| > 1 && body[0] == '+' && AllDigits(body[1..]) && DecimalValue(body[1..]) == v)
    || (|body| > 1 && body[0] == '-' && AllDigits(body[1..]) && DecimalValue(body[1..]) == 0 && v == 0)
  }

  /** `s` is white space up to `a`, a signed numeral for `v` from `a` to
      `b`, and white space from `b` on. */
  predicate NumberTextAt(s: string, a: int, b: int, v: int) {
    0 <= a <= b <= |s| && AllWhite(s[..a]) && AllWhite(s[b..]) && SignedNumeral(s[a..b], v)
  }

  /** `s` is some signed numeral for `v` surrounded by white space. */
  ghost predicate IsNumberText(s: string, v: int) {
    exists a: int, b: int :: NumberTextAt(s, a, b, v)
  }

  /** The digits-and-sign part of `ulong.TryParse`, after white space is
      trimmed: it succeeds exactly on the signed numerals of values below
      2^64, with their value. */
  function ParseSigned(t: string): (r: Option<u64>)
    ensures r.Some? ==> SignedNumeral(t, r.value as int)
    ensures forall v: int :: SignedNumeral(t, v) && v < U64_LIMIT ==> r == Some(v as u64)
    ensures AllDigits(t) && |t| > 0 ==> (r.Some? <==> DecimalValue(t) < U64_LIMIT)
    ensures AllDigits(t) && |t| > 0 && r.Some? ==> r.value as int == DecimalValue(t)
    ensures r.Some? ==> exists i :: 0 <= i < |t| && IsDigit(t[i])
  {
    var negative := |t| > 0 && t[0] == '-';
    var digits := if |t| > 0 && (t[0] == '+' || t[0] == '-') then t[1..] else t;
    if |digits| == 0 || !AllDigits(digits) then None
    else if DecimalValue(digits) >= U64_LIMIT then None
    else if negative && DecimalValue(digits) != 0 then None
    else
      assert IsDigit(digits[0]) && digits[0] in t;
      Some(DecimalValue(digits) as u64)
  }

  /** Trimming leaves a string without white space unchanged. */
  lemma TrimDigits(s: string)
    requires AllDigits(s)
    ensures Trim(s) == s
  {
    if |s| > 0 {
      assert !IsNumberWhite(s[|s| - 1]);
      assert !IsNumberWhite(s[0]);
    }
  }

  /** A digit of the trimmed string is a digit of the string. */
  lemma DigitOfTrim(s: string, i: int)
    requires 0 <= i < |Trim(s)| && IsDigit(Trim(s)[i])
    ensures exists j :: 0 <= j < |s| && IsDigit(s[j])
  {
    var end := TextEnd(s, |s|);
    var start := TextStart(s, 0, end);
    assert Trim(s)[i] == s[start + i];
  }

  /** A successful parse of the trimmed string saw a digit of `s`. */
  lemma ParseTrimmed(s: string)
    ensures ParseSigned(Trim(s)).Some? ==> exists i :: 0 <= i < |s| && IsDigit(s[i])
  {
    var t := Trim(s);
    if ParseSigned(t).Some? {
      var i :| 0 <= i < |t| && IsDigit(t[i]);
      DigitOfTrim(s, i);
    }
  }

  /** A signed numeral starts with a sign or a digit and ends with a digit,
      so it has no white space at either end. */
  lemma NumeralEnds(body: string, v: int)
    requires SignedNumeral(body, v)
    ensures |body| > 0 && !IsNumberWhite(body[0]) && IsDigit(body[|body| - 1])
  {
    if !(AllDigits(body) && |body| > 0) {
      assert body[|body| - 1] == body[1..][|body| - 2];
    }
  }

  /** Around a signed numeral, trimming removes exactly the white space. */
  lemma TrimOfNumberText(s: string, a: int, b: int, v: int)
    requires NumberTextAt(s, a, b, v)
    ensures Trim(s) == s[a..b]
  {
    NumeralEnds(s[a..b], v);
    assert s[a] == s[a..b][0] && s[b - 1] == s[a..b][b - a - 1];
    var end := TextEnd(s, |s|);
    assert end == b;
    var start := TextStart(s, 0, end);
    assert start == a;
  }

  /** What a parse of the trimmed text accepts, read back on `s`: a
      success is a numeral between white space, and every numeral between
      white space below 2^64 is parsed to its value. */
  lemma TrimmedParse(s: string)
    ensures ParseSigned(Trim(s)).Some? ==> IsNumberText(s, ParseSigned(Trim(s)).value as int)
    ensures forall a: int, b: int, v: int :: NumberTextAt(s, a, b, v) && v < U64_LIMIT ==> ParseSigned(Trim(s)) == Some(v as u64)
  {
    var end := TextEnd(s, |s|);
    var start := TextStart(s, 0, end);
    if ParseSigned(Trim(s)).Some? {
      assert AllWhite(s[..start]);
      assert AllWhite(s[end..]);
      assert NumberTextAt(s, start, end, ParseSigned(Trim(s)).value as int);
    }
    forall a: int, b: int, v: int | NumberTextAt(s, a, b, v) && v < U64_LIMIT
      ensures ParseSigned(Trim(s)) == Some(v as u64)
    {
      TrimOfNumberText(s, a, b, v);
    }
  }

  /** `ulong.TryParse(s, out v)`: white space around an optional sign and a
      non-empty run of digits; a value of 2^64 or more fails, and a minus
      sign is accepted only in front of a zero value. */
  function ParseULong(s: string): (r: Option<u64>)
    ensures AllDigits(s) && |s| > 0 ==> (r.Some? <==> DecimalValue(s) < U64_LIMIT)
    ensures AllDigits(s) && |s| > 0 && r.Some? ==> r.value as int == DecimalValue(s)
    ensures |Trim(s)| == 0 ==> r.None?
    ensures r.Some? ==> exists i :: 0 <= i < |s| && IsDigit(s[i])
  {
    if AllDigits(s) then TrimDigits(s); ParseSigned(s)
    else ParseTrimmed(s); ParseSigned(Trim(s))
  }

  /** What `ulong.TryParse` accepts, stated without trimming: it succeeds
      exactly when the text is white space, a signed numeral and white
      space, with a value below 2^64, and it yields that value. */
  lemma ParseULongIsNumberText(s: string)
    ensures ParseULong(s).Some? ==> IsNumberText(s, ParseULong(s).value as int)
    ensures forall a: int, b: int, v: int :: NumberTextAt(s, a, b, v) && v < U64_LIMIT ==> ParseULong(s) == Some(v as u64)
  {
    TrimmedParse(s);
    if AllDigits(s) {
      TrimDigits(s);
    }
  }

  /** White space around the digits is skipped. */
  lemma ParseSkipsWhite()
    ensures ParseULong(" 12\t") == Some(12)
  {
    ParseULongIsNumberText(" 12\t");
    assert " 12\t"[..1] == " " && " 12\t"[1..3] == "12" && " 12\t"[3..] == "\t";
    assert NumberTextAt(" 12\t", 1, 3, 12);
  }

  /** A plus sign in front of the digits is accepted. */
  lemma ParseAcceptsPlus()
    ensures ParseULong("+7") == Some(7)
  {
    ParseULongIsNumberText("+7");
    assert "+7"[1..] == "7";
    assert NumberTextAt("+7", 0, 2, 7);
  }

  /** A minus sign is accepted in front of a zero value. */
  lemma ParseAcceptsMinusZero()
    ensures ParseULong("-0") == Some(0)
  {
    ParseULongIsNumberText("-0");
    assert "-0"[1..] == "0";
    assert NumberTextAt("-0", 0, 2, 0);
  }

  /** A minus sign in front of a non-zero value, a stray character, and a
      value of 2^64 all fail the parse. */
  lemma ParseRejects()
    ensures ParseULong("-1") == None
    ensures ParseULong("1a") == None
    ensures ParseULong(ToDecimal(U64_LIMIT)) == None
  {
    assert !AllDigits("-1") by {
      assert !IsDigit("-1"[0]);
    }
    assert Trim("-1") == "-1";
    assert "-1"[1..] == "1";
    assert !AllDigits("1a") by {
      assert !IsDigit("1a"[1]);
    }
    assert Trim("1a") == "1a";
    assert "1a"[1..] == "a";
  }

  /** The shortest decimal spelling of `n` (what `ulong.ToString()` prints). */
  function ToDecimal(n: nat): (s: string)
    ensures |s| > 0 && AllDigits(s)
    ensures DecimalValue(s) == n
  {
    if n < 10 then [DigitChar(n)]
    else
      var prefix := ToDecimal(n / 10);
      var s := prefix + [DigitChar(n % 10)];
      assert s[..|s| - 1] == prefix;
      s
  }

  /** Printing an identity and parsing it back gives the identity again. */
  lemma ParseToDecimal(v: u64)
    ensures ParseULong(ToDecimal(v as nat)) == Some(v)
  {
  }

  /** `char.ToLower` on the ASCII range; other characters are kept. */
  function LowerChar(c: char): char {
    if 'A' <= c <= 'Z' then (c as int + 32) as char else c
  }

  function ToLower(s: string): string {
    seq(|s|, i requires 0 <= i < |s| => LowerChar(s[i]))
  }

  /** `s.ToLower() == lower`, compared character by character. */
  predicate LowerEquals(s: string, lower: string) {
    |s| == |lower| && (|s| == 0 || (LowerChar(s[0]) == lower[0] && LowerEquals(s[1..], lower[1..])))
  }

  /** The character-by-character comparison is the comparison of the
      lowered string. */
  lemma {:induction false} LowerEqualsIsToLower(s: string, lower: string)
    ensures LowerEquals(s, lower) <==> ToLower(s) == lower
    decreases |s|
  {
    if |s| > 0 && |s| == |lower| {
      LowerEqualsIsToLower(s[1..], lower[1..]);
      assert ToLower(s) == [LowerChar(s[0])] + ToLower(s[1..]);
      if ToLower(s) == lower {
        assert ToLower(s)[1..] == lower[1..];
      }
    }
  }
}
