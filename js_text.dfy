/** The JavaScript string built-ins the dashboard uses: `toLowerCase`
    (ASCII letters only), `includes`, `split(' ')[0]` and the global
    `parseInt` with no radix argument. `NaN` from `parseInt` is `None`. */
module JsText {
  import opened Collections

  /** Lower-cases one character; letters outside ASCII are left as they are. */
  function LowerChar(c: char): char
  {
    if 'A' <= c <= 'Z' then (c as int + 32) as char else c
  }

  /** `s.toLowerCase()` restricted to ASCII letters. */
  function ToLower(s: string): (r: string)
    ensures |r| == |s|
    ensures forall i :: 0 <= i < |s| ==> r[i] == LowerChar(s[i])
  {
    if s == [] then [] else [LowerChar(s[0])] + ToLower(s[1..])
  }

  /** `s` begins with `prefix`. */
  predicate StartsWith(s: string, prefix: string)
  {
    |prefix| <= |s| && s[..|prefix|] == prefix
  }

  /** `needle` occurs in `s` starting at position `i`. */
  predicate OccursAt(s: string, needle: string, i: int)
  {
    0 <= i && i + |needle| <= |s| && s[i..i + |needle|] == needle
  }

  /** `s.includes(needle)`: `needle` starts at some position of `s`. */
  predicate Includes(s: string, needle: string)
    decreases |s|
  {
    StartsWith(s, needle) || (s != [] && Includes(s[1..], needle))
  }

  /** `Includes` agrees with the positional definition of a substring. */
  lemma {:induction false} IncludesAt(s: string, needle: string)
    ensures Includes(s, needle) <==> exists i :: OccursAt(s, needle, i)
  {
    if Includes(s, needle) {
      if StartsWith(s, needle) {
        assert OccursAt(s, needle, 0);
      } else {
        IncludesAt(s[1..], needle);
        var i :| OccursAt(s[1..], needle, i);
        assert s[1..][i..i + |needle|] == s[i + 1..i + 1 + |needle|];
        assert OccursAt(s, needle, i + 1);
      }
    } else if exists i :: OccursAt(s, needle, i) {
      var i :| OccursAt(s, needle, i);
      if i != 0 {
        assert s[1..][i - 1..i - 1 + |needle|] == s[i..i + |needle|];
        assert OccursAt(s[1..], needle, i - 1);
        IncludesAt(s[1..], needle);
      }
    }
  }

  /** Every string includes the empty string. */
  lemma IncludesEmpty(s: string)
    ensures Includes(s, "")
  {
    assert StartsWith(s, "");
  }

  /** `s.split(' ')[0]`: the longest prefix of `s` without a space. */
  function FirstToken(s: string): (r: string)
    ensures StartsWith(s, r)
    ensures ' ' !in r
    ensures |r| < |s| ==> s[|r|] == ' '
  {
    if s == [] || s[0] == ' ' then [] else [s[0]] + FirstToken(s[1..])
  }

  /** The characters `parseInt` skips before a number: the ECMAScript
      WhiteSpace (including every space separator) and LineTerminator code points. */
  predicate IsStrWhiteSpace(c: char)
  {
    c in {'\t', '\n', '\U{000B}', '\U{000C}', '\r', ' ', '\U{00A0}', '\U{1680}',
          '\U{2028}', '\U{2029}', '\U{202F}', '\U{205F}', '\U{3000}', '\U{FEFF}'}
    || '\U{2000}' <= c <= '\U{200A}'
  }

  /** The value of a digit in radix up to 36; 36 for any other character. */
  function DigitValue(c: char): (d: nat)
    ensures d <= 36
  {
    if '0' <= c <= '9' then c as int - '0' as int
    else if 'a' <= c <= 'z' then c as int - 'a' as int + 10
    else if 'A' <= c <= 'Z' then c as int - 'A' as int + 10
    else 36
  }

  /** `s` without its leading white space. */
  function TrimStart(s: string): (r: string)
    ensures |r| <= |s| && r == s[|s| - |r|..]
    ensures r == [] || !IsStrWhiteSpace(r[0])
    ensures forall i :: 0 <= i < |s| - |r| ==> IsStrWhiteSpace(s[i])
  {
    if s != [] && IsStrWhiteSpace(s[0]) then TrimStart(s[1..]) else s
  }

  /** The longest prefix of `s` made of digits of the given radix. */
  function LeadingDigits(s: string, radix: nat): (r: string)
    ensures StartsWith(s, r)
    ensures forall i :: 0 <= i < |r| ==> DigitValue(r[i]) < radix
    ensures |r| < |s| ==> DigitValue(s[|r|]) >= radix
  {
    if s != [] && DigitValue(s[0]) < radix then [s[0]] + LeadingDigits(s[1..], radix) else []
  }

  /** The number written by the digits `ds`, most significant first. */
  function DigitsValue(ds: string, radix: nat): nat
    requires forall i :: 0 <= i < |ds| ==> DigitValue(ds[i]) < radix
  {
    if ds == [] then 0
    else DigitsValue(ds[..|ds| - 1], radix) * radix + DigitValue(ds[|ds| - 1])
  }

  /** The value of the digit run at the front of `s`; `None` when `s` does
      not start with a digit of the radix. */
  function DigitRun(s: string, radix: nat): (r: Option<nat>)
    ensures r.None? <==> s == [] || DigitValue(s[0]) >= radix
  {
    var ds := LeadingDigits(s, radix);
    if ds == [] then None else Some(DigitsValue(ds, radix))
  }

  /** An unsigned numeral: hexadecimal after a `0x`/`0X` prefix, decimal otherwise. */
  function ParseMagnitude(u: string): Option<nat>
  {
    if |u| >= 2 && u[0] == '0' && (u[1] == 'x' || u[1] == 'X') then DigitRun(u[2..], 16)
    else DigitRun(u, 10)
  }

  /** `parseInt(s)` with no radix: skip white space, take one sign, then read
      an unsigned numeral; `None` (NaN) when no digit is read. */
  function ParseInt(s: string): (r: Option<int>)
  {
    var t := TrimStart(s);
    if t != [] && t[0] == '-' then
      match ParseMagnitude(t[1..])
      case None => None
      case Some(m) => Some(0 - m)
    else if t != [] && t[0] == '+' then ParseMagnitude(t[1..])
    else ParseMagnitude(t)
  }

  /** The decimal numeral of `n`, without leading zeros. */
  function DecimalString(n: nat): (r: string)
    ensures r != [] && (forall i :: 0 <= i < |r| ==> DigitValue(r[i]) < 10)
    ensures r[0] == '0' ==> n == 0
  {
    if n < 10 then ['0' + n as char]
    else DecimalString(n / 10) + ['0' + (n % 10) as char]
  }

  /** Reading back a decimal numeral gives its number. */
  lemma {:induction false} DecimalValue(n: nat)
    ensures DigitsValue(DecimalString(n), 10) == n
  {
    if n >= 10 {
      var r := DecimalString(n);
      assert r[..|r| - 1] == DecimalString(n / 10);
      DecimalValue(n / 10);
    }
  }

  /** The digit run at the front of `ds + rest` is `ds` when `rest` does not
      go on with a digit. */
  lemma {:induction false} LeadingDigitsOf(ds: string, rest: string, radix: nat)
    requires forall i :: 0 <= i < |ds| ==> DigitValue(ds[i]) < radix
    requires rest == [] || DigitValue(rest[0]) >= radix
    ensures LeadingDigits(ds + rest, radix) == ds
  {
    if ds != [] {
      assert (ds + rest)[1..] == ds[1..] + rest;
      LeadingDigitsOf(ds[1..], rest, radix);
    } else {
      assert ds + rest == rest;
    }
  }

  /** `parseInt` of a string that starts with a decimal digit, other than
      a `0x`/`0X` prefix, is the value of its leading decimal digits. */
  lemma ParseLeadingDecimal(s: string)
    requires s != [] && DigitValue(s[0]) < 10
    requires !(|s| >= 2 && s[0] == '0' && (s[1] == 'x' || s[1] == 'X'))
    ensures ParseInt(s) == Some(DigitsValue(LeadingDigits(s, 10), 10))
  {
    assert '0' <= s[0] <= '9';
    assert !IsStrWhiteSpace(s[0]);
    assert TrimStart(s) == s;
    assert ParseInt(s) == ParseMagnitude(s);
    assert ParseMagnitude(s) == DigitRun(s, 10);
  }

  /** Round trip: `parseInt` reads back the numeral of `n`, also when text
      that does not go on with the number follows it ("25min"). The one
      exception is "0" followed by `x`, which starts a hexadecimal numeral. */
  lemma ParseDecimal(n: nat, rest: string)
    requires rest == [] || (DigitValue(rest[0]) >= 10 && !(n == 0 && rest[0] in "xX"))
    ensures ParseInt(DecimalString(n) + rest) == Some(n)
  {
    var d := DecimalString(n);
    var s := d + rest;
    assert s[0] == d[0];
    if |s| >= 2 && s[0] == '0' {
      assert n == 0 && |d| == 1;
      assert s[1] == rest[0];
    }
    ParseLeadingDecimal(s);
    LeadingDigitsOf(d, rest, 10);
    DecimalValue(n);
  }

  /** The text `parseInt` reads its digits from: `s` after its leading
      white space and after at most one sign. */
  function Unsigned(s: string): (r: string)
    ensures |r| <= |s| && r == s[|s| - |r|..]
  {
    var t := TrimStart(s);
    if t != [] && (t[0] == '+' || t[0] == '-') then t[1..] else t
  }

  /** No decimal digit follows the white space and the sign, so there is no
      number at the front of `s` ("minutes", "-abc", "+", a tab then "now"). */
  predicate NoLeadingDigit(s: string)
  {
    var u := Unsigned(s);
    u == [] || DigitValue(u[0]) >= 10
  }

  /** `parseInt` is NaN for a string with no decimal digit after its white
      space and sign. */
  lemma NoLeadingNumber(s: string)
    requires NoLeadingDigit(s)
    ensures ParseInt(s) == None
  {
    var u := Unsigned(s);
    assert ParseMagnitude(u) == None by {
      assert !(|u| >= 2 && u[0] == '0');
      assert DigitRun(u, 10) == None;
    }
  }

  /** Conversely, a decimal digit after the white space and sign, other than
      a `0x`/`0X` prefix, always gives a number. */
  lemma LeadingNumber(s: string)
    requires !NoLeadingDigit(s)
    requires var u := Unsigned(s); !(|u| >= 2 && u[0] == '0' && (u[1] == 'x' || u[1] == 'X'))
    ensures ParseInt(s).Some?
  {
  }

  /** A sign followed by letters is NaN. */
  lemma MinusWordNaN()
    ensures ParseInt("-abc") == None
  {
    assert TrimStart("-abc") == "-abc";
    assert Unsigned("-abc") == "abc";
    NoLeadingNumber("-abc");
  }

  /** A lone sign is NaN. */
  lemma LoneSignNaN()
    ensures ParseInt("+") == None
  {
    assert TrimStart("+") == "+";
    assert Unsigned("+") == [];
    NoLeadingNumber("+");
  }

  /** A word after leading white space is NaN. */
  lemma TabWordNaN()
    ensures ParseInt("\tnow") == None
  {
    assert TrimStart("now") == "now";
    assert TrimStart("\tnow") == "now";
    assert Unsigned("\tnow") == "now";
    NoLeadingNumber("\tnow");
  }
}
