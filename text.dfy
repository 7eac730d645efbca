/**
 * Character-string helpers shared by the leaderboard scripts: decimal numerals, padding,
 * the fixed-point text the remote totals are rebuilt from, ASCII case folding,
 * trimming, substring search, code-point order and CSV quoting.
 */
module Text {
  import opened Wrappers

  // ---------------------------------------------------------------- digits

  predicate IsDigit(c: char) { '0' <= c <= '9' }

  predicate AllDigits(s: string) { forall i :: 0 <= i < |s| ==> IsDigit(s[i]) }

  function DigitValue(c: char): nat
    requires IsDigit(c)
  {
    c as int - '0' as int
  }

  function DigitChar(d: nat): (c: char)
    requires d < 10
    ensures IsDigit(c) && DigitValue(c) == d
  {
    ('0' as int + d) as char
  }

  /** The value of a string of decimal digits, most significant first. */
  function DigitsValue(s: string): nat
    requires AllDigits(s)
  {
    if s == [] then 0 else DigitsValue(s[..|s| - 1]) * 10 + DigitValue(s[|s| - 1])
  }

  /** The decimal numeral JavaScript's `String(n)` writes for a non-negative integer. */
  function NatToDecimal(n: nat): (s: string)
    ensures 1 <= |s| && AllDigits(s)
    decreases n
  {
    if n < 10 then [DigitChar(n)] else NatToDecimal(n / 10) + [DigitChar(n % 10)]
  }

  /** Reading the numeral back gives the number: the numeral is faithful. */
  lemma {:induction false} NatToDecimalRoundTrip(n: nat)
    ensures DigitsValue(NatToDecimal(n)) == n
    decreases n
  {
    if n >= 10 {
      var s := NatToDecimal(n);
      NatToDecimalRoundTrip(n / 10);
      assert s[..|s| - 1] == NatToDecimal(n / 10);
    }
  }

  /** Distinct numbers have distinct numerals. */
  lemma NatToDecimalInjective(a: nat, b: nat)
    requires NatToDecimal(a) == NatToDecimal(b)
    ensures a == b
  {
    NatToDecimalRoundTrip(a);
    NatToDecimalRoundTrip(b);
  }

  /** JavaScript's `String(i)` (and template-literal interpolation) for an integer. */
  function IntToDecimal(i: int): (s: string)
    ensures |s| >= 1
    ensures i >= 0 ==> s == NatToDecimal(i)
    ensures i < 0 ==> s == "-" + NatToDecimal(-i)
  {
    if i < 0 then "-" + NatToDecimal(-i) else NatToDecimal(i)
  }

  lemma IntToDecimalInjective(a: int, b: int)
    requires IntToDecimal(a) == IntToDecimal(b)
    ensures a == b
  {
    var sa, sb := IntToDecimal(a), IntToDecimal(b);
    if a < 0 && b < 0 {
      assert sa[1..] == NatToDecimal(-a) && sb[1..] == NatToDecimal(-b);
      NatToDecimalInjective(-a, -b);
    } else if a >= 0 && b >= 0 {
      NatToDecimalInjective(a, b);
    } else {
      NumeralStartsWithDigit(if a < 0 then b else a);
    }
  }

  lemma NumeralStartsWithDigit(n: nat)
    ensures NatToDecimal(n)[0] != '-'
  {
  }

  /** JavaScript's `s.padStart(width, fill)` for a one-character `fill`. */
  function PadStart(s: string, width: nat, fill: char): (r: string)
    ensures |r| == if |s| >= width then |s| else width
    ensures r[|r| - |s|..] == s
    ensures forall i :: 0 <= i < |r| - |s| ==> r[i] == fill
    decreases width - |s|
  {
    if |s| >= width then s else PadStart([fill] + s, width, fill)
  }

  // ------------------------------------------------- fixed-point season totals

  /**
   * The text `${whole}.${String(frac).padStart(2, "0")}` that the season total
   * is parsed from.
   */
  function FixedPointText(whole: int, frac: nat): string
  {
    IntToDecimal(whole) + "." + PadStart(NatToDecimal(frac), 2, '0')
  }

  /** Reads `digits.dd` (at least one whole digit) as a count of hundredths. */
  function ParseUnsignedHundredths(body: string): Option<nat>
  {
    if |body| >= 4 && body[|body| - 3] == '.'
       && AllDigits(body[..|body| - 3]) && AllDigits(body[|body| - 2..])
    then Some(DigitsValue(body[..|body| - 3]) * 100 + DigitsValue(body[|body| - 2..]))
    else None
  }

  /**
   * `parseFloat` on the texts of the shape `[-]digits.dd`, giving the value in
   * hundredths; other texts are outside this model and give `None`.
   */
  function ParseHundredths(t: string): Option<int>
  {
    if |t| > 0 && t[0] == '-' then
      match ParseUnsignedHundredths(t[1..])
      case Some(v) => Some(0 - v as int)
      case None => None
    else
      match ParseUnsignedHundredths(t)
      case Some(v) => Some(v)
      case None => None
  }

  /** Numbers below 100 print as one digit below 10 and as two digits otherwise. */
  lemma SmallNumeral(n: nat)
    requires n < 100
    ensures n < 10 ==> NatToDecimal(n) == [DigitChar(n)]
    ensures n >= 10 ==> NatToDecimal(n) == [DigitChar(n / 10), DigitChar(n % 10)]
  {
    if n >= 10 {
      assert NatToDecimal(n / 10) == [DigitChar(n / 10)];
    }
  }

  /** The value of two digits. */
  lemma TwoDigitsValue(a: char, b: char)
    requires IsDigit(a) && IsDigit(b)
    ensures DigitsValue([a, b]) == DigitValue(a) * 10 + DigitValue(b)
  {
    assert [a, b][..1] == [a];
    assert [a][..0] == [];
    assert DigitsValue([a]) == DigitValue(a);
  }

  /** Padding one digit to two puts a zero in front; two digits stay as they are. */
  lemma PadTwo(s: string)
    requires 1 <= |s| <= 2
    ensures |s| == 1 ==> PadStart(s, 2, '0') == ['0'] + s
    ensures |s| == 2 ==> PadStart(s, 2, '0') == s
  {
    if |s| == 1 {
      assert PadStart(s, 2, '0') == PadStart(['0'] + s, 2, '0');
    }
  }

  /** The padded fraction is two digits worth the fraction. */
  lemma PaddedFraction(frac: nat, pad: string)
    requires frac < 100
    requires pad == PadStart(NatToDecimal(frac), 2, '0')
    ensures |pad| == 2 && AllDigits(pad) && DigitsValue(pad) == frac
  {
    SmallNumeral(frac);
    if frac < 10 {
      var d := DigitChar(frac);
      PadTwo([d]);
      assert pad == ['0', d];
      TwoDigitsValue('0', d);
    } else {
      var hi, lo := DigitChar(frac / 10), DigitChar(frac % 10);
      PadTwo([hi, lo]);
      assert pad == [hi, lo];
      TwoDigitsValue(hi, lo);
    }
  }

  /** Where the point and the two parts sit in `digits.dd`. */
  lemma PointedParts(digits: string, pad: string, body: string)
    requires |pad| == 2 && body == digits + "." + pad
    ensures |body| == |digits| + 3
    ensures body[..|body| - 3] == digits && body[|body| - 3] == '.' && body[|body| - 2..] == pad
  {
  }

  /** How `ParseUnsignedHundredths` reads a `digits.dd` text worth `whole` and `frac`. */
  lemma ParseUnsigned(digits: string, pad: string, body: string, whole: nat, frac: nat)
    requires 1 <= |digits| && AllDigits(digits) && |pad| == 2 && AllDigits(pad)
    requires DigitsValue(digits) == whole && DigitsValue(pad) == frac
    requires body == digits + "." + pad
    ensures ParseUnsignedHundredths(body) == Some(whole * 100 + frac)
  {
    PointedParts(digits, pad, body);
  }

  /** A minus sign negates; a text starting with a digit is read as it is. */
  lemma ParseSigned(t: string, body: string, whole: int, w: nat, frac: nat)
    requires |body| > 0 && IsDigit(body[0])
    requires w == if whole < 0 then -whole else whole
    requires ParseUnsignedHundredths(body) == Some(w * 100 + frac)
    requires t == if whole < 0 then "-" + body else body
    ensures ParseHundredths(t) == Some(if whole < 0 then whole * 100 - frac else whole * 100 + frac)
  {
    if whole < 0 {
      assert t[1..] == body;
    }
  }

  lemma ConcatAssoc(a: string, b: string, c: string)
    ensures a + b + c == a + (b + c)
  {
  }

  /** Moving the sign out of the whole part's numeral. */
  lemma SignInFront(negative: bool, whole: string, digits: string, rest: string)
    requires negative ==> whole == "-" + digits
    requires !negative ==> whole == digits
    ensures whole + rest == if negative then "-" + (digits + rest) else digits + rest
  {
  }

  /** A text made of a sign, digits worth `w`, a point and two digits worth `frac` parses to the signed hundredths. */
  lemma AssembledParse(t: string, whole: int, w: nat, frac: nat, digits: string, pad: string)
    requires w == if whole < 0 then -whole else whole
    requires 1 <= |digits| && AllDigits(digits) && DigitsValue(digits) == w
    requires |pad| == 2 && AllDigits(pad) && DigitsValue(pad) == frac
    requires t == if whole < 0 then "-" + (digits + ("." + pad)) else digits + ("." + pad)
    ensures ParseHundredths(t) == Some(if whole < 0 then whole * 100 - frac else whole * 100 + frac)
  {
    var body := digits + "." + pad;
    assert body == digits + ("." + pad);
    assert body[0] == digits[0];
    ParseUnsigned(digits, pad, body, w, frac);
    ParseSigned(t, body, whole, w, frac);
  }

  /** Two-digit padding of the fraction: the text parses back to the intended hundredths. */
  lemma FixedPointRoundTrip(whole: int, frac: nat)
    requires frac < 100
    ensures ParseHundredths(FixedPointText(whole, frac))
            == Some(if whole < 0 then whole * 100 - frac else whole * 100 + frac)
  {
    var w: nat := if whole < 0 then -whole else whole;
    var digits := NatToDecimal(w);
    var pad := PadStart(NatToDecimal(frac), 2, '0');
    var t := FixedPointText(whole, frac);
    assert 1 <= |digits| && AllDigits(digits) && DigitsValue(digits) == w by {
      NatToDecimalRoundTrip(w);
    }
    assert |pad| == 2 && AllDigits(pad) && DigitsValue(pad) == frac by {
      PaddedFraction(frac, pad);
    }
    assert t == if whole < 0 then "-" + (digits + ("." + pad)) else digits + ("." + pad) by {
      ConcatAssoc(IntToDecimal(whole), ".", pad);
      SignInFront(whole < 0, IntToDecimal(whole), digits, "." + pad);
    }
    AssembledParse(t, whole, w, frac, digits, pad);
  }

  /** The padding is what makes a fraction of 7 read as .07, not .7. */
  lemma FixedPointTextExample()
    ensures FixedPointText(123, 7) == "123.07"
  {
    assert NatToDecimal(7) == "7";
    assert NatToDecimal(1) == "1";
    assert NatToDecimal(12) == "12";
    assert NatToDecimal(123) == "123";
    assert PadStart("7", 2, '0') == "07";
  }

  // ------------------------------------------------------ case and spacing

  /** `toLowerCase` on one character (ASCII letters only). */
  function LowerChar(c: char): char
  {
    if 'A' <= c <= 'Z' then (c as int + 32) as char else c
  }

  function ToLower(s: string): (r: string)
    ensures |r| == |s|
    ensures forall i :: 0 <= i < |s| ==> r[i] == LowerChar(s[i])
  {
    if s == [] then [] else [LowerChar(s[0])] + ToLower(s[1..])
  }

  /** The white-space and line-terminator characters `trim` removes (the common ones). */
  predicate IsSpace(c: char)
  {
    c as int in {9, 10, 11, 12, 13, 32, 0xA0, 0x2028, 0x2029, 0xFEFF}
  }

  function TrimStart(s: string): (r: string)
    ensures |r| <= |s| && r == s[|s| - |r|..]
    ensures forall i :: 0 <= i < |s| - |r| ==> IsSpace(s[i])
    ensures r == [] || !IsSpace(r[0])
  {
    if s != [] && IsSpace(s[0]) then
      var r := TrimStart(s[1..]);
      assert s[1..][|s| - 1 - |r|..] == s[|s| - |r|..];
      r
    else s
  }

  function TrimEnd(s: string): (r: string)
    ensures |r| <= |s| && r == s[..|r|]
    ensures forall i :: |r| <= i < |s| ==> IsSpace(s[i])
    ensures r == [] || !IsSpace(r[|r| - 1])
  {
    if s != [] && IsSpace(s[|s| - 1]) then
      var r := TrimEnd(s[..|s| - 1]);
      assert s[..|s| - 1][..|r|] == s[..|r|];
      r
    else s
  }

  /** Everything of `s` before index `i` and from index `j` on is white space. */
  predicate SpaceOutside(s: string, i: nat, j: nat)
  {
    && (forall k :: 0 <= k < i && k < |s| ==> IsSpace(s[k]))
    && (forall k :: j <= k < |s| ==> IsSpace(s[k]))
  }

  /** `trim`: no white space is left at either end and only white space is removed. */
  function Trim(s: string): (r: string)
    ensures r == [] || (!IsSpace(r[0]) && !IsSpace(r[|r| - 1]))
    ensures exists i: nat, j: nat :: i <= j <= |s| && r == s[i..j] && SpaceOutside(s, i, j)
  {
    var t := TrimStart(s);
    var r := TrimEnd(t);
    TrimSlice(s, t, r);
    r
  }

  /** Cutting white space from the start and then from the end leaves a slice with white space outside it. */
  lemma TrimSlice(s: string, t: string, r: string)
    requires |t| <= |s| && t == s[|s| - |t|..] && forall k :: 0 <= k < |s| - |t| ==> IsSpace(s[k])
    requires |r| <= |t| && r == t[..|r|] && forall k :: |r| <= k < |t| ==> IsSpace(t[k])
    ensures r == s[|s| - |t|..|s| - |t| + |r|]
    ensures SpaceOutside(s, |s| - |t|, |s| - |t| + |r|)
  {
    var i, j := |s| - |t|, |s| - |t| + |r|;
    assert r == s[i..][..|r|];
    forall k | j <= k < |s| ensures IsSpace(s[k]) {
      assert s[k] == t[k - i];
    }
  }

  // ------------------------------------------------------ substring search

  /** `s.startsWith(q)`. */
  predicate StartsWith(s: string, q: string)
  {
    |q| <= |s| && s[..|q|] == q
  }

  /** An occurrence of `q` in `s` starts at index `i`. */
  predicate OccursAt(s: string, q: string, i: int)
  {
    0 <= i <= |s| - |q| && s[i..i + |q|] == q
  }

  /** `s.includes(q)`: some position of `s` starts an occurrence of `q`. */
  predicate Contains(s: string, q: string)
    decreases |s|
  {
    StartsWith(s, q) || (s != [] && Contains(s[1..], q))
  }

  /** `Contains` finds exactly the occurrences at some index. */
  lemma {:induction false} ContainsAt(s: string, q: string)
    ensures Contains(s, q) <==> exists i :: OccursAt(s, q, i)
    decreases |s|
  {
    if StartsWith(s, q) {
      assert OccursAt(s, q, 0);
    }
    if s != [] {
      ContainsAt(s[1..], q);
      if Contains(s[1..], q) {
        var i :| OccursAt(s[1..], q, i);
        assert s[1..][i..i + |q|] == s[i + 1..i + 1 + |q|];
        assert OccursAt(s, q, i + 1);
      }
      if exists i :: OccursAt(s, q, i) {
        var i :| OccursAt(s, q, i);
        if i > 0 {
          assert s[1..][i - 1..i - 1 + |q|] == s[i..i + |q|];
          assert OccursAt(s[1..], q, i - 1);
        } else {
          assert StartsWith(s, q);
        }
      }
    } else {
      if exists i :: OccursAt(s, q, i) {
        var i :| OccursAt(s, q, i);
        assert q == [];
      }
    }
  }

  lemma StartsWithContains(s: string, q: string)
    requires StartsWith(s, q)
    ensures Contains(s, q)
  {
  }

  // ----------------------------------------------------- code-point order

  /**
   * String order by code point. JavaScript's default `sort` compares UTF-16
   * code units instead; the two orders differ only where a character above
   * U+FFFF meets one in U+E000..U+FFFF, and agree on decimal numerals.
   */
  predicate StrLess(a: string, b: string)
    decreases |a|
  {
    if a == [] then b != []
    else if b == [] then false
    else if a[0] != b[0] then a[0] < b[0]
    else StrLess(a[1..], b[1..])
  }

  lemma {:induction false} StrLessIrreflexive(a: string)
    ensures !StrLess(a, a)
    decreases |a|
  {
    if a != [] { StrLessIrreflexive(a[1..]); }
  }

  lemma {:induction false} StrLessTransitive(a: string, b: string, c: string)
    requires StrLess(a, b) && StrLess(b, c)
    ensures StrLess(a, c)
    decreases |a|
  {
    if a != [] && b != [] && c != [] && a[0] == b[0] == c[0] {
      StrLessTransitive(a[1..], b[1..], c[1..]);
    }
  }

  lemma {:induction false} StrLessTotal(a: string, b: string)
    ensures a == b || StrLess(a, b) || StrLess(b, a)
    decreases |a|
  {
    if a != [] && b != [] && a[0] == b[0] {
      StrLessTotal(a[1..], b[1..]);
      if a[1..] == b[1..] { assert a == [a[0]] + a[1..] && b == [b[0]] + b[1..]; }
    }
  }

  /** A three-way comparison of strings standing for `localeCompare`. */
  function StrCompare(a: string, b: string): (r: int)
    ensures r == 0 <==> a == b
    ensures r < 0 <==> StrLess(a, b)
    ensures r > 0 <==> StrLess(b, a)
  {
    StrLessTotal(a, b);
    if a == b then StrLessIrreflexive(a); 0
    else if StrLess(a, b) then
      (if StrLess(b, a) then StrLessTransitive(a, b, a); StrLessIrreflexive(a); -1 else -1)
    else 1
  }

  // ------------------------------------------------------ CSV quoting

  /** `s.replaceAll('"', '""')`. */
  function EscapeQuotes(s: string): (r: string)
    ensures |r| >= |s|
    ensures (forall i :: 0 <= i < |s| ==> s[i] != '"') ==> r == s
  {
    if s == [] then []
    else (if s[0] == '"' then "\"\"" else [s[0]]) + EscapeQuotes(s[1..])
  }

  /**
   * A CSV reader for the inside of a quoted field: reads up to the closing
   * quote, turning each doubled quote back into one, and returns the field
   * and what follows the closing quote.
   */
  function ReadQuoted(t: string): Option<(string, string)>
    decreases |t|
  {
    if t == [] then None
    else if t[0] == '"' then
      if |t| >= 2 && t[1] == '"' then
        match ReadQuoted(t[2..])
        case None => None
        case Some(p) => Some(("\"" + p.0, p.1))
      else Some(("", t[1..]))
    else
      match ReadQuoted(t[1..])
      case None => None
      case Some(p) => Some(([t[0]] + p.0, p.1))
  }

  /** A quoted, escaped field reads back as the original text. */
  lemma {:induction false} QuotedFieldRoundTrip(s: string, rest: string)
    requires rest == [] || rest[0] != '"'
    ensures ReadQuoted(EscapeQuotes(s) + "\"" + rest) == Some((s, rest))
    decreases |s|
  {
    var t := EscapeQuotes(s) + "\"" + rest;
    if s == [] {
      assert t == "\"" + rest;
      assert t[1..] == rest;
    } else {
      QuotedFieldRoundTrip(s[1..], rest);
      var tail := EscapeQuotes(s[1..]) + "\"" + rest;
      if s[0] == '"' {
        assert t == "\"\"" + tail;
        assert t[2..] == tail;
        assert s == "\"" + s[1..];
      } else {
        assert t == [s[0]] + tail;
        assert t[1..] == tail;
        assert s == [s[0]] + s[1..];
      }
    }
  }
}
