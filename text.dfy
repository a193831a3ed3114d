/**
 * String helpers that the dashboard takes from JavaScript: decimal
 * rendering of naturals, the leading-digit reading that `parseFloat` does
 * on an investment label, thousands grouping, `includes`, `startsWith` and
 * `trim`.
 */
module Text {

  predicate IsDigit(c: char) { '0' <= c <= '9' }

  predicate AllDigits(s: string) { forall i :: 0 <= i < |s| ==> IsDigit(s[i]) }

  function DigitChar(d: nat): (c: char)
    requires d < 10
    ensures IsDigit(c) && c as int - '0' as int == d
  {
    (d + '0' as int) as char
  }

  function DigitValue(c: char): nat
    requires IsDigit(c)
  {
    c as int - '0' as int
  }

  /** Decimal rendering of `n`, without leading zeros and without grouping. */
  function NatToString(n: nat): (r: string)
    ensures |r| > 0 && AllDigits(r)
    ensures r[0] == '0' ==> n == 0
    decreases n
  {
    if n < 10 then [DigitChar(n)] else NatToString(n / 10) + [DigitChar(n % 10)]
  }

  /** The value of a string of decimal digits, most significant first. */
  function DigitsValue(s: string): nat
    requires AllDigits(s)
  {
    if s == [] then 0 else DigitsValue(s[..|s| - 1]) * 10 + DigitValue(s[|s| - 1])
  }

  lemma {:induction false} NatToStringValue(n: nat)
    ensures DigitsValue(NatToString(n)) == n
    decreases n
  {
    if n >= 10 {
      var r := NatToString(n);
      assert r[..|r| - 1] == NatToString(n / 10);
      NatToStringValue(n / 10);
    }
  }

  /** Distinct naturals render as distinct strings. */
  lemma NatToStringInjective(m: nat, n: nat)
    requires NatToString(m) == NatToString(n)
    ensures m == n
  {
    NatToStringValue(m);
    NatToStringValue(n);
  }

  /** The longest prefix of `s` made of decimal digits. */
  function LeadingDigits(s: string): (r: string)
    ensures AllDigits(r) && |r| <= |s| && r == s[..|r|]
    ensures |r| < |s| ==> !IsDigit(s[|r|])
  {
    if s != [] && IsDigit(s[0]) then [s[0]] + LeadingDigits(s[1..]) else []
  }

  lemma {:induction false} LeadingDigitsOfDigits(d: string, rest: string)
    requires AllDigits(d)
    requires rest == [] || !IsDigit(rest[0])
    ensures LeadingDigits(d + rest) == d
  {
    if d != [] {
      assert (d + rest)[1..] == d[1..] + rest;
      LeadingDigitsOfDigits(d[1..], rest);
    } else {
      assert d + rest == rest;
    }
  }

  /** Drops every '£', '€' and ',' (the `replace(/[£€,]/g, '')` of an investment label). */
  function StripCurrency(s: string): (r: string)
    ensures |r| <= |s|
    ensures forall i :: 0 <= i < |r| ==> r[i] != '£' && r[i] != '€' && r[i] != ','
  {
    if s == [] then []
    else if s[0] == '£' || s[0] == '€' || s[0] == ',' then StripCurrency(s[1..])
    else [s[0]] + StripCurrency(s[1..])
  }

  lemma {:induction false} StripCurrencyConcat(a: string, b: string)
    ensures StripCurrency(a + b) == StripCurrency(a) + StripCurrency(b)
  {
    if a != [] {
      assert (a + b)[1..] == a[1..] + b;
      StripCurrencyConcat(a[1..], b);
    } else {
      assert a + b == b;
    }
  }

  lemma {:induction false} StripCurrencyOfDigits(d: string)
    requires AllDigits(d)
    ensures StripCurrency(d) == d
  {
    if d != [] {
      StripCurrencyOfDigits(d[1..]);
    }
  }

  /**
   * The amount an investment label stands for: currency symbols and
   * thousands separators removed, leading white space skipped as
   * `parseFloat` does, then the leading decimal digits read as a number; a
   * label without leading digits is worth 0.
   */
  function ParseAmount(text: string): nat
  {
    DigitsValue(LeadingDigits(TrimStart(StripCurrency(text))))
  }

  /** White space holds no currency sign or separator. */
  lemma {:induction false} StripCurrencyOfBlank(w: string)
    requires IsBlank(w)
    ensures StripCurrency(w) == w
  {
    if w != [] {
      StripCurrencyOfBlank(w[1..]);
    }
  }

  /** Leading white space is skipped whatever follows it. */
  lemma {:induction false} TrimStartSkipsBlank(w: string, t: string)
    requires IsBlank(w)
    ensures TrimStart(w + t) == TrimStart(t)
  {
    if w != [] {
      assert (w + t)[0] == w[0];
      assert (w + t)[1..] == w[1..] + t;
      TrimStartSkipsBlank(w[1..], t);
    } else {
      assert w + t == t;
    }
  }

  /** White space in front of a label does not change its amount. */
  lemma ParseAmountSkipsSpace(w: string, s: string)
    requires IsBlank(w)
    ensures ParseAmount(w + s) == ParseAmount(s)
  {
    StripCurrencyConcat(w, s);
    StripCurrencyOfBlank(w);
    TrimStartSkipsBlank(w, StripCurrency(s));
  }

  /** Inserts a ',' between every group of three digits, counted from the right. */
  function Grouped(d: string): (r: string)
    requires AllDigits(d)
    ensures |r| >= |d|
    decreases |d|
  {
    if |d| <= 3 then d else Grouped(d[..|d| - 3]) + "," + d[|d| - 3..]
  }

  /** Removing the separators from a grouped rendering gives the digits back. */
  lemma {:induction false} GroupedStrips(d: string)
    requires AllDigits(d)
    ensures StripCurrency(Grouped(d)) == d
    decreases |d|
  {
    if |d| <= 3 {
      StripCurrencyOfDigits(d);
    } else {
      var head, tail := d[..|d| - 3], d[|d| - 3..];
      GroupedStrips(head);
      StripCurrencyConcat(Grouped(head) + ",", tail);
      StripCurrencyConcat(Grouped(head), ",");
      StripCurrencyOfDigits(tail);
      assert head + tail == d;
    }
  }

  /** `n` rendered with thousands separators, as "12,000". */
  function FormatThousands(n: nat): string
  {
    Grouped(NatToString(n))
  }

  /**
   * Reading back a grouped rendering, after a currency prefix and white
   * space and followed by anything that is not a digit, gives the number.
   */
  lemma ParseFormatted(n: nat, prefix: string, space: string, suffix: string)
    requires StripCurrency(prefix) == [] && IsBlank(space)
    requires suffix == [] || !IsDigit(suffix[0])
    requires StripCurrency(suffix) == suffix
    ensures ParseAmount(prefix + space + FormatThousands(n) + suffix) == n
  {
    var d := NatToString(n);
    StrippedFormatted(n, prefix, space, suffix);
    TrimStartSkipsBlank(space, d + suffix);
    DigitsFirst(d, suffix);
    LeadingDigitsOfDigits(d, suffix);
    NatToStringValue(n);
  }

  /** Removing the currency marks leaves the white space, the plain digits and the suffix. */
  lemma StrippedFormatted(n: nat, prefix: string, space: string, suffix: string)
    requires StripCurrency(prefix) == [] && IsBlank(space)
    requires StripCurrency(suffix) == suffix
    ensures StripCurrency(prefix + space + FormatThousands(n) + suffix) == space + (NatToString(n) + suffix)
  {
    var f, d := FormatThousands(n), NatToString(n);
    GroupedStrips(d);
    StripCurrencyOfBlank(space);
    StripCurrencyConcat(prefix, space);
    assert StripCurrency(prefix + space) == space by {
      assert [] + space == space;
    }
    StripCurrencyConcat(prefix + space, f);
    StripCurrencyConcat(prefix + space + f, suffix);
  }

  /** A string that starts with a digit has no leading white space to skip. */
  lemma DigitsFirst(d: string, suffix: string)
    requires AllDigits(d) && d != []
    ensures TrimStart(d + suffix) == d + suffix
  {
    assert (d + suffix)[0] == d[0];
  }

  /** `s.includes(sub)`. */
  predicate Contains(s: string, sub: string)
    decreases |s|
  {
    (|sub| <= |s| && s[..|sub|] == sub) || (s != [] && Contains(s[1..], sub))
  }

  lemma {:induction false} ContainsAt(s: string, sub: string, i: nat)
    requires i + |sub| <= |s| && s[i..i + |sub|] == sub
    ensures Contains(s, sub)
  {
    if i > 0 {
      assert s[1..][i - 1..i - 1 + |sub|] == s[i..i + |sub|];
      ContainsAt(s[1..], sub, i - 1);
    }
  }

  /** A string that contains `sub` contains its first character. */
  lemma {:induction false} ContainsFirstChar(s: string, sub: string)
    requires sub != [] && Contains(s, sub)
    ensures sub[0] in s
    decreases |s|
  {
    if |sub| <= |s| && s[..|sub|] == sub {
      assert s[0] == sub[0];
    } else {
      ContainsFirstChar(s[1..], sub);
    }
  }

  /** `s.startsWith(prefix)`. */
  predicate StartsWith(s: string, prefix: string)
  {
    |prefix| <= |s| && s[..|prefix|] == prefix
  }

  /** The characters JavaScript's `trim` removes: WhiteSpace and LineTerminator. */
  predicate IsSpace(c: char)
  {
    c == ' ' || c == '\t' || c == '\n' || c == '\r' || c == '\U{000B}' || c == '\U{000C}'
    || c == '\U{00A0}' || c == '\U{1680}' || ('\U{2000}' <= c <= '\U{200A}')
    || c == '\U{2028}' || c == '\U{2029}' || c == '\U{202F}' || c == '\U{205F}'
    || c == '\U{3000}' || c == '\U{FEFF}'
  }

  predicate IsBlank(s: string) { forall i :: 0 <= i < |s| ==> IsSpace(s[i]) }

  function TrimStart(s: string): (r: string)
    ensures |r| <= |s| && r == s[|s| - |r|..]
    ensures forall i :: 0 <= i < |s| - |r| ==> IsSpace(s[i])
    ensures IsBlank(s[..|s| - |r|])
    ensures r != [] ==> !IsSpace(r[0])
  {
    if s != [] && IsSpace(s[0]) then
      var r := TrimStart(s[1..]);
      assert r == s[|s| - |r|..];
      r
    else s
  }

  function TrimEnd(s: string): (r: string)
    ensures |r| <= |s| && r == s[..|r|]
    ensures IsBlank(s[|r|..])
    ensures r != [] ==> !IsSpace(r[|r| - 1])
  {
    if s != [] && IsSpace(s[|s| - 1]) then
      var r := TrimEnd(s[..|s| - 1]);
      assert s[|r|..] == s[..|s| - 1][|r|..] + [s[|s| - 1]];
      r
    else s
  }

  /** `s.trim()`: the blank characters at both ends removed. */
  function Trim(s: string): (r: string)
    ensures |r| <= |s|
  {
    TrimEnd(TrimStart(s))
  }

  /**
   * What `Trim` leaves is a prefix of a suffix of `s`: the suffix after the
   * leading blanks, cut before the trailing blanks. It neither starts nor
   * ends with a blank.
   */
  lemma TrimIsInnerSlice(s: string)
    ensures var t, r := TrimStart(s), Trim(s);
      t == s[|s| - |t|..] && IsBlank(s[..|s| - |t|])
      && |r| <= |t| && r == t[..|r|] && IsBlank(t[|r|..])
      && (r != [] ==> !IsSpace(r[0]) && !IsSpace(r[|r| - 1]))
  {
    var t := TrimStart(s);
    var r := TrimEnd(t);
    assert r != [] ==> r[0] == t[0];
  }

  lemma TrimStartEmptyIffBlank(s: string)
    ensures TrimStart(s) == [] <==> IsBlank(s)
  {
    var r := TrimStart(s);
    if r != [] {
      assert s[|s| - |r|] == r[0];
    } else {
      assert s[..|s|] == s;
    }
  }

  lemma TrimEndEmptyIffBlank(s: string)
    ensures TrimEnd(s) == [] <==> IsBlank(s)
  {
    var r := TrimEnd(s);
    if r != [] {
      assert s[|r| - 1] == r[|r| - 1];
    } else {
      assert s[0..] == s;
    }
  }

  /** A string trims to "" exactly when all of its characters are blank. */
  lemma TrimEmptyIffBlank(s: string)
    ensures Trim(s) == [] <==> IsBlank(s)
  {
    var t := TrimStart(s);
    TrimStartEmptyIffBlank(s);
    TrimEndEmptyIffBlank(t);
    if t != [] {
      assert !IsSpace(t[0]);
    }
  }

  /** Trimming twice is trimming once. */
  lemma TrimIdempotent(s: string)
    ensures Trim(Trim(s)) == Trim(s)
  {
    TrimIsInnerSlice(s);
  }
}
