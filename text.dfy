/** The handful of Python string and integer conversions the power-supply
    session relies on: `str.split` and `str.join` on one separator character,
    `str(int)`, `int(str)` for decimal text with the whitespace it skips,
    and the zero padding of `strftime` fields. */
module Text {

  datatype Option<+T> = None | Some(value: T)

  // ---------------------------------------------------------------------
  // Splitting and joining on one separator character

  /** Number of occurrences of `c` in `s`. */
  function Count(s: string, c: char): nat
  {
    if |s| == 0 then 0 else (if s[0] == c then 1 else 0) + Count(s[1..], c)
  }

  /** Python's `s.split(sep)` for a one-character separator: every occurrence
      of `sep` ends a field, so an empty string gives one empty field. */
  function Split(s: string, sep: char): (fields: seq<string>)
    ensures |fields| == Count(s, sep) + 1
    ensures forall i :: 0 <= i < |fields| ==> sep !in fields[i]
  {
    if |s| == 0 then [""]
    else
      var rest := Split(s[1..], sep);
      if s[0] == sep then [""] + rest
      else [[s[0]] + rest[0]] + rest[1..]
  }

  /** Python's `sep.join(fields)`. */
  function Join(fields: seq<string>, sep: char): string
  {
    if |fields| == 0 then ""
    else if |fields| == 1 then fields[0]
    else fields[0] + [sep] + Join(fields[1..], sep)
  }

  /** Joining the fields of a split gives back the original text. */
  lemma {:induction false} JoinSplit(s: string, sep: char)
    ensures Join(Split(s, sep), sep) == s
  {
    if |s| > 0 {
      var rest := Split(s[1..], sep);
      JoinSplit(s[1..], sep);
      if s[0] == sep {
        assert Split(s, sep) == [""] + rest;
        assert ([""] + rest)[1..] == rest;
        assert Join(Split(s, sep), sep) == "" + [sep] + Join(rest, sep);
        assert s == [s[0]] + s[1..];
      } else {
        var fields := [[s[0]] + rest[0]] + rest[1..];
        assert Split(s, sep) == fields;
        if |rest| == 1 {
          assert Join(fields, sep) == [s[0]] + rest[0];
          assert Join(rest, sep) == rest[0];
        } else {
          assert fields[1..] == rest[1..];
          assert Join(fields, sep) == [s[0]] + rest[0] + [sep] + Join(rest[1..], sep);
          assert Join(rest, sep) == rest[0] + [sep] + Join(rest[1..], sep);
        }
        assert s == [s[0]] + s[1..];
      }
    }
  }

  /** A text without the separator is a single field. */
  lemma {:induction false} SplitNoSeparator(a: string, sep: char)
    requires sep !in a
    ensures Split(a, sep) == [a]
  {
    if |a| > 0 {
      assert sep !in a[1..];
      SplitNoSeparator(a[1..], sep);
      assert [a[0]] + a[1..] == a;
    }
  }

  /** A separator-free prefix followed by the separator is split off as the
      first field. */
  lemma {:induction false} SplitPrefix(a: string, sep: char, b: string)
    requires sep !in a
    ensures Split(a + [sep] + b, sep) == [a] + Split(b, sep)
  {
    var s := a + [sep] + b;
    if |a| == 0 {
      assert s[0] == sep && s[1..] == b;
    } else {
      assert sep !in a[1..];
      SplitPrefix(a[1..], sep, b);
      assert s[0] == a[0] && s[1..] == a[1..] + [sep] + b;
      var rest := Split(s[1..], sep);
      assert rest == [a[1..]] + Split(b, sep);
      assert rest[0] == a[1..] && rest[1..] == Split(b, sep);
      assert [a[0]] + a[1..] == a;
    }
  }

  /** Three separator-free texts joined by the separator split back into
      those three texts. */
  lemma SplitThree(a: string, b: string, c: string, sep: char)
    requires sep !in a && sep !in b && sep !in c
    ensures Split(a + [sep] + b + [sep] + c, sep) == [a, b, c]
  {
    SplitNoSeparator(c, sep);
    SplitPrefix(b, sep, c);
    assert a + [sep] + b + [sep] + c == a + [sep] + (b + [sep] + c);
    SplitPrefix(a, sep, b + [sep] + c);
  }

  /** Splitting a join of separator-free fields gives back those fields. */
  lemma {:induction false} SplitJoin(fields: seq<string>, sep: char)
    requires |fields| > 0
    requires forall i :: 0 <= i < |fields| ==> sep !in fields[i]
    ensures Split(Join(fields, sep), sep) == fields
  {
    if |fields| == 1 {
      SplitNoSeparator(fields[0], sep);
    } else {
      SplitJoin(fields[1..], sep);
      SplitPrefix(fields[0], sep, Join(fields[1..], sep));
      assert [fields[0]] + fields[1..] == fields;
    }
  }

  // ---------------------------------------------------------------------
  // Decimal digits

  predicate IsDigit(c: char)
  {
    '0' <= c <= '9'
  }

  predicate AllDigits(s: string)
  {
    forall i :: 0 <= i < |s| ==> IsDigit(s[i])
  }

  /** Non-empty and made of ASCII decimal digits only. */
  predicate IsDecimal(s: string)
  {
    |s| > 0 && AllDigits(s)
  }

  function DigitChar(d: nat): (c: char)
    requires d < 10
    ensures IsDigit(c)
  {
    (48 + d) as char
  }

  function DigitValue(c: char): (d: nat)
    requires IsDigit(c)
    ensures d < 10 && DigitChar(d) == c
  {
    (c as int - 48) as nat
  }

  /** The number a string of digits denotes, most significant digit first. */
  function DigitsValue(s: string): nat
    requires AllDigits(s)
  {
    if |s| == 0 then 0
    else DigitsValue(s[..|s| - 1]) * 10 + DigitValue(s[|s| - 1])
  }

  /** Python's `str(n)` for a natural number: shortest decimal form. */
  function NatToDecimal(n: nat): (s: string)
    ensures IsDecimal(s)
    ensures |s| > 1 ==> s[0] != '0'
  {
    if n < 10 then [DigitChar(n)] else NatToDecimal(n / 10) + [DigitChar(n % 10)]
  }

  /** Python's `str(i)` for any integer: a minus sign exactly for negative
      numbers, then the decimal digits of the magnitude. */
  function IntToDecimal(i: int): (s: string)
    ensures i < 0 ==> |s| > 1 && s[0] == '-' && IsDecimal(s[1..]) && (|s| > 2 ==> s[1] != '0')
    ensures i >= 0 ==> IsDecimal(s) && (|s| > 1 ==> s[0] != '0')
  {
    if i < 0 then "-" + NatToDecimal(-i) else NatToDecimal(i)
  }

  lemma {:induction false} DigitsValueOfDecimal(n: nat)
    ensures DigitsValue(NatToDecimal(n)) == n
  {
    if n >= 10 {
      DigitsValueOfDecimal(n / 10);
      var s := NatToDecimal(n);
      assert s[..|s| - 1] == NatToDecimal(n / 10);
    }
  }

  // ---------------------------------------------------------------------
  // Whitespace stripping, as `int()` does before parsing

  /** The ASCII characters `int()` skips around the digits: tab, line
      feed, vertical tab, form feed, carriage return and space. (The
      separators 0x1C..0x1F, which `str.strip()` would remove, are not
      skipped by `int()`.) */
  predicate IsSpace(c: char)
  {
    (9 <= c as int <= 13) || c == ' '
  }

  function StripLeft(s: string): (t: string)
    ensures |t| <= |s| && t == s[|s| - |t|..]
    ensures |t| > 0 ==> !IsSpace(t[0])
    ensures forall i :: 0 <= i < |s| - |t| ==> IsSpace(s[i])
  {
    if |s| > 0 && IsSpace(s[0]) then StripLeft(s[1..]) else s
  }

  function StripRight(s: string): (t: string)
    ensures |t| <= |s| && t == s[..|t|]
    ensures |t| > 0 ==> !IsSpace(t[|t| - 1])
    ensures forall i :: |t| <= i < |s| ==> IsSpace(s[i])
  {
    if |s| > 0 && IsSpace(s[|s| - 1]) then StripRight(s[..|s| - 1]) else s
  }

  /** The whitespace trimming `int()` applies before parsing. */
  function Strip(s: string): string
  {
    StripRight(StripLeft(s))
  }

  /** Text that neither starts nor ends with whitespace is left as it is. */
  lemma StripUntrimmed(s: string)
    requires |s| > 0 && !IsSpace(s[0]) && !IsSpace(s[|s| - 1])
    ensures Strip(s) == s
  {
  }

  // ---------------------------------------------------------------------
  // int(): optional surrounding whitespace, optional sign, decimal digits

  /** Python's `int(s)` on decimal text: `None` where Python raises
      `ValueError`. Only a text with at least one decimal digit parses. */
  function ParseInt(s: string): (r: Option<int>)
    ensures r.Some? ==> exists i :: 0 <= i < |s| && IsDigit(s[i])
  {
    var t := Strip(s);
    if |t| > 0 && (t[0] == '-' || t[0] == '+') then
      if IsDecimal(t[1..]) then
        var magnitude: int := DigitsValue(t[1..]);
        Some(if t[0] == '-' then -magnitude else magnitude)
      else None
    else if IsDecimal(t) then Some(DigitsValue(t))
    else None
  }

  /** `int(str(i)) == i`. */
  lemma ParseIntDecimal(i: int)
    ensures ParseInt(IntToDecimal(i)) == Some(i)
  {
    var d := NatToDecimal(if i < 0 then -i else i);
    var s := IntToDecimal(i);
    assert IsDigit(d[|d| - 1]) && !IsSpace(d[|d| - 1]);
    StripUntrimmed(s);
    DigitsValueOfDecimal(if i < 0 then -i else i);
    if i < 0 {
      assert s[1..] == d;
    } else {
      assert !IsSpace(s[0]) && s[0] != '-' && s[0] != '+';
    }
  }

  /** Leading whitespace is skipped up to the first other character. */
  lemma {:induction false} StripLeftSpaces(lead: string, rest: string)
    requires forall i :: 0 <= i < |lead| ==> IsSpace(lead[i])
    requires |rest| > 0 && !IsSpace(rest[0])
    ensures StripLeft(lead + rest) == rest
  {
    if |lead| > 0 {
      assert (lead + rest)[1..] == lead[1..] + rest;
      StripLeftSpaces(lead[1..], rest);
    }
  }

  /** Trailing whitespace is skipped back to the last other character. */
  lemma {:induction false} StripRightSpaces(core: string, trail: string)
    requires |core| > 0 && !IsSpace(core[|core| - 1])
    requires forall i :: 0 <= i < |trail| ==> IsSpace(trail[i])
    ensures StripRight(core + trail) == core
  {
    if |trail| > 0 {
      var t := trail[..|trail| - 1];
      assert (core + trail)[..|core + trail| - 1] == core + t;
      StripRightSpaces(core, t);
    } else {
      assert core + trail == core;
    }
  }

  /** Whitespace on both sides of a text that neither starts nor ends with
      whitespace is exactly what `Strip` removes. */
  lemma StripFramed(lead: string, core: string, trail: string)
    requires forall i :: 0 <= i < |lead| ==> IsSpace(lead[i])
    requires forall i :: 0 <= i < |trail| ==> IsSpace(trail[i])
    requires |core| > 0 && !IsSpace(core[0]) && !IsSpace(core[|core| - 1])
    ensures Strip(lead + core + trail) == core
  {
    assert lead + core + trail == lead + (core + trail);
    StripLeftSpaces(lead, core + trail);
    StripRightSpaces(core, trail);
  }

  /** `int()` accepts whitespace, an optional sign, decimal digits and
      whitespace, and gives the signed value of the digits; leading zeros
      and a line terminator, as in `"02\r"`, are accepted. */
  lemma ParseIntOfText(lead: string, sign: string, d: string, trail: string)
    requires forall i :: 0 <= i < |lead| ==> IsSpace(lead[i])
    requires forall i :: 0 <= i < |trail| ==> IsSpace(trail[i])
    requires |sign| <= 1 && (|sign| == 1 ==> sign[0] == '-' || sign[0] == '+')
    requires IsDecimal(d)
    ensures ParseInt(lead + sign + d + trail) ==
              Some(if sign == ['-'] then -(DigitsValue(d) as int) else DigitsValue(d))
  {
    var core := sign + d;
    assert core[0] == (if |sign| == 1 then sign[0] else d[0]);
    assert core[|core| - 1] == d[|d| - 1];
    assert lead + sign + d + trail == lead + core + trail;
    StripFramed(lead, core, trail);
    ParseIntSigned(lead + sign + d + trail, sign, d);
  }

  /** Whitespace, an optional sign, decimal digits and whitespace: the
      pieces of a text `int()` accepts. */
  predicate IntegerPieces(lead: string, sign: string, d: string, trail: string)
  {
    && (forall i :: 0 <= i < |lead| ==> IsSpace(lead[i]))
    && (forall i :: 0 <= i < |trail| ==> IsSpace(trail[i]))
    && |sign| <= 1 && (|sign| == 1 ==> sign[0] == '-' || sign[0] == '+')
    && IsDecimal(d)
  }

  /** Conversely, every text `int()` accepts is made of those pieces, so
      `"2x"` and `"2 2"` are refused. */
  lemma ParseIntAccepted(s: string)
    requires ParseInt(s).Some?
    ensures exists lead, sign, d, trail :: s == lead + sign + d + trail && IntegerPieces(lead, sign, d, trail)
  {
    var l := StripLeft(s);
    var t := StripRight(l);
    var lead, trail := s[..|s| - |l|], l[|t|..];
    forall i | 0 <= i < |trail| ensures IsSpace(trail[i]) {
      assert trail[i] == l[|t| + i];
    }
    var sign, d := StrippedPieces(s);
    Reassemble(s, l, t, sign, d);
    assert IntegerPieces(lead, sign, d, trail);
  }

  /** A text cut into a prefix, a middle cut in two, and a suffix. */
  lemma Reassemble(s: string, l: string, t: string, sign: string, d: string)
    requires |l| <= |s| && l == s[|s| - |l|..]
    requires |t| <= |l| && t == l[..|t|]
    requires t == sign + d
    ensures s == s[..|s| - |l|] + sign + d + l[|t|..]
  {
    assert s == s[..|s| - |l|] + l;
    assert l == t + l[|t|..];
  }

  /** What `int()` accepted after stripping is an optional sign and digits. */
  lemma StrippedPieces(s: string) returns (sign: string, d: string)
    requires ParseInt(s).Some?
    ensures Strip(s) == sign + d
    ensures |sign| <= 1 && (|sign| == 1 ==> sign[0] == '-' || sign[0] == '+')
    ensures IsDecimal(d)
  {
    var t := Strip(s);
    if |t| > 0 && (t[0] == '-' || t[0] == '+') {
      sign, d := t[..1], t[1..];
    } else {
      sign, d := [], t;
    }
  }

  /** A text that strips to an optional sign and decimal digits parses to
      their signed value. */
  lemma ParseIntSigned(s: string, sign: string, d: string)
    requires |sign| <= 1 && (|sign| == 1 ==> sign[0] == '-' || sign[0] == '+')
    requires IsDecimal(d) && Strip(s) == sign + d
    ensures ParseInt(s) == Some(if sign == ['-'] then -(DigitsValue(d) as int) else DigitsValue(d))
  {
    var t := Strip(s);
    if |sign| == 1 {
      assert t[0] == sign[0] && t[1..] == d;
    } else {
      assert t == d && t[0] != '-' && t[0] != '+';
    }
  }

  // ---------------------------------------------------------------------
  // Zero padding, as `strftime` pads its numeric fields

  /** `n` in decimal, left-padded with '0' to `width` characters; a number
      with more digits than that is never truncated. */
  function ZeroPad(n: nat, width: nat): (s: string)
    ensures AllDigits(s)
    ensures |s| == if |NatToDecimal(n)| >= width then |NatToDecimal(n)| else width
    ensures DigitsValue(s) == n
  {
    var d := NatToDecimal(n);
    DigitsValueOfDecimal(n);
    if |d| >= width then d
    else
      var z := seq(width - |d|, _ => '0');
      LeadingZeros(z, d);
      z + d
  }

  function Pow10(k: nat): (p: nat)
    ensures p >= 1
  {
    if k == 0 then 1 else 10 * Pow10(k - 1)
  }

  /** A number below 10^k has at most k decimal digits. */
  lemma {:induction false} DecimalWidth(n: nat, k: nat)
    requires 1 <= k && n < Pow10(k)
    ensures |NatToDecimal(n)| <= k
  {
    if n >= 10 {
      assert k >= 2;
      assert n / 10 < Pow10(k - 1);
      DecimalWidth(n / 10, k - 1);
    }
  }

  /** A number below 10^w fills a zero-padded field of width w exactly. */
  lemma ZeroPadWidth(n: nat, w: nat)
    requires 1 <= w && n < Pow10(w)
    ensures |ZeroPad(n, w)| == w
  {
    DecimalWidth(n, w);
  }

  lemma {:induction false} LeadingZeros(z: string, d: string)
    requires forall i :: 0 <= i < |z| ==> z[i] == '0'
    requires AllDigits(d)
    ensures AllDigits(z + d) && DigitsValue(z + d) == DigitsValue(d)
  {
    if |d| > 0 {
      var s := z + d;
      assert s[..|s| - 1] == z + d[..|d| - 1];
      LeadingZeros(z, d[..|d| - 1]);
    } else {
      assert z + d == z;
      ZerosValue(z);
    }
  }

  lemma {:induction false} ZerosValue(z: string)
    requires forall i :: 0 <= i < |z| ==> z[i] == '0'
    ensures AllDigits(z) && DigitsValue(z) == 0
  {
    if |z| > 0 {
      ZerosValue(z[..|z| - 1]);
    }
  }
}
