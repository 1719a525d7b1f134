/** String helpers standing in for the Python `str` methods the plugin uses.
    Case mapping and white space follow Python 2 byte strings (ASCII). */
module Text {
  import opened Wrappers

  /** `''.join(parts)` */
  function Join(parts: seq<string>): string
  {
    if parts == [] then "" else parts[0] + Join(parts[1..])
  }

  lemma {:induction false} JoinAppend(a: seq<string>, b: seq<string>)
    ensures Join(a + b) == Join(a) + Join(b)
  {
    if a == [] {
      assert a + b == b;
    } else {
      assert (a + b)[1..] == a[1..] + b;
      JoinAppend(a[1..], b);
    }
  }

  /** `sep.join(parts)` */
  function JoinWith(parts: seq<string>, sep: string): string
  {
    if parts == [] then ""
    else if |parts| == 1 then parts[0]
    else parts[0] + sep + JoinWith(parts[1..], sep)
  }

  /** The characters Python 2's `str.strip()` removes: space, \t, \n, \v, \f, \r. */
  predicate IsSpace(c: char)
  {
    c == ' ' || '\t' <= c <= '\r'
  }

  function StripLeft(s: string): string
  {
    if s != [] && IsSpace(s[0]) then StripLeft(s[1..]) else s
  }

  function StripRight(s: string): string
  {
    if s != [] && IsSpace(s[|s| - 1]) then StripRight(s[..|s| - 1]) else s
  }

  /** `s.strip()` */
  function Strip(s: string): string
  {
    StripRight(StripLeft(s))
  }

  /** `len(s.strip()) == 0` */
  predicate IsBlank(s: string)
  {
    |Strip(s)| == 0
  }

  lemma {:induction false} StripLeftSpaces(s: string)
    ensures (forall i :: 0 <= i < |s| ==> IsSpace(s[i])) <==> StripLeft(s) == []
    ensures StripLeft(s) != [] ==> !IsSpace(StripLeft(s)[0])
  {
    if s != [] && IsSpace(s[0]) {
      StripLeftSpaces(s[1..]);
      assert forall i :: 1 <= i < |s| ==> s[i] == s[1..][i - 1];
    }
  }

  lemma {:induction false} StripRightKeepsFirst(s: string)
    requires s != [] && !IsSpace(s[0])
    ensures StripRight(s) != [] && StripRight(s)[0] == s[0]
  {
    if IsSpace(s[|s| - 1]) {
      StripRightKeepsFirst(s[..|s| - 1]);
    }
  }

  /** A string is blank exactly when every character of it is white space. */
  lemma BlankIffAllSpace(s: string)
    ensures IsBlank(s) <==> forall i :: 0 <= i < |s| ==> IsSpace(s[i])
  {
    StripLeftSpaces(s);
    if StripLeft(s) != [] {
      StripRightKeepsFirst(StripLeft(s));
    }
  }

  function LowerChar(c: char): char
  {
    if 'A' <= c <= 'Z' then (c as int + 32) as char else c
  }

  function UpperChar(c: char): char
  {
    if 'a' <= c <= 'z' then (c as int - 32) as char else c
  }

  /** `s.lower()` */
  function Lower(s: string): (r: string)
    ensures |r| == |s|
  {
    seq(|s|, i requires 0 <= i < |s| => LowerChar(s[i]))
  }

  /** `s.capitalize()`: first character upper case, the rest lower case. */
  function Capitalize(s: string): string
  {
    if s == [] then [] else [UpperChar(s[0])] + Lower(s[1..])
  }

  /** `s.startswith(prefix)` */
  predicate StartsWith(s: string, prefix: string)
  {
    prefix <= s
  }

  /** `s.partition(c)[0]`, which is also `s.split(c)[0]`: the text before the
      first occurrence of `c`, or all of `s` when `c` does not occur. */
  function BeforeFirst(s: string, c: char): (r: string)
    ensures r <= s
    ensures c !in r
    ensures |r| < |s| ==> s[|r|] == c
    ensures c !in s ==> r == s
  {
    if s == [] then []
    else if s[0] == c then []
    else [s[0]] + BeforeFirst(s[1..], c)
  }

  // ---- decimal numbers ----

  predicate IsDigit(c: char)
  {
    '0' <= c <= '9'
  }

  function DigitChar(d: nat): (c: char)
    requires d < 10
    ensures IsDigit(c)
  {
    (48 + d) as char
  }

  function DigitValue(c: char): nat
    requires IsDigit(c)
  {
    c as int - 48
  }

  predicate AllDigits(s: string)
  {
    forall i :: 0 <= i < |s| ==> IsDigit(s[i])
  }

  /** The number a run of decimal digits denotes, most significant first. */
  function DigitsValue(s: string): nat
    requires AllDigits(s)
  {
    if s == [] then 0 else DigitsValue(s[..|s| - 1]) * 10 + DigitValue(s[|s| - 1])
  }

  /** `str(n)` for a natural number. */
  function NatToString(n: nat): string
  {
    if n < 10 then [DigitChar(n)] else NatToString(n / 10) + [DigitChar(n % 10)]
  }

  /** `str(i)`, and also what `'{}'.format(i)` gives for an int. */
  function IntToString(i: int): string
  {
    if i < 0 then "-" + NatToString(-i) else NatToString(i)
  }

  /** The decimal form of a natural number is a non-empty run of digits that
      denotes that number. */
  lemma {:induction false} NatToStringValue(n: nat)
    ensures |NatToString(n)| > 0 && AllDigits(NatToString(n))
    ensures DigitsValue(NatToString(n)) == n
  {
    if n >= 10 {
      NatToStringValue(n / 10);
      var s := NatToString(n);
      assert s[..|s| - 1] == NatToString(n / 10);
    }
  }

  /** `n` written with `width` digits, zero-padded on the left, as the
      `%03d`-style directives of `strftime` (`%j`, `%m`, `%H`, ...) print it. */
  function ZeroPad(n: nat, width: nat): (r: string)
    ensures |r| == width && AllDigits(r)
  {
    if width == 0 then [] else ZeroPad(n / 10, width - 1) + [DigitChar(n % 10)]
  }

  function Pow10(k: nat): (r: nat)
    ensures r > 0
  {
    if k == 0 then 1 else 10 * Pow10(k - 1)
  }

  /** Zero-padding loses nothing when the number fits the width. */
  lemma {:induction false} ZeroPadValue(n: nat, width: nat)
    requires n < Pow10(width)
    ensures DigitsValue(ZeroPad(n, width)) == n
  {
    if width > 0 {
      var r := ZeroPad(n, width);
      assert r[..|r| - 1] == ZeroPad(n / 10, width - 1);
      ZeroPadValue(n / 10, width - 1);
    }
  }

  /** The number of decimal digits `s` starts with. */
  function LeadingDigits(s: string): (k: nat)
    ensures k <= |s|
    ensures forall i :: 0 <= i < k ==> IsDigit(s[i])
    ensures k < |s| ==> !IsDigit(s[k])
  {
    if s != [] && IsDigit(s[0]) then 1 + LeadingDigits(s[1..]) else 0
  }

  /** What Python 2 reads as a base-10 integer from a C string: white space,
      an optional sign, white space again, at least one digit, and nothing
      but white space after the digits. */
  function ParseDigits(c: string): Option<int>
  {
    var t := StripLeft(c);
    var signed := t != [] && (t[0] == '-' || t[0] == '+');
    var u := StripLeft(if signed then t[1..] else t);
    var k := LeadingDigits(u);
    if k == 0 || StripLeft(u[k..]) != [] then None
    else
      var v: int := DigitsValue(u[..k]);
      Some(if signed && t[0] == '-' then -v else v)
  }

  /** Python 2's `int(s)` for a byte string. `None` stands for the
      `ValueError` it raises; a NUL character always makes it raise, since
      only the text before the first NUL is parsed and the rest must be empty. */
  function ParseInt(s: string): (r: Option<int>)
    ensures '\0' !in s ==> r == ParseDigits(s)
    ensures '\0' in s ==> r.None?
  {
    if '\0' in s then None else ParseDigits(s)
  }

  /** A lower-case hexadecimal digit. */
  function HexDigit(n: nat): char
    requires n < 16
  {
    if n < 10 then ('0' as int + n) as char else ('a' as int + n - 10) as char
  }

  /** `n` in `width` lower-case hexadecimal digits. */
  function Hex(n: nat, width: nat): (r: string)
    ensures |r| == width
  {
    if width == 0 then [] else Hex(n / 16, width - 1) + [HexDigit(n % 16)]
  }

  /** How `repr` writes one character inside `quote`s: the quote and the
      backslash escaped, \t \n \r by name, other control and non-ASCII
      characters by their code. */
  function ReprChar(c: char, quote: char): string
  {
    if c == quote || c == '\\' then ['\\', c]
    else if c == '\t' then "\\t"
    else if c == '\n' then "\\n"
    else if c == '\r' then "\\r"
    else if c < ' ' || c as int >= 0x7f then
      if c as int < 0x100 then "\\x" + Hex(c as int, 2)
      else if c as int < 0x1_0000 then "\\u" + Hex(c as int, 4)
      else "\\U" + Hex(c as int, 8)
    else [c]
  }

  function ReprChars(s: string, quote: char): string
  {
    if s == [] then "" else ReprChar(s[0], quote) + ReprChars(s[1..], quote)
  }

  /** The quote `repr` uses: double quotes for a text with a single quote
      and no double quote, single quotes otherwise. */
  function ReprQuote(s: string): char
  {
    if '\'' in s && '"' !in s then '"' else '\''
  }

  /** `repr(s)` of a Python 2 string. */
  function Repr(s: string): (r: string)
    ensures |r| >= 2 + |s|
    ensures r[0] == r[|r| - 1] == ReprQuote(s)
  {
    var q := ReprQuote(s);
    ReprCharsLength(s, q);
    [q] + ReprChars(s, q) + [q]
  }

  lemma {:induction false} ReprCharsLength(s: string, quote: char)
    ensures |ReprChars(s, quote)| >= |s|
  {
    if s != [] {
      ReprCharsLength(s[1..], quote);
    }
  }

  /** Printable ASCII other than the quote and the backslash is written as it is. */
  lemma {:induction false} ReprCharsPlain(s: string, quote: char)
    requires forall i :: 0 <= i < |s| ==> ' ' <= s[i] <= '~' && s[i] != quote && s[i] != '\\'
    ensures ReprChars(s, quote) == s
  {
    if s != [] {
      ReprCharsPlain(s[1..], quote);
      assert s == [s[0]] + s[1..];
    }
  }

  /** A printable ASCII text without a backslash that does not hold both
      quotes is shown between the quotes `repr` picks, unchanged. */
  lemma ReprPlain(s: string)
    requires forall i :: 0 <= i < |s| ==> ' ' <= s[i] <= '~' && s[i] != '\\'
    requires !('\'' in s && '"' in s)
    ensures Repr(s) == [ReprQuote(s)] + s + [ReprQuote(s)]
  {
    ReprCharsPlain(s, ReprQuote(s));
  }

  /** The message of the `ValueError` raised by `int(s)`: a text that reads as
      a number before a NUL is refused for the NUL; otherwise the message shows
      the `repr` of the text after its leading white space, cut to 200 characters. */
  function IntError(s: string): (m: string)
    ensures m == "null byte in argument for int()" <==> ParseDigits(BeforeFirst(s, '\0')).Some?
    ensures ParseDigits(BeforeFirst(s, '\0')).None? ==>
              var t := StripLeft(BeforeFirst(s, '\0'));
              m == "invalid literal for int() with base 10: " + Repr(if |t| < 200 then t else t[..200])
  {
    var c := BeforeFirst(s, '\0');
    if ParseDigits(c).Some? then "null byte in argument for int()"
    else
      var t := StripLeft(c);
      var m := "invalid literal for int() with base 10: " + Repr(if |t| < 200 then t else t[..200]);
      assert m[..12] == "invalid lite";
      m
  }

  /** A run of digits reads as its value. */
  lemma ParseUnsigned(d: string)
    requires d != [] && AllDigits(d)
    ensures ParseDigits(d) == Some(DigitsValue(d) as int)
  {
    assert !IsSpace(d[0]) && d[0] != '-' && d[0] != '+';
    assert StripLeft(d) == d;
    AllDigitsRun(d);
    assert d[..|d|] == d && d[|d|..] == [];
  }

  /** A sign, then at most one space, then a run of digits reads as the
      signed value. */
  lemma ParseSigned(sign: char, gap: string, d: string)
    requires sign == '-' || sign == '+'
    requires gap == "" || gap == " "
    requires d != [] && AllDigits(d)
    ensures ParseDigits([sign] + gap + d) == Some(if sign == '-' then -(DigitsValue(d) as int) else DigitsValue(d))
  {
    var c := [sign] + gap + d;
    assert StripLeft(c) == c;
    assert c[1..] == gap + d;
    assert !IsSpace(d[0]);
    assert StripLeft(d) == d;
    assert StripLeft(gap + d) == d by {
      if gap == " " {
        assert (gap + d)[1..] == d;
      } else {
        assert gap + d == d;
      }
    }
    AllDigitsRun(d);
    assert d[..|d|] == d && d[|d|..] == [];
  }

  /** White space may follow the sign: `int('- 5') == -5`, `int('+ 5') == 5`. */
  lemma SpaceAfterSign(n: nat)
    ensures ParseInt("- " + NatToString(n)) == Some(-(n as int))
    ensures ParseInt("+ " + NatToString(n)) == Some(n)
  {
    NatToStringValue(n);
    var d := NatToString(n);
    ParseSigned('-', " ", d);
    ParseSigned('+', " ", d);
    assert forall i :: 0 <= i < |d| ==> d[i] != '\0';
    assert "- " + d == ['-', ' '] + d;
    assert "+ " + d == ['+', ' '] + d;
  }

  /** A run of digits is read to its end. */
  lemma {:induction false} AllDigitsRun(s: string)
    requires AllDigits(s)
    ensures LeadingDigits(s) == |s|
  {
    if s != [] {
      AllDigitsRun(s[1..]);
    }
  }

  /** For a text without NUL that is not a number and is short, the message
      shows the `repr` of the text after its leading white space. */
  lemma IntErrorShort(s: string)
    requires '\0' !in s && ParseDigits(s).None? && |StripLeft(s)| < 200
    ensures IntError(s) == "invalid literal for int() with base 10: " + Repr(StripLeft(s))
  {
    assert BeforeFirst(s, '\0') == s;
  }

  /** The message quotes what follows the leading white space. */
  lemma IntErrorAfterSpace()
    ensures IntError(" x") == "invalid literal for int() with base 10: " + "'x'"
  {
    assert StripLeft(" x") == "x";
    assert ParseDigits(" x").None?;
    IntErrorShort(" x");
    assert ReprQuote("x") == '\'';
    assert ReprChars("x", '\'') == "x";
  }

  /** A text holding a single quote is shown in double quotes. */
  lemma IntErrorQuote()
    ensures IntError("it's") == "invalid literal for int() with base 10: " + "\"it's\""
  {
    var s := "it's";
    assert StripLeft(s) == s && ParseDigits(s).None? by {
      assert LeadingDigits(s) == 0;
    }
    assert Repr(s) == "\"it's\"" by {
      ReprPlain(s);
    }
    IntErrorShort(s);
  }

  /** The decimal form of a number holds no NUL. */
  lemma NatToStringNoNul(n: nat)
    ensures '\0' !in NatToString(n) && '\0' !in IntToString(-(n as int))
  {
    var d := NatToString(n);
    NatToStringValue(n);
    assert forall k :: 0 <= k < |d| ==> IsDigit(d[k]);
    if n > 0 {
      assert IntToString(-(n as int)) == ['-'] + d;
    }
  }

  /** `int(str(i)) == i` */
  lemma IntToStringRoundTrip(i: int)
    ensures ParseInt(IntToString(i)) == Some(i)
  {
    var n: nat := if i < 0 then -i else i;
    var d := NatToString(n);
    assert d != [] && AllDigits(d) && DigitsValue(d) == n by {
      NatToStringValue(n);
    }
    assert '\0' !in IntToString(i) by {
      NatToStringNoNul(n);
    }
    if i < 0 {
      assert ParseDigits(IntToString(i)) == Some(i) by {
        assert IntToString(i) == ['-'] + "" + d;
        ParseSigned('-', "", d);
      }
    } else {
      assert ParseDigits(IntToString(i)) == Some(i) by {
        ParseUnsigned(d);
      }
    }
  }
}
