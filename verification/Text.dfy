/** The pieces of Rust's text handling that the daemon's parsers use. */
module Text {
  import opened Types

  /** `char::is_whitespace`. */
  predicate IsSpace(c: char) {
    var n := c as int;
    || 9 <= n <= 13 || n == 0x20 || n == 0x85 || n == 0xA0 || n == 0x1680
    || 0x2000 <= n <= 0x200A || n == 0x2028 || n == 0x2029 || n == 0x202F || n == 0x205F || n == 0x3000
  }

  /** Unicode's white space, character by character. */
  lemma SpacesAre(c: char)
    ensures IsSpace(c) <==>
            c as int in {0x9, 0xA, 0xB, 0xC, 0xD, 0x20, 0x85, 0xA0, 0x1680, 0x2000, 0x2001, 0x2002, 0x2003, 0x2004,
                         0x2005, 0x2006, 0x2007, 0x2008, 0x2009, 0x200A, 0x2028, 0x2029, 0x202F, 0x205F, 0x3000}
  {
  }

  /** A non-empty piece of text without white space. */
  predicate IsToken(s: string) {
    s != [] && forall i :: 0 <= i < |s| ==> !IsSpace(s[i])
  }

  predicate IsGap(s: string) {
    forall i :: 0 <= i < |s| ==> IsSpace(s[i])
  }

  function TokenLength(s: string): (n: nat)
    ensures n <= |s|
    ensures forall i :: 0 <= i < n ==> !IsSpace(s[i])
    ensures n < |s| ==> IsSpace(s[n])
  {
    if s == [] || IsSpace(s[0]) then 0 else 1 + TokenLength(s[1..])
  }

  /** `str::split_whitespace`. */
  function SplitWhitespace(s: string): (tokens: seq<string>)
    ensures forall t :: t in tokens ==> IsToken(t)
    decreases |s|
  {
    if s == [] then []
    else if IsSpace(s[0]) then SplitWhitespace(s[1..])
    else
      var n := TokenLength(s);
      [s[..n]] + SplitWhitespace(s[n..])
  }

  /** Text laid out with a gap before each token and one at the end. */
  function LaidOut(gaps: seq<string>, tokens: seq<string>): string
    requires |gaps| == |tokens| + 1
  {
    if tokens == [] then gaps[0] else gaps[0] + tokens[0] + LaidOut(gaps[1..], tokens[1..])
  }

  /** Gaps are white space, and only those at the two ends may be empty. */
  predicate Separates(gaps: seq<string>) {
    && (forall i :: 0 <= i < |gaps| ==> IsGap(gaps[i]))
    && (forall i :: 0 < i < |gaps| - 1 ==> gaps[i] != [])
  }

  lemma {:induction false} SkipGap(gap: string, s: string)
    requires IsGap(gap)
    ensures SplitWhitespace(gap + s) == SplitWhitespace(s)
  {
    if gap == [] {
      assert gap + s == s;
    } else {
      assert (gap + s)[1..] == gap[1..] + s;
      SkipGap(gap[1..], s);
    }
  }

  lemma {:induction false} TokenLengthOf(token: string, s: string)
    requires forall i :: 0 <= i < |token| ==> !IsSpace(token[i])
    requires s == [] || IsSpace(s[0])
    ensures TokenLength(token + s) == |token|
  {
    if token == [] {
      assert token + s == s;
    } else {
      assert (token + s)[1..] == token[1..] + s;
      TokenLengthOf(token[1..], s);
    }
  }

  /** Splitting laid out text gives back its tokens, however wide the gaps. */
  lemma {:induction false} SplitLaidOut(gaps: seq<string>, tokens: seq<string>)
    requires |gaps| == |tokens| + 1 && Separates(gaps)
    requires forall t :: t in tokens ==> IsToken(t)
    ensures SplitWhitespace(LaidOut(gaps, tokens)) == tokens
    decreases |tokens|
  {
    if tokens == [] {
      assert gaps[0] + [] == gaps[0];
      SkipGap(gaps[0], []);
    } else {
      var token, rest := tokens[0], LaidOut(gaps[1..], tokens[1..]);
      assert LaidOut(gaps, tokens) == gaps[0] + (token + rest);
      SkipGap(gaps[0], token + rest);
      SplitLaidOut(gaps[1..], tokens[1..]);
      assert rest == [] || IsSpace(rest[0]) by {
        if tokens[1..] == [] {
          assert gaps[1..][0] == gaps[1];
        } else {
          assert gaps[1..][0] == gaps[1] != [];
        }
      }
      assert token in tokens;
      TokenLengthOf(token, rest);
      assert (token + rest)[..|token|] == token && (token + rest)[|token|..] == rest;
      assert tokens == [token] + tokens[1..];
    }
  }

  /** `str::split_once` on a character: the texts before and after its first occurrence. */
  function SplitOnce(s: string, sep: char): Option<(string, string)> {
    if s == [] then None
    else if s[0] == sep then Some(("", s[1..]))
    else
      match SplitOnce(s[1..], sep)
      case None => None
      case Some((before, after)) => Some(([s[0]] + before, after))
  }

  lemma {:induction false} SplitOnceAt(before: string, sep: char, after: string)
    requires sep !in before
    ensures SplitOnce(before + [sep] + after, sep) == Some((before, after))
  {
    var s := before + [sep] + after;
    if before == [] {
      assert s[1..] == after;
    } else {
      assert s[1..] == before[1..] + [sep] + after;
      SplitOnceAt(before[1..], sep, after);
      assert [before[0]] + before[1..] == before;
    }
  }

  lemma {:induction false} SplitOnceNone(s: string, sep: char)
    ensures SplitOnce(s, sep).None? <==> sep !in s
  {
    if s == [] {
    } else {
      SplitOnceNone(s[1..], sep);
      assert s == [s[0]] + s[1..];
    }
  }

  /** Text is determined by its parts around the first, or around the last, separator. */
  lemma SplitFirstUnique(a: string, b: string, c: string, d: string, sep: char)
    requires a + [sep] + b == c + [sep] + d
    requires sep !in a && sep !in c
    ensures a == c && b == d
  {
    SplitOnceAt(a, sep, b);
    SplitOnceAt(c, sep, d);
  }

  lemma LastSeparator(a: string, b: string, sep: char)
    requires sep !in b
    ensures var s := a + [sep] + b;
            s[|a|] == sep && (forall i :: |a| < i < |s| ==> s[i] != sep) && s[..|a|] == a && s[|a| + 1..] == b
  {
  }

  lemma SplitLastUnique(a: string, b: string, c: string, d: string, sep: char)
    requires a + [sep] + b == c + [sep] + d
    requires sep !in b && sep !in d
    ensures a == c && b == d
  {
    LastSeparator(a, b, sep);
    LastSeparator(c, d, sep);
    assert |a| == |c|;
  }

  /** The text after the last separator, or all of it: `rsplit(sep).next()`. */
  function AfterLast(s: string, sep: char): string {
    if s == [] then s
    else if sep in s[1..] then AfterLast(s[1..], sep)
    else if s[0] == sep then s[1..]
    else s
  }

  lemma {:induction false} AfterLastAt(before: string, sep: char, after: string)
    requires sep !in after
    ensures AfterLast(before + [sep] + after, sep) == after
    decreases |before|
  {
    var s := before + [sep] + after;
    if before == [] {
      assert s[1..] == after;
    } else {
      assert s[1..] == before[1..] + [sep] + after;
      assert s[1..][|before| - 1] == sep;
      AfterLastAt(before[1..], sep, after);
    }
  }

  lemma {:induction false} AfterLastAbsent(s: string, sep: char)
    requires sep !in s
    ensures AfterLast(s, sep) == s
  {
    if s == [] {
    } else {
      assert s[0] in s && forall c :: c in s[1..] ==> c in s;
    }
  }

  // ------------------------------------------------------------------------------ numbers

  /** `char::to_digit`. */
  function ToDigit(c: char, radix: nat): Option<nat> {
    var d :=
      if '0' <= c <= '9' then c as int - '0' as int
      else if 'a' <= c <= 'z' then c as int - 'a' as int + 10
      else if 'A' <= c <= 'Z' then c as int - 'A' as int + 10
      else radix;
    if d < radix then Some(d) else None
  }

  function ParseDigits(s: string, radix: nat): Option<nat> {
    if s == [] then Some(0)
    else
      var high, low := ParseDigits(s[..|s| - 1], radix), ToDigit(s[|s| - 1], radix);
      if high.Some? && low.Some? then Some(high.value * radix + low.value) else None
  }

  /** `from_str_radix` of an unsigned type whose largest value is `max`: one leading '+' is
      accepted, no digits or a value too large is an error. */
  function ParseUnsigned(s: string, radix: nat, max: nat): Option<nat> {
    var digits := if s != [] && s[0] == '+' then s[1..] else s;
    var n := ParseDigits(digits, radix);
    if digits != [] && n.Some? && n.value <= max then n else None
  }

  const U16_MAX: nat := 0xFFFF
  const U32_MAX: nat := 0xFFFF_FFFF
  const U64_MAX: nat := 0xFFFF_FFFF_FFFF_FFFF

  function Digit(d: nat): char
    requires d < 10
  {
    '0' + (d as char)
  }

  /** Decimal rendering of a natural number. */
  function Decimal(n: nat): string {
    if n < 10 then [Digit(n)] else Decimal(n / 10) + [Digit(n % 10)]
  }

  lemma {:induction false} DecimalShape(n: nat)
    ensures Decimal(n) != [] && forall i :: 0 <= i < |Decimal(n)| ==> '0' <= Decimal(n)[i] <= '9'
  {
    if n < 10 {
    } else {
      DecimalShape(n / 10);
    }
  }

  lemma {:induction false} ParseDigitsDecimal(n: nat)
    ensures ParseDigits(Decimal(n), 10) == Some(n)
  {
    var s := Decimal(n);
    if n >= 10 {
      ParseDigitsDecimal(n / 10);
      assert s[..|s| - 1] == Decimal(n / 10);
    } else {
      assert s[..|s| - 1] == [];
    }
  }

  /** Reading back a rendered number succeeds exactly when the type can hold it. */
  lemma ParseDecimal(n: nat, max: nat)
    ensures ParseUnsigned(Decimal(n), 10, max) == if n <= max then Some(n) else None
  {
    DecimalShape(n);
    ParseDigitsDecimal(n);
  }

  lemma DecimalIsClean(n: nat)
    ensures IsToken(Decimal(n)) && ':' !in Decimal(n) && '-' !in Decimal(n) && '=' !in Decimal(n)
  {
    DecimalShape(n);
  }

  lemma DecimalInjective(m: nat, n: nat)
    requires Decimal(m) == Decimal(n)
    ensures m == n
  {
    ParseDigitsDecimal(m);
    ParseDigitsDecimal(n);
  }

  function HexDigit(d: nat): char
    requires d < 16
  {
    if d < 10 then '0' + (d as char) else 'A' + ((d - 10) as char)
  }

  /** Hexadecimal rendering, in capitals. */
  function Hex(n: nat): string {
    if n < 16 then [HexDigit(n)] else Hex(n / 16) + [HexDigit(n % 16)]
  }

  function Zeros(k: nat): string {
    seq(k, _ => '0')
  }

  lemma {:induction false} HexShape(n: nat)
    ensures Hex(n) != [] && forall c :: c in Hex(n) ==> '0' <= c <= '9' || 'A' <= c <= 'F'
  {
    if n < 16 {
    } else {
      HexShape(n / 16);
    }
  }

  lemma {:induction false} ParseDigitsHex(n: nat)
    ensures ParseDigits(Hex(n), 16) == Some(n)
  {
    var s := Hex(n);
    if n < 16 {
      assert s[..|s| - 1] == [];
    } else {
      ParseDigitsHex(n / 16);
      assert s[..|s| - 1] == Hex(n / 16);
    }
  }

  lemma {:induction false} ZerosDoNotCount(k: nat, s: string, radix: nat)
    requires 1 <= radix
    ensures ParseDigits(Zeros(k) + s, radix) == ParseDigits(s, radix)
    decreases |s|, k
  {
    var padded := Zeros(k) + s;
    if s != [] {
      assert padded[..|padded| - 1] == Zeros(k) + s[..|s| - 1];
      ZerosDoNotCount(k, s[..|s| - 1], radix);
    } else if k > 0 {
      assert padded[..|padded| - 1] == Zeros(k - 1) + [];
      ZerosDoNotCount(k - 1, [], radix);
    } else {
      assert padded == [];
    }
  }

  /** A number in hexadecimal, with or without leading zeros, is read back if the type can hold it. */
  lemma ParsePaddedHex(k: nat, n: nat, max: nat)
    ensures ParseUnsigned(Zeros(k) + Hex(n), 16, max) == if n <= max then Some(n) else None
  {
    ParseDigitsHex(n);
    ZerosDoNotCount(k, Hex(n), 16);
    PaddedHexStart(k, n);
    ParseUnsignedValue(Zeros(k) + Hex(n), 16, max, n);
  }

  lemma PaddedHexStart(k: nat, n: nat)
    ensures Zeros(k) + Hex(n) != [] && (Zeros(k) + Hex(n))[0] != '+'
  {
    HexShape(n);
    if k == 0 {
      assert Zeros(k) + Hex(n) == Hex(n);
      assert Hex(n)[0] in Hex(n);
    } else {
      assert (Zeros(k) + Hex(n))[0] == Zeros(k)[0] == '0';
    }
  }

  lemma ParseUnsignedValue(s: string, radix: nat, max: nat, n: nat)
    requires s != [] && s[0] != '+' && ParseDigits(s, radix) == Some(n)
    ensures ParseUnsigned(s, radix, max) == if n <= max then Some(n) else None
  {
  }

  /** The digits of the two radices in use, in either case, and no other character. */
  lemma DigitsAre(c: char)
    ensures ToDigit(c, 10) == if '0' <= c <= '9' then Some(c as int - 48) else None
    ensures ToDigit(c, 16) ==
            if '0' <= c <= '9' then Some(c as int - 48)
            else if 'a' <= c <= 'f' then Some(c as int - 87)
            else if 'A' <= c <= 'F' then Some(c as int - 55)
            else None
  {
  }

  /** Text is a number exactly if all its characters are digits. */
  lemma {:induction false} ParseDigitsIff(s: string, radix: nat)
    ensures ParseDigits(s, radix).Some? <==> forall i :: 0 <= i < |s| ==> ToDigit(s[i], radix).Some?
    decreases |s|
  {
    if s == [] {
    } else {
      var init := s[..|s| - 1];
      ParseDigitsIff(init, radix);
      assert forall i :: 0 <= i < |init| ==> init[i] == s[i];
    }
  }

  /** What text is read as which number: digits, after at most one plus sign, of a value within range. */
  lemma ParseUnsignedIff(s: string, radix: nat, max: nat, n: nat)
    ensures ParseUnsigned(s, radix, max) == Some(n) <==>
            exists d :: (s == d || s == "+" + d) && d != [] && d[0] != '+' && ParseDigits(d, radix) == Some(n)
                        && n <= max
  {
    var digits := if s != [] && s[0] == '+' then s[1..] else s;
    assert s == digits || s == "+" + digits;
    if digits != [] && digits[0] == '+' {
      ParseDigitsIff(digits, radix);
    }
    if d :| (s == d || s == "+" + d) && d != [] && d[0] != '+' && ParseDigits(d, radix) == Some(n) && n <= max {
      assert s == "+" + d ==> s[1..] == d;
    }
  }
}
