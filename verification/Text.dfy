/** Strings as sequences of Unicode scalar values, with the operations of
    Rust's `str` that the router uses, and the texts of numbers and UUIDs. */
module Text {

  newtype byte = b: int | 0 <= b < 256

  type Bytes = seq<byte>

  /** `char::is_whitespace`: the Unicode property White_Space. */
  predicate IsWhitespace(c: char) {
    var u := c as int;
    9 <= u <= 13 || u == 0x20 || u == 0x85 || u == 0xA0 || u == 0x1680
    || 0x2000 <= u <= 0x200A || u == 0x2028 || u == 0x2029
    || u == 0x202F || u == 0x205F || u == 0x3000
  }

  /** The 25 code points of that property. */
  lemma WhitespaceInNumbers(c: char)
    ensures IsWhitespace(c) <==>
              c as int in [0x09, 0x0A, 0x0B, 0x0C, 0x0D, 0x20, 0x85, 0xA0, 0x1680,
                           0x2000, 0x2001, 0x2002, 0x2003, 0x2004, 0x2005, 0x2006, 0x2007, 0x2008, 0x2009, 0x200A,
                           0x2028, 0x2029, 0x202F, 0x205F, 0x3000]
  {
    var points := [0x09, 0x0A, 0x0B, 0x0C, 0x0D, 0x20, 0x85, 0xA0, 0x1680,
                   0x2000, 0x2001, 0x2002, 0x2003, 0x2004, 0x2005, 0x2006, 0x2007, 0x2008, 0x2009, 0x200A,
                   0x2028, 0x2029, 0x202F, 0x205F, 0x3000];
    assert forall i :: 0 <= i < 25 ==> points[i] in points;
  }

  /** The character patterns that are trimmed from texts. */
  datatype Pattern = Whitespace | One(c: char)

  predicate Matches(p: Pattern, c: char) {
    match p
    case Whitespace => IsWhitespace(c)
    case One(d) => c == d
  }

  function TrimStartMatches(s: string, p: Pattern): string {
    if s != [] && Matches(p, s[0]) then TrimStartMatches(s[1..], p) else s
  }

  function TrimEndMatches(s: string, p: Pattern): string {
    if s != [] && Matches(p, s[|s| - 1]) then TrimEndMatches(s[..|s| - 1], p) else s
  }

  function TrimMatches(s: string, p: Pattern): string {
    TrimEndMatches(TrimStartMatches(s, p), p)
  }

  function Trim(s: string): string {
    TrimMatches(s, Whitespace)
  }

  function LowerChar(c: char): char {
    if 'A' <= c <= 'Z' then ((c as int) + 32) as char else c
  }

  /** `to_ascii_lowercase`. */
  function Lower(s: string): (r: string)
    ensures |r| == |s| && forall i :: 0 <= i < |s| ==> r[i] == LowerChar(s[i])
  {
    seq(|s|, i requires 0 <= i < |s| => LowerChar(s[i]))
  }

  /** Only the 26 capitals change, each to its small letter. */
  lemma LowerInLetters(s: string, i: nat)
    requires i < |s|
    ensures s[i] !in "ABCDEFGHIJKLMNOPQRSTUVWXYZ" ==> Lower(s)[i] == s[i]
    ensures forall k :: 0 <= k < 26 && s[i] == "ABCDEFGHIJKLMNOPQRSTUVWXYZ"[k] ==>
              Lower(s)[i] == "abcdefghijklmnopqrstuvwxyz"[k]
  {
    var capitals, letters := "ABCDEFGHIJKLMNOPQRSTUVWXYZ", "abcdefghijklmnopqrstuvwxyz";
    assert forall k :: 0 <= k < 26 ==> capitals[k] as int == 65 + k && letters[k] as int == 97 + k;
    if 'A' <= s[i] <= 'Z' {
      assert capitals[s[i] as int - 65] == s[i];
    }
  }

  /** The UTF-8 encoding, as `str::as_bytes` gives it. */
  function Utf8Char(c: char): (b: Bytes)
    ensures c as int < 128 ==> |b| == 1 && b[0] as int == c as int
    ensures c as int >= 128 ==> forall i :: 0 <= i < |b| ==> b[i] as int >= 128
  {
    var u := c as int;
    if u < 0x80 then [u as byte]
    else if u < 0x800 then [(0xC0 + u / 0x40) as byte, Continuation(u)]
    else if u < 0x10000 then
      [(0xE0 + u / 0x1000) as byte, Continuation(u / 0x40), Continuation(u)]
    else
      [(0xF0 + u / 0x40000) as byte, Continuation(u / 0x1000), Continuation(u / 0x40), Continuation(u)]
  }

  function Continuation(u: int): (b: byte)
    requires 0 <= u
    ensures b as int >= 128
  {
    (0x80 + u % 0x40) as byte
  }

  function Utf8(s: string): Bytes {
    if s == [] then [] else Utf8Char(s[0]) + Utf8(s[1..])
  }

  /** Reading the bytes back, as section 3 of RFC 3629 lays them out. */
  lemma Utf8CharReads(c: char)
    ensures var u, b := c as int, Utf8Char(c);
            if u < 0x80 then b == [u as byte]
            else if u < 0x800 then
              |b| == 2 && 0xC0 <= b[0] as int < 0xE0 && 0x80 <= b[1] as int < 0xC0
              && (b[0] as int - 0xC0) * 64 + (b[1] as int - 0x80) == u
            else if u < 0x10000 then
              |b| == 3 && 0xE0 <= b[0] as int < 0xF0 && 0x80 <= b[1] as int < 0xC0 && 0x80 <= b[2] as int < 0xC0
              && (b[0] as int - 0xE0) * 4096 + (b[1] as int - 0x80) * 64 + (b[2] as int - 0x80) == u
            else
              |b| == 4 && 0xF0 <= b[0] as int < 0xF8
              && 0x80 <= b[1] as int < 0xC0 && 0x80 <= b[2] as int < 0xC0 && 0x80 <= b[3] as int < 0xC0
              && (b[0] as int - 0xF0) * 262144 + (b[1] as int - 0x80) * 4096 + (b[2] as int - 0x80) * 64
                 + (b[3] as int - 0x80) == u
  {
    var u := c as int;
    assert u / 0x1000 == u / 0x40 / 0x40 && u / 0x40000 == u / 0x1000 / 0x40;
  }

  const DOT: byte := 46

  predicate Ascii(s: string) {
    forall i :: 0 <= i < |s| ==> s[i] as int < 128
  }

  predicate DotFree(s: string) {
    '.' !in s
  }

  lemma {:induction false} Utf8OfAscii(s: string)
    requires Ascii(s)
    ensures |Utf8(s)| == |s|
    ensures forall i :: 0 <= i < |s| ==> Utf8(s)[i] as int == s[i] as int
  {
    if s != [] {
      Utf8OfAscii(s[1..]);
    }
  }

  lemma Utf8AsciiInjective(s: string, t: string)
    requires Ascii(s) && Ascii(t) && Utf8(s) == Utf8(t)
    ensures s == t
  {
    Utf8OfAscii(s);
    Utf8OfAscii(t);
    forall i | 0 <= i < |s| ensures s[i] == t[i] {
      assert Utf8(s)[i] == Utf8(t)[i];
      assert s[i] as int == t[i] as int;
    }
  }

  lemma Utf8DotFree(s: string)
    requires Ascii(s) && DotFree(s)
    ensures DOT !in Utf8(s)
  {
    Utf8OfAscii(s);
    forall i | 0 <= i < |s| ensures Utf8(s)[i] != DOT {
      assert s[i] in s;
      assert s[i] as int != '.' as int;
    }
  }

  // ---- decimal numbers ----

  function Digit(d: int): char
    requires 0 <= d < 10
  {
    ('0' as int + d) as char
  }

  function DecimalNat(n: nat): string {
    if n < 10 then [Digit(n)] else DecimalNat(n / 10) + [Digit(n % 10)]
  }

  /** `to_string` of a signed integer. */
  function Decimal(n: int): string {
    if n < 0 then "-" + DecimalNat(-n) else DecimalNat(n)
  }

  lemma {:induction false} DecimalNatShape(n: nat)
    ensures |DecimalNat(n)| > 0
    ensures forall c :: c in DecimalNat(n) ==> '0' <= c <= '9'
  {
    if n >= 10 {
      DecimalNatShape(n / 10);
    }
  }

  lemma {:induction false} DecimalNatInjective(m: nat, n: nat)
    requires DecimalNat(m) == DecimalNat(n)
    ensures m == n
  {
    DecimalNatShape(m / 10);
    DecimalNatShape(n / 10);
    var s := DecimalNat(m);
    if m >= 10 && n >= 10 {
      assert DecimalNat(m / 10) == s[..|s| - 1] == DecimalNat(n / 10);
      assert Digit(m % 10) == s[|s| - 1] == Digit(n % 10);
      assert m % 10 == n % 10;
      DecimalNatInjective(m / 10, n / 10);
    } else if m < 10 && n < 10 {
      assert Digit(m) == s[0] == Digit(n);
    }
  }

  lemma DecimalText(n: int)
    ensures Ascii(Decimal(n)) && DotFree(Decimal(n))
  {
    DecimalNatShape(if n < 0 then -n else n);
    forall i | 0 <= i < |Decimal(n)| ensures Decimal(n)[i] as int < 128 && Decimal(n)[i] != '.' {
      if n < 0 {
        assert i > 0 ==> Decimal(n)[i] == DecimalNat(-n)[i - 1] && DecimalNat(-n)[i - 1] in DecimalNat(-n);
      } else {
        assert Decimal(n)[i] in DecimalNat(n);
      }
    }
  }

  lemma DecimalInjective(m: int, n: int)
    requires Decimal(m) == Decimal(n)
    ensures m == n
  {
    DecimalNatShape(if m < 0 then -m else m);
    DecimalNatShape(if n < 0 then -n else n);
    var s := Decimal(m);
    assert m >= 0 ==> DecimalNat(m)[0] in DecimalNat(m);
    assert n >= 0 ==> DecimalNat(n)[0] in DecimalNat(n);
    if m < 0 && n < 0 {
      assert DecimalNat(-m) == s[1..] == DecimalNat(-n);
      DecimalNatInjective(-m, -n);
    } else if m >= 0 && n >= 0 {
      DecimalNatInjective(m, n);
    }
  }

  /** What a digit counts, decimal or hexadecimal. */
  function DigitValue(c: char): int {
    if '0' <= c <= '9' then c as int - 48
    else if 'a' <= c <= 'f' then c as int - 87
    else -1
  }

  /** Reads digits from left to right: each one adds to `base` times what came before. */
  function ReadNumber(s: string, base: int): int {
    if s == [] then 0 else base * ReadNumber(s[..|s| - 1], base) + DigitValue(s[|s| - 1])
  }

  predicate AllDigits(s: string, base: int) {
    forall c :: c in s ==> 0 <= DigitValue(c) < base
  }

  /** The usual decimal text of a number: a sign if it is negative, and no leading zero. */
  predicate IsDecimal(s: string, n: int) {
    if n < 0 then s != [] && s[0] == '-' && IsNumeral(s[1..], -n) else IsNumeral(s, n)
  }

  predicate IsNumeral(s: string, n: nat) {
    s != [] && AllDigits(s, 10) && (|s| > 1 ==> s[0] != '0') && ReadNumber(s, 10) == n
  }

  lemma {:induction false} DecimalNatReads(n: nat)
    ensures IsNumeral(DecimalNat(n), n) && (n > 0 ==> DecimalNat(n)[0] != '0')
  {
    if n < 10 {
      assert DecimalNat(n)[..0] == [];
    } else {
      DecimalNatReads(n / 10);
      var s, front := DecimalNat(n), DecimalNat(n / 10);
      assert s[..|s| - 1] == front && s[|s| - 1] == Digit(n % 10) && s[0] == front[0];
    }
  }

  /** `to_string` writes the usual decimal text. */
  lemma DecimalReads(n: int)
    ensures IsDecimal(Decimal(n), n)
  {
    DecimalNatReads(if n < 0 then -n else n);
    if n < 0 {
      assert Decimal(n)[1..] == DecimalNat(-n);
    }
  }

  // ---- UUIDs ----

  const UUID_LIMIT: int := 0x1_0000_0000_0000_0000_0000_0000_0000_0000

  /** A UUID is a 128-bit number. */
  type Uuid = u: int | 0 <= u < UUID_LIMIT

  function HexDigit(d: int): char
    requires 0 <= d < 16
  {
    if d < 10 then ('0' as int + d) as char else ('a' as int + (d - 10)) as char
  }

  /** The `k` lowest hexadecimal digits of `n`, highest first. */
  function Hex(n: nat, k: nat): (s: string)
    ensures |s| == k
  {
    if k == 0 then [] else Hex(n / 16, k - 1) + [HexDigit(n % 16)]
  }

  function Power16(k: nat): (p: int)
    ensures p > 0
  {
    if k == 0 then 1 else 16 * Power16(k - 1)
  }

  /** `Uuid::to_string`: groups of 8, 4, 4, 4 and 12 digits joined by dashes. */
  function UuidText(u: Uuid): string {
    var h := Hex(u, 32);
    h[..8] + "-" + h[8..12] + "-" + h[12..16] + "-" + h[16..20] + "-" + h[20..]
  }

  lemma {:induction false} HexShape(n: nat, k: nat)
    ensures forall c :: c in Hex(n, k) ==> '0' <= c <= '9' || 'a' <= c <= 'f'
  {
    if k > 0 {
      HexShape(n / 16, k - 1);
    }
  }

  lemma {:induction false} HexInjective(m: nat, n: nat, k: nat)
    requires m < Power16(k) && n < Power16(k)
    requires Hex(m, k) == Hex(n, k)
    ensures m == n
  {
    if k > 0 {
      var s := Hex(m, k);
      assert Hex(m / 16, k - 1) == s[..k - 1] == Hex(n / 16, k - 1);
      assert HexDigit(m % 16) == s[k - 1] == HexDigit(n % 16);
      HexInjective(m / 16, n / 16, k - 1);
    }
  }

  lemma Power16Of32()
    ensures Power16(32) == UUID_LIMIT
  {
    assert Power16(4) == 0x1_0000;
    assert Power16(8) == 0x1_0000_0000;
    assert Power16(12) == 0x1_0000_0000_0000;
    assert Power16(16) == 0x1_0000_0000_0000_0000;
    assert Power16(20) == 0x1_0000_0000_0000_0000_0000;
    assert Power16(24) == 0x1_0000_0000_0000_0000_0000_0000;
    assert Power16(28) == 0x1_0000_0000_0000_0000_0000_0000_0000;
  }

  /** The 32 digits of a hyphenated text. */
  function WithoutDashes(t: string): string
    requires |t| == 36
  {
    t[..8] + t[9..13] + t[14..18] + t[19..23] + t[24..]
  }

  /** The usual text of a UUID: 32 small hexadecimal digits, highest first, and
      dashes at places 8, 13, 18 and 23. */
  predicate IsUuid(t: string, u: Uuid) {
    && |t| == 36 && t[8] == t[13] == t[18] == t[23] == '-'
    && AllDigits(WithoutDashes(t), 16) && ReadNumber(WithoutDashes(t), 16) == u
  }

  lemma {:induction false} HexReads(n: nat, k: nat)
    requires n < Power16(k)
    ensures AllDigits(Hex(n, k), 16) && ReadNumber(Hex(n, k), 16) == n
  {
    if k > 0 {
      HexReads(n / 16, k - 1);
      var s := Hex(n, k);
      assert s[..k - 1] == Hex(n / 16, k - 1) && s[k - 1] == HexDigit(n % 16);
    }
  }

  lemma UuidReads(u: Uuid)
    ensures IsUuid(UuidText(u), u)
  {
    var h, t := Hex(u, 32), UuidText(u);
    Power16Of32();
    HexReads(u, 32);
    assert t[..8] == h[..8] && t[9..13] == h[8..12] && t[14..18] == h[12..16] && t[19..23] == h[16..20] && t[24..] == h[20..];
    assert h == h[..8] + h[8..12] + h[12..16] + h[16..20] + h[20..];
  }

  lemma UuidTextShape(u: Uuid)
    ensures Ascii(UuidText(u)) && DotFree(UuidText(u)) && |UuidText(u)| == 36
  {
    HexShape(u, 32);
    var h := Hex(u, 32);
    var t := UuidText(u);
    forall i | 0 <= i < |t| ensures t[i] as int < 128 && t[i] != '.' {
      assert t[i] == '-' || t[i] in h;
    }
  }

  lemma UuidTextInjective(u: Uuid, v: Uuid)
    requires UuidText(u) == UuidText(v)
    ensures u == v
  {
    var h, g := Hex(u, 32), Hex(v, 32);
    var t := UuidText(u);
    assert h[..8] == t[..8] == g[..8];
    assert h[8..12] == t[9..13] == g[8..12];
    assert h[12..16] == t[14..18] == g[12..16];
    assert h[16..20] == t[19..23] == g[16..20];
    assert h[20..] == t[24..] == g[20..];
    assert h == h[..8] + h[8..12] + h[12..16] + h[16..20] + h[20..];
    assert g == g[..8] + g[8..12] + g[12..16] + g[16..20] + g[20..];
    Power16Of32();
    HexInjective(u, v, 32);
  }
}
