/** Bytes, big-endian words, hexadecimal and decimal text. */
module Encoding {
  import opened Ledger

  type Byte = b: int | 0 <= b < 256

  function Pow256(k: nat): (p: nat)
    ensures p > 0
  {
    if k == 0 then 1 else 256 * Pow256(k - 1)
  }

  /** `n` in `k` big-endian bytes; higher digits are dropped. */
  function BigEndian(n: nat, k: nat): (bytes: seq<Byte>)
    ensures |bytes| == k
    decreases k
  {
    if k == 0 then [] else BigEndian(n / 256, k - 1) + [n % 256]
  }

  function Number(bytes: seq<Byte>): nat {
    if bytes == [] then 0 else 256 * Number(bytes[..|bytes| - 1]) + bytes[|bytes| - 1]
  }

  lemma {:induction false} NumberOfBigEndian(n: nat, k: nat)
    requires n < Pow256(k)
    ensures Number(BigEndian(n, k)) == n
    decreases k
  {
    if k > 0 {
      assert n / 256 < Pow256(k - 1);
      NumberOfBigEndian(n / 256, k - 1);
      assert BigEndian(n, k)[..k - 1] == BigEndian(n / 256, k - 1);
    }
  }

  /** Most significant byte first. */
  lemma {:induction false} BigEndianDigit(n: nat, k: nat, i: nat)
    requires i < k
    ensures BigEndian(n, k)[i] == n / Pow256(k - 1 - i) % 256
    decreases k
  {
    if i < k - 1 {
      BigEndianDigit(n / 256, k - 1, i);
      DivideTwice(n, Pow256(k - 2 - i));
    }
  }

  lemma DivideTwice(n: nat, p: nat)
    requires p > 0
    ensures n / 256 / p == n / (256 * p)
  {
    var a := n / 256;
    var b, y := a / p, a % p;
    assert a == p * b + y;
    assert 256 * (p * b) == (256 * p) * b;
    QuotientIs(n, 256 * p, b, 256 * y + n % 256);
  }

  lemma QuotientIs(n: nat, m: nat, q: nat, r: nat)
    requires m > 0 && r < m && n == m * q + r
    ensures n / m == q
  {
    var k, d := n / m, n / m - q;
    assert n == m * k + n % m;
    assert m * d == m * k - m * q && m * -d == m * q - m * k;
    if d > 0 { AtLeast(m, d); }
    if d < 0 { AtLeast(m, -d); }
  }

  lemma AtLeast(m: nat, d: nat)
    requires d > 0
    ensures m * d >= m
  {
  }

  // --------------------------------------------------------------- decimals

  function Digit(d: nat): char
    requires d < 10
  {
    '0' + d as char
  }

  predicate IsDigit(c: char) { '0' <= c <= '9' }

  function DigitOf(c: char): (d: nat)
    requires IsDigit(c)
    ensures d < 10
  {
    (c - '0') as nat
  }

  function FormatNat(n: nat): (text: string)
    ensures text != [] && forall c | c in text :: IsDigit(c)
  {
    if n < 10 then [Digit(n)] else FormatNat(n / 10) + [Digit(n % 10)]
  }

  predicate AllDigits(text: string) { text != [] && forall c | c in text :: IsDigit(c) }

  function ParseDigits(text: string): nat
    requires forall c | c in text :: IsDigit(c)
  {
    if text == [] then 0 else 10 * ParseDigits(text[..|text| - 1]) + DigitOf(text[|text| - 1])
  }

  lemma {:induction false} ParseFormat(n: nat)
    ensures ParseDigits(FormatNat(n)) == n
  {
    var text := FormatNat(n);
    if n < 10 {
      assert text[..0] == [];
    } else {
      ParseFormat(n / 10);
      assert text[..|text| - 1] == FormatNat(n / 10);
    }
  }

  /** strconv.FormatInt in base ten. */
  function FormatInt(n: int): string {
    if n < 0 then ['-'] + FormatNat(-n) else FormatNat(n)
  }

  /** A decimal integer with an optional sign, as big.Int.SetString reads base ten. */
  function ParseInteger(text: string): Option<int> {
    if text == [] then None
    else if text[0] in {'+', '-'} then
      if !AllDigits(text[1..]) then None
      else var n: int := ParseDigits(text[1..]); Some(if text[0] == '-' then -n else n)
    else if AllDigits(text) then Some(ParseDigits(text)) else None
  }

  predicate IsInt64(n: int) { -0x8000_0000_0000_0000 <= n < 0x8000_0000_0000_0000 }

  /** strconv.ParseInt with bit size 64. */
  function ParseInt64(text: string): Option<int> {
    var n := ParseInteger(text);
    if n.Some? && IsInt64(n.value) then n else None
  }

  lemma ParseFormatInt(n: int)
    ensures ParseInteger(FormatInt(n)) == Some(n)
  {
    ParseFormat(if n < 0 then -n else n);
    if n < 0 {
      assert FormatInt(n)[1..] == FormatNat(-n);
    } else {
      assert FormatInt(n)[0] in FormatInt(n);
    }
  }

  /** A 64-bit parser reads exactly the numbers of 64 signed bits. */
  lemma ParseInt64Exactly(n: int)
    ensures ParseInt64(FormatInt(n)) ==
      if -0x8000_0000_0000_0000 <= n <= 0x7FFF_FFFF_FFFF_FFFF then Some(n) else None
  {
    ParseFormatInt(n);
  }

  /** A plus sign changes nothing. */
  lemma ParsePlus(n: nat)
    ensures ParseInteger("+" + FormatNat(n)) == Some(n)
  {
    ParseFormat(n);
    assert ("+" + FormatNat(n))[1..] == FormatNat(n);
  }

  // ------------------------------------------------------------ hexadecimal

  function HexDigit(c: char): (d: Option<nat>)
    ensures d.Some? ==> d.value < 16
  {
    if '0' <= c <= '9' then Some((c - '0') as nat)
    else if 'a' <= c <= 'f' then Some((c - 'a') as nat + 10)
    else if 'A' <= c <= 'F' then Some((c - 'A') as nat + 10)
    else None
  }

  /** hex.DecodeString. */
  function DecodeHex(text: string): (bytes: Option<seq<Byte>>)
    ensures bytes.Some? <==> |text| % 2 == 0 && forall c | c in text :: HexDigit(c).Some?
    ensures bytes.Some? ==> |bytes.value| * 2 == |text|
  {
    if text == [] then Some([])
    else if |text| == 1 then None
    else
      var high, low, rest := HexDigit(text[0]), HexDigit(text[1]), DecodeHex(text[2..]);
      assert text == [text[0], text[1]] + text[2..];
      if high.None? || low.None? || rest.None? then None else Some([16 * high.value + low.value] + rest.value)
  }

  const HEX: string := "0123456789abcdef"

  /** hex.EncodeToString. */
  function EncodeHex(bytes: seq<Byte>): (text: string)
    ensures |text| == 2 * |bytes|
  {
    if bytes == [] then [] else [HEX[bytes[0] / 16], HEX[bytes[0] % 16]] + EncodeHex(bytes[1..])
  }

  lemma HexDigits(d: nat)
    requires d < 16
    ensures HexDigit(HEX[d]) == Some(d)
  {
  }

  /** Either case of a letter is the same digit, and nothing else is a digit. */
  lemma HexCase(c: char)
    ensures 'a' <= c <= 'f' ==> HexDigit(c - 'a' + 'A') == HexDigit(c)
    ensures HexDigit(c).Some? <==> exists d: nat | d < 16 :: HEX[d] == c || ('A' <= c <= 'F' && HEX[d] == c - 'A' + 'a')
  {
    if HexDigit(c).Some? {
      var d := HexDigit(c).value;
      assert HEX[d] == c || ('A' <= c <= 'F' && HEX[d] == c - 'A' + 'a');
    }
  }

  lemma {:induction false} DecodeEncodeHex(bytes: seq<Byte>)
    ensures DecodeHex(EncodeHex(bytes)) == Some(bytes)
  {
    hide HexDigit;
    if bytes != [] {
      DecodeEncodeHex(bytes[1..]);
      HexDigits(bytes[0] / 16);
      HexDigits(bytes[0] % 16);
      var text := EncodeHex(bytes);
      assert text[2..] == EncodeHex(bytes[1..]) && text[0] == HEX[bytes[0] / 16] && text[1] == HEX[bytes[0] % 16];
      assert [bytes[0]] + bytes[1..] == bytes;
    }
  }
}
