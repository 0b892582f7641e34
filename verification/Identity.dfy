/** The payment identity: the bytes PaymentID (internal/x402/payment.go) hashes. */
module Identity {
  import opened Ledger
  import opened Encoding

  /** Text as the bytes it is hashed as. */
  type Text = seq<Byte>

  datatype IdentityFields = IdentityFields(
    version: nat, scheme: Text, network: Text, asset: Text, from: Text, to: Text,
    value: Text, validAfter: Text, validBefore: Text, nonce: Text, signature: Text)

  const MAX_UINT32: nat := 0xFFFF_FFFF

  function LowerByte(b: Byte): Byte { if 65 <= b <= 90 then b + 32 else b }

  predicate Ascii(text: Text) { forall b | b in text :: b < 128 }

  /** strings.ToLower. ASCII text is lowered byte by byte; for any other text `fold` stands
      for the Unicode mapping, about which nothing is assumed. */
  function Lower(text: Text, fold: Text -> Text): Text {
    if Ascii(text) then seq(|text|, i requires 0 <= i < |text| => LowerByte(text[i])) else fold(text)
  }

  function CharByte(c: char): Byte { if c as int < 256 then c as int else 0 }

  /** strconv.FormatUint in base ten. */
  function Decimal(n: nat): (text: Text)
    ensures |text| == |FormatNat(n)|
  {
    var digits := FormatNat(n);
    seq(|digits|, i requires 0 <= i < |digits| => CharByte(digits[i]))
  }

  /** The eleven fields as they are hashed: the version in decimal, hex in lower case. */
  function Normalized(f: IdentityFields, fold: Text -> Text): (values: seq<Text>)
    ensures |values| == 11
  {
    [Decimal(f.version), f.scheme, f.network, Lower(f.asset, fold), Lower(f.from, fold), Lower(f.to, fold),
     f.value, f.validAfter, f.validBefore, Lower(f.nonce, fold), Lower(f.signature, fold)]
  }

  predicate Hashable(value: Text) { value != [] && |value| <= MAX_UINT32 }

  /** Each value behind its length in four big-endian bytes. */
  function Encode(values: seq<Text>): Text {
    if values == [] then []
    else Encode(values[..|values| - 1]) + BigEndian(|values[|values| - 1]|, 4) + values[|values| - 1]
  }

  /** PaymentID up to the hash: nothing is hashed unless every field is there and fits. */
  method Preimage(f: IdentityFields, fold: Text -> Text) returns (bytes: Option<Text>)
    ensures bytes.Some? <==> forall v | v in Normalized(f, fold) :: Hashable(v)
    ensures bytes.Some? <==> forall v | v in Normalized(f, fold) :: 0 < |v| < 0x1_0000_0000
    ensures bytes.Some? ==> bytes.value == Encode(Normalized(f, fold))
  {
    hide BigEndian, Normalized;
    var values := Normalized(f, fold);
    for i := 0 to |values|
      invariant forall k | 0 <= k < i :: values[k] != []
    {
      if values[i] == [] {
        assert !Hashable(values[i]);
        return None;
      }
    }
    var hashed: Text := [];
    for i := 0 to |values|
      invariant hashed == Encode(values[..i])
      invariant forall k | 0 <= k < i :: Hashable(values[k])
    {
      if |values[i]| > MAX_UINT32 {
        assert !Hashable(values[i]);
        return None;
      }
      assert values[..i + 1][..i] == values[..i];
      hashed := hashed + BigEndian(|values[i]|, 4) + values[i];
    }
    assert values[..|values|] == values;
    return Some(hashed);
  }

  // -------------------------------------------------------------- injectivity

  /** Reading the hashed bytes back, from the front. */
  function Decode(bytes: Text): Option<seq<Text>>
    decreases |bytes|
  {
    if bytes == [] then Some([])
    else if |bytes| < 4 || |bytes| < 4 + Number(bytes[..4]) then None
    else
      var n := 4 + Number(bytes[..4]);
      var rest := Decode(bytes[n..]);
      if rest.None? then None else Some([bytes[4..n]] + rest.value)
  }

  lemma {:induction false} EncodeFromFront(values: seq<Text>)
    requires values != []
    ensures Encode(values) == BigEndian(|values[0]|, 4) + values[0] + Encode(values[1..])
  {
    hide BigEndian;
    var n := |values| - 1;
    if n == 0 {
      assert values[1..] == [] && values[..0] == [];
    } else {
      EncodeFromFront(values[..n]);
      assert values[..n][1..] == values[1..][..n - 1];
      Associate(BigEndian(|values[0]|, 4) + values[0], Encode(values[1..][..n - 1]), BigEndian(|values[n]|, 4),
                values[n]);
    }
  }

  lemma Associate(a: Text, b: Text, c: Text, d: Text)
    ensures a + b + c + d == a + (b + c + d)
  {
  }

  /** One value behind its length, in front of anything. */
  lemma DecodeFirst(v: Text, rest: Text)
    requires |v| <= MAX_UINT32 && Decode(rest).Some?
    ensures Decode(BigEndian(|v|, 4) + v + rest) == Some([v] + Decode(rest).value)
  {
    LengthFits(|v|);
    Slices(BigEndian(|v|, 4), v, rest);
    hide BigEndian, Number;
  }

  lemma Slices(length: Text, v: Text, rest: Text)
    requires |length| == 4
    ensures var bytes := length + v + rest;
      bytes[..4] == length && bytes[4..4 + |v|] == v && bytes[4 + |v|..] == rest
  {
  }

  lemma {:induction false} DecodeEncode(values: seq<Text>)
    requires forall v | v in values :: |v| <= MAX_UINT32
    ensures Decode(Encode(values)) == Some(values)
  {
    if values == [] {
      assert Encode(values) == [];
    } else {
      hide Encode, Decode, BigEndian;
      EncodeFromFront(values);
      DecodeEncode(values[1..]);
      DecodeFirst(values[0], Encode(values[1..]));
      assert [values[0]] + values[1..] == values;
    }
  }

  lemma LengthFits(n: nat)
    requires n <= MAX_UINT32
    ensures Number(BigEndian(n, 4)) == n
  {
    assert Pow256(4) == 0x1_0000_0000 by { assert Pow256(2) == 0x1_0000; }
    NumberOfBigEndian(n, 4);
  }

  lemma DecimalInjective(m: nat, n: nat)
    requires Decimal(m) == Decimal(n)
    ensures m == n
  {
    var x, y := FormatNat(m), FormatNat(n);
    assert |x| == |Decimal(m)| == |Decimal(n)| == |y|;
    forall i | 0 <= i < |x| ensures x[i] == y[i] {
      assert x[i] in x && y[i] in y;
      assert Decimal(m)[i] == CharByte(x[i]) && Decimal(n)[i] == CharByte(y[i]);
    }
    assert x == y;
    ParseFormat(m);
    ParseFormat(n);
  }

  /** Two payments hash the same bytes only if all eleven fields agree, hex fields up to
      case: the preimage is an unambiguous record of the payment. */
  lemma PreimageInjective(f: IdentityFields, g: IdentityFields, fold: Text -> Text)
    requires forall v | v in Normalized(f, fold) + Normalized(g, fold) :: Hashable(v)
    requires Encode(Normalized(f, fold)) == Encode(Normalized(g, fold))
    ensures f.version == g.version && f.scheme == g.scheme && f.network == g.network
    ensures Lower(f.asset, fold) == Lower(g.asset, fold) && Lower(f.from, fold) == Lower(g.from, fold) &&
      Lower(f.to, fold) == Lower(g.to, fold)
    ensures f.value == g.value && f.validAfter == g.validAfter && f.validBefore == g.validBefore
    ensures Lower(f.nonce, fold) == Lower(g.nonce, fold) && Lower(f.signature, fold) == Lower(g.signature, fold)
  {
    SameValues(Normalized(f, fold), Normalized(g, fold));
    var x, y := Normalized(f, fold), Normalized(g, fold);
    assert x[0] == y[0] && x[1] == y[1] && x[2] == y[2] && x[3] == y[3] && x[4] == y[4] && x[5] == y[5];
    assert x[6] == y[6] && x[7] == y[7] && x[8] == y[8] && x[9] == y[9] && x[10] == y[10];
    DecimalInjective(f.version, g.version);
  }

  /** The hashed bytes name the eleven fields one after the other, in this order. */
  lemma PreimageSays(f: IdentityFields, fold: Text -> Text)
    requires forall v | v in Normalized(f, fold) :: Hashable(v)
    ensures Decode(Encode(Normalized(f, fold))) ==
      Some([Decimal(f.version), f.scheme, f.network, Lower(f.asset, fold), Lower(f.from, fold), Lower(f.to, fold),
            f.value, f.validAfter, f.validBefore, Lower(f.nonce, fold), Lower(f.signature, fold)])
  {
    DecodeEncode(Normalized(f, fold));
  }

  predicate Upper(b: Byte) { 'A' as int <= b <= 'Z' as int }

  /** The same text up to the case of its letters. */
  predicate SameLetters(a: Text, b: Text) {
    && |a| == |b|
    && forall i | 0 <= i < |a| ::
         a[i] == b[i] || (Upper(a[i]) && b[i] == a[i] + 32) || (Upper(b[i]) && a[i] == b[i] + 32)
  }

  /** Hex fields that differ only in the case of their letters, and no others, are hashed alike. */
  lemma CaseIsIgnored(a: Text, b: Text, fold: Text -> Text)
    requires Ascii(a) && Ascii(b)
    ensures Lower(a, fold) == Lower(b, fold) <==> SameLetters(a, b)
  {
    var x, y := Lower(a, fold), Lower(b, fold);
    if x == y {
      forall i | 0 <= i < |a|
        ensures a[i] == b[i] || (Upper(a[i]) && b[i] == a[i] + 32) || (Upper(b[i]) && a[i] == b[i] + 32)
      {
        assert x[i] == LowerByte(a[i]) && y[i] == LowerByte(b[i]);
      }
    }
  }

  lemma SameValues(x: seq<Text>, y: seq<Text>)
    requires forall v | v in x + y :: Hashable(v)
    requires Encode(x) == Encode(y)
    ensures x == y
  {
    hide Encode, Decode;
    assert forall v | v in x :: v in x + y;
    assert forall v | v in y :: v in x + y;
    DecodeEncode(x);
    DecodeEncode(y);
  }
}
