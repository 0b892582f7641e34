/** transferWithAuthorization calldata, built twice on purpose: by settlement
    (internal/settlement/calldata.go) and by the signing boundary (internal/policy/policy.go). */
module Calldata {
  import opened Ledger
  import opened Encoding

  datatype Authorization = Authorization(
    from: string, to: string, value: string, validAfter: int, validBefore: int, nonce: string, signature: string)

  /** The form the boundary parses for itself: times are decimal text. */
  datatype WireAuthorization = WireAuthorization(
    from: string, to: string, value: string, validAfter: string, validBefore: string, nonce: string, signature: string)

  function Wire(a: Authorization): WireAuthorization {
    WireAuthorization(a.from, a.to, a.value, FormatInt(a.validAfter), FormatInt(a.validBefore), a.nonce, a.signature)
  }

  // ------------------------------------------------------------------ fields

  function TrimPrefix(text: string): string {
    if |text| >= 2 && text[..2] == "0x" then text[2..] else text
  }

  /** DecodeHex of exactly `n` bytes, after an optional 0x. */
  function DecodeFixed(text: string, n: nat): (bytes: Option<seq<Byte>>)
    ensures bytes.Some? ==> |bytes.value| == n
  {
    var raw := DecodeHex(TrimPrefix(text));
    if raw.Some? && |raw.value| == n then raw else None
  }

  /** IsHexAddress and HexToAddress: twenty bytes of hex after an optional 0x or 0X. */
  function ParseAddress(text: string): (bytes: Option<seq<Byte>>)
    ensures bytes.Some? ==> |bytes.value| == 20
  {
    var bare := if |text| >= 2 && text[0] == '0' && text[1] in {'x', 'X'} then text[2..] else text;
    var raw := DecodeHex(bare);
    if raw.Some? && |bare| == 40 then raw else None
  }

  datatype Signature = Signature(v: Byte, r: seq<Byte>, s: seq<Byte>)

  /** splitSignature: recovery ids 0 and 1 are normalized to 27 and 28. */
  function SplitSignature(text: string): (signature: Option<Signature>)
    ensures signature.Some? ==> signature.value.v in {27, 28} && |signature.value.r| == 32 && |signature.value.s| == 32
  {
    var raw := DecodeFixed(text, 65);
    if raw.None? then None else
    var r, s, v := raw.value[..32], raw.value[32..64], raw.value[64];
    if v in {0, 1} then Some(Signature(v + 27, r, s))
    else if v in {27, 28} then Some(Signature(v, r, s))
    else None
  }

  /** The recovery id the chain expects, of the four a payer may send. */
  function Normalized(v: Byte): Option<Byte> {
    if v == 0 || v == 27 then Some(27) else if v == 1 || v == 28 then Some(28) else None
  }

  /** The text of 65 bytes splits into exactly the two halves it was made of, with or without
      its prefix, and any other recovery id is refused. */
  lemma SplitJoined(r: seq<Byte>, s: seq<Byte>, v: Byte, prefixed: bool)
    requires |r| == 32 && |s| == 32
    ensures var text := (if prefixed then "0x" else "") + EncodeHex(r + s + [v]);
      SplitSignature(text) == if Normalized(v).Some? then Some(Signature(Normalized(v).value, r, s)) else None
  {
    var bytes := r + s + [v];
    FixedHex(bytes, prefixed);
    assert bytes[..32] == r && bytes[32..64] == s && bytes[64] == v;
  }

  /** Hex text decodes to its bytes, with or without its prefix: a second digit is never an x. */
  lemma FixedHex(bytes: seq<Byte>, prefixed: bool)
    ensures DecodeFixed((if prefixed then "0x" else "") + EncodeHex(bytes), |bytes|) == Some(bytes)
  {
    hide EncodeHex;
    DecodeEncodeHex(bytes);
    if prefixed {
      assert ("0x" + EncodeHex(bytes))[2..] == EncodeHex(bytes) && ("0x" + EncodeHex(bytes))[..2] == "0x";
    } else {
      assert "" + EncodeHex(bytes) == EncodeHex(bytes);
      NoPrefix(EncodeHex(bytes));
    }
  }

  lemma NoPrefix(text: string)
    requires DecodeHex(text).Some?
    ensures TrimPrefix(text) == text && !(|text| >= 2 && text[0] == '0' && text[1] in {'x', 'X'})
  {
    if |text| >= 2 { assert HexDigit(text[1]).Some?; }
  }

  /** Only an address may be written with a capital X. */
  lemma CapitalPrefix(bytes: seq<Byte>)
    ensures DecodeFixed("0X" + EncodeHex(bytes), |bytes|) == None
    ensures |bytes| == 20 ==> ParseAddress("0X" + EncodeHex(bytes)) == Some(bytes)
  {
    hide EncodeHex;
    DecodeEncodeHex(bytes);
    var text := "0X" + EncodeHex(bytes);
    assert text[0] == '0' && text[1] == 'X' && text[2..] == EncodeHex(bytes) && text[..2] != "0x";
    assert text[1] in text && HexDigit(text[1]).None?;
  }

  /** So does the text of an address. */
  lemma AddressHex(bytes: seq<Byte>, prefixed: bool)
    requires |bytes| == 20
    ensures ParseAddress((if prefixed then "0x" else "") + EncodeHex(bytes)) == Some(bytes)
  {
    hide EncodeHex;
    DecodeEncodeHex(bytes);
    if prefixed {
      assert ("0x" + EncodeHex(bytes))[2..] == EncodeHex(bytes) && ("0x" + EncodeHex(bytes))[..2] == "0x";
      assert ("0x" + EncodeHex(bytes))[0] == '0' && ("0x" + EncodeHex(bytes))[1] == 'x';
    } else {
      assert "" + EncodeHex(bytes) == EncodeHex(bytes);
      NoPrefix(EncodeHex(bytes));
    }
  }

  // ----------------------------------------------------------------- packing

  /** The nine arguments, decoded. */
  datatype Call = Call(
    from: seq<Byte>, to: seq<Byte>, value: int, validAfter: int, validBefore: int, nonce: seq<Byte>,
    signature: Signature)

  const SELECTOR: seq<Byte> := [0xe3, 0xee, 0x16, 0x0e]

  function Zeros(n: nat): seq<Byte> { seq(n, _ => 0) }

  /** A 256-bit word; numbers are taken modulo 2^256, as two's complement. */
  function Word(n: int): (word: seq<Byte>)
    ensures |word| == 32
  {
    BigEndian(n % Pow256(32), 32)
  }

  predicate WellSized(call: Call) {
    |call.from| == 20 && |call.to| == 20 && |call.nonce| == 32 && |call.signature.r| == 32 && |call.signature.s| == 32
  }

  /** The nine arguments as nine words. */
  function Words(call: Call): (words: seq<seq<Byte>>)
    requires WellSized(call)
    ensures |words| == 9 && forall i | 0 <= i < 9 :: |words[i]| == 32
  {
    [Zeros(12) + call.from, Zeros(12) + call.to, Word(call.value), Word(call.validAfter), Word(call.validBefore),
     call.nonce, Zeros(31) + [call.signature.v], call.signature.r, call.signature.s]
  }

  function Concat(words: seq<seq<Byte>>): seq<Byte> {
    if words == [] then [] else words[0] + Concat(words[1..])
  }

  function Pack(call: Call): seq<Byte>
    requires WellSized(call)
  {
    SELECTOR + Concat(Words(call))
  }

  /** TransferWithAuthorizationData of internal/settlement. */
  function TransferData(a: Authorization): Option<seq<Byte>>
  {
    var from, to := ParseAddress(a.from), ParseAddress(a.to);
    if from.None? || to.None? then None else
    var value := ParseInteger(a.value);
    if value.None? || value.value <= 0 then None else
    var nonce, signature := DecodeFixed(a.nonce, 32), SplitSignature(a.signature);
    if nonce.None? || signature.None? then None
    else Some(Pack(Call(from.value, to.value, value.value, a.validAfter, a.validBefore, nonce.value, signature.value)))
  }

  /** TransferWithAuthorizationData of internal/policy. */
  function PolicyData(a: WireAuthorization): Option<seq<Byte>>
  {
    var from, to := ParseAddress(a.from), ParseAddress(a.to);
    if from.None? || to.None? then None else
    var value := ParseInteger(a.value);
    if value.None? || value.value <= 0 then None else
    var after := ParseInt64(a.validAfter);
    if after.None? || after.value < 0 then None else
    var before := ParseInt64(a.validBefore);
    if before.None? || before.value <= after.value then None else
    var nonce, signature := DecodeFixed(a.nonce, 32), SplitSignature(a.signature);
    if nonce.None? || signature.None? then None
    else Some(Pack(Call(from.value, to.value, value.value, after.value, before.value, nonce.value, signature.value)))
  }

  // ------------------------------------------------------------- the theorems

  /** For all times a Unix clock can hold, the two builders give the same answer exactly
      when settlement refuses the authorization or its validity window is a proper one. */
  lemma BuildersAgree(a: Authorization)
    requires IsInt64(a.validAfter) && IsInt64(a.validBefore)
    ensures TransferData(a) == PolicyData(Wire(a)) <==> TransferData(a).None? || 0 <= a.validAfter < a.validBefore
  {
    ParseFormatInt(a.validAfter);
    ParseFormatInt(a.validBefore);
  }

  /** The `i`th word behind the selector. */
  function Slot(data: seq<Byte>, i: nat): seq<Byte>
    requires 4 + 32 * (i + 1) <= |data|
  {
    data[4 + 32 * i..4 + 32 * (i + 1)]
  }

  /** Reading calldata back: nine words behind the selector. */
  function Unpack(data: seq<Byte>): Option<Call>
  {
    if |data| != 292 || data[..4] != SELECTOR then None else
    var from, to, v := Slot(data, 0), Slot(data, 1), Slot(data, 6);
    if from[..12] != Zeros(12) || to[..12] != Zeros(12) || v[..31] != Zeros(31) then None
    else Some(Call(from[12..], to[12..], Number(Slot(data, 2)), Number(Slot(data, 3)), Number(Slot(data, 4)),
                   Slot(data, 5), Signature(v[31], Slot(data, 7), Slot(data, 8))))
  }

  lemma {:induction false} ConcatSlots(words: seq<seq<Byte>>, i: nat)
    requires i < |words| && forall k | 0 <= k < |words| :: |words[k]| == 32
    ensures |Concat(words)| == 32 * |words| && Concat(words)[32 * i..32 * (i + 1)] == words[i]
  {
    if |words| > 1 { ConcatSlots(words[1..], if i == 0 then 0 else i - 1); }
  }

  lemma PackSlot(call: Call, i: nat)
    requires WellSized(call) && i < 9
    ensures |Pack(call)| == 292 && Pack(call)[..4] == SELECTOR && Slot(Pack(call), i) == Words(call)[i]
  {
    hide Words, Concat;
    ConcatSlots(Words(call), i);
    assert Slot(Pack(call), i) == Concat(Words(call))[32 * i..32 * (i + 1)];
  }

  /** What each word holds. */
  lemma WordFields(call: Call)
    requires WellSized(call)
    requires 0 <= call.value < Pow256(32) && 0 <= call.validAfter < Pow256(32) && 0 <= call.validBefore < Pow256(32)
    ensures var w := Words(call);
      && w[0][..12] == Zeros(12) && w[0][12..] == call.from && w[1][..12] == Zeros(12) && w[1][12..] == call.to
      && Number(w[2]) == call.value && Number(w[3]) == call.validAfter && Number(w[4]) == call.validBefore
      && w[5] == call.nonce && w[6][..31] == Zeros(31) && w[6][31] == call.signature.v
      && w[7] == call.signature.r && w[8] == call.signature.s
  {
    hide Word, Number, Pow256, Zeros;
    WordNumber(call.value);
    WordNumber(call.validAfter);
    WordNumber(call.validBefore);
    Padded(12, call.from);
    Padded(12, call.to);
    Padded(31, [call.signature.v]);
  }

  lemma WordNumber(n: nat)
    requires n < Pow256(32)
    ensures Number(Word(n)) == n
  {
    hide Pow256, BigEndian, Number;
    NumberOfBigEndian(n, 32);
    SmallModulo(n, Pow256(32));
  }

  lemma SmallModulo(n: nat, m: nat)
    requires n < m
    ensures n % m == n
  {
  }

  lemma Padded(k: nat, bytes: seq<Byte>)
    ensures |Zeros(k)| == k && (Zeros(k) + bytes)[..k] == Zeros(k) && (Zeros(k) + bytes)[k..] == bytes
  {
  }

  lemma UnpackPack(call: Call)
    requires WellSized(call)
    requires 0 <= call.value < Pow256(32) && 0 <= call.validAfter < Pow256(32) && 0 <= call.validBefore < Pow256(32)
    ensures Unpack(Pack(call)) == Some(call)
  {
    hide Pack, Words, Slot, Number, Zeros, Pow256;
    forall i | 0 <= i < 9 ensures |Pack(call)| == 292 && Slot(Pack(call), i) == Words(call)[i] {
      PackSlot(call, i);
    }
    PackSlot(call, 0);
    WordFields(call);
  }

  /** Whatever settlement packs for a proper window and a 256-bit value decodes back to
      exactly the nine fields of the authorization, with v normalized. */
  lemma CalldataIsTheAuthorization(a: Authorization)
    requires TransferData(a).Some? && IsInt64(a.validAfter) && IsInt64(a.validBefore) &&
      0 <= a.validAfter < a.validBefore
    requires ParseInteger(a.value).value < Pow256(32)
    ensures Unpack(TransferData(a).value) ==
      Some(Call(ParseAddress(a.from).value, ParseAddress(a.to).value, ParseInteger(a.value).value,
              a.validAfter, a.validBefore, DecodeFixed(a.nonce, 32).value, SplitSignature(a.signature).value))
    ensures Unpack(TransferData(a).value).value.signature.v in {27, 28}
    ensures |TransferData(a).value| == 292 && DecodeFixed(a.signature, 65).Some?
    ensures Slot(TransferData(a).value, 7) + Slot(TransferData(a).value, 8) == DecodeFixed(a.signature, 65).value[..64]
  {
    Int64Fits();
    JoinsAgain(a.signature);
    UnpackPack(Call(ParseAddress(a.from).value, ParseAddress(a.to).value, ParseInteger(a.value).value,
                    a.validAfter, a.validBefore, DecodeFixed(a.nonce, 32).value, SplitSignature(a.signature).value));
  }

  lemma JoinsAgain(text: string)
    requires SplitSignature(text).Some?
    ensures DecodeFixed(text, 65).Some?
    ensures SplitSignature(text).value.r + SplitSignature(text).value.s == DecodeFixed(text, 65).value[..64]
  {
  }

  function HexText(bytes: seq<Byte>): string { "0x" + EncodeHex(bytes) }

  /** The way an authorization goes, on bytes: whatever a payer writes down in hex and decimal
      is what the nine words say, and it is refused exactly for an unusable value or
      recovery id. */
  lemma WrittenDownIsPacked(from: seq<Byte>, to: seq<Byte>, value: int, validAfter: int, validBefore: int,
                            nonce: seq<Byte>, r: seq<Byte>, s: seq<Byte>, v: Byte)
    requires |from| == 20 && |to| == 20 && |nonce| == 32 && |r| == 32 && |s| == 32
    requires value < Pow256(32) && IsInt64(validAfter) && IsInt64(validBefore) && 0 <= validAfter < validBefore
    ensures var a := Authorization(HexText(from), HexText(to), FormatInt(value), validAfter, validBefore,
                                   HexText(nonce), HexText(r + s + [v]));
      && (TransferData(a).Some? <==> value > 0 && Normalized(v).Some?)
      && (TransferData(a).Some? ==>
        var call := Call(from, to, value, validAfter, validBefore, nonce, Signature(Normalized(v).value, r, s));
        Unpack(TransferData(a).value) == Some(call))
  {
    hide EncodeHex, Pow256, Pack, Unpack, SplitSignature, DecodeFixed, ParseAddress, ParseInteger, FormatInt;
    AddressHex(from, true);
    AddressHex(to, true);
    ParseFormatInt(value);
    FixedHex(nonce, true);
    SplitJoined(r, s, v, true);
    Int64Fits();
    if value > 0 && Normalized(v).Some? {
      UnpackPack(Call(from, to, value, validAfter, validBefore, nonce, Signature(Normalized(v).value, r, s)));
    }
  }

  lemma Int64Fits()
    ensures 0x8000_0000_0000_0000 <= Pow256(32)
  {
    assert Pow256(8) == 0x1_0000_0000_0000_0000 by {
      assert Pow256(4) == 0x1_0000_0000;
    }
    PowGrows(8, 32);
  }

  lemma {:induction false} PowGrows(j: nat, k: nat)
    requires j <= k
    ensures Pow256(j) <= Pow256(k)
    decreases k - j
  {
    if j < k { PowGrows(j + 1, k); }
  }
}
