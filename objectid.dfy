/**
 * Document identifiers: a 12-byte ObjectID and its 24-character lower-case hexadecimal
 * form (`ObjectID.Hex()`), with the parser `ObjectIDFromHex` as its inverse.
 */
module ObjectIds {
  import opened Wrappers

  type Byte = b: int | 0 <= b < 256

  const IdLength: nat := 12

  type ObjectId = s: seq<Byte> | |s| == IdLength witness [0, 0, 0, 0, 0, 0, 0, 0, 0, 0, 0, 0]

  /** The all-zero identifier: what an undecoded `primitive.ObjectID` holds. */
  const ZeroId: ObjectId := [0, 0, 0, 0, 0, 0, 0, 0, 0, 0, 0, 0]

  const HexDigits: string := "0123456789abcdef"

  /** Lower-case hex rendering, two characters per byte, high nibble first. */
  function HexOf(bs: seq<Byte>): (s: string)
    ensures |s| == 2 * |bs|
    ensures forall k :: 0 <= k < |bs| ==> s[2 * k] == HexDigits[bs[k] / 16] && s[2 * k + 1] == HexDigits[bs[k] % 16]
  {
    if bs == [] then [] else [HexDigits[bs[0] / 16], HexDigits[bs[0] % 16]] + HexOf(bs[1..])
  }

  function Hex(id: ObjectId): (s: string)
    ensures |s| == 2 * IdLength
    ensures forall k :: 0 <= k < IdLength ==> s[2 * k] == HexDigits[id[k] / 16] && s[2 * k + 1] == HexDigits[id[k] % 16]
  {
    HexOf(id)
  }

  /** Value of one hexadecimal digit; `encoding/hex` accepts both cases. */
  function NibbleValue(c: char): (v: Option<nat>)
    ensures v.Some? ==> v.value < 16
  {
    if '0' <= c <= '9' then Some(c as int - '0' as int)
    else if 'a' <= c <= 'f' then Some(c as int - 'a' as int + 10)
    else if 'A' <= c <= 'F' then Some(c as int - 'A' as int + 10)
    else None
  }

  /** `hex.DecodeString` on an even-length string. */
  function ParseHex(s: string): (r: Option<seq<Byte>>)
    requires |s| % 2 == 0
    ensures r.Some? ==> 2 * |r.value| == |s|
  {
    if s == [] then Some([])
    else
      var hi, lo, rest := NibbleValue(s[0]), NibbleValue(s[1]), ParseHex(s[2..]);
      if hi.Some? && lo.Some? && rest.Some? then Some([hi.value * 16 + lo.value] + rest.value)
      else None
  }

  /** `primitive.ObjectIDFromHex`: exactly 24 hex digits. */
  function FromHex(s: string): (r: Option<ObjectId>)
    ensures r.Some? ==> |s| == 2 * IdLength
  {
    if |s| != 2 * IdLength then None
    else match ParseHex(s)
      case Some(bs) => Some(bs)
      case None => None
  }

  lemma NibbleOfDigit(v: nat)
    requires v < 16
    ensures NibbleValue(HexDigits[v]) == Some(v)
  {
  }

  lemma NibblesRecombine(b: Byte)
    ensures b / 16 < 16 && (b / 16) * 16 + b % 16 == b
  {
  }

  lemma ParseHexCons(s: string, hi: nat, lo: nat, rest: seq<Byte>)
    requires |s| >= 2 && |s| % 2 == 0
    requires NibbleValue(s[0]) == Some(hi) && NibbleValue(s[1]) == Some(lo)
    requires ParseHex(s[2..]) == Some(rest)
    ensures ParseHex(s) == Some([hi * 16 + lo] + rest)
  {
  }

  lemma {:induction false} ParseHexOf(bs: seq<Byte>)
    ensures ParseHex(HexOf(bs)) == Some(bs)
  {
    if bs != [] {
      var b := bs[0];
      var s := HexOf(bs);
      assert s == [HexDigits[b / 16], HexDigits[b % 16]] + HexOf(bs[1..]);
      assert s[0] == HexDigits[b / 16] && s[1] == HexDigits[b % 16];
      assert s[2..] == HexOf(bs[1..]);
      NibbleOfDigit(b / 16);
      NibbleOfDigit(b % 16);
      ParseHexOf(bs[1..]);
      NibblesRecombine(b);
      ParseHexCons(s, b / 16, b % 16, bs[1..]);
      assert [b] + bs[1..] == bs;
    }
  }

  /** `ObjectIDFromHex(id.Hex())` gives back `id`. */
  lemma FromHexOfHex(id: ObjectId)
    ensures FromHex(Hex(id)) == Some(id)
  {
    ParseHexOf(id);
  }

  /** Distinct identifiers have distinct hex forms, so `User_id` inherits the uniqueness of `_id`. */
  lemma HexInjective(a: ObjectId, b: ObjectId)
    requires Hex(a) == Hex(b)
    ensures a == b
  {
    FromHexOfHex(a);
    FromHexOfHex(b);
  }
}
