/**
 Address ranges: the subnet mask of a prefix length and the address it masks, bit by bit.
 */
module IPAddressRanges {
  import opened Common

  type Bytes = seq<bv8>

  datatype Family = IPv4 | IPv6

  function Size(f: Family): nat {
    if f.IPv4? then 4 else 16
  }

  function MaxPrefix(f: Family): nat {
    if f.IPv4? then 32 else 128
  }

  datatype Address = Address(family: Family, raw: Bytes)

  datatype Range = Range(address: Address, networkPrefixLength: nat)

  predicate ValidAddress(a: Address) {
    |a.raw| == Size(a.family)
  }

  predicate ValidRange(r: Range) {
    ValidAddress(r.address) && r.networkPrefixLength <= MaxPrefix(r.address.family)
  }

  /**
   `address` is the parsed address part, if it parses; `prefix` is absent without a slash, and
   `Some(None)` if what follows the slash is not a number below 256.
   */
  function ParseAddressString(address: Option<Address>, prefix: Option<Option<nat>>): (r: Option<Range>)
    requires address.Some? ==> ValidAddress(address.value)
    ensures r.Some? <==> address.Some? && prefix != Some(None)
    ensures r.Some? ==> ValidRange(r.value) && r.value.address == address.value
    ensures r.Some? ==>
              var max, p := if address.value.family.IPv4? then 32 else 128, r.value.networkPrefixLength;
              && (prefix.Some? && prefix.value.value <= max ==> p == prefix.value.value)
              && (prefix.None? || prefix.value.value > max ==> p == max)
  {
    if address.None? then None
    else
      var max := MaxPrefix(address.value.family);
      match prefix
      case None => Some(Range(address.value, max))
      case Some(None) => None
      case Some(Some(n)) => Some(Range(address.value, if n < max then n else max))
  }

  // ---------------------------------------------------------------------------
  // Bits

  function BitMask(t: nat): bv8
    requires t < 8
  {
    match t
    case 0 => 0x80 case 1 => 0x40 case 2 => 0x20 case 3 => 0x10
    case 4 => 0x08 case 5 => 0x04 case 6 => 0x02 case _ => 0x01
  }

  /** Bit `t` of a byte, counted from the most significant. */
  predicate TestBit(b: bv8, t: nat)
    requires t < 8
  {
    b & BitMask(t) != 0
  }

  /** Bit `j` of an address in network order. */
  predicate Bit(b: Bytes, j: nat)
    requires j < 8 * |b|
  {
    TestBit(b[j / 8], j % 8)
  }

  /** A byte with its first `q` bits set. */
  function LeadingOnes(q: int): bv8 {
    if q <= 0 then 0x00 else if q == 1 then 0x80 else if q == 2 then 0xc0 else if q == 3 then 0xe0
    else if q == 4 then 0xf0 else if q == 5 then 0xf8 else if q == 6 then 0xfc else if q == 7 then 0xfe else 0xff
  }

  lemma LeadingOnesBits(q: int, t: nat)
    requires t < 8
    ensures TestBit(LeadingOnes(q), t) <==> t < q
  {
  }

  lemma SameBitsSameByte(a: bv8, b: bv8)
    requires forall t :: 0 <= t < 8 ==> (TestBit(a, t) <==> TestBit(b, t))
    ensures a == b
  {
    assert TestBit(a, 0) <==> TestBit(b, 0);
    assert TestBit(a, 1) <==> TestBit(b, 1);
    assert TestBit(a, 2) <==> TestBit(b, 2);
    assert TestBit(a, 3) <==> TestBit(b, 3);
    assert TestBit(a, 4) <==> TestBit(b, 4);
    assert TestBit(a, 5) <==> TestBit(b, 5);
    assert TestBit(a, 6) <==> TestBit(b, 6);
    assert TestBit(a, 7) <==> TestBit(b, 7);
  }

  lemma AndBits(a: bv8, b: bv8, t: nat)
    requires t < 8
    ensures TestBit(a & b, t) <==> TestBit(a, t) && TestBit(b, t)
  {
  }

  // ---------------------------------------------------------------------------
  // The mask of one 32-bit word

  function WordMask(p: nat): bv32
    requires p <= 32
  {
    if p > 0 then 0xffff_ffff << (32 - p) else 0
  }

  function ByteAt(mask: bv32, shift: nat): bv8
    requires shift <= 32
  {
    ((mask >> shift) & 0xff) as bv8
  }

  /** The four bytes of the word carry the prefix bits between them. */
  lemma WordMaskBytes(p: nat)
    requires p <= 32
    ensures ByteAt(WordMask(p), 24) == LeadingOnes(p)
    ensures ByteAt(WordMask(p), 16) == LeadingOnes(p - 8)
    ensures ByteAt(WordMask(p), 8) == LeadingOnes(p - 16)
    ensures ByteAt(WordMask(p), 0) == LeadingOnes(p - 24)
  {
  }

  /** The word's mask, split into bytes by shifting and truncating. */
  method WordBytes(p: nat) returns (b0: bv8, b1: bv8, b2: bv8, b3: bv8)
    requires p <= 32
    ensures b0 == LeadingOnes(p) && b1 == LeadingOnes(p - 8) && b2 == LeadingOnes(p - 16) && b3 == LeadingOnes(p - 24)
  {
    var mask := WordMask(p);
    WordMaskBytes(p);
    b0, b1, b2, b3 := ByteAt(mask, 24), ByteAt(mask, 16), ByteAt(mask, 8), ByteAt(mask, 0);
  }

  // ---------------------------------------------------------------------------
  // The mask

  /** Byte `k` of the mask carries the prefix bits from 8k on. */
  function Mask(p: nat, size: nat): (m: Bytes)
    ensures |m| == size
  {
    seq(size, k => LeadingOnes(p - 8 * k))
  }

  /** Bit `j` of the mask is set exactly when j < p. */
  lemma MaskBits(p: nat, size: nat, j: nat)
    requires j < 8 * size
    ensures Bit(Mask(p, size), j) <==> j < p
  {
    LeadingOnesBits(p - 8 * (j / 8), j % 8);
  }

  method SubnetMaskV4(networkPrefixLength: nat) returns (bytes: Bytes)
    requires networkPrefixLength <= 32
    ensures bytes == Mask(networkPrefixLength, 4)
  {
    var b0, b1, b2, b3 := WordBytes(networkPrefixLength);
    bytes := [b0, b1, b2, b3];
  }

  /** The byte loop fills whole bytes; the word that holds the prefix's end is then overwritten. */
  method SubnetMaskV6(networkPrefixLength: nat) returns (result: Bytes)
    requires networkPrefixLength <= 128
    ensures result == Mask(networkPrefixLength, 16)
  {
    var p := networkPrefixLength;
    var bytes := new bv8[16](_ => 0);
    for i := 0 to p / 8
      invariant forall k :: 0 <= k < i ==> bytes[k] == 0xff
      invariant forall k :: i <= k < 16 ==> bytes[k] == 0
    {
      bytes[i] := 0xff;
    }
    var nibble := p % 32;
    if nibble != 0 {
      var b0, b1, b2, b3 := WordBytes(nibble);
      var i := p / 32 * 4;
      bytes[i + 0] := b0;
      bytes[i + 1] := b1;
      bytes[i + 2] := b2;
      bytes[i + 3] := b3;
    }
    result := bytes[..];
    OverwrittenWordAgrees(p, result);
  }

  /** Whole bytes from the loop, and the four bytes of the word at the prefix's end, make up the mask. */
  lemma OverwrittenWordAgrees(p: nat, b: Bytes)
    requires p <= 128 && |b| == 16
    requires forall k :: 0 <= k < 16 && !(p % 32 != 0 && p / 32 * 4 <= k < p / 32 * 4 + 4) ==>
               b[k] == if k < p / 8 then 0xff else 0
    requires forall k :: 0 <= k < 16 && p % 32 != 0 && p / 32 * 4 <= k < p / 32 * 4 + 4 ==>
               b[k] == LeadingOnes(p % 32 - 8 * (k - p / 32 * 4))
    ensures b == Mask(p, 16)
  {
    forall k | 0 <= k < 16
      ensures b[k] == LeadingOnes(p - 8 * k)
    {
      if p % 32 != 0 && p / 32 * 4 <= k < p / 32 * 4 + 4 {
        assert p - 8 * k == p % 32 - 8 * (k - p / 32 * 4);
      } else {
        assert if k < p / 8 then p - 8 * k >= 8 else p - 8 * k <= 0;
      }
    }
  }

  method SubnetMask(r: Range) returns (bytes: Bytes)
    requires ValidRange(r)
    ensures bytes == Mask(r.networkPrefixLength, Size(r.address.family))
    ensures forall j :: 0 <= j < 8 * |bytes| ==> (Bit(bytes, j) <==> j < r.networkPrefixLength)
  {
    match r.address.family {
      case IPv4 => bytes := SubnetMaskV4(r.networkPrefixLength);
      case IPv6 => bytes := SubnetMaskV6(r.networkPrefixLength);
    }
    forall j | 0 <= j < 8 * |bytes|
      ensures Bit(bytes, j) <==> j < r.networkPrefixLength
    {
      MaskBits(r.networkPrefixLength, |bytes|, j);
    }
  }

  // ---------------------------------------------------------------------------
  // The masked address

  function Masked(raw: Bytes, p: nat): (m: Bytes)
    ensures |m| == |raw|
  {
    seq(|raw|, k requires 0 <= k < |raw| => raw[k] & LeadingOnes(p - 8 * k))
  }

  method MaskedAddress(r: Range) returns (a: Address)
    requires ValidRange(r)
    ensures ValidAddress(a) && a.family == r.address.family
    ensures a.raw == Masked(r.address.raw, r.networkPrefixLength)
  {
    var subnet := SubnetMask(r);
    var raw := r.address.raw;
    var masked := new bv8[|raw|]((k: nat) requires k < |raw| => raw[k]);
    for i := 0 to |subnet|
      invariant forall k :: 0 <= k < i ==> masked[k] == raw[k] & subnet[k]
      invariant forall k :: i <= k < |raw| ==> masked[k] == raw[k]
    {
      masked[i] := masked[i] & subnet[i];
    }
    a := Address(r.address.family, masked[..]);
  }

  /** The masked address keeps the first `p` bits and clears the rest. */
  lemma MaskedBits(raw: Bytes, p: nat, j: nat)
    requires j < 8 * |raw|
    ensures Bit(Masked(raw, p), j) <==> j < p && Bit(raw, j)
  {
    AndBits(raw[j / 8], LeadingOnes(p - 8 * (j / 8)), j % 8);
    LeadingOnesBits(p - 8 * (j / 8), j % 8);
  }

  lemma SameBitsSameBytes(a: Bytes, b: Bytes)
    requires |a| == |b| && forall j :: 0 <= j < 8 * |a| ==> (Bit(a, j) <==> Bit(b, j))
    ensures a == b
  {
    forall k | 0 <= k < |a|
      ensures a[k] == b[k]
    {
      forall t | 0 <= t < 8
        ensures TestBit(a[k], t) <==> TestBit(b[k], t)
      {
        assert (8 * k + t) / 8 == k && (8 * k + t) % 8 == t;
        assert Bit(a, 8 * k + t) <==> Bit(b, 8 * k + t);
      }
      SameBitsSameByte(a[k], b[k]);
    }
  }

  lemma MaskedIsIdempotent(raw: Bytes, p: nat)
    ensures Masked(Masked(raw, p), p) == Masked(raw, p)
  {
    forall j | 0 <= j < 8 * |raw|
      ensures Bit(Masked(Masked(raw, p), p), j) <==> Bit(Masked(raw, p), j)
    {
      MaskedBits(raw, p, j);
      MaskedBits(Masked(raw, p), p, j);
    }
    SameBitsSameBytes(Masked(Masked(raw, p), p), Masked(raw, p));
  }

  /** Two addresses of one family lie in the same network exactly if their first `p` bits agree. */
  lemma SameNetwork(a: Bytes, b: Bytes, p: nat)
    requires |a| == |b|
    ensures Masked(a, p) == Masked(b, p) <==> forall j :: 0 <= j < 8 * |a| && j < p ==> (Bit(a, j) <==> Bit(b, j))
  {
    var ma, mb := Masked(a, p), Masked(b, p);
    if ma == mb {
      forall j | 0 <= j < 8 * |a| && j < p
        ensures Bit(a, j) <==> Bit(b, j)
      {
        MaskedBits(a, p, j);
        MaskedBits(b, p, j);
      }
    }
    if forall j :: 0 <= j < 8 * |a| && j < p ==> (Bit(a, j) <==> Bit(b, j)) {
      forall j | 0 <= j < 8 * |a|
        ensures Bit(ma, j) <==> Bit(mb, j)
      {
        MaskedBits(a, p, j);
        MaskedBits(b, p, j);
      }
      SameBitsSameBytes(ma, mb);
    }
  }
}
