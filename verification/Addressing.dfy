/**
  The IPv4 arithmetic of the workers network. The source works on four bytes and masks;
  here each byte loop is proved to compute plain 32-bit arithmetic on prefixes
  (section 3.1 of RFC 4632).
 */
module Addressing {
  import opened Basics

  const TWO32: nat := 0x1_0000_0000

  type Byte = x: nat | x < 256

  // Bitwise operators on naturals, bit by bit.

  function And(x: nat, y: nat): (r: nat)
    ensures r <= x && r <= y
  {
    if x == 0 || y == 0 then 0
    else 2 * And(x / 2, y / 2) + (if x % 2 == 1 && y % 2 == 1 then 1 else 0)
  }

  function Or(x: nat, y: nat): nat {
    if x == 0 then y else if y == 0 then x
    else 2 * Or(x / 2, y / 2) + (if x % 2 == 0 && y % 2 == 0 then 0 else 1)
  }

  function Xor(x: nat, y: nat): nat {
    if x == 0 then y else if y == 0 then x
    else 2 * Xor(x / 2, y / 2) + (if x % 2 == y % 2 then 0 else 1)
  }

  function Pow2(n: nat): (r: nat)
    ensures r >= 1
  {
    if n == 0 then 1 else 2 * Pow2(n - 1)
  }

  /** The lowest h bits of x. */
  function Low(x: nat, h: nat): nat {
    if h == 0 then 0 else 2 * Low(x / 2, h - 1) + x % 2
  }

  /** The number of addresses of a network with the given prefix length. */
  function Size(prefix: nat): nat
    requires prefix <= 32
  {
    Pow2(32 - prefix)
  }

  lemma SizeBound(prefix: nat)
    requires prefix <= 32
    ensures Size(prefix) <= TWO32
  {
    PowMonotone(32 - prefix, 32);
    SizeByBytes(0);
  }

  /** Four bytes read as one integer, most significant byte first. */
  function Value(b: seq<Byte>): nat
    requires |b| == 4
  {
    (b[0] as int) * 0x100_0000 + (b[1] as int) * 0x1_0000 + (b[2] as int) * 0x100 + b[3]
  }

  /** How many bits of byte i are host bits under the prefix. */
  function HostBits(prefix: nat, i: nat): (h: nat)
    requires prefix <= 32 && i < 4
    ensures h <= 8
  {
    if prefix >= 8 * i + 8 then 0 else if prefix <= 8 * i then 8 else 8 * i + 8 - prefix
  }

  /** 2 to the h, by cases. */
  function Width(h: nat): nat
    requires h <= 8
  {
    if h == 0 then 1 else if h == 1 then 2 else if h == 2 then 4 else if h == 3 then 8
    else if h == 4 then 16 else if h == 5 then 32 else if h == 6 then 64
    else if h == 7 then 128 else 256
  }

  /** Byte i of the network mask: host bits clear, all others set. */
  function MaskByte(prefix: nat, i: nat): Byte
    requires prefix <= 32 && i < 4
  {
    256 - Width(HostBits(prefix, i))
  }

  /** A parsed IPv4 CIDR: the four network bytes, already masked, and the prefix length. */
  datatype Cidr = Cidr(ip: seq<Byte>, prefix: nat) {
    ghost predicate Valid() {
      |ip| == 4 && prefix <= 32 && forall i :: 0 <= i < 4 ==> Low(ip[i], HostBits(prefix, i)) == 0
    }
  }

  /** The magnitude the byte loop works on: the complement for a negative index. */
  function Magnitude(index: int): nat {
    if index < 0 then -index - 1 else index
  }

  /** The host part for an index in plain arithmetic, for every index; None when it does not fit the network. */
  function Offset(prefix: nat, index: int): Option<nat>
    requires prefix <= 32
  {
    var n := Magnitude(index) % TWO32;
    if n >= Size(prefix) then None
    else if index < 0 then Some(Size(prefix) - 1 - n)
    else Some(n)
  }

  function Host(network: nat, prefix: nat, index: int): Option<nat>
    requires prefix <= 32
  {
    var offset := Offset(prefix, index);
    if offset.None? then None else Some(network + offset.value)
  }

  // ---- bitwise operators against masks, as arithmetic ----

  lemma {:induction false} LowBound(x: nat, h: nat)
    ensures Low(x, h) < Pow2(h)
    ensures x < Pow2(h) ==> Low(x, h) == x
  {
    if h > 0 { LowBound(x / 2, h - 1); }
  }

  lemma {:induction false} LowOfZero(h: nat)
    ensures Low(0, h) == 0
  {
    if h > 0 { LowOfZero(h - 1); }
  }

  lemma {:induction false} LowComplement(d: nat, h: nat, n: nat)
    requires d < Pow2(h) && h <= n
    ensures d < Pow2(n) && Low(Pow2(n) - 1 - d, h) == Pow2(h) - 1 - d
  {
    PowMonotone(h, n);
    if h > 0 {
      LowComplement(d / 2, h - 1, n - 1);
      assert (Pow2(n) - 1 - d) / 2 == Pow2(n - 1) - 1 - d / 2;
    }
  }

  lemma {:induction false} AndOnes(x: nat, h: nat)
    ensures And(x, Pow2(h) - 1) == Low(x, h)
  {
    if x == 0 {
      LowOfZero(h);
    } else if h > 0 {
      AndOnes(x / 2, h - 1);
      assert (Pow2(h) - 1) / 2 == Pow2(h - 1) - 1 && (Pow2(h) - 1) % 2 == 1;
    }
  }

  lemma {:induction false} AndHigh(x: nat, h: nat, n: nat)
    requires h <= n && x < Pow2(n)
    ensures Pow2(h) <= Pow2(n) && And(x, Pow2(n) - Pow2(h)) == x - Low(x, h)
  {
    PowMonotone(h, n);
    if x == 0 {
      LowOfZero(h);
    } else if h == 0 {
      AndOnes(x, n);
      LowBound(x, n);
    } else if h == n {
      LowBound(x, n);
    } else {
      AndHigh(x / 2, h - 1, n - 1);
      var y := Pow2(n - 1) - Pow2(h - 1);
      assert Pow2(n) - Pow2(h) == 2 * y;
      assert And(x, 2 * y) == 2 * And(x / 2, y);
    }
  }

  lemma {:induction false} XorOnes(x: nat, n: nat)
    requires x < Pow2(n)
    ensures Xor(x, Pow2(n) - 1) == Pow2(n) - 1 - x
  {
    if n > 0 && x > 0 {
      XorOnes(x / 2, n - 1);
      assert (Pow2(n) - 1) / 2 == Pow2(n - 1) - 1 && (Pow2(n) - 1) % 2 == 1;
    }
  }

  lemma {:induction false} OrNextBit(h: nat, n: nat)
    requires 0 < h <= n
    ensures Pow2(h) <= Pow2(n) && Or(Pow2(n) - Pow2(h), Pow2(h - 1)) == Pow2(n) - Pow2(h - 1)
  {
    PowMonotone(h, n);
    if h == n {
    } else if h > 1 {
      OrNextBit(h - 1, n - 1);
      PowMonotone(h + 1, n);
      assert (Pow2(n) - Pow2(h)) / 2 == Pow2(n - 1) - Pow2(h - 1) && (Pow2(n) - Pow2(h)) % 2 == 0;
    } else {
      PowMonotone(2, n);
      assert Pow2(1) == 2 && Pow2(0) == 1 && (Pow2(n) - 2) % 2 == 0;
      assert Or(Pow2(n) - 2, 1) == 2 * Or((Pow2(n) - 2) / 2, 0) + 1;
    }
  }

  // ---- one byte under a mask ----

  lemma MaskTest(h: nat, d: Byte)
    requires h <= 8
    ensures And(d, 256 - Width(h)) == 0 <==> d < Width(h)
  {
    WidthIsPow2(h);
    WidthIsPow2(8);
    AndHigh(d, h, 8);
    LowBound(d, h);
  }

  lemma MaskInvert(h: nat, d: Byte)
    requires h <= 8 && d < Width(h)
    ensures And(Xor(d, 255), Xor(256 - Width(h), 255)) == Width(h) - 1 - d
  {
    InvertedByte(d);
    InvertedByte(256 - Width(h));
    WidthIsPow2(h);
    WidthIsPow2(8);
    AndOnes(255 - d, h);
    LowComplement(d, h, 8);
  }

  lemma InvertedByte(x: Byte)
    ensures Xor(x, 255) == 255 - x
  {
    WidthIsPow2(8);
    XorOnes(x, 8);
  }

  /** A byte without host bits passes the mask unchanged, which leaves room for the host bits. */
  lemma MaskKeeps(h: nat, x: Byte)
    requires h <= 8 && Low(x, h) == 0
    ensures And(x, 256 - Width(h)) == x && x <= 256 - Width(h)
  {
    WidthIsPow2(h);
    WidthIsPow2(8);
    AndHigh(x, h, 8);
  }

  // ---- four bytes ----

  /** n after k divisions by 256. */
  function Shift(n: nat, k: nat): nat {
    if k == 0 then n else Shift(n, k - 1) / 256
  }

  lemma Digits(n: nat)
    ensures n % TWO32
         == (Shift(n, 3) % 256) * 0x100_0000 + (Shift(n, 2) % 256) * 0x1_0000 + (Shift(n, 1) % 256) * 0x100 + n % 256
  {
    var n1, n2, n3 := Shift(n, 1), Shift(n, 2), Shift(n, 3);
    assert n1 == n / 256 && n2 == n1 / 256 && n3 == n2 / 256;
    FourDigits(n, n1, n2, n3, n3 / 256, n % 256, n1 % 256, n2 % 256, n3 % 256);
  }

  lemma FourDigits(n: nat, n1: nat, n2: nat, n3: nat, n4: nat, d3: nat, d2: nat, d1: nat, d0: nat)
    requires n == 256 * n1 + d3 && n1 == 256 * n2 + d2 && n2 == 256 * n3 + d1 && n3 == 256 * n4 + d0
    requires d3 < 256 && d2 < 256 && d1 < 256 && d0 < 256
    ensures n % TWO32 == d0 * 0x100_0000 + d1 * 0x1_0000 + d2 * 0x100 + d3
  {
    var low := d0 * 0x100_0000 + d1 * 0x1_0000 + d2 * 0x100 + d3;
    assert n == 0x1_0000 * n2 + (0x100 * d2 + d3);
    assert n == 0x100_0000 * n3 + (0x1_0000 * d1 + 0x100 * d2 + d3);
    assert n == TWO32 * n4 + low && low < TWO32;
  }

  lemma {:induction false} PowPlus8(k: nat)
    ensures Pow2(k + 8) == 256 * Pow2(k)
  {
    assert Pow2(k + 8) == 2 * Pow2(k + 7) && Pow2(k + 7) == 2 * Pow2(k + 6) && Pow2(k + 6) == 2 * Pow2(k + 5);
    assert Pow2(k + 5) == 2 * Pow2(k + 4) && Pow2(k + 4) == 2 * Pow2(k + 3) && Pow2(k + 3) == 2 * Pow2(k + 2);
    assert Pow2(k + 2) == 2 * Pow2(k + 1) && Pow2(k + 1) == 2 * Pow2(k);
  }

  lemma {:induction false} WidthIsPow2(h: nat)
    requires h <= 8
    ensures Width(h) == Pow2(h)
  {
    if h > 0 { WidthIsPow2(h - 1); }
  }

  /** The host part of a network, byte by byte. */
  lemma SizeByBytes(prefix: nat)
    requires prefix <= 32
    ensures prefix >= 24 ==> Size(prefix) == Width(HostBits(prefix, 3))
    ensures 16 <= prefix <= 24 ==> Size(prefix) == 0x100 * Width(HostBits(prefix, 2))
    ensures 8 <= prefix <= 16 ==> Size(prefix) == 0x1_0000 * Width(HostBits(prefix, 1))
    ensures prefix <= 8 ==> Size(prefix) == 0x100_0000 * Width(HostBits(prefix, 0))
  {
    if prefix >= 24 {
      WidthIsPow2(32 - prefix);
      if prefix == 24 { PowPlus8(0); WidthIsPow2(0); }
    } else if prefix >= 16 {
      WidthIsPow2(24 - prefix);
      PowPlus8(24 - prefix);
      if prefix == 16 { PowPlus8(8); PowPlus8(0); WidthIsPow2(0); }
    } else if prefix >= 8 {
      WidthIsPow2(16 - prefix);
      PowPlus8(16 - prefix);
      PowPlus8(24 - prefix);
      if prefix == 8 { PowPlus8(16); PowPlus8(8); PowPlus8(0); WidthIsPow2(0); }
    } else {
      WidthIsPow2(8 - prefix);
      PowPlus8(8 - prefix);
      PowPlus8(16 - prefix);
      PowPlus8(24 - prefix);
    }
  }

  ghost predicate BelowMask(prefix: nat, d: seq<Byte>)
    requires prefix <= 32 && |d| == 4
  {
    forall i :: 0 <= i < 4 ==> d[i] < Width(HostBits(prefix, i))
  }

  /** Passing the byte test of the loop is being below the size of the network. */
  lemma BelowIsSmall(prefix: nat, d: seq<Byte>)
    requires prefix <= 32 && |d| == 4
    ensures BelowMask(prefix, d) <==> Value(d) < Size(prefix)
  {
    SizeByBytes(prefix);
    assert forall i :: 0 <= i < 4 ==> 1 <= Width(HostBits(prefix, i)) <= 256;
    assert BelowMask(prefix, d) <==>
           d[0] < Width(HostBits(prefix, 0)) && d[1] < Width(HostBits(prefix, 1))
           && d[2] < Width(HostBits(prefix, 2)) && d[3] < Width(HostBits(prefix, 3));
  }

  function Complemented(prefix: nat, d: seq<Byte>): seq<Byte>
    requires prefix <= 32 && |d| == 4
    requires d[0] < Width(HostBits(prefix, 0)) && d[1] < Width(HostBits(prefix, 1))
    requires d[2] < Width(HostBits(prefix, 2)) && d[3] < Width(HostBits(prefix, 3))
  {
    [Width(HostBits(prefix, 0)) - 1 - d[0], Width(HostBits(prefix, 1)) - 1 - d[1],
     Width(HostBits(prefix, 2)) - 1 - d[2], Width(HostBits(prefix, 3)) - 1 - d[3]]
  }

  lemma ComplementValue(prefix: nat, d: seq<Byte>)
    requires prefix <= 32 && |d| == 4 && BelowMask(prefix, d)
    ensures Value(Complemented(prefix, d)) == Size(prefix) - 1 - Value(d)
    ensures BelowMask(prefix, Complemented(prefix, d))
  {
    SizeByBytes(prefix);
  }

  // ---- the loops of the source ----

  function Digit(n: nat, i: nat): Byte
    requires i < 4
  {
    Shift(n, 3 - i) % 256
  }

  ghost predicate IsDigits(d: seq<Byte>, n: nat) {
    |d| == 4 && d[0] == Digit(n, 0) && d[1] == Digit(n, 1) && d[2] == Digit(n, 2) && d[3] == Digit(n, 3)
  }

  lemma DigitsValue(d: seq<Byte>, n: nat)
    requires IsDigits(d, n)
    ensures Value(d) == n % TWO32
  {
    assert Shift(n, 0) == n;
    Digits(n);
  }

  /** A single digit that fails the byte test puts the whole number out of range. */
  lemma DigitTooLarge(prefix: nat, n: nat, i: nat)
    requires prefix <= 32 && i < 4 && Digit(n, i) >= Width(HostBits(prefix, i))
    ensures n % TWO32 >= Size(prefix)
  {
    var d := [Digit(n, 0), Digit(n, 1), Digit(n, 2), Digit(n, 3)];
    DigitsValue(d, n);
    assert d[i] == Digit(n, i);
    BelowIsSmall(prefix, d);
  }

  lemma HostOfDigits(prefix: nat, index: int, d: seq<Byte>)
    requires prefix <= 32 && IsDigits(d, Magnitude(index))
    ensures Offset(prefix, index).Some? <==> BelowMask(prefix, d)
    ensures BelowMask(prefix, d) ==>
              && BelowMask(prefix, Complemented(prefix, d))
              && Offset(prefix, index) == Some(Value(if index < 0 then Complemented(prefix, d) else d))
  {
    DigitsValue(d, Magnitude(index));
    BelowIsSmall(prefix, d);
    if BelowMask(prefix, d) { ComplementValue(prefix, d); }
  }

  /** First loop of cidrHost: the base-256 digits of the magnitude, each tested against the mask. */
  method FillDelta(delta: array<Byte>, prefix: nat, m: nat) returns (ok: bool)
    requires delta.Length == 4 && prefix <= 32
    modifies delta
    ensures !ok ==> m % TWO32 >= Size(prefix)
    ensures ok ==> BelowMask(prefix, delta[..]) && IsDigits(delta[..], m)
  {
    var n := m;
    for i := 4 downto 0
      invariant n == Shift(m, 4 - i)
      invariant forall j :: i <= j < 4 ==> delta[j] == Digit(m, j) && delta[j] < Width(HostBits(prefix, j))
    {
      delta[i] := n % 256;
      MaskTest(HostBits(prefix, i), delta[i]);
      if And(delta[i], MaskByte(prefix, i)) != 0 {
        DigitTooLarge(prefix, m, i);
        return false;
      }
      n := n / 256;
    }
    return true;
  }

  lemma Flipped(prefix: nat, d: Byte, i: nat)
    requires prefix <= 32 && i < 4 && d < Width(HostBits(prefix, i))
    ensures And(Xor(d, 255), Xor(MaskByte(prefix, i), 255)) == Width(HostBits(prefix, i)) - 1 - d
  {
    MaskInvert(HostBits(prefix, i), d);
  }

  /** Second loop: the complement within the host bits. */
  method InvertDelta(delta: array<Byte>, prefix: nat)
    requires delta.Length == 4 && prefix <= 32 && BelowMask(prefix, delta[..])
    modifies delta
    ensures delta[..] == Complemented(prefix, old(delta[..]))
  {
    ghost var d := delta[..];
    for i := 0 to 4
      invariant forall j :: 0 <= j < i ==> delta[j] == Width(HostBits(prefix, j)) - 1 - d[j]
      invariant forall j :: i <= j < 4 ==> delta[j] == d[j]
    {
      Flipped(prefix, d[i], i);
      delta[i] := And(Xor(delta[i], 255), Xor(MaskByte(prefix, i), 255));
    }
  }

  /** The first two loops together: the host part of the address. */
  method HostPart(delta: array<Byte>, prefix: nat, index: int) returns (ok: bool)
    requires delta.Length == 4 && prefix <= 32
    modifies delta
    ensures ok <==> Offset(prefix, index).Some?
    ensures ok ==> BelowMask(prefix, delta[..]) && Value(delta[..]) == Offset(prefix, index).value
  {
    var invert := index < 0;
    var n := if invert then -index - 1 else index;
    ok := FillDelta(delta, prefix, n);
    if ok {
      HostOfDigits(prefix, index, delta[..]);
      if invert {
        InvertDelta(delta, prefix);
      }
    }
  }

  lemma SumValue(a: seq<Byte>, b: seq<Byte>, c: seq<Byte>)
    requires |a| == |b| == |c| == 4
    requires forall j :: 0 <= j < 4 ==> c[j] as int == a[j] as int + b[j] as int
    ensures Value(c) == Value(a) + Value(b)
  {}

  lemma NoCarry(prefix: nat, ip: Byte, d: Byte, i: nat)
    requires prefix <= 32 && i < 4 && Low(ip, HostBits(prefix, i)) == 0 && d < Width(HostBits(prefix, i))
    ensures And(ip, MaskByte(prefix, i)) == ip && ip as int + d as int < 256
  {
    MaskKeeps(HostBits(prefix, i), ip);
  }

  /** Third loop: the byte-wise sum with the network, which never carries. */
  method AddNetwork(delta: array<Byte>, c: Cidr)
    requires delta.Length == 4 && c.Valid() && BelowMask(c.prefix, delta[..])
    modifies delta
    ensures forall j :: 0 <= j < 4 ==> delta[j] as int == c.ip[j] as int + old(delta[j]) as int
  {
    ghost var e := delta[..];
    forall i | 0 <= i < 4 ensures And(c.ip[i], MaskByte(c.prefix, i)) == c.ip[i] && c.ip[i] as int + e[i] as int < 256 {
      NoCarry(c.prefix, c.ip[i], e[i], i);
    }
    for i := 0 to 4
      invariant forall j :: 0 <= j < i ==> delta[j] as int == c.ip[j] as int + e[j] as int
      invariant forall j :: i <= j < 4 ==> delta[j] == e[j]
    {
      delta[i] := (And(c.ip[i], MaskByte(c.prefix, i)) + delta[i]) % 256;
    }
  }

  /** It succeeds exactly when the plain arithmetic does, with the same address. */
  method CidrHost(c: Cidr, index: int) returns (r: Option<seq<Byte>>)
    requires c.Valid()
    ensures r.Some? ==> |r.value| == 4
    ensures r.None? ==> Host(Value(c.ip), c.prefix, index) == None
    ensures r.Some? ==> Host(Value(c.ip), c.prefix, index) == Some(Value(r.value))
  {
    var delta := new Byte[4](_ => 0);
    var ok := HostPart(delta, c.prefix, index);
    if !ok {
      return None;
    }
    ghost var e := delta[..];
    AddNetwork(delta, c);
    var host := delta[..];
    SumValue(c.ip, e, host);
    return Some(host);
  }

  /** cidrHost is exact on every index that fits 32 bits: in range iff it succeeds, and then network plus offset. */
  lemma HostExact(network: nat, prefix: nat, index: int)
    requires prefix <= 32 && 0 - TWO32 <= index < TWO32
    ensures Host(network, prefix, index).Some? <==> 0 - Size(prefix) <= index < Size(prefix)
    ensures Host(network, prefix, index).Some? ==>
              Host(network, prefix, index).value == network + index + (if index < 0 then Size(prefix) else 0)
  {
    assert Magnitude(index) % TWO32 == Magnitude(index);
  }

  /** Exactly: it tells rightly whether an index is in range if the index fits 32 bits, or if its low 32 bits, which are
      all it looks at, are out of range too. */
  lemma RangeIff(network: nat, prefix: nat, index: int)
    requires prefix <= 32
    ensures (Host(network, prefix, index).Some? <==> 0 - Size(prefix) <= index < Size(prefix))
            <==> (0 - TWO32 <= index < TWO32 || Magnitude(index) % TWO32 >= Size(prefix))
  {
    SizeBound(prefix);
    if 0 - TWO32 <= index < TWO32 { HostExact(network, prefix, index); }
  }

  /** A far too large index that is accepted by its low digits. */
  lemma HugeIndexAccepted()
    ensures Host(0x0a000000, 24, TWO32 + 5) == Some(0x0a000005) && TWO32 + 5 >= Size(24)
  {
    SizeByBytes(24);
  }

  lemma MaskGrows(h: nat)
    requires 0 < h <= 8
    ensures Or(256 - Width(h), Width(h - 1)) == 256 - Width(h - 1)
  {
    WidthIsPow2(h);
    WidthIsPow2(h - 1);
    WidthIsPow2(8);
    OrNextBit(h, 8);
  }

  /** Setting bit i of the mask turns the masks of prefix i into those of prefix i + 1. */
  lemma MaskStep(i: nat)
    requires i < 32
    ensures Or(MaskByte(i, i / 8), Width(7 - i % 8)) == MaskByte(i + 1, i / 8)
    ensures forall j :: 0 <= j < 4 && j != i / 8 ==> MaskByte(i + 1, j) == MaskByte(i, j)
  {
    assert HostBits(i, i / 8) == 8 - i % 8 && HostBits(i + 1, i / 8) == 7 - i % 8;
    MaskGrows(8 - i % 8);
  }

  lemma MaskValue(prefix: nat, mask: seq<Byte>)
    requires prefix <= 32 && |mask| == 4 && forall j :: 0 <= j < 4 ==> mask[j] == MaskByte(prefix, j)
    ensures Value(mask) == TWO32 - Size(prefix)
  {
    SizeByBytes(prefix);
  }

  /** The prefix-bit loop builds the same mask bytes that cidrHost tests against. */
  method CidrSubnetMask(prefix: nat) returns (mask: seq<Byte>)
    requires prefix <= 32
    ensures |mask| == 4 && forall j :: 0 <= j < 4 ==> mask[j] == MaskByte(prefix, j)
    ensures Value(mask) == TWO32 - Size(prefix)
  {
    var subnetMask := new Byte[4](_ => 0);
    for i := 0 to prefix
      invariant forall j :: 0 <= j < 4 ==> subnetMask[j] == MaskByte(i, j)
    {
      MaskStep(i);
      subnetMask[i / 8] := Or(subnetMask[i / 8], Width(7 - i % 8));
    }
    mask := subnetMask[..];
    MaskValue(prefix, mask);
  }

  // ---- the DHCP layout of a shoot ----

  /** What newDHCPConfig derives from the network, addresses as 32-bit integers. */
  datatype DhcpConfig = DhcpConfig(gateway: nat, server: nat, start: nat, end: nat, mask: nat, leaseTime: nat)

  const LEASE_TIME: nat := 7200

  function NewDhcpConfig(c: Cidr): Option<DhcpConfig>
    requires |c.ip| == 4 && c.prefix <= 32
  {
    SizeBound(c.prefix);
    var net := Value(c.ip);
    var gateway, server := Host(net, c.prefix, 1), Host(net, c.prefix, 2);
    var start, end := Host(net, c.prefix, 10), Host(net, c.prefix, -1);
    if gateway.None? || server.None? || start.None? || end.None? then None
    else Some(DhcpConfig(gateway.value, server.value, start.value, end.value, TWO32 - Size(c.prefix), LEASE_TIME))
  }

  method NewDhcpConfigSteps(c: Cidr) returns (r: Option<DhcpConfig>)
    requires c.Valid()
    ensures r == NewDhcpConfig(c)
  {
    var gateway := CidrHost(c, 1);
    if gateway.None? { return None; }
    var server := CidrHost(c, 2);
    if server.None? { return None; }
    var start := CidrHost(c, 10);
    if start.None? { return None; }
    var end := CidrHost(c, -1);
    if end.None? { return None; }
    var mask := CidrSubnetMask(c.prefix);
    return Some(DhcpConfig(Value(gateway.value), Value(server.value), Value(start.value), Value(end.value),
                           Value(mask), LEASE_TIME));
  }

  lemma {:induction false} PowMonotone(a: nat, b: nat)
    requires a <= b
    ensures Pow2(a) <= Pow2(b)
    decreases b - a
  {
    if a < b { PowMonotone(a, b - 1); }
  }

  /** A network has a DHCP layout exactly up to /28: gateway, server and pool start are its addresses 1, 2 and 10, the pool
      ends at its last one, all four in this order and inside it; leases last two hours. */
  lemma DhcpLayout(c: Cidr)
    requires c.Valid()
    ensures NewDhcpConfig(c).Some? <==> c.prefix <= 28
    ensures NewDhcpConfig(c).Some? ==>
              var d, net := NewDhcpConfig(c).value, Value(c.ip);
              && d.gateway == net + 1 && d.server == net + 2 && d.start == net + 10
              && d.end == net + Size(c.prefix) - 1 && d.start <= d.end
              && d.mask == TWO32 - Size(c.prefix) && d.leaseTime == 2 * 60 * 60
  {
    SizeByBytes(28);
    SizeByBytes(29);
    if c.prefix <= 28 {
      PowMonotone(4, 32 - c.prefix);
    } else {
      PowMonotone(32 - c.prefix, 3);
    }
    PowMonotone(32 - c.prefix, 32);
    SizeByBytes(0);
    HostExact(Value(c.ip), c.prefix, 1);
    HostExact(Value(c.ip), c.prefix, 2);
    HostExact(Value(c.ip), c.prefix, 10);
    HostExact(Value(c.ip), c.prefix, -1);
  }
}
