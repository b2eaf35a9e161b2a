/**
 CIDR matching (section 3.1 of RFC 4632, section 2.3 of RFC 4291): the byte loop with its
 final mask against the arithmetic meaning of a prefix.  An address is a sequence of bytes in
 network order, four for IPv4 and sixteen for IPv6.
 */
module Cidr {
  type Byte = x: int | 0 <= x < 256
  type Address = seq<Byte>

  function Pow2(n: nat): (r: nat)
    ensures r > 0
  {
    if n == 0 then 1 else 2 * Pow2(n - 1)
  }

  /** The address as an unsigned big-endian number. */
  function Num(a: Address): int {
    if a == [] then 0 else 256 * Num(a[..|a| - 1]) + a[|a| - 1]
  }

  /** The number formed by the leading `p` bits: the quotient by the size of the host part. */
  function TopBits(a: Address, p: nat): int
    requires p <= 8 * |a|
  {
    Num(a) / Pow2(8 * |a| - p)
  }

  /** Bitwise and. */
  function And(x: nat, y: nat): nat {
    if x == 0 || y == 0 then 0 else x % 2 * (y % 2) + 2 * And(x / 2, y / 2)
  }

  /** (0xFF << (8 - bits)) & 0xFF */
  function Mask(bits: nat): Byte
    requires 0 < bits < 8
  {
    0xFF * Pow2(8 - bits) % 256
  }

  /** cidr4_match and cidr6_match. */
  method Match(addr: Address, cidr: Address, prefixLen: nat) returns (r: bool)
    requires |addr| == |cidr| && prefixLen <= 8 * |addr|
    ensures r <==> TopBits(addr, prefixLen) == TopBits(cidr, prefixLen)
  {
    var numBytes := prefixLen / 8;
    var remBits := prefixLen % 8;
    TopBitsAreBytes(addr, cidr, prefixLen);
    for i := 0 to numBytes
      invariant forall j :: 0 <= j < i ==> addr[j] == cidr[j]
    {
      if addr[i] != cidr[i] {
        return false;
      }
    }
    if remBits == 0 {
      return true;
    }
    var mask := Mask(remBits);
    return And(addr[numBytes], mask) == And(cidr[numBytes], mask);
  }

  /** What the loop compares. */
  predicate BytesAgree(a: Address, c: Address, p: nat)
    requires |a| == |c| && p <= 8 * |a|
  {
    && (forall i :: 0 <= i < p / 8 ==> a[i] == c[i])
    && (p % 8 != 0 ==> And(a[p / 8], Mask(p % 8)) == And(c[p / 8], Mask(p % 8)))
  }

  // ── Arithmetic ─────────────────────────────────────────────────────────

  lemma MulLe(a: int, b: int, d: int)
    requires a <= b && d >= 0
    ensures a * d <= b * d
  {
  }

  lemma LtMul(a: int, b: int, d: int)
    requires d > 0 && a * d < b * d
    ensures a < b
  {
    if b <= a {
      MulLe(b, a, d);
    }
  }

  lemma DivUnique(x: int, d: int, q: int)
    requires d > 0 && q * d <= x < (q + 1) * d
    ensures x / d == q
  {
    var r := x / d;
    assert r * d <= x < (r + 1) * d;
    LtMul(r, q + 1, d);
    LtMul(q, r + 1, d);
  }

  lemma DivDiv(x: int, a: int, b: int)
    requires a > 0 && b > 0
    ensures a * b > 0 && x / a / b == x / (a * b)
  {
    var y := x / a;
    var q := y / b;
    MulLe(q * b, y, a);
    MulLe(y + 1, q * b + b, a);
    assert y * a <= x < (y + 1) * a;
    assert q * (a * b) == q * b * a && (q + 1) * (a * b) == (q * b + b) * a;
    DivUnique(x, a * b, q);
  }

  lemma Digits(u: int, v: int, u': int, v': int, m: int)
    requires 0 <= v < m && 0 <= v' < m
    ensures u * m + v == u' * m + v' <==> u == u' && v == v'
  {
    if u * m + v == u' * m + v' {
      DivUnique(u * m + v, m, u);
      DivUnique(u * m + v, m, u');
    }
  }

  lemma {:induction false} PowAdd(m: nat, n: nat)
    ensures Pow2(m + n) == Pow2(m) * Pow2(n)
  {
    if m > 0 {
      PowAdd(m - 1, n);
    }
  }

  lemma PowSmall()
    ensures Pow2(0) == 1 && Pow2(1) == 2 && Pow2(2) == 4 && Pow2(3) == 8 && Pow2(4) == 16
    ensures Pow2(5) == 32 && Pow2(6) == 64 && Pow2(7) == 128 && Pow2(8) == 256
  {
    assert Pow2(3) == 2 * Pow2(2);
    assert Pow2(4) == 2 * Pow2(3);
    assert Pow2(5) == 2 * Pow2(4);
    assert Pow2(6) == 2 * Pow2(5);
    assert Pow2(7) == 2 * Pow2(6);
    assert Pow2(8) == 2 * Pow2(7);
  }

  // ── The mask ───────────────────────────────────────────────────────────

  /** And with n ones keeps a number of n bits. */
  lemma {:induction false} AndOnes(x: nat, n: nat)
    requires x < Pow2(n)
    ensures And(x, Pow2(n) - 1) == x
  {
    if n > 0 && x > 0 {
      var y := Pow2(n) - 1;
      assert y == 2 * (Pow2(n - 1) - 1) + 1;
      AndOnes(x / 2, n - 1);
    }
  }

  /** And with n ones followed by k zeros clears the last k bits. */
  lemma {:induction false} AndHigh(x: nat, n: nat, k: nat)
    requires x < Pow2(n + k) && n > 0
    ensures And(x, (Pow2(n) - 1) * Pow2(k)) == x / Pow2(k) * Pow2(k)
  {
    if k == 0 {
      AndOnes(x, n);
    } else {
      var h := Pow2(k - 1);
      var y := (Pow2(n) - 1) * h;
      var q := x / 2 / h;
      assert Pow2(n + k) == 2 * Pow2(n + k - 1);
      AndHigh(x / 2, n, k - 1);
      TwiceTimes(Pow2(n) - 1, h);
      AndDouble(x, y);
      DivDiv(x, 2, h);
      TwiceTimes(q, h);
    }
  }

  lemma TwiceTimes(a: int, b: int)
    ensures a * (2 * b) == 2 * (a * b)
  {
  }

  lemma AndDouble(x: nat, y: nat)
    ensures And(x, 2 * y) == 2 * And(x / 2, y)
  {
  }

  lemma MaskKeeps(x: Byte, bits: nat)
    requires 0 < bits < 8
    ensures And(x, Mask(bits)) == x / Pow2(8 - bits) * Pow2(8 - bits)
  {
    PowSmall();
    assert Mask(bits) == (Pow2(bits) - 1) * Pow2(8 - bits);
    AndHigh(x, bits, 8 - bits);
  }

  /** The mask compares exactly the leading bits of a byte. */
  lemma MaskCompares(x: Byte, y: Byte, bits: nat)
    requires 0 < bits < 8
    ensures And(x, Mask(bits)) == And(y, Mask(bits)) <==> x / Pow2(8 - bits) == y / Pow2(8 - bits)
  {
    MaskKeeps(x, bits);
    MaskKeeps(y, bits);
    var d := Pow2(8 - bits);
    Digits(x / d, 0, y / d, 0, d);
  }

  // ── Prefixes ───────────────────────────────────────────────────────────

  /** A prefix that ends before the last byte does not depend on it. */
  lemma TopBitsShort(a: Address, p: nat)
    requires a != [] && p <= 8 * (|a| - 1)
    ensures TopBits(a, p) == TopBits(a[..|a| - 1], p)
  {
    var d := Pow2(8 * (|a| - 1) - p);
    PowSmall();
    PowAdd(8, 8 * (|a| - 1) - p);
    assert 8 * |a| - p == 8 + (8 * (|a| - 1) - p);
    DivDiv(Num(a), 256, d);
  }

  /** A prefix that reaches `r` bits into the last byte. */
  lemma TopBitsLong(a: Address, r: nat)
    requires a != [] && 0 < r <= 8
    ensures 0 <= a[|a| - 1] / Pow2(8 - r) < Pow2(r)
    ensures TopBits(a, 8 * (|a| - 1) + r) == Num(a[..|a| - 1]) * Pow2(r) + a[|a| - 1] / Pow2(8 - r)
  {
    PowSmall();
    PowAdd(r, 8 - r);
    DivideByte(Num(a[..|a| - 1]), a[|a| - 1], Pow2(r), Pow2(8 - r));
  }

  lemma DivideByte(n: int, b: Byte, m: int, d: int)
    requires m > 0 && d > 0 && m * d == 256
    ensures 0 <= b / d < m && (256 * n + b) / d == n * m + b / d
  {
    var q := b / d;
    assert q * d <= b < (q + 1) * d;
    LtMul(q, m, d);
    LtMul(-1, q, d);
    assert n * m * d == n * (m * d);
    assert (n * m + q) * d == n * m * d + q * d;
    assert (n * m + q + 1) * d == n * m * d + (q + 1) * d;
    DivUnique(256 * n + b, d, n * m + q);
  }

  /** The byte loop and the mask compare exactly the numbers formed by the leading bits. */
  lemma {:induction false} TopBitsAreBytes(a: Address, c: Address, p: nat)
    requires |a| == |c| && p <= 8 * |a|
    ensures TopBits(a, p) == TopBits(c, p) <==> BytesAgree(a, c, p)
    decreases |a|
  {
    if a != [] {
      var n := |a| - 1;
      if p <= 8 * n {
        TopBitsShort(a, p);
        TopBitsShort(c, p);
        TopBitsAreBytes(a[..n], c[..n], p);
      } else {
        TopBitsAreBytes(a[..n], c[..n], 8 * n);
        LastByte(a, c, p - 8 * n);
      }
    }
  }

  lemma LastByte(a: Address, c: Address, r: nat)
    requires |a| == |c| && a != [] && 0 < r <= 8
    requires var n := |a| - 1; TopBits(a[..n], 8 * n) == TopBits(c[..n], 8 * n) <==> BytesAgree(a[..n], c[..n], 8 * n)
    ensures var p := 8 * (|a| - 1) + r; TopBits(a, p) == TopBits(c, p) <==> BytesAgree(a, c, p)
  {
    var n := |a| - 1;
    TopBitsLong(a, r);
    TopBitsLong(c, r);
    Digits(Num(a[..n]), a[n] / Pow2(8 - r), Num(c[..n]), c[n] / Pow2(8 - r), Pow2(r));
    assert TopBits(a[..n], 8 * n) == Num(a[..n]) && TopBits(c[..n], 8 * n) == Num(c[..n]);
    if r < 8 {
      MaskCompares(a[n], c[n], r);
      assert (8 * n + r) / 8 == n && (8 * n + r) % 8 == r;
    } else {
      assert (8 * n + r) / 8 == n + 1 && (8 * n + r) % 8 == 0;
    }
  }

  /** A match implies a match at every shorter prefix. */
  lemma ShorterPrefixMatches(a: Address, c: Address, p: nat, q: nat)
    requires |a| == |c| && q <= p <= 8 * |a| && TopBits(a, p) == TopBits(c, p)
    ensures TopBits(a, q) == TopBits(c, q)
  {
    var w := 8 * |a|;
    PowAdd(w - p, p - q);
    assert w - p + (p - q) == w - q;
    DivDiv(Num(a), Pow2(w - p), Pow2(p - q));
    DivDiv(Num(c), Pow2(w - p), Pow2(p - q));
  }

  /** Only the address itself matches at full length; everything matches at length zero. */
  lemma ExtremePrefixes(a: Address, c: Address)
    requires |a| == |c|
    ensures TopBits(a, 8 * |a|) == TopBits(c, 8 * |a|) <==> a == c
    ensures TopBits(a, 0) == TopBits(c, 0)
  {
    TopBitsAreBytes(a, c, 8 * |a|);
    TopBitsAreBytes(a, c, 0);
  }
}
