/** Prefix blocks of addresses (section 3.1 of RFC 4632). An address is a number in its family; a block is
    an aligned run of 2^(bits - ones) addresses. The tests are those of Go's net package: mask the address
    and compare it with the network address. */
module Cidr {
  datatype Family = V4 | V6

  datatype Addr = Addr(family: Family, value: nat)

  datatype Block = Block(family: Family, base: nat, ones: nat)

  function Bits(f: Family): nat {
    if f == V4 then 32 else 128
  }

  function Pow2(n: nat): (p: nat)
    ensures p > 0
  {
    if n == 0 then 1 else 2 * Pow2(n - 1)
  }

  predicate WellAddr(a: Addr) {
    a.value < Pow2(Bits(a.family))
  }

  function Size(b: Block): nat
    requires b.ones <= Bits(b.family)
  {
    Pow2(Bits(b.family) - b.ones)
  }

  /** What ParseCIDR returns: the host bits of the base are masked away. */
  predicate Well(b: Block) {
    b.ones <= Bits(b.family) && b.base % Size(b) == 0 && b.base < Pow2(Bits(b.family))
  }

  /** The addresses of a block. */
  predicate In(b: Block, a: Addr)
    requires Well(b)
  {
    a.family == b.family && b.base <= a.value < b.base + Size(b)
  }

  // ---- the tests the code makes ----

  /** IPNet.Contains: same family, and the masked address is the network address. */
  predicate Contains(b: Block, a: Addr)
    requires Well(b)
  {
    a.family == b.family && a.value - a.value % Size(b) == b.base
  }

  function Network(b: Block): Addr {
    Addr(b.family, b.base)
  }

  /** The block test of every gate: equal address lengths, a mask no longer, and the network address inside. */
  predicate Within(t: Block, n: Block)
    requires Well(t) && Well(n)
  {
    Bits(n.family) == Bits(t.family) && n.ones <= t.ones && Contains(n, Network(t))
  }

  predicate Overlap(d: Block, t: Block)
    requires Well(d) && Well(t)
  {
    Contains(d, Network(t)) || Contains(t, Network(d))
  }

  // ---- powers of two and alignment ----

  lemma Doubled(a: nat, b: nat)
    ensures 2 * (a * b) == (2 * a) * b
  {
  }

  lemma {:induction false} Pow2Sum(m: nat, n: nat)
    ensures Pow2(m + n) == Pow2(m) * Pow2(n)
    decreases m
  {
    if m > 0 {
      Pow2Sum(m - 1, n);
      Doubled(Pow2(m - 1), Pow2(n));
    }
  }

  lemma {:induction false} Pow2Grows(m: nat, n: nat)
    requires m < n
    ensures Pow2(m) < Pow2(n)
    decreases n
  {
    if m < n - 1 { Pow2Grows(m, n - 1); }
  }

  lemma SmallPowers()
    ensures Pow2(0) == 1 && Pow2(2) == 4 && Pow2(4) == 16 && Pow2(6) == 64 && Pow2(8) == 256 && Pow2(10) == 1024
    ensures Pow2(16) == 65536 && Pow2(24) == 16777216 && Pow2(28) == 268435456 && Pow2(32) == 4294967296 && Pow2(128) > 1
  {
    assert Pow2(0) == 1 && Pow2(2) == 4 && Pow2(4) == 16 && Pow2(6) == 64 && Pow2(8) == 256;
    hide Pow2;
    Pow2Sum(2, 8);
    Pow2Sum(8, 8);
    Pow2Sum(8, 16);
    Pow2Sum(4, 24);
    Pow2Sum(8, 24);
    Pow2Grows(0, 128);
  }

  /** The multiple of s at or below x is the only one within s below it. */
  lemma Aligned(base: nat, x: nat, s: nat)
    requires s > 0 && base % s == 0
    ensures x - x % s == base <==> base <= x < base + s
  {
    if base <= x < base + s {
      var k := base / s;
      assert base == s * k && x == s * k + (x - base);
      Remainder(k, x - base, s);
    }
  }

  lemma {:induction false} MulGrows(s: nat, a: nat, b: nat)
    requires a < b
    ensures s * a + s <= s * b
    decreases b
  {
    if a + 1 < b { MulGrows(s, a, b - 1); }
    assert s * b == s * (b - 1) + s;
  }

  /** Two multiples of s with offsets below s are equal only part by part. */
  lemma SplitUnique(s: nat, k: nat, r: nat, q: nat, m: nat)
    requires r < s && m < s && s * k + r == s * q + m
    ensures k == q && r == m
  {
    if k < q { MulGrows(s, k, q); } else if q < k { MulGrows(s, q, k); }
  }

  lemma Remainder(k: nat, r: nat, s: nat)
    requires r < s
    ensures (s * k + r) % s == r && (s * k + r) / s == k
  {
    var x := s * k + r;
    SplitUnique(s, k, r, x / s, x % s);
  }

  /** The mask test is membership. */
  lemma ContainsIsIn(b: Block, a: Addr)
    requires Well(b)
    ensures Contains(b, a) <==> In(b, a)
  {
    Aligned(b.base, a.value, Size(b));
  }

  lemma SizesDivide(t: Block, n: Block)
    requires Well(t) && Well(n) && t.family == n.family && n.ones <= t.ones
    ensures exists c: nat :: c > 0 && Size(n) == c * Size(t)
  {
    Pow2Sum(t.ones - n.ones, Bits(t.family) - t.ones);
    assert Size(n) == Pow2(t.ones - n.ones) * Size(t);
  }

  /** Of two aligned blocks the larger holds all of the smaller or none of it. */
  lemma NestedOrApart(t: Block, n: Block, x: nat)
    requires Well(t) && Well(n) && t.family == n.family && n.ones <= t.ones
    requires In(n, Addr(t.family, x)) && In(t, Addr(t.family, x))
    ensures n.base <= t.base && t.base + Size(t) <= n.base + Size(n)
  {
    SizesDivide(t, n);
    var c: nat :| c > 0 && Size(n) == c * Size(t);
    AlignedRuns(n.base, c, t.base, Size(t), x);
  }

  lemma AlignedRuns(big: nat, c: nat, small: nat, s: nat, x: nat)
    requires s > 0 && c > 0 && big % (c * s) == 0 && small % s == 0
    requires big <= x < big + c * s && small <= x < small + s
    ensures big <= small && small + s <= big + c * s
  {
    var j, k := big / (c * s), small / s;
    assert small == s * k;
    var m := c * j;
    assert big == s * m by { Regroup(c, s, j); }
    assert s * (m + c) == s * m + c * s by { Distribute(s, m, c); }
    if k < m { MulGrows(s, k, m); }
    if k >= m + c {
      if k > m + c { MulGrows(s, m + c, k); }
      assert false;
    }
    MulGrows(s, k, m + c);
  }

  lemma Regroup(c: nat, s: nat, j: nat)
    ensures (c * s) * j == s * (c * j)
  {
  }

  lemma Distribute(s: nat, m: nat, c: nat)
    ensures s * (m + c) == s * m + c * s
  {
  }

  // ---- the algebra ----

  /** The mask-length test with the network address holds exactly when every address of the target lies
      in the allowed block. */
  lemma WithinIff(t: Block, n: Block)
    requires Well(t) && Well(n)
    ensures Within(t, n) <==> forall a :: In(t, a) ==> In(n, a)
  {
    ContainsIsIn(n, Network(t));
    if Within(t, n) {
      NestedOrApart(t, n, t.base);
    } else if t.family != n.family || !In(n, Network(t)) {
      assert In(t, Network(t));
    } else {
      Pow2Grows(Bits(t.family) - n.ones, Bits(t.family) - t.ones);
      NestedOrApart(n, t, t.base);
      var a := Addr(t.family, if n.base == t.base then n.base + Size(n) else t.base);
      assert In(t, a) && !In(n, a);
    }
  }

  /** The two-way test holds exactly when the blocks share an address. */
  lemma OverlapIff(d: Block, t: Block)
    requires Well(d) && Well(t)
    ensures Overlap(d, t) <==> exists a :: In(d, a) && In(t, a)
  {
    ContainsIsIn(d, Network(t));
    ContainsIsIn(t, Network(d));
    if Overlap(d, t) {
      if In(d, Network(t)) { assert In(t, Network(t)); } else { assert In(d, Network(d)); }
    } else if a :| In(d, a) && In(t, a) {
      if d.ones <= t.ones { NestedOrApart(t, d, a.value); } else { NestedOrApart(d, t, a.value); }
      assert false;
    }
  }

  // ---- blocks by prefix ----

  /** The block of the addresses whose first ones bits spell k. */
  function Prefix(f: Family, k: nat, ones: nat): Block
    requires ones <= Bits(f)
  {
    Block(f, k * Pow2(Bits(f) - ones), ones)
  }

  lemma PrefixIs(f: Family, k: nat, ones: nat)
    requires ones <= Bits(f) && k < Pow2(ones)
    ensures Well(Prefix(f, k, ones))
    ensures forall a :: In(Prefix(f, k, ones), a) <==> a.family == f && a.value / Pow2(Bits(f) - ones) == k
  {
    var s := Pow2(Bits(f) - ones);
    hide Pow2;
    Pow2Sum(ones, Bits(f) - ones);
    Commute(k, s);
    Commute(Pow2(ones), s);
    Remainder(k, 0, s);
    MulGrows(s, k, Pow2(ones));
    forall a: Addr ensures a.family == f ==> (k * s <= a.value < k * s + s <==> a.value / s == k) {
      Quotient(a.value, k, s);
    }
  }

  lemma Commute(k: nat, s: nat)
    ensures k * s == s * k
  {
  }

  lemma Quotient(x: nat, k: nat, s: nat)
    requires s > 0
    ensures s * k <= x < s * k + s <==> x / s == k
  {
    if s * k <= x < s * k + s { Remainder(k, x - s * k, s); }
  }

  // ---- how many addresses ----

  /** Two addresses share a block of the given length exactly if their numbers agree on that many leading bits,
      of 32 or of 128. */
  lemma SharedPrefix(b: Block, a: Addr, x: Addr)
    requires Well(b) && In(b, a) && x.family == a.family
    ensures var low := Pow2((if a.family == V4 then 32 else 128) - b.ones);
      In(b, x) <==> x.value / low == a.value / low
  {
    hide Pow2;
    var s := Size(b);
    var k := b.base / s;
    Commute(k, s);
    assert b.base == k * s;
    Quotient(a.value, k, s);
    Quotient(x.value, k, s);
  }
}
