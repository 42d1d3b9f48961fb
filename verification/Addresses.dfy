/** IP addresses and prefixes as numbers, and how trusted and denied prefixes are
    normalised (pkg/core/request.go, pkg/filters/proxy.go). */
module Addresses {

  const TWO32: nat := 0x1_0000_0000
  const TWO128: nat := 0x1_0000_0000_0000_0000_0000_0000_0000_0000

  datatype Addr = V4(bits: nat) | V6(bits: nat) {
    predicate Valid() {
      bits < if V4? then TWO32 else TWO128
    }

    function BitLen(): nat {
      if V4? then 32 else 128
    }

    /** An IPv4 address in its IPv6 form ::ffff:a.b.c.d. */
    predicate Is4In6() {
      V6? && Mapped(bits)
    }

    function Unmap(): Addr {
      if Is4In6() then V4(bits % TWO32) else this
    }
  }

  predicate Mapped(x: nat) {
    x / TWO32 == 0xffff
  }

  /** The leading bits of a number once its n trailing bits are cut off. */
  function Lead(x: nat, n: nat): nat {
    if n == 0 then x else Lead(x / 2, n - 1)
  }

  /** The n trailing bits alone. */
  function Low(x: nat, n: nat): nat {
    if n == 0 then 0 else x % 2 + 2 * Low(x / 2, n - 1)
  }

  /** The number with its n trailing bits cleared. */
  function Cleared(x: nat, n: nat): nat {
    if n == 0 then x else 2 * Cleared(x / 2, n - 1)
  }

  datatype Prefix = Prefix(addr: Addr, bits: nat) {
    predicate Valid() {
      addr.Valid() && bits <= addr.BitLen()
    }

    function Trailing(): nat
      requires Valid()
    {
      addr.BitLen() - bits
    }

    /** The prefix with the trailing bits of its address cleared. */
    function Masked(): Prefix
      requires Valid()
    {
      this.(addr := addr.(bits := Cleared(addr.bits, Trailing())))
    }

    predicate Contains(a: Addr)
      requires Valid()
    {
      addr.V4? == a.V4? && Lead(a.bits, Trailing()) == Lead(addr.bits, Trailing())
    }

    /** normalizeTrustedPrefix, which the deny list repeats. */
    function Normalized(): (p: Prefix)
      requires Valid()
    {
      var m := Masked();
      if m.addr.Is4In6() && m.bits >= 96
      then Prefix(m.addr.Unmap(), m.bits - 96).Masked()
      else m
    }
  }

  /** A prefix for one address: trusted entries normalise it, deny entries build it directly. */
  function SinglePrefix(a: Addr): Prefix {
    Prefix(a, a.BitLen())
  }

  // ---------------------------------------------------------------- arithmetic

  /** Cutting off m and then n bits cuts off m + n. */
  lemma {:induction false} LeadTwice(x: nat, m: nat, n: nat)
    ensures Lead(Lead(x, m), n) == Lead(x, m + n)
  {
    if m > 0 {
      LeadTwice(x / 2, m - 1, n);
    }
  }

  /** Equal leading bits stay equal when more bits are cut off. */
  lemma LeadShorter(x: nat, y: nat, m: nat, n: nat)
    requires m <= n && Lead(x, m) == Lead(y, m)
    ensures Lead(x, n) == Lead(y, n)
  {
    LeadTwice(x, m, n - m);
    LeadTwice(y, m, n - m);
  }

  /** Clearing trailing bits keeps the leading ones and leaves nothing behind. */
  lemma {:induction false} LeadCleared(x: nat, n: nat)
    ensures Lead(Cleared(x, n), n) == Lead(x, n) && Low(Cleared(x, n), n) == 0 && Cleared(x, n) <= x
  {
    if n > 0 {
      LeadCleared(x / 2, n - 1);
      assert Cleared(x, n) / 2 == Cleared(x / 2, n - 1);
    }
  }

  /** A number is its leading and its trailing bits. */
  lemma {:induction false} SameParts(x: nat, y: nat, n: nat)
    requires Lead(x, n) == Lead(y, n) && Low(x, n) == Low(y, n)
    ensures x == y
  {
    if n > 0 {
      SameParts(x / 2, y / 2, n - 1);
    }
  }

  /** Two numbers with the same bits beyond k agree beyond n iff their k trailing bits do. */
  lemma {:induction false} LeadLower(x: nat, y: nat, k: nat, n: nat)
    requires n <= k && Lead(x, k) == Lead(y, k)
    ensures Lead(x, n) == Lead(y, n) <==> Lead(Low(x, k), n) == Lead(Low(y, k), n)
  {
    if n > 0 {
      LeadLower(x / 2, y / 2, k - 1, n - 1);
      assert Low(x, k) / 2 == Low(x / 2, k - 1) && Low(y, k) / 2 == Low(y / 2, k - 1);
    } else if Low(x, k) == Low(y, k) {
      SameParts(x, y, k);
    }
  }

  /** If the first n bits are clear then so are the first k of them. */
  lemma {:induction false} LowShorter(x: nat, k: nat, n: nat)
    requires k <= n && Low(x, n) == 0
    ensures Low(x, k) == 0
  {
    if k > 0 {
      LowShorter(x / 2, k - 1, n - 1);
    }
  }

  function Shift(x: nat, n: nat): nat {
    if n == 0 then x else 2 * Shift(x, n - 1)
  }

  lemma {:induction false} Parts(x: nat, n: nat)
    ensures x == Shift(Lead(x, n), n) + Low(x, n) && Low(x, n) < Shift(1, n)
  {
    if n > 0 {
      Parts(x / 2, n - 1);
    }
  }

  lemma {:induction false} ShiftTwice(x: nat, m: nat, n: nat)
    ensures Shift(Shift(x, m), n) == Shift(x, m + n)
  {
    if n > 0 {
      ShiftTwice(x, m, n - 1);
    }
  }

  lemma ShiftBy32(x: nat)
    ensures Shift(x, 32) == x * TWO32
  {
    ShiftBy8(x);
    ShiftBy8(256 * x);
    ShiftBy8(256 * 256 * x);
    ShiftBy8(256 * 256 * 256 * x);
    ShiftTwice(x, 8, 8);
    ShiftTwice(x, 16, 8);
    ShiftTwice(x, 24, 8);
  }

  lemma ShiftBy8(x: nat)
    ensures Shift(x, 8) == 256 * x
  {
    assert Shift(x, 2) == 2 * Shift(x, 1);
    assert Shift(x, 4) == 2 * Shift(x, 3) == 4 * Shift(x, 2);
    assert Shift(x, 6) == 2 * Shift(x, 5) == 4 * Shift(x, 4);
    assert Shift(x, 8) == 2 * Shift(x, 7) == 4 * Shift(x, 6);
  }

  lemma Parts32(x: nat)
    ensures Lead(x, 32) == x / TWO32 && Low(x, 32) == x % TWO32
  {
    Parts(x, 32);
    ShiftBy32(Lead(x, 32));
    ShiftBy32(1);
  }

  // ---------------------------------------------------------------- normalisation

  lemma MaskedContainsSame(p: Prefix, a: Addr)
    requires p.Valid()
    ensures p.Masked().Valid() && p.Masked().Trailing() == p.Trailing()
    ensures p.Masked().Contains(a) <==> p.Contains(a)
  {
    LeadCleared(p.addr.bits, p.Trailing());
  }

  /** With at most 32 trailing bits, clearing them leaves the 96 bits before alone. */
  lemma MaskedUpper(p: Prefix)
    requires p.Valid() && p.addr.V6? && p.bits >= 96
    ensures p.Masked().addr.bits / TWO32 == p.addr.bits / TWO32
  {
    LeadCleared(p.addr.bits, p.Trailing());
    LeadShorter(p.Masked().addr.bits, p.addr.bits, p.Trailing(), 32);
    Parts32(p.Masked().addr.bits);
    Parts32(p.addr.bits);
  }

  /** With fewer than 96 bits the masked address is never an IPv4 address in disguise. */
  lemma ShortIsNotMapped(p: Prefix)
    requires p.Valid() && p.addr.V6? && p.bits < 96
    ensures !Mapped(p.Masked().addr.bits)
  {
    var m := p.Masked().addr.bits;
    LeadCleared(p.addr.bits, p.Trailing());
    LowShorter(m, 33, p.Trailing());
    Parts(m, 33);
    ShiftBy32(Lead(m, 33));
    assert Shift(Lead(m, 33), 33) == 2 * Shift(Lead(m, 33), 32);
    Parts32(m);
  }

  /** Membership of the 128-bit number x in an IPv6 prefix. */
  predicate Covers(p: Prefix, x: nat)
    requires p.Valid() && p.addr.V6?
  {
    Lead(x, p.Trailing()) == Lead(p.addr.bits, p.Trailing())
  }

  lemma MappedPrefixAccepts(p: Prefix, x: nat)
    requires p.Valid() && p.addr.V6? && p.bits >= 96 && Mapped(p.addr.bits) && x < TWO128
    ensures p.Normalized().Valid()
    ensures p.Normalized().Contains(V6(x).Unmap()) <==> Covers(p, x)
  {
    var n := p.Trailing();
    var m := p.Masked();
    MaskedUpper(p);
    MaskedContainsSame(p, V6(x));
    var q := Prefix(m.addr.Unmap(), m.bits - 96);
    assert q.Trailing() == n && p.Normalized() == q.Masked();
    MaskedContainsSame(q, V6(x).Unmap());
    if Mapped(x) {
      Parts32(x);
      Parts32(m.addr.bits);
      LeadLower(x, m.addr.bits, 32, n);
    } else if Covers(p, x) {
      LeadShorter(x, p.addr.bits, n, 32);
      Parts32(x);
      Parts32(p.addr.bits);
      assert false;
    }
  }

  /** What a normalised IPv6 prefix accepts, exactly: after unmapping, an address is accepted
      when the prefix covers it as a number, unless the prefix is shorter than 96 bits and
      the address is an IPv4 one in IPv6 form. */
  lemma NormalizedAcceptsExactly(p: Prefix, x: nat)
    requires p.Valid() && p.addr.V6? && x < TWO128
    ensures p.Normalized().Valid()
    ensures p.Normalized().Contains(V6(x).Unmap()) <==> Covers(p, x) && (p.bits >= 96 || !Mapped(x))
  {
    if p.bits >= 96 && Mapped(p.addr.bits) {
      MappedPrefixAccepts(p, x);
    } else {
      MaskedContainsSame(p, V6(x).Unmap());
      if p.bits >= 96 {
        MaskedUpper(p);
        if Covers(p, x) {
          LeadShorter(x, p.addr.bits, p.Trailing(), 32);
          Parts32(x);
          Parts32(p.addr.bits);
        }
      } else {
        ShortIsNotMapped(p);
      }
    }
  }

  /** A prefix decides every 128-bit address as a number exactly when it has at least 96
      bits or leaves the whole block of IPv4 addresses in IPv6 form out. */
  lemma NormalizationFaithfulIff(p: Prefix)
    requires p.Valid() && p.addr.V6?
    ensures p.Normalized().Valid()
    ensures (forall x: nat :: x < TWO128 ==> (p.Normalized().Contains(V6(x).Unmap()) <==> Covers(p, x)))
       <==> p.bits >= 96 || !Covers(p, 0xffff * TWO32)
  {
    var base: nat := 0xffff * TWO32;
    forall x: nat | x < TWO128
      ensures p.Normalized().Valid()
      ensures p.Normalized().Contains(V6(x).Unmap()) <==> Covers(p, x) && (p.bits >= 96 || !Mapped(x))
      ensures p.bits < 96 && Mapped(x) ==> (Covers(p, x) <==> Covers(p, base))
    {
      NormalizedAcceptsExactly(p, x);
      if p.bits < 96 && Mapped(x) {
        Parts32(x);
        Parts32(base);
        LeadShorter(x, base, 32, p.Trailing());
      }
    }
    NormalizedAcceptsExactly(p, base);
    assert Mapped(base) && base < TWO128;
  }

  /** So an IPv4 address in IPv6 form is refused by every shorter prefix around it, its own included. */
  lemma ShortPrefixRefusesItsOwn(x: nat, bits: nat)
    requires x < TWO128 && Mapped(x) && bits < 96
    ensures Covers(Prefix(V6(x), bits), x) && Prefix(V6(x), bits).Normalized().Valid()
    ensures !Prefix(V6(x), bits).Normalized().Contains(V6(x).Unmap())
  {
    NormalizedAcceptsExactly(Prefix(V6(x), bits), x);
  }

  /** A number below 2 to the n has no leading bits past the n-th. */
  lemma {:induction false} LeadSmall(x: nat, n: nat)
    requires x < Shift(1, n)
    ensures Lead(x, n) == 0
  {
    if n > 0 {
      assert Shift(1, n) == 2 * Shift(1, n - 1) by { ShiftTwice(1, n - 1, 1); }
      LeadSmall(x / 2, n - 1);
    }
  }

  lemma ShiftBy128()
    ensures Shift(1, 128) == TWO128
  {
    ShiftBy32(1);
    ShiftBy32(TWO32);
    ShiftBy32(TWO32 * TWO32);
    ShiftBy32(TWO32 * TWO32 * TWO32);
    ShiftTwice(1, 32, 32);
    ShiftTwice(1, 64, 32);
    ShiftTwice(1, 96, 32);
  }

  /** ::/0 covers every number and still refuses all of them. */
  lemma WholeSpaceRefusesMapped(x: nat)
    requires x < TWO128 && Mapped(x)
    ensures var p := Prefix(V6(0), 0);
            p.Valid() && Covers(p, x) && p.Normalized().Valid() && !p.Normalized().Contains(V6(x).Unmap())
  {
    ShiftBy128();
    LeadSmall(x, 128);
    LeadSmall(0, 128);
    NormalizedAcceptsExactly(Prefix(V6(0), 0), x);
  }

  /** A single address: normalising its full-length prefix, as trusted entries do, gives the
      prefix that deny entries build from the unmapped address. */
  lemma SingleAddressPrefixesAgree(a: Addr)
    requires a.Valid()
    ensures SinglePrefix(a).Normalized() == SinglePrefix(a.Unmap())
  {
    assert SinglePrefix(a).Masked() == SinglePrefix(a);
  }

  // ---------------------------------------------------------------- policies

  ghost predicate AllValid(prefixes: seq<Prefix>) {
    forall i :: 0 <= i < |prefixes| ==> prefixes[i].Valid()
  }

  /** isTrusted, and isDeniedAddr: some prefix holds the unmapped address. */
  predicate InSome(prefixes: seq<Prefix>, a: Addr)
    requires AllValid(prefixes)
  {
    exists i :: 0 <= i < |prefixes| && prefixes[i].Contains(a.Unmap())
  }

  method IsTrusted(prefixes: seq<Prefix>, a: Addr) returns (r: bool)
    requires AllValid(prefixes)
    ensures r <==> InSome(prefixes, a)
    ensures r <==> exists i :: 0 <= i < |prefixes| && prefixes[i].Contains(a.Unmap())
  {
    var addr := a.Unmap();
    for i := 0 to |prefixes|
      invariant forall j :: 0 <= j < i ==> !prefixes[j].Contains(addr)
    {
      if prefixes[i].Contains(addr) {
        return true;
      }
    }
    return false;
  }
}
