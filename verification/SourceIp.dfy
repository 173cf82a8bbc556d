/** Source address policies: parsing an entry, compiling a matcher, and matching. */
module SourceIp {
  import opened Wrappers

  const TWO_32 := 0x1_0000_0000
  const TWO_128 := 0x1_0000_0000_0000_0000_0000_0000_0000_0000

  /** An address as an unsigned number; `zoned` tells whether an IPv6 zone was written. */
  datatype Addr = V4(bits: int) | V6(bits: int, zoned: bool) {
    predicate Valid() { 0 <= bits < if V4? then TWO_32 else TWO_128 }

    function BitLen(): nat { if V4? then 32 else 128 }

    /** An IPv4-mapped IPv6 address, section 2.5.5.2 of RFC 4291. */
    predicate Is4In6() { V6? && bits / TWO_32 == 0xFFFF }

    function Unmap(): Addr { if Is4In6() then V4(bits % TWO_32) else this }

    function WithoutZone(): Addr { if V6? then V6(bits, false) else this }
  }

  /** The IPv6 form of an IPv4 address. */
  function Mapped(a: Addr): Addr
    requires a.V4?
  {
    V6(0xFFFF * TWO_32 + a.bits, false)
  }

  datatype Prefix = Prefix(addr: Addr, bits: nat)

  /** A configured entry after lexical analysis: a literal address, a CIDR, or neither. */
  datatype Entry = Malformed | Literal(addr: Addr) | Cidr(addr: Addr, bits: nat)

  datatype Mode = Off | Allowlist | Denylist | UnknownMode(name: string)

  const MAX_SOURCE_IPS := 256

  function Pow2(n: nat): (r: nat)
    ensures r >= 1
  {
    if n == 0 then 1 else 2 * Pow2(n - 1)
  }

  /** Addresses whose leading `bits` bits agree share a block. */
  function Block(a: Addr, bits: nat): int
  {
    if bits > a.BitLen() then a.bits else a.bits / Pow2(a.BitLen() - bits)
  }

  function Masked(p: Prefix): Prefix
  {
    if p.bits > p.addr.BitLen() then p
    else
      var low := Pow2(p.addr.BitLen() - p.bits);
      var base := p.addr.bits / low * low;
      Prefix(if p.addr.V4? then V4(base) else V6(base, p.addr.zoned), p.bits)
  }

  predicate Contains(p: Prefix, a: Addr)
  {
    a.V4? == p.addr.V4? && (a.V6? ==> !a.zoned) && Block(a, p.bits) == Block(p.addr, p.bits)
  }

  function ParseEntry(e: Entry): Option<Prefix>
  {
    match e
    case Malformed => None
    case Literal(a) =>
      if a.V6? && a.zoned then None else Some(Prefix(a.Unmap(), a.Unmap().BitLen()))
    case Cidr(a, bits) =>
      if a.V6? && a.zoned then None
      else if a.Is4In6() then (if bits < 96 then None else Some(Masked(Prefix(a.Unmap(), bits - 96))))
      else Some(Masked(Prefix(a, bits)))
  }

  /** `entries` stands for the sorted, duplicate-free list of parsed prefixes. */
  datatype Matcher = Matcher(mode: Mode, exact: set<Addr>, prefixes: seq<Prefix>, entries: set<Prefix>)

  predicate AllParse(values: seq<Entry>)
  {
    forall i :: 0 <= i < |values| ==> ParseEntry(values[i]).Some?
  }

  function Parsed(values: seq<Entry>): set<Prefix>
    requires AllParse(values)
  {
    set i | 0 <= i < |values| :: ParseEntry(values[i]).value
  }

  /** A policy compiles when it is off and empty, or on, non-empty, bounded and well-formed. */
  predicate Compiles(mode: Mode, values: seq<Entry>)
  {
    match mode
    case Off => values == []
    case UnknownMode(_) => false
    case _ => 0 < |values| <= MAX_SOURCE_IPS && AllParse(values)
  }

  predicate Matches(values: seq<Entry>, a: Addr)
    requires AllParse(values)
  {
    exists i :: 0 <= i < |values| && Contains(ParseEntry(values[i]).value, a)
  }

  /** What a policy admits, straight from its entries. */
  predicate Admits(mode: Mode, values: seq<Entry>, a: Addr)
    requires Compiles(mode, values)
  {
    var plain := a.Unmap().WithoutZone();
    match mode
    case Off => true
    case Allowlist => Matches(values, plain)
    case _ => !Matches(values, plain)
  }

  predicate FullLength(p: Prefix) { p.bits == p.addr.BitLen() }

  /** The matcher holds exactly the parsed entries, split by whether they name one address. */
  ghost predicate Represents(m: Matcher, mode: Mode, values: seq<Entry>)
  {
    AllParse(values) && m.mode == mode && m.entries == Parsed(values) &&
    m.exact == (set p | p in m.entries && FullLength(p) :: p.addr) &&
    (forall p :: p in m.prefixes <==> p in m.entries && !FullLength(p))
  }

  method Compile(mode: Mode, values: seq<Entry>) returns (ok: bool, matcher: Option<Matcher>)
    ensures ok <==> Compiles(mode, values)
    ensures ok ==> (matcher.None? <==> mode.Off?)
    ensures ok && matcher.Some? ==> Represents(matcher.value, mode, values)
  {
    if mode.Off? { return values == [], None; }
    if mode.UnknownMode? || values == [] || |values| > MAX_SOURCE_IPS { return false, None; }
    var unique: set<Prefix> := {};
    for i := 0 to |values|
      invariant AllParse(values[..i]) && unique == Parsed(values[..i])
    {
      var prefix := ParseEntry(values[i]);
      if prefix.None? { return false, None; }
      ParsedSnoc(values, i);
      unique := unique + {prefix.value};
    }
    assert values[..|values|] == values;
    var exact, prefixes, rest := {}, [], unique;
    while rest != {}
      invariant rest <= unique
      invariant exact == set p | p in unique - rest && FullLength(p) :: p.addr
      invariant forall p :: p in prefixes <==> p in unique - rest && !FullLength(p)
      decreases rest
    {
      var p :| p in rest;
      if FullLength(p) { exact := exact + {p.addr}; } else { prefixes := prefixes + [p]; }
      rest := rest - {p};
      assert unique - rest == (unique - (rest + {p})) + {p};
    }
    assert unique - {} == unique;
    return true, Some(Matcher(mode, exact, prefixes, unique));
  }

  lemma ParsedSnoc(values: seq<Entry>, i: nat)
    requires i < |values| && AllParse(values[..i]) && ParseEntry(values[i]).Some?
    ensures AllParse(values[..i + 1]) && Parsed(values[..i + 1]) == Parsed(values[..i]) + {ParseEntry(values[i]).value}
  {
    assert values[..i + 1] == values[..i] + [values[i]];
    forall p | p in Parsed(values[..i]) ensures p in Parsed(values[..i + 1]) {
      var j :| 0 <= j < i && ParseEntry(values[..i][j]).value == p;
      assert values[..i + 1][j] == values[..i][j];
    }
    assert values[..i + 1][i] == values[i];
  }

  lemma FullLengthContains(p: Prefix, a: Addr)
    requires FullLength(p) && (a.V6? ==> !a.zoned) && (p.addr.V6? ==> !p.addr.zoned)
    ensures Contains(p, a) <==> p.addr == a
  {
    assert Pow2(0) == 1;
  }

  lemma ParsedUnzoned(e: Entry)
    ensures ParseEntry(e).Some? && ParseEntry(e).value.addr.V6? ==> !ParseEntry(e).value.addr.zoned
  {
  }

  lemma ContainedInParsed(values: seq<Entry>, a: Addr)
    requires AllParse(values)
    ensures Matches(values, a) <==> exists p :: p in Parsed(values) && Contains(p, a)
  {
    if Matches(values, a) {
      var i :| 0 <= i < |values| && Contains(ParseEntry(values[i]).value, a);
      assert ParseEntry(values[i]).value in Parsed(values);
    }
  }

  /** Looking up the exact map and scanning the prefixes decides what the entries say. */
  method Allows(matcher: Matcher, addr: Option<Addr>, ghost values: seq<Entry>) returns (allowed: bool)
    requires (matcher.mode.Allowlist? || matcher.mode.Denylist?) && Compiles(matcher.mode, values)
    requires Represents(matcher, matcher.mode, values)
    ensures allowed <==> addr.Some? && Admits(matcher.mode, values, addr.value)
  {
    if addr.None? { return false; }
    var plain := addr.value.Unmap().WithoutZone();
    var matched := plain in matcher.exact;
    ghost var exactly := matched;
    if !matched {
      for i := 0 to |matcher.prefixes|
        invariant !matched && forall j :: 0 <= j < i ==> !Contains(matcher.prefixes[j], plain)
      {
        if Contains(matcher.prefixes[i], plain) {
          matched := true;
          break;
        }
      }
    }
    ContainedInParsed(values, plain);
    assert matched <==> exists p :: p in matcher.entries && Contains(p, plain) by {
      forall p | p in matcher.entries && FullLength(p) ensures Contains(p, plain) <==> p.addr == plain {
        var i :| 0 <= i < |values| && ParseEntry(values[i]).value == p;
        ParsedUnzoned(values[i]);
        FullLengthContains(p, plain);
      }
      if exactly {
        var p :| p in matcher.entries && FullLength(p) && p.addr == plain;
        assert Contains(p, plain);
      }
    }
    allowed := if matcher.mode.Allowlist? then matched else !matched;
  }

  /** Writing a client's IPv4 address in its IPv6 form changes no decision. */
  lemma MappedFormCannotBypass(mode: Mode, values: seq<Entry>, a: Addr)
    requires Compiles(mode, values) && a.V4? && a.Valid()
    ensures Admits(mode, values, Mapped(a)) == Admits(mode, values, a)
  {
    assert Mapped(a).Unmap() == a;
  }

  /** Writing an entry in its IPv6 form changes no policy. */
  lemma MappedEntryIsTheSame(a: Addr, bits: nat)
    requires a.V4? && a.Valid() && bits <= 32
    ensures ParseEntry(Literal(Mapped(a))) == ParseEntry(Literal(a))
    ensures ParseEntry(Cidr(Mapped(a), 96 + bits)) == ParseEntry(Cidr(a, bits))
  {
    assert Mapped(a).Unmap() == a;
  }

  /** The comparison RuntimeEqual makes. */
  predicate PoliciesEqual(mode1: Mode, values1: seq<Entry>, mode2: Mode, values2: seq<Entry>)
  {
    Compiles(mode1, values1) && Compiles(mode2, values2) && mode1 == mode2 &&
    (mode1.Off? || Parsed(values1) == Parsed(values2))
  }

  /** Equal policies, however their entries are ordered, repeated or written, admit the same clients. */
  lemma EqualPoliciesAdmitTheSame(mode1: Mode, values1: seq<Entry>, mode2: Mode, values2: seq<Entry>, a: Addr)
    requires PoliciesEqual(mode1, values1, mode2, values2)
    ensures Admits(mode1, values1, a) == Admits(mode2, values2, a)
  {
    if !mode1.Off? {
      ContainedInParsed(values1, a.Unmap().WithoutZone());
      ContainedInParsed(values2, a.Unmap().WithoutZone());
    }
  }
}
