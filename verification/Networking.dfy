/**
 CIDR validation of a provisioning request (internal/broker/instance_create.go, internal/networking/cidr.go).
 IPv4 addresses are integers; a block of prefix p holds 2^(32-p) consecutive addresses and starts at a multiple
 of its size (section 3.1 of RFC 4632).
 */
module Networking {
  import opened Wrappers

  type Address = a: nat | a < 0x1_0000_0000
  type Prefix = p: nat | p <= 32

  /** A parsed "address/prefix" text, or a text that does not parse. */
  datatype Cidr = Malformed | Cidr(ip: Address, prefix: Prefix)

  datatype Block = Block(base: Address, prefix: Prefix)

  function Pow2(n: nat): (r: nat)
    ensures r >= 1
  {
    if n == 0 then 1 else 2 * Pow2(n - 1)
  }

  function Size(p: Prefix): nat {
    Pow2(32 - p)
  }

  /** The largest multiple of `size` that is at most a. */
  function Floor(a: nat, size: nat): (r: nat)
    requires size > 0
    ensures r <= a < r + size
  {
    assert a == (a / size) * size + a % size;
    (a / size) * size
  }

  /** The address with its host bits cleared. */
  function Masked(a: Address, p: Prefix): Address {
    Floor(a, Size(p))
  }

  /** The block net.ParseCIDR returns for a text that parses. */
  function NetOf(c: Cidr): Block
    requires c.Cidr?
  {
    Block(Masked(c.ip, c.prefix), c.prefix)
  }

  predicate Canonical(n: Block) {
    Masked(n.base, n.prefix) == n.base
  }

  /** IPNet.Contains: the address equals the base under the block's mask. */
  predicate Contains(n: Block, a: Address) {
    Masked(a, n.prefix) == Masked(n.base, n.prefix)
  }

  /** None stands for an error: the text does not parse, or has host bits set. */
  function ValidateCidr(c: Cidr): Option<Block> {
    if c.Malformed? then None
    else if NetOf(c).base != c.ip then None
    else Some(NetOf(c))
  }

  predicate Overlapping(n1: Block, n2: Block) {
    Contains(n1, n2.base) || Contains(n2, n1.base)
  }

  // ----- blocks as address ranges -----

  /** The addresses of a block, as a range. */
  predicate InBlock(n: Block, a: Address) {
    n.base <= a < n.base + Size(n.prefix)
  }

  ghost predicate Disjoint(n1: Block, n2: Block) {
    forall a: Address :: !(InBlock(n1, a) && InBlock(n2, a))
  }

  lemma {:induction false} Pow2Sum(m: nat, n: nat)
    ensures Pow2(m + n) == Pow2(m) * Pow2(n)
  {
    if m > 0 {
      Pow2Sum(m - 1, n);
      assert Pow2(m + n) == 2 * Pow2((m - 1) + n);
    }
  }

  /** A longer prefix means a size that divides the other. */
  lemma SizesDivide(p1: Prefix, p2: Prefix)
    requires p1 >= p2
    ensures Size(p2) == Pow2(p1 - p2) * Size(p1)
  {
    Pow2Sum(p1 - p2, 32 - p1);
  }

  /** Multiples of `size` are at least `size` apart. */
  lemma {:induction false} MultiplesApart(k: nat, l: nat, size: nat)
    ensures k < l ==> k * size + size <= l * size
  {
    if k < l {
      assert l * size == (l - 1) * size + size;
      MultiplesApart(k, l - 1, size);
    }
  }

  /** The floor is the one multiple of `size` within `size` below a. */
  lemma FloorUnique(q: nat, a: nat, size: nat)
    requires size > 0 && q * size <= a < q * size + size
    ensures Floor(a, size) == q * size
  {
    MultiplesApart(q, a / size, size);
    MultiplesApart(a / size, q, size);
  }

  /** A canonical block contains, by mask, exactly the addresses of its range. */
  lemma ContainsIsRange(n: Block, a: Address)
    requires Canonical(n)
    ensures Contains(n, a) <==> InBlock(n, a)
  {
    if InBlock(n, a) {
      var q := Quotient(n);
      FloorUnique(q, a, Size(n.prefix));
    }
  }

  /** Ranges of size s at a multiple of s and of size f*s at a multiple of f*s: if they meet, the first is inside. */
  lemma RangesNest(j: nat, k: nat, f: nat, s: nat, a: nat)
    requires f >= 1
    requires j * s <= a < j * s + s && k * (f * s) <= a < k * (f * s) + f * s
    ensures k * (f * s) <= j * s && j * s + s <= k * (f * s) + f * s
  {
    assert k * (f * s) == (k * f) * s;
    assert k * (f * s) + f * s == (k * f + f) * s;
    MultiplesApart(j, k * f, s);
    MultiplesApart(j, k * f + f, s);
    MultiplesApart(k * f + f, j, s);
  }

  /** If two canonical blocks share an address, the one with the longer prefix lies within the other. */
  lemma SharedMeansNested(n1: Block, n2: Block, a: Address)
    requires Canonical(n1) && Canonical(n2) && n1.prefix >= n2.prefix
    requires InBlock(n1, a) && InBlock(n2, a)
    ensures InBlock(n2, n1.base)
    ensures forall x: Address :: InBlock(n1, x) ==> InBlock(n2, x)
  {
    var size, factor := Size(n1.prefix), Pow2(n1.prefix - n2.prefix);
    SizesDivide(n1.prefix, n2.prefix);
    var j := Quotient(n1);
    var k := Quotient(n2);
    assert n1.base == j * size && n2.base == k * (factor * size);
    RangesNest(j, k, factor, size, a);
  }

  /** The multiple of its size a canonical block starts at. */
  lemma Quotient(n: Block) returns (q: nat)
    requires Canonical(n)
    ensures n.base == q * Size(n.prefix)
  {
    q := n.base / Size(n.prefix);
  }

  /** The two-sided base test reports an overlap exactly when the blocks share some address. */
  lemma OverlapExactly(n1: Block, n2: Block)
    requires Canonical(n1) && Canonical(n2)
    ensures Overlapping(n1, n2) <==> !Disjoint(n1, n2)
  {
    ContainsIsRange(n1, n2.base);
    ContainsIsRange(n2, n1.base);
    assert InBlock(n1, n1.base) && InBlock(n2, n2.base);
    if !Disjoint(n1, n2) {
      var a: Address :| InBlock(n1, a) && InBlock(n2, a);
      if n1.prefix >= n2.prefix {
        SharedMeansNested(n1, n2, a);
      } else {
        SharedMeansNested(n2, n1, a);
      }
    }
  }

  /** Two canonical blocks are nested or disjoint. */
  lemma NestedOrDisjoint(n1: Block, n2: Block)
    requires Canonical(n1) && Canonical(n2)
    ensures || Disjoint(n1, n2)
            || (forall x: Address :: InBlock(n1, x) ==> InBlock(n2, x))
            || (forall x: Address :: InBlock(n2, x) ==> InBlock(n1, x))
  {
    if !Disjoint(n1, n2) {
      var a: Address :| InBlock(n1, a) && InBlock(n2, a);
      if n1.prefix >= n2.prefix {
        SharedMeansNested(n1, n2, a);
      } else {
        SharedMeansNested(n2, n1, a);
      }
    }
  }

  // ----- request validation -----

  datatype NetworkingRequest = NetworkingRequest(nodes: Cidr, pods: Option<Cidr>, services: Option<Cidr>)

  /** The blocks the platform keeps for itself. */
  datatype Reserved = Reserved(seeds: seq<Block>, pods: Block, services: Block)

  datatype Problem = TooManyZones | PodsGiven | ServicesGiven | BadNodes | PrefixTooLong
                   | OverlapsSeed(seed: Block) | OverlapsPods | OverlapsServices | ServicesOverlapPods

  ghost predicate WellFormed(r: Reserved) {
    && (forall i :: 0 <= i < |r.seeds| ==> Canonical(r.seeds[i]))
    && Canonical(r.pods) && Canonical(r.services)
  }

  /** What an acceptable networking section is, in terms of address sets. */
  ghost predicate Acceptable(zones: nat, net: NetworkingRequest, r: Reserved) {
    && zones <= 4
    && net.pods.None? && net.services.None?
    && net.nodes.Cidr? && Canonical(Block(net.nodes.ip, net.nodes.prefix)) && net.nodes.prefix <= 23
    && var nodes := Block(net.nodes.ip, net.nodes.prefix);
    && (forall i :: 0 <= i < |r.seeds| ==> Disjoint(nodes, r.seeds[i]))
    && Disjoint(nodes, r.pods) && Disjoint(nodes, r.services) && Disjoint(r.services, r.pods)
  }

  /** The nodes block of a section whose nodes text is well formed. */
  ghost function NodesOf(net: NetworkingRequest): Block
    requires net.nodes.Cidr?
  {
    Block(net.nodes.ip, net.nodes.prefix)
  }

  /** Nothing is wrong with the form of the section: overlaps are looked for only then. */
  ghost predicate WellStated(zones: nat, net: NetworkingRequest) {
    && net.pods.None? && net.services.None? && zones <= 4
    && net.nodes.Cidr? && Canonical(NodesOf(net)) && net.nodes.prefix <= 23
  }

  /** Which problems a section is turned down with. */
  ghost predicate HasProblem(zones: nat, net: NetworkingRequest, r: Reserved, p: Problem) {
    var own := net.pods.None? && net.services.None?;
    var clear := WellStated(zones, net) && forall i :: 0 <= i < |r.seeds| ==> Disjoint(NodesOf(net), r.seeds[i]);
    match p
    case PodsGiven => net.pods.Some?
    case ServicesGiven => net.pods.None? && net.services.Some?
    case TooManyZones => own && zones > 4
    case BadNodes => own && !(net.nodes.Cidr? && Canonical(NodesOf(net)))
    case PrefixTooLong => own && net.nodes.Cidr? && net.nodes.prefix > 23
    case OverlapsSeed(b) => WellStated(zones, net) && b in r.seeds && !Disjoint(NodesOf(net), b)
    case OverlapsPods => clear && !Disjoint(NodesOf(net), r.pods)
    case OverlapsServices => clear && !Disjoint(NodesOf(net), r.services)
    case ServicesOverlapPods => clear && !Disjoint(r.services, r.pods)
  }

  /** Collects the problems of a request; a request without a networking section passes whatever its zones. */
  method ValidateNetworking(zones: nat, networking: Option<NetworkingRequest>, r: Reserved)
    returns (problems: seq<Problem>)
    requires WellFormed(r)
    ensures problems == [] <==> networking.None? || Acceptable(zones, networking.value, r)
    ensures forall p :: p in problems <==> networking.Some? && HasProblem(zones, networking.value, r, p)
  {
    problems := [];
    if zones > 4 {
      problems := problems + [TooManyZones];
    }
    if networking.None? {
      return [];
    }
    var net := networking.value;
    if net.pods.Some? {
      return [PodsGiven];
    }
    if net.services.Some? {
      return [ServicesGiven];
    }
    var nodes := ValidateCidr(net.nodes);
    if nodes.None? {
      problems := problems + [BadNodes];
    }
    if net.nodes.Cidr? && net.nodes.prefix > 23 {
      problems := problems + [PrefixTooLong];
    }
    if problems != [] {
      return;
    }
    problems := SeedProblems(nodes.value, r.seeds);
    if problems != [] {
      return;
    }
    OverlapExactly(nodes.value, r.pods);
    OverlapExactly(nodes.value, r.services);
    OverlapExactly(r.services, r.pods);
    if Overlapping(nodes.value, r.pods) {
      problems := problems + [OverlapsPods];
    }
    if Overlapping(nodes.value, r.services) {
      problems := problems + [OverlapsServices];
    }
    if Overlapping(r.services, r.pods) {
      problems := problems + [ServicesOverlapPods];
    }
  }

  /** One problem for every seed block that shares an address with the nodes. */
  method SeedProblems(nodes: Block, seeds: seq<Block>) returns (problems: seq<Problem>)
    requires Canonical(nodes) && forall i :: 0 <= i < |seeds| ==> Canonical(seeds[i])
    ensures problems == [] <==> forall i :: 0 <= i < |seeds| ==> Disjoint(nodes, seeds[i])
    ensures forall p :: p in problems <==> p.OverlapsSeed? && p.seed in seeds && !Disjoint(nodes, p.seed)
  {
    problems := [];
    for i := 0 to |seeds|
      invariant problems == [] <==> forall j :: 0 <= j < i ==> Disjoint(nodes, seeds[j])
      invariant forall p :: p in problems <==> p.OverlapsSeed? && p.seed in seeds[..i] && !Disjoint(nodes, p.seed)
    {
      OverlapExactly(nodes, seeds[i]);
      if Overlapping(nodes, seeds[i]) {
        problems := problems + [OverlapsSeed(seeds[i])];
      }
    }
    assert seeds[..|seeds|] == seeds;
  }

  // ----- the platform's own blocks -----

  function Ip(a: nat, b: nat, c: nat, d: nat): Address
    requires a < 256 && b < 256 && c < 256 && d < 256
  {
    a * 0x100_0000 + b * 0x1_0000 + c * 0x100 + d
  }

  const DEFAULT_NODES := Block(Ip(10, 250, 0, 0), 22)
  const DEFAULT_PODS := Block(Ip(10, 96, 0, 0), 13)
  const DEFAULT_SERVICES := Block(Ip(10, 104, 0, 0), 13)
  const GARDENER_SEEDS := [Block(Ip(10, 243, 128, 0), 17), Block(Ip(10, 242, 0, 0), 16), Block(Ip(10, 243, 0, 0), 17),
                           Block(Ip(10, 64, 0, 0), 11), Block(Ip(10, 254, 0, 0), 16), Block(Ip(10, 243, 0, 0), 16)]
  const PLATFORM := Reserved(GARDENER_SEEDS, DEFAULT_PODS, DEFAULT_SERVICES)

  lemma Sizes()
    ensures Size(22) == 0x400 && Size(17) == 0x8000 && Size(16) == 0x1_0000
    ensures Size(13) == 0x8_0000 && Size(11) == 0x20_0000
  {
    assert Pow2(5) == 32;
    Pow2Sum(5, 5);
    Pow2Sum(10, 5);
    Pow2Sum(15, 1);
    Pow2Sum(16, 3);
    Pow2Sum(19, 2);
    assert Pow2(2) == 4 && Pow2(3) == 8;
  }

  /** The platform's blocks are canonical, and the default node range keeps clear of all of them. */
  lemma DefaultsAreAcceptable(zones: nat)
    requires zones <= 4
    ensures WellFormed(PLATFORM)
    ensures Acceptable(zones, NetworkingRequest(Cidr(DEFAULT_NODES.base, DEFAULT_NODES.prefix), None, None), PLATFORM)
  {
    Sizes();
    assert forall i :: 0 <= i < |GARDENER_SEEDS| ==> Canonical(GARDENER_SEEDS[i]);
  }
}
