/**
 Whose request it is (`common/ClientAddress.cpp`): the last hop of `X-Forwarded-For` no trusted
 proxy vouches for, and CIDR entries that compare leading bits.
 */
module ClientAddress {
  import opened Common
  import opened Decimal
  import opened Text

  const IPV4_BITS: nat := 32
  const INT_MAX: int := 0x7FFF_FFFF

  // ---------------------------------------------------------------------------
  // Numbers and addresses
  // ---------------------------------------------------------------------------

  predicate IsBlank(c: char) {
    c == ' ' || c == '\t'
  }

  function TrimBlanks(text: string): (trimmed: string)
    ensures trimmed == "" || (!IsBlank(trimmed[0]) && !IsBlank(trimmed[|trimmed| - 1]))
  {
    if text == "" then ""
    else if IsBlank(text[0]) then TrimBlanks(text[1..])
    else if IsBlank(text[|text| - 1]) then TrimBlanks(text[..|text| - 1])
    else text
  }

  /** `std::from_chars` over the whole text: a minus sign and leading zeros are read, a plus sign is not. */
  function ParseNumber(text: string): Option<int> {
    var negative := text != "" && text[0] == '-';
    var digits := if negative then text[1..] else text;
    if digits == "" || !AllDigits(digits) then None
    else
      var magnitude: int := ValueOf(digits);
      var value := if negative then -magnitude else magnitude;
      if -INT_MAX - 1 <= value <= INT_MAX then Some(value) else None
  }

  /** The value of one octet. */
  function Octet(text: string): Option<bv32> {
    match ParseNumber(text)
    case Some(value) => if 0 <= value <= 255 then Some(value as bv32) else None
    case None => None
  }

  function Shifted(packed: bv32, octet: bv32): bv32 {
    (packed << 8) | octet
  }

  /** The octets in front of a piece, packed. */
  function Packed(pieces: seq<string>): Option<bv32> {
    if pieces == [] then Some(0)
    else
      var packed :- Packed(pieces[..|pieces| - 1]);
      var octet :- Octet(pieces[|pieces| - 1]);
      Some(Shifted(packed, octet))
  }

  /** Exactly four pieces, each an octet. */
  function Ipv4Of(address: string): Option<bv32> {
    var pieces := Split(address, '.');
    if |pieces| == 4 then Packed(pieces) else None
  }

  lemma {:induction false} PackedNeedsEveryPiece(pieces: seq<string>, k: nat)
    requires k < |pieces| && (Packed(pieces[..k]).None? || Octet(pieces[k]).None?)
    ensures Packed(pieces).None?
    decreases |pieces| - k
  {
    var shorter := pieces[..|pieces| - 1];
    if k < |shorter| {
      assert shorter[..k] == pieces[..k];
      PackedNeedsEveryPiece(shorter, k);
    }
  }

  method ParseIpv4(address: string) returns (r: Option<bv32>)
    ensures r == Ipv4Of(address)
  {
    hide Packed, Octet, Split;
    ghost var pieces := Split(address, '.');
    var rest := address;
    var packed: bv32 := 0;
    PackedNothing();
    var octet := 0;
    while octet < 4
      invariant 0 <= octet <= 4
      invariant octet < 4 ==> octet < |pieces| && pieces[octet..] == Split(rest, '.')
      invariant octet == 4 ==> |pieces| == 4
      invariant octet <= |pieces| && Packed(pieces[..octet]) == Some(packed)
    {
      var last := octet + 1 == 4;
      var dot := Find(rest, '.', 0);
      SplitOnce(rest, '.', dot);
      if last != (dot == NPOS) {
        assert |pieces| != 4 by {
          assert |pieces[octet..]| == |pieces| - octet;
        }
        return None;
      }
      var piece := if dot == NPOS then rest else rest[..dot];
      assert pieces[octet] == piece;
      var value := Octet(piece);
      if value.None? {
        PackedNeedsEveryPiece(pieces, octet);
        return None;
      }
      PackedOneMore(pieces, octet);
      packed := (packed << 8) | value.value;
      if !last {
        rest := rest[dot + 1..];
        assert pieces[octet..][1..] == pieces[octet + 1..];
      }
      octet := octet + 1;
    }
    assert pieces[..octet] == pieces;
    return Some(packed);
  }

  lemma PackedNothing()
    ensures Packed([]) == Some(0)
  {
  }

  lemma PackedOneMore(pieces: seq<string>, k: nat)
    requires k < |pieces| && Packed(pieces[..k]).Some? && Octet(pieces[k]).Some?
    ensures Packed(pieces[..k + 1]) == Some(Shifted(Packed(pieces[..k]).value, Octet(pieces[k]).value))
  {
    assert pieces[..k + 1][..k] == pieces[..k];
  }

  /** Dotted decimal. */
  function Dotted(a: nat, b: nat, c: nat, d: nat): string {
    PrintNat(a) + (['.'] + (PrintNat(b) + (['.'] + (PrintNat(c) + (['.'] + PrintNat(d))))))
  }

  lemma PrintedOctet(n: nat)
    requires n <= 255
    ensures '.' !in PrintNat(n) && Octet(PrintNat(n)) == Some(n as bv32)
  {
    PrintNatIsCanonical(n);
    assert PrintNat(n)[0] != '-';
  }

  /** The byte that stands this many bits from the right. */
  function ByteAt(address: bv32, shift: bv32): bv32
    requires shift <= 32
  {
    (address >> shift) & 0xFF
  }

  ghost predicate HasOctets(address: bv32, a: bv32, b: bv32, c: bv32, d: bv32) {
    ByteAt(address, 24) == a && ByteAt(address, 16) == b && ByteAt(address, 8) == c && ByteAt(address, 0) == d
  }

  /** Appending an octet moves every byte one place to the left. */
  lemma ShiftMovesBytes(packed: bv32, octet: bv32)
    requires octet <= 255
    ensures ByteAt(Shifted(packed, octet), 0) == octet
    ensures ByteAt(Shifted(packed, octet), 8) == ByteAt(packed, 0)
    ensures ByteAt(Shifted(packed, octet), 16) == ByteAt(packed, 8)
    ensures ByteAt(Shifted(packed, octet), 24) == ByteAt(packed, 16)
  {
  }

  /** The octets come back, and no two addresses share all four. */
  lemma OctetsComeBack(a: bv32, b: bv32, c: bv32, d: bv32)
    requires a <= 255 && b <= 255 && c <= 255 && d <= 255
    ensures HasOctets(Shifted(Shifted(Shifted(Shifted(0, a), b), c), d), a, b, c, d)
  {
    hide Shifted, ByteAt;
    ShiftMovesBytes(0, a);
    ShiftMovesBytes(Shifted(0, a), b);
    ShiftMovesBytes(Shifted(Shifted(0, a), b), c);
    ShiftMovesBytes(Shifted(Shifted(Shifted(0, a), b), c), d);
  }

  lemma OctetsAreSmall(n: nat)
    requires n <= 255
    ensures n as bv32 <= 255
  {
  }

  lemma OctetsIdentifyTheAddress(x: bv32, y: bv32)
    requires HasOctets(x, ByteAt(y, 24), ByteAt(y, 16), ByteAt(y, 8), ByteAt(y, 0))
    ensures x == y
  {
  }

  /** Parsing undoes dotted-decimal printing: it gives the one address with these four bytes. */
  lemma ParsingUndoesDotted(a: nat, b: nat, c: nat, d: nat)
    requires a <= 255 && b <= 255 && c <= 255 && d <= 255
    ensures var address := Ipv4Of(Dotted(a, b, c, d));
            address.Some? && HasOctets(address.value, a as bv32, b as bv32, c as bv32, d as bv32)
  {
    hide HasOctets, Shifted;
    OctetsAreSmall(a);
    OctetsAreSmall(b);
    OctetsAreSmall(c);
    OctetsAreSmall(d);
    ParsingPacksTheOctets(a, b, c, d);
    OctetsComeBack(a as bv32, b as bv32, c as bv32, d as bv32);
  }

  lemma ParsingPacksTheOctets(a: nat, b: nat, c: nat, d: nat)
    requires a <= 255 && b <= 255 && c <= 255 && d <= 255
    ensures Ipv4Of(Dotted(a, b, c, d))
         == Some(Shifted(Shifted(Shifted(Shifted(0, a as bv32), b as bv32), c as bv32), d as bv32))
  {
    hide Octet, PrintNat, Split, Shifted, Packed;
    PrintedOctet(a);
    PrintedOctet(b);
    PrintedOctet(c);
    PrintedOctet(d);
    var last := PrintNat(c) + (['.'] + PrintNat(d));
    var lastThree := PrintNat(b) + (['.'] + last);
    SplitAlone(PrintNat(d), '.');
    SplitOff(last, PrintNat(c), '.', PrintNat(d));
    SplitOff(lastThree, PrintNat(b), '.', last);
    SplitOff(Dotted(a, b, c, d), PrintNat(a), '.', lastThree);
    var pieces := Split(Dotted(a, b, c, d), '.');
    assert pieces == [PrintNat(a), PrintNat(b), PrintNat(c), PrintNat(d)];
    PackedNothing();
    assert pieces[..0] == [];
    PackedOneMore(pieces, 0);
    PackedOneMore(pieces, 1);
    PackedOneMore(pieces, 2);
    PackedOneMore(pieces, 3);
    assert pieces[..4] == pieces;
  }

  // ---------------------------------------------------------------------------
  // Trusted proxies
  // ---------------------------------------------------------------------------

  /** How many bits a prefix leaves to the hosts. */
  function HostBits(prefix: nat): (count: bv32)
    requires prefix <= IPV4_BITS
    ensures prefix >= 1 ==> count < 32
  {
    (IPV4_BITS - prefix) as bv32
  }

  /** An address with its lowest bits cleared by a mask. */
  function Masked(address: bv32, count: bv32): bv32
    requires count < 32
  {
    address & !((1 << count) - 1)
  }

  function LeadingBits(address: bv32, count: bv32): bv32
    requires count <= 32
  {
    address >> count
  }

  function FollowedByZeros(bits: bv32, count: bv32): bv32
    requires count <= 32
  {
    bits << count
  }

  lemma MaskingKeepsLeadingBits(address: bv32, count: bv32)
    requires count < 32
    ensures Masked(address, count) == FollowedByZeros(LeadingBits(address, count), count)
    ensures LeadingBits(Masked(address, count), count) == LeadingBits(address, count)
  {
  }

  /** Two addresses in one network: their first `prefix` bits are the same. */
  predicate LeadingBitsAgree(a: bv32, b: bv32, prefix: nat)
    requires prefix <= IPV4_BITS
  {
    LeadingBits(a, HostBits(prefix)) == LeadingBits(b, HostBits(prefix))
  }

  lemma NoLeadingBitsAlwaysAgree(a: bv32, b: bv32)
    ensures LeadingBitsAgree(a, b, 0)
  {
    assert HostBits(0) == 32;
  }

  lemma MaskComparesLeadingBits(a: bv32, b: bv32, prefix: nat)
    requires 1 <= prefix <= IPV4_BITS
    ensures Masked(a, HostBits(prefix)) == Masked(b, HostBits(prefix)) <==> LeadingBitsAgree(a, b, prefix)
  {
    hide HostBits, Masked, LeadingBits, FollowedByZeros;
    MaskingKeepsLeadingBits(a, HostBits(prefix));
    MaskingKeepsLeadingBits(b, HostBits(prefix));
  }

  /** An entry is an address, or a network in CIDR notation. */
  predicate Matches(address: string, entry: string) {
    var slash := Find(entry, '/', 0);
    if slash == NPOS then address == entry
    else
      var network, prefix, candidate := Ipv4Of(entry[..slash]), ParseNumber(entry[slash + 1..]), Ipv4Of(address);
      && network.Some? && candidate.Some? && prefix.Some? && 0 <= prefix.value <= IPV4_BITS
      && LeadingBitsAgree(network.value, candidate.value, prefix.value)
  }

  predicate Trusted(address: string, trustedProxies: seq<string>) {
    exists entry <- trustedProxies :: Matches(address, TrimBlanks(entry))
  }

  method MatchesEntry(address: string, entry: string) returns (ok: bool)
    ensures ok <==> Matches(address, entry)
  {
    hide Ipv4Of, ParseNumber, LeadingBitsAgree, Masked, HostBits;
    var slash := Find(entry, '/', 0);
    if slash == NPOS {
      return address == entry;
    }
    var network := ParseIpv4(entry[..slash]);
    var prefix := ParseNumber(entry[slash + 1..]);
    var candidate := ParseIpv4(address);
    if network.None? || candidate.None? || prefix.None? || prefix.value < 0 || prefix.value > IPV4_BITS {
      return false;
    }
    if prefix.value == 0 {
      NoLeadingBitsAlwaysAgree(network.value, candidate.value);
      return true;
    }
    MaskComparesLeadingBits(network.value, candidate.value, prefix.value);
    var hosts := HostBits(prefix.value);
    return Masked(network.value, hosts) == Masked(candidate.value, hosts);
  }

  method Trimmed(text: string) returns (trimmed: string)
    ensures trimmed == TrimBlanks(text)
  {
    trimmed := text;
    while trimmed != "" && IsBlank(trimmed[0])
      invariant TrimBlanks(trimmed) == TrimBlanks(text)
      decreases |trimmed|
    {
      trimmed := trimmed[1..];
    }
    while trimmed != "" && IsBlank(trimmed[|trimmed| - 1])
      invariant trimmed == "" || !IsBlank(trimmed[0])
      invariant TrimBlanks(trimmed) == TrimBlanks(text)
      decreases |trimmed|
    {
      trimmed := trimmed[..|trimmed| - 1];
    }
  }

  method IsTrustedProxy(address: string, trustedProxies: seq<string>) returns (trusted: bool)
    ensures trusted <==> Trusted(address, trustedProxies)
  {
    hide Matches, TrimBlanks;
    var i := 0;
    while i < |trustedProxies|
      invariant 0 <= i <= |trustedProxies|
      invariant forall k :: 0 <= k < i ==> !Matches(address, TrimBlanks(trustedProxies[k]))
    {
      var entry := Trimmed(trustedProxies[i]);
      var matches := MatchesEntry(address, entry);
      if matches {
        assert trustedProxies[i] in trustedProxies;
        return true;
      }
      i := i + 1;
    }
    return false;
  }

  // ---------------------------------------------------------------------------
  // The client
  // ---------------------------------------------------------------------------

  /** The last hop that says something and is not a trusted proxy. */
  function LastUntrusted(hops: seq<string>, trustedProxies: seq<string>): Option<string> {
    if hops == [] then None
    else
      var hop := TrimBlanks(hops[|hops| - 1]);
      if hop != "" && !Trusted(hop, trustedProxies) then Some(hop)
      else LastUntrusted(hops[..|hops| - 1], trustedProxies)
  }

  function ClientOf(peer: string, forwardedFor: string, trustedProxies: seq<string>): string {
    if trustedProxies == [] || forwardedFor == "" || !Trusted(peer, trustedProxies) then peer
    else
      match LastUntrusted(Split(forwardedFor, ','), trustedProxies)
      case Some(hop) => hop
      case None => peer
  }

  lemma LastUntrustedOfOneMore(hops: seq<string>, piece: string, trustedProxies: seq<string>)
    ensures var hop := TrimBlanks(piece);
            LastUntrusted(hops + [piece], trustedProxies)
            == if hop != "" && !Trusted(hop, trustedProxies) then Some(hop) else LastUntrusted(hops, trustedProxies)
  {
    assert (hops + [piece])[..|hops|] == hops;
  }

  method ResolveClientAddress(peer: string, forwardedFor: string, trustedProxies: seq<string>) returns (client: string)
    ensures client == ClientOf(peer, forwardedFor, trustedProxies)
  {
    hide Trusted, TrimBlanks, Split, LastUntrusted, RFind;
    if trustedProxies == [] || forwardedFor == "" {
      return peer;
    }
    var vouched := IsTrustedProxy(peer, trustedProxies);
    if !vouched {
      return peer;
    }
    var end := |forwardedFor|;
    assert forwardedFor[..end] == forwardedFor;
    while end > 0
      invariant 0 <= end <= |forwardedFor|
      invariant LastUntrusted(Split(forwardedFor[..end], ','), trustedProxies)
             == LastUntrusted(Split(forwardedFor, ','), trustedProxies)
    {
      var comma := RFind(forwardedFor, ',', end);
      SplitAtLast(forwardedFor, ',', end, comma);
      var start := if comma == NPOS then 0 else comma + 1;
      var piece := forwardedFor[start..end];
      LastUntrustedOfOneMore(if comma == NPOS then [] else Split(forwardedFor[..comma], ','), piece, trustedProxies);
      assert comma == NPOS ==> [] + [piece] == [forwardedFor[..end]];
      var hop := Trimmed(piece);
      if hop != "" {
        var trusted := IsTrustedProxy(hop, trustedProxies);
        if !trusted {
          return hop;
        }
      }
      if comma == NPOS {
        NoHopsNoClient(trustedProxies);
        return peer;
      }
      end := comma;
    }
    assert forwardedFor[..0] == "";
    NoHopsNoClient(trustedProxies);
    return peer;
  }

  lemma NoHopsNoClient(trustedProxies: seq<string>)
    ensures LastUntrusted([], trustedProxies) == None
    ensures LastUntrusted(Split("", ','), trustedProxies) == None
  {
  }

  lemma {:induction false} LastUntrustedOfBoth(left: seq<string>, right: seq<string>, trustedProxies: seq<string>)
    ensures LastUntrusted(left + right, trustedProxies)
         == match LastUntrusted(right, trustedProxies)
            case Some(hop) => Some(hop)
            case None => LastUntrusted(left, trustedProxies)
  {
    hide Trusted, TrimBlanks;
    if right == [] {
      assert left + right == left;
    } else {
      assert (left + right)[..|left + right| - 1] == left + right[..|right| - 1];
      LastUntrustedOfBoth(left, right[..|right| - 1], trustedProxies);
    }
  }

  /** A hop that says something and that nobody vouches for. */
  predicate IsClientHop(hop: string, trustedProxies: seq<string>) {
    TrimBlanks(hop) != "" && !Trusted(TrimBlanks(hop), trustedProxies)
  }

  ghost predicate IsLastClientHop(hops: seq<string>, k: nat, trustedProxies: seq<string>) {
    k < |hops| && IsClientHop(hops[k], trustedProxies)
    && forall j :: k < j < |hops| ==> !IsClientHop(hops[j], trustedProxies)
  }

  ghost predicate NoClientHop(hops: seq<string>, trustedProxies: seq<string>) {
    forall k :: 0 <= k < |hops| ==> !IsClientHop(hops[k], trustedProxies)
  }

  lemma {:induction false} LastClientHopIsFound(hops: seq<string>, k: nat, trustedProxies: seq<string>)
    requires IsLastClientHop(hops, k, trustedProxies)
    ensures LastUntrusted(hops, trustedProxies) == Some(TrimBlanks(hops[k]))
  {
    hide Trusted, TrimBlanks;
    var n := |hops| - 1;
    if k < n {
      assert forall j :: 0 <= j < n ==> hops[..n][j] == hops[j];
      LastClientHopIsFound(hops[..n], k, trustedProxies);
    }
  }

  lemma {:induction false} NoClientHopNoAnswer(hops: seq<string>, trustedProxies: seq<string>)
    requires NoClientHop(hops, trustedProxies)
    ensures LastUntrusted(hops, trustedProxies) == None
  {
    hide Trusted, TrimBlanks;
    if hops != [] {
      var shorter := hops[..|hops| - 1];
      assert forall k :: 0 <= k < |shorter| ==> shorter[k] == hops[k];
      NoClientHopNoAnswer(shorter, trustedProxies);
    }
  }

  /**
   A header counts only from a trusted peer, and then the client is the last hop that says something and
   that nobody vouches for; if there is none, it is the peer.
   */
  lemma TheClientIsTheLastHopNobodyVouchesFor(peer: string, forwardedFor: string, trustedProxies: seq<string>)
    ensures !Trusted(peer, trustedProxies) ==> ClientOf(peer, forwardedFor, trustedProxies) == peer
    ensures var hops := Split(forwardedFor, ',');
            Trusted(peer, trustedProxies) ==>
              && (forall k: nat :: IsLastClientHop(hops, k, trustedProxies) ==>
                   ClientOf(peer, forwardedFor, trustedProxies) == TrimBlanks(hops[k]))
              && (NoClientHop(hops, trustedProxies) ==>
                   ClientOf(peer, forwardedFor, trustedProxies) == peer)
  {
    hide Trusted, TrimBlanks, Split, LastUntrusted, IsClientHop, NoClientHop;
    assert Trusted(peer, trustedProxies) ==> trustedProxies != [] by {
      TrustTakesAnEntry(peer, trustedProxies);
    }
    var hops := Split(forwardedFor, ',');
    forall k: nat | IsLastClientHop(hops, k, trustedProxies)
      ensures LastUntrusted(hops, trustedProxies) == Some(TrimBlanks(hops[k]))
    {
      LastClientHopIsFound(hops, k, trustedProxies);
    }
    if NoClientHop(hops, trustedProxies) {
      NoClientHopNoAnswer(hops, trustedProxies);
    }
    if forwardedFor == "" {
      BlankHeader(trustedProxies);
    }
  }

  lemma TrustTakesAnEntry(peer: string, trustedProxies: seq<string>)
    ensures Trusted(peer, trustedProxies) ==> trustedProxies != []
  {
  }

  lemma BlankHeader(trustedProxies: seq<string>)
    ensures forall k: nat :: !IsLastClientHop(Split("", ','), k, trustedProxies)
  {
    SplitAlone("", ',');
  }

  /** What stands left of a hop nobody vouches for never changes the answer: a client cannot forge its address. */
  lemma TextLeftOfTheClientNeverMatters(peer: string, forwardedFor: string, left: string, right: string,
                                        trustedProxies: seq<string>)
    requires forwardedFor == left + ([','] + right)
    requires LastUntrusted(Split(right, ','), trustedProxies).Some?
    ensures ClientOf(peer, forwardedFor, trustedProxies) == ClientOf(peer, right, trustedProxies)
  {
    hide Trusted, TrimBlanks, Split, LastUntrusted;
    SplitJoins(left, ',', right);
    LastUntrustedOfBoth(Split(left, ','), Split(right, ','), trustedProxies);
    NoHopsNoClient(trustedProxies);
  }
}
