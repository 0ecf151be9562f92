/** The three target gates: the sensor's own (sensor/internal/scope/scope.go), the cloud dispatcher's
    (control-plane/sensorjobs/scope.go) and the report importer's (ingest/sensorreport/scope.go).

    Go's net package is a parameter: how it reads and prints addresses and blocks. IPv4-mapped IPv6
    literals are not modelled; the two families are separate. */
module ScopeGates {
  import opened Prelude
  import opened Cidr

  type IP = a: Addr | WellAddr(a) witness Addr(V4, 0)

  type Net = b: Block | Well(b) witness Block(V4, 0, 32)

  /** ParseIP, ParseCIDR and the two String methods. */
  datatype Library = Library(parseIP: string -> Option<IP>, parseCIDR: string -> Option<Net>, showIP: IP -> string, showCIDR: Net -> string)

  /** Printed addresses and blocks read back as themselves. */
  ghost predicate Canonical(lib: Library) {
    && (forall a: IP :: lib.parseIP(TrimSpace(lib.showIP(a))) == Some(a))
    && (forall b: Net :: lib.parseIP(TrimSpace(lib.showCIDR(b))) == None && lib.parseCIDR(TrimSpace(lib.showCIDR(b))) == Some(b))
  }

  // ---- the allow spec ----

  predicate Separator(c: char) {
    c == ',' || c == ' ' || c == '\n' || c == '\t'
  }

  function FirstField(s: string): (n: nat)
    ensures n <= |s| && (s != [] && !Separator(s[0]) ==> n > 0)
  {
    if s == [] || Separator(s[0]) then 0 else 1 + FirstField(s[1..])
  }

  /** strings.FieldsFunc on the separators. */
  function FieldsOf(s: string): seq<string>
    decreases |s|
  {
    if s == [] then []
    else if Separator(s[0]) then FieldsOf(s[1..])
    else [s[..FirstField(s)]] + FieldsOf(s[FirstField(s)..])
  }

  /** The fields trimmed, empty ones left out. */
  function Tokens(fields: seq<string>): seq<string> {
    if fields == [] then []
    else
      var t := TrimSpace(fields[|fields| - 1]);
      Tokens(fields[..|fields| - 1]) + if t != "" then [t] else []
  }

  function BlockOf(lib: Library, tok: string): Option<Net> {
    if '/' !in tok && lib.parseIP(tok).Some? then
      lib.parseCIDR(tok + if lib.parseIP(tok).value.family == V4 then "/32" else "/128")
    else lib.parseCIDR(tok)
  }

  /** Every token's block in order, or nothing if one does not parse. */
  function BlocksOf(lib: Library, toks: seq<string>): Option<seq<Net>> {
    if toks == [] then Some([])
    else
      var front, last := BlocksOf(lib, toks[..|toks| - 1]), BlockOf(lib, toks[|toks| - 1]);
      if front.Some? && last.Some? then Some(front.value + [last.value]) else None
  }

  function AddressesOf(lib: Library, toks: seq<string>): seq<IP> {
    if toks == [] then []
    else
      var last := lib.parseIP(toks[|toks| - 1]);
      AddressesOf(lib, toks[..|toks| - 1]) + if last.Some? then [last.value] else []
  }

  lemma {:induction false} OneBadToken(lib: Library, toks: seq<string>, i: nat)
    requires i <= |toks| && BlocksOf(lib, toks[..i]) == None
    ensures BlocksOf(lib, toks) == None
    decreases |toks|
  {
    if i < |toks| {
      assert toks[..|toks| - 1][..i] == toks[..i];
      OneBadToken(lib, toks[..|toks| - 1], i);
    } else {
      assert toks[..i] == toks;
    }
  }

  lemma {:induction false} TokensGrow(fields: seq<string>, i: nat)
    requires i <= |fields|
    ensures Tokens(fields[..i]) <= Tokens(fields)
    decreases |fields|
  {
    if i < |fields| {
      assert fields[..|fields| - 1][..i] == fields[..i];
      TokensGrow(fields[..|fields| - 1], i);
    } else {
      assert fields[..i] == fields;
    }
  }

  lemma NextToken(fields: seq<string>, i: nat)
    requires i < |fields|
    ensures Tokens(fields[..i + 1]) ==
      if TrimSpace(fields[i]) != "" then Tokens(fields[..i]) + [TrimSpace(fields[i])] else Tokens(fields[..i])
  {
    assert fields[..i + 1][..i] == fields[..i];
  }

  lemma NoBlocks(lib: Library, fields: seq<string>)
    ensures BlocksOf(lib, Tokens(fields[..0])) == Some([])
  {
  }

  lemma NextBlock(lib: Library, toks: seq<string>, tok: string)
    requires BlocksOf(lib, toks).Some?
    ensures BlocksOf(lib, toks + [tok]) ==
      if BlockOf(lib, tok).Some? then Some(BlocksOf(lib, toks).value + [BlockOf(lib, tok).value]) else None
  {
    assert (toks + [tok])[..|toks|] == toks;
  }

  lemma BadPrefix(lib: Library, fields: seq<string>, i: nat)
    requires i <= |fields| && BlocksOf(lib, Tokens(fields[..i])) == None
    ensures BlocksOf(lib, Tokens(fields)) == None
  {
    TokensGrow(fields, i);
    var n := |Tokens(fields[..i])|;
    assert Tokens(fields)[..n] == Tokens(fields[..i]);
    OneBadToken(lib, Tokens(fields), n);
  }

  /** NewScope of the cloud and of the importer: the loop over fields that trims, skips and parses. */
  method ParseScope(lib: Library, spec: string) returns (r: Option<seq<Net>>)
    ensures r == BlocksOf(lib, Tokens(FieldsOf(spec)))
  {
    hide FieldsOf, BlockOf, TrimSpace, Tokens, BlocksOf;
    var fields := FieldsOf(spec);
    var nets := [];
    NoBlocks(lib, fields);
    for i := 0 to |fields|
      invariant BlocksOf(lib, Tokens(fields[..i])) == Some(nets)
    {
      var tok := TrimSpace(fields[i]);
      NextToken(fields, i);
      if tok != "" {
        NextBlock(lib, Tokens(fields[..i]), tok);
        var n := BlockOf(lib, tok);
        if n == None {
          BadPrefix(lib, fields, i + 1);
          return None;
        }
        nets := nets + [n.value];
      }
    }
    assert fields[..|fields|] == fields;
    r := Some(nets);
  }

  // ---- targets ----

  datatype Target = Single(addr: IP) | Range(block: Net) | Neither

  function Read(lib: Library, host: string): Target {
    var t := TrimSpace(host);
    if lib.parseIP(t).Some? then Single(lib.parseIP(t).value)
    else if lib.parseCIDR(t).Some? then Range(lib.parseCIDR(t).value)
    else Neither
  }

  /** The addresses a target stands for. */
  ghost predicate Reaches(t: Target, a: IP) {
    match t
    case Single(x) => a == x
    case Range(b) => In(b, a)
    case Neither => false
  }

  predicate SomeContains(nets: seq<Net>, a: IP) {
    exists i :: 0 <= i < |nets| && Contains(nets[i], a)
  }

  predicate SomeHolds(nets: seq<Net>, b: Net) {
    exists i :: 0 <= i < |nets| && Within(b, nets[i])
  }

  method FindContaining(nets: seq<Net>, a: IP) returns (found: bool)
    ensures found == SomeContains(nets, a)
  {
    for i := 0 to |nets|
      invariant forall k :: 0 <= k < i ==> !Contains(nets[k], a)
    {
      if Contains(nets[i], a) { return true; }
    }
    found := false;
  }

  method FindHolding(nets: seq<Net>, b: Net) returns (found: bool)
    ensures found == SomeHolds(nets, b)
  {
    for i := 0 to |nets|
      invariant forall k :: 0 <= k < i ==> !Within(b, nets[k])
    {
      if Within(b, nets[i]) { return true; }
    }
    found := false;
  }

  // ---- degenerate space ----

  function Byte(a: IP, i: nat): nat
    requires 8 * (i + 1) <= Bits(a.family)
  {
    (a.value / Pow2(Bits(a.family) - 8 * (i + 1))) % 256
  }

  predicate IsLoopback(a: IP) {
    if a.family == V4 then Byte(a, 0) == 127 else a.value == 1
  }

  predicate IsLinkLocalUnicast(a: IP) {
    if a.family == V4 then Byte(a, 0) == 169 && Byte(a, 1) == 254 else Byte(a, 0) == 0xfe && Byte(a, 1) / 64 == 2
  }

  predicate IsLinkLocalMulticast(a: IP) {
    if a.family == V4 then Byte(a, 0) == 224 && Byte(a, 1) == 0 && Byte(a, 2) == 0 else Byte(a, 0) == 0xff && Byte(a, 1) % 16 == 2
  }

  predicate IsMulticast(a: IP) {
    if a.family == V4 then Byte(a, 0) / 16 == 14 else Byte(a, 0) == 0xff
  }

  /** The addresses refused as single targets. */
  predicate Degenerate(a: IP) {
    a.value == 0 || IsLoopback(a) || IsLinkLocalUnicast(a) || IsLinkLocalMulticast(a) || IsMulticast(a)
  }

  function PrefixNet(f: Family, k: nat, ones: nat): (n: Net)
    requires ones <= Bits(f) && k < Pow2(ones)
  {
    PrefixIs(f, k, ones);
    Prefix(f, k, ones)
  }

  /** The ranges refused as parts of block targets: 127.0.0.0/8, 169.254.0.0/16, 224.0.0.0/4, 0.0.0.0/8,
      ::1/128, fe80::/10, ff00::/8 and ::/128. */
  function DegenerateNets(): (nets: seq<Net>)
    ensures |nets| == 8
  {
    SmallPowers();
    [ PrefixNet(V4, 127, 8), PrefixNet(V4, 169 * 256 + 254, 16), PrefixNet(V4, 14, 4), PrefixNet(V4, 0, 8),
      PrefixNet(V6, 1, 128), PrefixNet(V6, 0x3fa, 10), PrefixNet(V6, 0xff, 8), PrefixNet(V6, 0, 128)]
  }

  predicate OverlapsDegenerate(b: Net) {
    exists i :: 0 <= i < |DegenerateNets()| && Overlap(DegenerateNets()[i], b)
  }

  // ---- the verdicts ----

  /** The sensor's CheckHost: the canonical form of an accepted target. */
  function SensorVerdict(lib: Library, allow: seq<Net>, denied: seq<IP>, host: string): Option<string> {
    match Read(lib, host)
    case Single(a) => if Degenerate(a) || a in denied || !SomeContains(allow, a) then None else Some(lib.showIP(a))
    case Range(b) => if OverlapsDegenerate(b) || !SomeHolds(allow, b) then None else Some(lib.showCIDR(b))
    case Neither => None
  }

  /** The cloud's Contains. */
  predicate CloudContains(lib: Library, nets: seq<Net>, target: string) {
    match Read(lib, target)
    case Single(a) => SomeContains(nets, a)
    case Range(b) => SomeHolds(nets, b)
    case Neither => false
  }

  /** The importer's ContainsIP. */
  predicate ReportContains(lib: Library, nets: seq<Net>, host: string) {
    var ip := lib.parseIP(TrimSpace(host));
    ip.Some? && SomeContains(nets, ip.value)
  }

  function SensorKept(lib: Library, allow: seq<Net>, denied: seq<IP>, targets: seq<string>): seq<string> {
    if targets == [] then []
    else
      var v := SensorVerdict(lib, allow, denied, targets[|targets| - 1]);
      SensorKept(lib, allow, denied, targets[..|targets| - 1]) + if v.Some? then [v.value] else []
  }

  function SensorDropped(lib: Library, allow: seq<Net>, denied: seq<IP>, targets: seq<string>): seq<string> {
    if targets == [] then []
    else
      var t := targets[|targets| - 1];
      SensorDropped(lib, allow, denied, targets[..|targets| - 1]) + if SensorVerdict(lib, allow, denied, t).Some? then [] else [t]
  }

  function CloudKept(lib: Library, nets: seq<Net>, targets: seq<string>): seq<string> {
    if targets == [] then []
    else
      var t := targets[|targets| - 1];
      CloudKept(lib, nets, targets[..|targets| - 1]) + if CloudContains(lib, nets, t) then [TrimSpace(t)] else []
  }

  function CloudDropped(lib: Library, nets: seq<Net>, targets: seq<string>): seq<string> {
    if targets == [] then []
    else
      var t := targets[|targets| - 1];
      CloudDropped(lib, nets, targets[..|targets| - 1]) + if CloudContains(lib, nets, t) then [] else [t]
  }

  // ---- the gates ----

  class SensorScope {
    const lib: Library
    var allow: seq<Net>
    var denied: seq<IP>

    /** New: an allow spec that does not parse is an error, an unreadable self-deny entry is skipped. */
    static method New(lib: Library, allowSpec: string, denySpec: string) returns (s: SensorScope?)
      ensures s == null <==> BlocksOf(lib, Tokens(FieldsOf(allowSpec))) == None
      ensures s != null ==>
        && fresh(s) && s.lib == lib && Some(s.allow) == BlocksOf(lib, Tokens(FieldsOf(allowSpec)))
        && s.denied == AddressesOf(lib, Tokens(FieldsOf(denySpec)))
    {
      hide FieldsOf, BlocksOf, Tokens;
      var nets := ParseScope(lib, allowSpec);
      if nets == None { return null; }
      var toks := Tokens(FieldsOf(denySpec));
      var denied := [];
      for i := 0 to |toks|
        invariant denied == AddressesOf(lib, toks[..i])
      {
        assert toks[..i + 1][..i] == toks[..i];
        var ip := lib.parseIP(toks[i]);
        if ip.Some? { denied := denied + [ip.value]; }
      }
      assert toks[..|toks|] == toks;
      s := new SensorScope(lib, nets.value, denied);
    }

    constructor (lib: Library, allow: seq<Net>, denied: seq<IP>)
      ensures this.lib == lib && this.allow == allow && this.denied == denied
    {
      this.lib, this.allow, this.denied := lib, allow, denied;
    }

    method DegenerateOverlap(b: Net) returns (overlaps: bool)
      ensures overlaps == OverlapsDegenerate(b)
    {
      hide Overlap, DegenerateNets;
      var nets := DegenerateNets();
      for i := 0 to |nets|
        invariant forall k :: 0 <= k < i ==> !Overlap(nets[k], b)
      {
        if Overlap(nets[i], b) { return true; }
      }
      overlaps := false;
    }

    method CheckHost(host: string) returns (r: Option<string>)
      ensures r == SensorVerdict(lib, allow, denied, host)
    {
      hide Degenerate, OverlapsDegenerate, SomeContains, SomeHolds;
      var t := TrimSpace(host);
      var ip := lib.parseIP(t);
      if ip.Some? {
        if Degenerate(ip.value) { return None; }
        for i := 0 to |denied|
          invariant ip.value !in denied[..i]
        {
          if denied[i] == ip.value { return None; }
        }
        assert denied[..|denied|] == denied;
        var found := FindContaining(allow, ip.value);
        return if found then Some(lib.showIP(ip.value)) else None;
      }
      var block := lib.parseCIDR(t);
      if block == None { return None; }
      var bad := DegenerateOverlap(block.value);
      if bad { return None; }
      var found := FindHolding(allow, block.value);
      r := if found then Some(lib.showCIDR(block.value)) else None;
    }

    method Filter(targets: seq<string>) returns (kept: seq<string>, dropped: seq<string>)
      ensures kept == SensorKept(lib, allow, denied, targets) && dropped == SensorDropped(lib, allow, denied, targets)
    {
      hide SensorVerdict;
      kept, dropped := [], [];
      for i := 0 to |targets|
        invariant kept == SensorKept(lib, allow, denied, targets[..i]) && dropped == SensorDropped(lib, allow, denied, targets[..i])
      {
        assert targets[..i + 1][..i] == targets[..i];
        var r := CheckHost(targets[i]);
        if r.Some? { kept := kept + [r.value]; } else { dropped := dropped + [targets[i]]; }
      }
      assert targets[..|targets|] == targets;
    }
  }

  class CloudScope {
    const lib: Library
    var nets: seq<Net>

    constructor (lib: Library, nets: seq<Net>)
      ensures this.lib == lib && this.nets == nets
    {
      this.lib, this.nets := lib, nets;
    }

    method Contains(target: string) returns (r: bool)
      ensures r == CloudContains(lib, nets, target)
    {
      hide SomeContains, SomeHolds;
      var t := TrimSpace(target);
      var ip := lib.parseIP(t);
      if ip.Some? {
        r := FindContaining(nets, ip.value);
        return;
      }
      var block := lib.parseCIDR(t);
      if block == None { return false; }
      r := FindHolding(nets, block.value);
    }

    method Gate(targets: seq<string>) returns (kept: seq<string>, dropped: seq<string>)
      ensures kept == CloudKept(lib, nets, targets) && dropped == CloudDropped(lib, nets, targets)
    {
      hide CloudContains, TrimSpace;
      kept, dropped := [], [];
      for i := 0 to |targets|
        invariant kept == CloudKept(lib, nets, targets[..i]) && dropped == CloudDropped(lib, nets, targets[..i])
      {
        assert targets[..i + 1][..i] == targets[..i];
        var inside := Contains(targets[i]);
        if inside { kept := kept + [TrimSpace(targets[i])]; } else { dropped := dropped + [targets[i]]; }
      }
      assert targets[..|targets|] == targets;
    }
  }

  class ReportScope {
    const lib: Library
    var nets: seq<Net>

    constructor (lib: Library, nets: seq<Net>)
      ensures this.lib == lib && this.nets == nets
    {
      this.lib, this.nets := lib, nets;
    }

    method ContainsIP(host: string) returns (r: bool)
      ensures r == ReportContains(lib, nets, host)
    {
      var ip := lib.parseIP(TrimSpace(host));
      if ip == None { return false; }
      r := FindContaining(nets, ip.value);
    }
  }

  // ---- what the verdicts mean ----

  ghost predicate AllIn(t: Target, n: Net) {
    forall a: IP :: Reaches(t, a) ==> In(n, a)
  }

  /** Every address the target stands for lies in one and the same allow block. */
  ghost predicate Authorized(nets: seq<Net>, t: Target) {
    exists i :: 0 <= i < |nets| && AllIn(t, nets[i])
  }

  lemma HoldsIff(nets: seq<Net>, b: Net)
    ensures SomeHolds(nets, b) <==> Authorized(nets, Range(b))
  {
    forall i | 0 <= i < |nets| ensures Within(b, nets[i]) <==> AllIn(Range(b), nets[i]) {
      WithinAddresses(b, nets[i]);
      assert forall a: IP :: Reaches(Range(b), a) <==> In(b, a);
    }
  }

  /** WithinIff over well-formed addresses: a block's addresses all are. */
  lemma WithinAddresses(b: Net, n: Net)
    ensures Within(b, n) <==> forall a: IP :: In(b, a) ==> In(n, a)
  {
    WithinIff(b, n);
    forall a: Addr | In(b, a) ensures WellAddr(a) { BlockFits(b, a); }
    if forall a: IP :: In(b, a) ==> In(n, a) {
      forall a: Addr | In(b, a) ensures In(n, a) {
        var ip: IP := a;
        assert In(n, ip);
      }
    }
  }

  lemma BlockFits(b: Block, a: Addr)
    requires Well(b) && In(b, a)
    ensures WellAddr(a)
  {
    hide Pow2;
    Pow2Sum(b.ones, Bits(b.family) - b.ones);
    Room(b.base, Size(b), Pow2(b.ones));
  }

  lemma Room(base: nat, s: nat, n: nat)
    requires s > 0 && base % s == 0 && base < n * s
    ensures base + s <= n * s
  {
    var k := base / s;
    Commute(n, s);
    if k > n { MulGrows(s, n, k); }
    assert k != n;
    MulGrows(s, k, n);
  }

  lemma ContainsIff(nets: seq<Net>, a: IP)
    ensures SomeContains(nets, a) <==> exists i :: 0 <= i < |nets| && In(nets[i], a)
    ensures SomeContains(nets, a) <==> Authorized(nets, Single(a))
  {
    forall i | 0 <= i < |nets| ensures Contains(nets[i], a) <==> In(nets[i], a) { ContainsIsIn(nets[i], a); }
    forall i | 0 <= i < |nets| ensures In(nets[i], a) <==> AllIn(Single(a), nets[i]) {
      assert Reaches(Single(a), a);
    }
  }

  lemma OverlapsIff(b: Net)
    ensures OverlapsDegenerate(b) <==> exists a: IP :: In(b, a) && InDegenerateSpace(a)
  {
    hide DegenerateNets;
    var nets := DegenerateNets();
    forall i | 0 <= i < |nets| ensures Overlap(nets[i], b) <==> exists a: Addr :: In(nets[i], a) && In(b, a) { OverlapIff(nets[i], b); }
    if i :| 0 <= i < |nets| && Overlap(nets[i], b) {
      var a: Addr :| In(nets[i], a) && In(b, a);
      BlockFits(b, a);
      var ip: IP := a;
      assert In(b, ip) && InDegenerateSpace(ip);
    }
    if a: IP :| In(b, a) && InDegenerateSpace(a) {
      var i :| 0 <= i < |nets| && In(nets[i], a);
      assert Overlap(nets[i], b);
    }
  }

  /** The address lies in one of the degenerate ranges. */
  predicate InDegenerateSpace(a: IP) {
    exists i :: 0 <= i < |DegenerateNets()| && In(DegenerateNets()[i], a)
  }

  /** CheckHost accepts exactly the addresses that are authorized, not degenerate and not denied, and the
      blocks that lie in one allow block and share no address with degenerate space. */
  lemma CheckHostMeaning(lib: Library, allow: seq<Net>, denied: seq<IP>, host: string)
    ensures SensorVerdict(lib, allow, denied, host).Some? <==>
      var t := Read(lib, host);
      && !t.Neither? && Authorized(allow, t)
      && (t.Single? ==> !Degenerate(t.addr) && t.addr !in denied)
      && (t.Range? ==> forall a: IP :: Reaches(t, a) ==> !InDegenerateSpace(a))
  {
    hide Degenerate, OverlapsDegenerate, SomeContains, SomeHolds, InDegenerateSpace, Authorized, TrimSpace;
    var t := Read(lib, host);
    match t
    case Single(a) => ContainsIff(allow, a);
    case Range(b) =>
      HoldsIff(allow, b);
      OverlapsIff(b);
      assert forall a: IP :: Reaches(t, a) <==> In(b, a);
    case Neither =>
  }

  /** The cloud gate accepts exactly the literals that lie within one scope block. */
  lemma CloudMeaning(lib: Library, nets: seq<Net>, target: string)
    ensures CloudContains(lib, nets, target) <==> !Read(lib, target).Neither? && Authorized(nets, Read(lib, target))
  {
    hide SomeContains, SomeHolds, Authorized;
    match Read(lib, target)
    case Single(a) => ContainsIff(nets, a);
    case Range(b) => HoldsIff(nets, b);
    case Neither =>
  }

  /** Under one allow spec the three gates agree: what the sensor keeps the cloud accepts, even in the
      sensor's own spelling, and every address of what the cloud accepts passes the importer. */
  lemma GatesAgree(lib: Library, nets: seq<Net>, denied: seq<IP>, host: string)
    ensures SensorVerdict(lib, nets, denied, host).Some? ==> CloudContains(lib, nets, host)
    ensures SensorVerdict(lib, nets, denied, host).Some? && Canonical(lib)
        ==> CloudContains(lib, nets, SensorVerdict(lib, nets, denied, host).value)
    ensures CloudContains(lib, nets, host) ==>
      forall a: IP, h: string :: Reaches(Read(lib, host), a) && lib.parseIP(TrimSpace(h)) == Some(a) ==> ReportContains(lib, nets, h)
  {
    hide Degenerate, OverlapsDegenerate, SomeContains, SomeHolds, TrimSpace;
    if CloudContains(lib, nets, host) {
      CloudMeaning(lib, nets, host);
      var t := Read(lib, host);
      forall a: IP | Reaches(t, a) ensures SomeContains(nets, a) {
        var i :| 0 <= i < |nets| && AllIn(t, nets[i]);
        assert In(nets[i], a);
        ContainsIff(nets, a);
      }
    }
  }

  // ---- the two readings of degenerate space ----

  lemma DivDiv(v: nat, s: nat, c: nat)
    requires s > 0 && c > 0
    ensures s * c > 0 && (v / s) / c == v / (s * c)
  {
    QuotientOfParts(v, s, c, v / s, v % s, v / s / c, v / s % c);
  }

  lemma QuotientOfParts(v: nat, s: nat, c: nat, q: nat, r: nat, k: nat, m: nat)
    requires v == s * q + r && r < s && q == c * k + m && m < c
    ensures s * c > 0 && v / (s * c) == k
  {
    MulGrows(s, m, c);
    Expand(s, c, k, m);
    var t, u := s * c, s * m + r;
    assert u < t && v == t * k + u;
    Remainder(k, u, t);
  }

  lemma Expand(s: nat, c: nat, k: nat, m: nat)
    ensures s * (c * k + m) == (s * c) * k + s * m
  {
  }

  predicate V4Space(v: nat) {
    v / Pow2(24) == 127 || v / Pow2(16) == 169 * 256 + 254 || v / Pow2(28) == 14 || v / Pow2(24) == 0
  }

  predicate V6Space(v: nat) {
    v == 1 || v / Pow2(118) == 0x3fa || v / Pow2(120) == 0xff || v == 0
  }

  lemma InPrefix(f: Family, k: nat, ones: nat, a: IP)
    requires ones <= Bits(f) && k < Pow2(ones)
    ensures In(PrefixNet(f, k, ones), a) <==> a.family == f && a.value / Pow2(Bits(f) - ones) == k
  {
    PrefixIs(f, k, ones);
  }

  lemma SpaceByPrefix(a: IP)
    ensures InDegenerateSpace(a) <==> if a.family == V4 then V4Space(a.value) else V6Space(a.value)
  {
    hide Pow2, In, PrefixNet;
    var nets := DegenerateNets();
    SmallPowers();
    InPrefix(V4, 127, 8, a);
    InPrefix(V4, 169 * 256 + 254, 16, a);
    InPrefix(V4, 14, 4, a);
    InPrefix(V4, 0, 8, a);
    InPrefix(V6, 1, 128, a);
    InPrefix(V6, 0x3fa, 10, a);
    InPrefix(V6, 0xff, 8, a);
    InPrefix(V6, 0, 128, a);
    assert InDegenerateSpace(a) <==> In(nets[0], a) || In(nets[1], a) || In(nets[2], a) || In(nets[3], a)
                                     || In(nets[4], a) || In(nets[5], a) || In(nets[6], a) || In(nets[7], a);
  }

  /** The byte tests on single addresses and the ranges for blocks refuse the same space, except the rest of
      0.0.0.0/8, which only blocks are refused for. */
  lemma DegenerateIff(a: IP)
    ensures Degenerate(a) <==> InDegenerateSpace(a) && !(a.family == V4 && 0 < a.value < Pow2(24))
  {
    hide InDegenerateSpace, Pow2;
    SpaceByPrefix(a);
    if a.family == V4 { V4Bytes(a); } else { V6Bytes(a); }
  }

  lemma V4Bytes(a: IP)
    requires a.family == V4
    ensures Degenerate(a) <==> V4Space(a.value) && !(0 < a.value < Pow2(24))
  {
    hide Pow2;
    SmallPowers();
    DivDiv(a.value, 65536, 256);
    DivDiv(a.value, 16777216, 16);
  }

  lemma V6Powers()
    ensures Pow2(118) == Pow2(112) * 64 && Pow2(120) == Pow2(112) * 256 && Pow2(128) == Pow2(112) * 65536
  {
    hide Pow2;
    SmallPowers();
    Pow2Sum(112, 6);
    Pow2Sum(112, 8);
    Pow2Sum(112, 16);
  }

  lemma V6Bytes(a: IP)
    requires a.family == V6
    ensures Degenerate(a) <==> V6Space(a.value)
  {
    hide Pow2;
    V6Powers();
    V6Parts(a.value, Pow2(112), Pow2(118), Pow2(120), Pow2(128));
  }

  /** With p the weight of the first two bytes. */
  lemma V6Parts(v: nat, p: nat, p64: nat, p256: nat, all: nat)
    requires p > 0 && p64 == p * 64 && p256 == p * 256 && all == p * 65536 && v < all
    ensures p64 > 0 && p256 > 0
    ensures (v / p256) % 256 == v / p256
    ensures ((v / p256) % 256 == 0xfe && ((v / p) % 256) / 64 == 2) <==> v / p64 == 0x3fa
  {
    DivDiv(v, p, 256);
    DivDiv(v, p, 64);
    DivDiv(v, p, 65536);
    Bounded(v, all);
    V6Words(v / p);
  }

  lemma Bounded(v: nat, n: nat)
    requires v < n
    ensures v / n == 0
  {
  }

  /** With w the first two bytes. */
  lemma V6Words(w: nat)
    requires w / 65536 == 0
    ensures (w / 256) % 256 == w / 256
    ensures (w / 256 == 0xfe && (w % 256) / 64 == 2) <==> w / 64 == 0x3fa
  {
  }

  // ---- whole target lists ----

  lemma {:induction false} KeptIff(lib: Library, allow: seq<Net>, denied: seq<IP>, targets: seq<string>, k: string)
    ensures k in SensorKept(lib, allow, denied, targets) <==>
      exists i :: 0 <= i < |targets| && SensorVerdict(lib, allow, denied, targets[i]) == Some(k)
    ensures |SensorKept(lib, allow, denied, targets)| + |SensorDropped(lib, allow, denied, targets)| == |targets|
    decreases |targets|
  {
    hide SensorVerdict;
    if targets != [] {
      var n := |targets| - 1;
      KeptIff(lib, allow, denied, targets[..n], k);
      assert forall i :: 0 <= i < n ==> targets[..n][i] == targets[i];
      if SensorVerdict(lib, allow, denied, targets[n]) == Some(k) {
        assert SensorKept(lib, allow, denied, targets)[|SensorKept(lib, allow, denied, targets)| - 1] == k;
      }
    }
  }

  lemma ReadBack(lib: Library, allow: seq<Net>, denied: seq<IP>, host: string)
    requires Canonical(lib) && SensorVerdict(lib, allow, denied, host).Some?
    ensures Read(lib, SensorVerdict(lib, allow, denied, host).value) == Read(lib, host)
  {
    hide Degenerate, OverlapsDegenerate, SomeContains, SomeHolds, TrimSpace;
  }

  /** Whatever the cloud sends, no address reached by the kept targets is outside the allow set, in degenerate
      space (but for single addresses in 0.0.0.0/8), or denied (but inside a block). */
  lemma SensorStaysInScope(lib: Library, allow: seq<Net>, denied: seq<IP>, targets: seq<string>, k: string, a: IP)
    requires Canonical(lib) && k in SensorKept(lib, allow, denied, targets) && Reaches(Read(lib, k), a)
    ensures exists i :: 0 <= i < |allow| && In(allow[i], a)
    ensures InDegenerateSpace(a) ==> Read(lib, k).Single? && a.family == V4 && 0 < a.value < Pow2(24)
    ensures a in denied ==> Read(lib, k).Range?
  {
    hide SensorVerdict, SensorKept, InDegenerateSpace, Degenerate, Canonical;
    KeptIff(lib, allow, denied, targets, k);
    var i :| 0 <= i < |targets| && SensorVerdict(lib, allow, denied, targets[i]) == Some(k);
    ReadBack(lib, allow, denied, targets[i]);
    CheckHostMeaning(lib, allow, denied, targets[i]);
    DegenerateIff(a);
    var n :| 0 <= n < |allow| && AllIn(Read(lib, k), allow[n]);
    assert In(allow[n], a);
  }

  /** A block that holds d, lies in one allow block and shares no address with degenerate space. */
  ghost predicate Sweeps(allow: seq<Net>, t: Target, d: IP) {
    t.Range? && In(t.block, d) && Authorized(allow, t) && forall a: IP :: In(t.block, a) ==> !InDegenerateSpace(a)
  }

  /** A denied address is reached exactly when some target is such a block: the deny list is not consulted
      for blocks. */
  lemma DeniedReachedIff(lib: Library, allow: seq<Net>, denied: seq<IP>, targets: seq<string>, d: IP)
    requires Canonical(lib) && d in denied
    ensures (exists k :: k in SensorKept(lib, allow, denied, targets) && Reaches(Read(lib, k), d)) <==>
      exists i :: 0 <= i < |targets| && Sweeps(allow, Read(lib, targets[i]), d)
  {
    hide *;
    if k :| k in SensorKept(lib, allow, denied, targets) && Reaches(Read(lib, k), d) {
      KeptIff(lib, allow, denied, targets, k);
      SensorStaysInScope(lib, allow, denied, targets, k, d);
      var i :| 0 <= i < |targets| && SensorVerdict(lib, allow, denied, targets[i]) == Some(k);
      ReadBack(lib, allow, denied, targets[i]);
      SweptIff(lib, allow, denied, targets[i], d);
    }
    if i :| 0 <= i < |targets| && Sweeps(allow, Read(lib, targets[i]), d) {
      SweptIff(lib, allow, denied, targets[i], d);
      var k := SensorVerdict(lib, allow, denied, targets[i]).value;
      KeptIff(lib, allow, denied, targets, k);
      ReadBack(lib, allow, denied, targets[i]);
    }
  }

  lemma SweptIff(lib: Library, allow: seq<Net>, denied: seq<IP>, host: string, d: IP)
    ensures Sweeps(allow, Read(lib, host), d)
       <==> SensorVerdict(lib, allow, denied, host).Some? && Read(lib, host).Range? && Reaches(Read(lib, host), d)
  {
    hide SensorVerdict, Authorized, InDegenerateSpace, Read, Degenerate;
    CheckHostMeaning(lib, allow, denied, host);
  }

  /** 10.0.0.0/24 under an allowed 10.0.0.0/8 is kept although it holds the denied 10.0.0.5. */
  lemma OwnBlockIsSwept(lib: Library, host: string, t: Net, n: Net, own: IP)
    requires t == Block(V4, 10 * 16777216, 24) && n == Block(V4, 10 * 16777216, 8) && own == Addr(V4, 10 * 16777216 + 5)
    requires Read(lib, host) == Range(t)
    ensures SensorVerdict(lib, [n], [own], host).Some? && Reaches(Read(lib, host), own)
  {
    hide Pow2, InDegenerateSpace, SensorVerdict;
    SmallPowers();
    CheckHostMeaning(lib, [n], [own], host);
    assert AllIn(Range(t), [n][0]);
    forall a: IP | In(t, a) ensures !InDegenerateSpace(a) { SpaceByPrefix(a); }
  }
}
