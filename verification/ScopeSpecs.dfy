/** What a scope spec authorizes: from the text an operator writes to the addresses the three gates of
    ScopeGates accept. */
module ScopeSpecs {
  import opened Prelude
  import opened Cidr
  import opened ScopeGates

  /** Go's net package as far as a spec needs it. An address literal holds no slash, no separator and no blank,
      and a block literal a slash; an address with a prefix length is the block of that length that holds it. */
  ghost predicate Lawful(lib: Library) {
    && (forall t: string, a: IP :: lib.parseIP(t) == Some(a) ==> t != "" && Word(t) && '/' !in t)
    && (forall t: string :: lib.parseCIDR(t).Some? ==> '/' in t)
    && (forall t: string, a: IP, k: nat :: lib.parseIP(t) == Some(a) && k <= Bits(a.family) ==> Prefixes(lib.parseCIDR(t + "/" + Itoa(k)), a, k))
  }

  ghost predicate Prefixes(n: Option<Net>, a: IP, k: nat) {
    n.Some? && n.value.family == a.family && n.value.ones == k && In(n.value, a)
  }

  /** Free of separators and blanks. */
  predicate Word(w: string) {
    forall c :: c in w ==> c !in {',', ' ', '\n', '\t'} && !IsSpace(c)
  }

  // ---- the tokens of a spec ----

  lemma {:induction false} FirstFieldOf(w: string, rest: string)
    requires forall c :: c in w ==> c !in {',', ' ', '\n', '\t'}
    requires rest == "" || rest[0] in {',', ' ', '\n', '\t'}
    ensures FirstField(w + rest) == |w|
    decreases |w|
  {
    if w == "" {
      assert w + rest == rest;
    } else {
      assert w[0] in w && (w + rest)[1..] == w[1..] + rest;
      assert forall c :: c in w[1..] ==> c in w;
      FirstFieldOf(w[1..], rest);
    }
  }

  /** A text without a separator is one field, and a separator ends a field wherever it stands: a comma, a blank,
      a newline or a tab. */
  lemma {:induction false} FieldsSplit(u: string, sep: char, v: string)
    requires sep in {',', ' ', '\n', '\t'}
    ensures FieldsOf(u + [sep] + v) == FieldsOf(u) + FieldsOf(v)
    decreases |u|
  {
    hide FieldsOf, FirstField;
    var s := u + [sep] + v;
    FieldsStep(s);
    if u == "" {
      assert s[0] == sep && s[1..] == v;
      FieldsStep(u);
    } else if Separator(u[0]) {
      assert s[1..] == u[1..] + [sep] + v;
      FieldsStep(u);
      FieldsSplit(u[1..], sep, v);
    } else {
      var n := FirstField(u);
      FirstFieldStops(u);
      var rest := u[n..] + [sep] + v;
      assert s == u[..n] + rest;
      assert rest[0] in {',', ' ', '\n', '\t'} by { assert n < |u| ==> rest[0] == u[n] && Separator(u[n]); }
      FirstFieldOf(u[..n], rest);
      assert s[..n] == u[..n] && s[n..] == rest;
      FieldsStep(u);
      FieldsSplit(u[n..], sep, v);
    }
  }

  lemma FieldsStep(s: string)
    ensures FieldsOf(s) ==
      if s == "" then [] else if Separator(s[0]) then FieldsOf(s[1..]) else [s[..FirstField(s)]] + FieldsOf(s[FirstField(s)..])
  {
  }

  lemma {:induction false} FirstFieldStops(s: string)
    ensures var n := FirstField(s);
      (forall c :: c in s[..n] ==> !Separator(c)) && (n < |s| ==> Separator(s[n]))
    decreases |s|
  {
    if s != "" && !Separator(s[0]) {
      FirstFieldStops(s[1..]);
      var n := FirstField(s);
      assert s[..n] == [s[0]] + s[1..][..n - 1];
    }
  }

  lemma OneField(w: string)
    requires w != "" && forall c :: c in w ==> c !in {',', ' ', '\n', '\t'}
    ensures FieldsOf(w) == [w]
  {
    FirstFieldOf(w, "");
    assert w + "" == w && w[0] in w;
    assert w[..|w|] == w && w[|w|..] == "";
  }

  /** The tokens are the fields without their outer blanks, empty ones left out. */
  lemma {:induction false} TokenIff(fields: seq<string>, t: string)
    ensures t in Tokens(fields) <==> t != "" && exists f :: f in fields && TrimSpace(f) == t
    decreases |fields|
  {
    hide TrimSpace;
    if fields != [] {
      var n := |fields| - 1;
      TokenIff(fields[..n], t);
      assert fields == fields[..n] + [fields[n]];
      assert fields[n] in fields;
    }
  }

  // ---- from tokens to addresses ----

  lemma Slashed(t: string, k: nat, s: string)
    requires s == Itoa(k)
    ensures t + "/" + s == t + ("/" + s)
  {
  }

  lemma Lengths()
    ensures Itoa(32) == "32" && Itoa(128) == "128"
  {
    assert Itoa(3) == "3" && Itoa(1) == "1";
    assert Itoa(12) == Itoa(1) + [Digit(2)];
  }

  lemma {:induction false} OneAddress(n: Net, a: IP, x: IP)
    requires n.family == a.family && n.ones == Bits(a.family) && In(n, a)
    ensures In(n, x) <==> x == a
  {
    assert Pow2(0) == 1;
  }

  /** What a token stands for: an address literal for itself, a block literal for its addresses, and nothing
      else parses. */
  lemma TokenMeans(lib: Library, tok: string, x: IP)
    requires Lawful(lib)
    ensures BlockOf(lib, tok) == None <==> lib.parseIP(tok) == None && lib.parseCIDR(tok) == None
    ensures BlockOf(lib, tok).Some? ==> (
      In(BlockOf(lib, tok).value, x) <==> lib.parseIP(tok) == Some(x) || (lib.parseCIDR(tok).Some? && In(lib.parseCIDR(tok).value, x)))
  {
    hide Lawful, Itoa, Pow2;
    if lib.parseIP(tok).Some? {
      var a := lib.parseIP(tok).value;
      var k := Bits(a.family);
      Lengths();
      LawOfAddress(lib, tok, a, k);
      assert tok + "/" + Itoa(k) == tok + if a.family == V4 then "/32" else "/128" by {
        Slashed(tok, 32, "32");
        Slashed(tok, 128, "128");
      }
      OneAddress(BlockOf(lib, tok).value, a, x);
    }
  }

  lemma LawOfAddress(lib: Library, t: string, a: IP, k: nat)
    requires Lawful(lib) && lib.parseIP(t) == Some(a) && k <= Bits(a.family)
    ensures '/' !in t && lib.parseCIDR(t) == None && Prefixes(lib.parseCIDR(t + "/" + Itoa(k)), a, k)
  {
  }

  /** The blocks of a list of tokens contain an address exactly if some token is that address or a block that
      holds it; the list is refused exactly if some token is neither an address nor a block. */
  lemma {:induction false} BlocksMean(lib: Library, toks: seq<string>, x: IP)
    requires Lawful(lib)
    ensures BlocksOf(lib, toks) == None <==> exists t :: t in toks && lib.parseIP(t) == None && lib.parseCIDR(t) == None
    ensures BlocksOf(lib, toks).Some? ==> (
      SomeContains(BlocksOf(lib, toks).value, x) <==>
        exists t :: t in toks && (lib.parseIP(t) == Some(x) || (lib.parseCIDR(t).Some? && In(lib.parseCIDR(t).value, x))))
    decreases |toks|
  {
    hide BlockOf, Lawful, Contains;
    if toks != [] {
      var n := |toks| - 1;
      BlocksMean(lib, toks[..n], x);
      TokenMeans(lib, toks[n], x);
      assert toks == toks[..n] + [toks[n]] && toks[n] in toks;
      var front, last := BlocksOf(lib, toks[..n]), BlockOf(lib, toks[n]);
      if front.Some? && last.Some? {
        ContainsIsIn(last.value, x);
        ContainsSnoc(front.value, last.value, x);
      }
    }
  }

  lemma ContainsSnoc(nets: seq<Net>, n: Net, x: IP)
    ensures SomeContains(nets + [n], x) <==> SomeContains(nets, x) || Contains(n, x)
  {
    hide Contains;
    if SomeContains(nets, x) {
      var i :| 0 <= i < |nets| && Contains(nets[i], x);
      assert Contains((nets + [n])[i], x);
    }
    assert (nets + [n])[|nets|] == n;
    if SomeContains(nets + [n], x) {
      var i :| 0 <= i < |nets + [n]| && Contains((nets + [n])[i], x);
      assert i < |nets| ==> (nets + [n])[i] == nets[i];
    }
  }

  // ---- specs ----

  /** What ParseScope makes of a spec. */
  ghost function ScopeOf(lib: Library, spec: string): Option<seq<Net>> {
    BlocksOf(lib, Tokens(FieldsOf(spec)))
  }

  /** A spec authorizes an address exactly if one of its trimmed fields is that address or a block that holds it;
      it is refused exactly if one of them is neither an address nor a block. */
  lemma SpecAuthorizes(lib: Library, spec: string, x: IP)
    requires Lawful(lib)
    ensures ScopeOf(lib, spec) == None <==>
      exists f :: f in FieldsOf(spec) && TrimSpace(f) != "" && lib.parseIP(TrimSpace(f)) == None && lib.parseCIDR(TrimSpace(f)) == None
    ensures ScopeOf(lib, spec).Some? ==> (
      SomeContains(ScopeOf(lib, spec).value, x) <==>
        exists f :: f in FieldsOf(spec) &&
          (lib.parseIP(TrimSpace(f)) == Some(x) || (lib.parseCIDR(TrimSpace(f)).Some? && In(lib.parseCIDR(TrimSpace(f)).value, x))))
  {
    hide TrimSpace, FieldsOf, SomeContains, Word, Tokens, BlocksOf;
    var toks := Tokens(FieldsOf(spec));
    BlocksMean(lib, toks, x);
    forall t ensures t in toks <==> t != "" && exists f :: f in FieldsOf(spec) && TrimSpace(f) == t { TokenIff(FieldsOf(spec), t); }
  }

  /** A spec of one bare address authorizes that address and no other, at all three gates. */
  lemma BareAddress(lib: Library, spec: string, a: IP, x: IP, denied: seq<IP>, host: string)
    requires Lawful(lib) && lib.parseIP(spec) == Some(a) && lib.parseIP(TrimSpace(host)) == Some(x)
    ensures ScopeOf(lib, spec).Some?
    ensures var nets := ScopeOf(lib, spec).value;
      && (SomeContains(nets, x) <==> x == a)
      && (CloudContains(lib, nets, host) <==> x == a) && (ReportContains(lib, nets, host) <==> x == a)
      && (SensorVerdict(lib, nets, denied, host).Some? ==> x == a)
  {
    hide FieldsOf, SomeContains, Tokens, BlocksOf, TrimSpace, Degenerate;
    assert spec != "" && Word(spec) && '/' !in spec;
    OneField(spec);
    assert TrimSpace(spec) == spec by {
      assert spec[0] in spec && spec[|spec| - 1] in spec;
      TrimTight(spec);
    }
    SpecAuthorizes(lib, spec, x);
    assert spec in FieldsOf(spec);
  }

  /** The addresses a sensor never scans by name are the address literals of its self-deny spec. */
  lemma {:induction false} DeniedMean(lib: Library, toks: seq<string>, d: IP)
    ensures d in AddressesOf(lib, toks) <==> exists t :: t in toks && lib.parseIP(t) == Some(d)
    decreases |toks|
  {
    if toks != [] {
      var n := |toks| - 1;
      DeniedMean(lib, toks[..n], d);
      assert toks == toks[..n] + [toks[n]] && toks[n] in toks;
    }
  }

  // ---- target lists ----

  /** The cloud's gate takes a list piece by piece, each target kept, trimmed, or returned as it came, in order. */
  lemma {:induction false} CloudSplits(lib: Library, nets: seq<Net>, a: seq<string>, b: seq<string>, t: string)
    ensures CloudKept(lib, nets, a + b) == CloudKept(lib, nets, a) + CloudKept(lib, nets, b)
    ensures CloudDropped(lib, nets, a + b) == CloudDropped(lib, nets, a) + CloudDropped(lib, nets, b)
    ensures CloudContains(lib, nets, t) ==> CloudKept(lib, nets, [t]) == [TrimSpace(t)] && CloudDropped(lib, nets, [t]) == []
    ensures !CloudContains(lib, nets, t) ==> CloudKept(lib, nets, [t]) == [] && CloudDropped(lib, nets, [t]) == [t]
    decreases |b|
  {
    hide CloudContains, TrimSpace;
    assert [t][..0] == [];
    if b == [] {
      assert a + b == a;
    } else {
      var n := |b| - 1;
      CloudSplits(lib, nets, a, b[..n], t);
      assert (a + b)[..|a + b| - 1] == a + b[..n];
    }
  }

  /** So does the sensor's, with its own spelling of what it keeps. */
  lemma {:induction false} SensorSplits(lib: Library, allow: seq<Net>, denied: seq<IP>, a: seq<string>, b: seq<string>, t: string)
    ensures SensorKept(lib, allow, denied, a + b) == SensorKept(lib, allow, denied, a) + SensorKept(lib, allow, denied, b)
    ensures SensorDropped(lib, allow, denied, a + b) == SensorDropped(lib, allow, denied, a) + SensorDropped(lib, allow, denied, b)
    ensures var v := SensorVerdict(lib, allow, denied, t);
      && (v.Some? ==> SensorKept(lib, allow, denied, [t]) == [v.value] && SensorDropped(lib, allow, denied, [t]) == [])
      && (v == None ==> SensorKept(lib, allow, denied, [t]) == [] && SensorDropped(lib, allow, denied, [t]) == [t])
    decreases |b|
  {
    hide SensorVerdict;
    assert [t][..0] == [];
    if b == [] {
      assert a + b == a;
    } else {
      var n := |b| - 1;
      SensorSplits(lib, allow, denied, a, b[..n], t);
      assert (a + b)[..|a + b| - 1] == a + b[..n];
    }
  }

  // ---- degenerate space ----

  /** The refused ranges by their numbers: 0.0.0.0 to 0.255.255.255, 127.0.0.0 to 127.255.255.255, 169.254.0.0 to
      169.254.255.255, 224.0.0.0 to 239.255.255.255; ::, ::1, fe80:: to the last of febf, and all of ff. */
  lemma DegenerateRanges(a: IP)
    ensures a.family == V4 ==> (InDegenerateSpace(a) <==>
      a.value <= 0x00ffffff || 0x7f000000 <= a.value <= 0x7fffffff || 0xa9fe0000 <= a.value <= 0xa9feffff || 0xe0000000 <= a.value <= 0xefffffff)
    ensures a.family == V6 ==> (InDegenerateSpace(a) <==>
      a.value <= 1 || 0xfe800000000000000000000000000000 <= a.value <= 0xfebfffffffffffffffffffffffffffff || 0xff000000000000000000000000000000 <= a.value)
  {
    hide InDegenerateSpace, Pow2;
    SpaceByPrefix(a);
    SmallPowers();
    BigPowers();
  }

  lemma BigPowers()
    ensures Pow2(118) == 0x400000000000000000000000000000 && Pow2(120) == 0x1000000000000000000000000000000
    ensures Pow2(128) == 0x100000000000000000000000000000000
  {
    hide Pow2;
    SmallPowers();
    Pow2Sum(32, 32);
    Pow2Sum(32, 64);
    Pow2Sum(64, 64);
    Pow2Sum(96, 16);
    Pow2Sum(6, 112);
    Pow2Sum(8, 112);
  }
}
