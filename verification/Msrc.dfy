/** The Windows correlator: correlation/msrc.go and the version order of correlation/msrc_csaf.go. */
module Msrc {
  import opened Prelude
  import opened Dotted

  type Version = seq<int>

  // ---- reading versions ----

  predicate AllDigits(s: string) {
    s != "" && forall c :: c in s ==> IsDigit(c)
  }

  /** strconv.Atoi on 64-bit integers: an optional sign, digits, and the value in range. */
  function Atoi(s: string): Option<int> {
    if s != "" && (s[0] == '-' || s[0] == '+') then
      if !AllDigits(s[1..]) then None
      else
        var v: int := DigitsValue(s[1..]);
        if s[0] == '+' then (if v <= MAX_INT then Some(v) else None) else if v <= MAX_INT + 1 then Some(-v) else None
    else if AllDigits(s) && DigitsValue(s) <= MAX_INT then Some(DigitsValue(s))
    else None
  }

  function Numbers(parts: seq<string>): Option<Version> {
    if parts == [] then Some([])
    else
      var front, last := Numbers(parts[..|parts| - 1]), Atoi(parts[|parts| - 1]);
      if front.Some? && last.Some? then Some(front.value + [last.value]) else None
  }

  /** The components of a dotted version; empty if any is not a number. */
  function ParseVersion(s: string): Version {
    var t := TrimSpace(s);
    if t == "" then []
    else
      var n := Numbers(SplitAll(t, '.'));
      if n.Some? then n.value else []
  }

  lemma {:induction false} OneBadPart(parts: seq<string>, i: nat)
    requires i <= |parts| && Numbers(parts[..i]) == None
    ensures Numbers(parts) == None
    decreases |parts|
  {
    if i < |parts| {
      assert parts[..|parts| - 1][..i] == parts[..i];
      OneBadPart(parts[..|parts| - 1], i);
    } else {
      assert parts[..i] == parts;
    }
  }

  method ParseVersionLoop(s: string) returns (out: Version)
    ensures out == ParseVersion(s)
  {
    hide SplitAll, Atoi, TrimSpace;
    var t := TrimSpace(s);
    if t == "" { return []; }
    var parts := SplitAll(t, '.');
    out := [];
    for i := 0 to |parts|
      invariant Numbers(parts[..i]) == Some(out)
    {
      assert parts[..i + 1][..i] == parts[..i];
      var n := Atoi(parts[i]);
      if n == None {
        OneBadPart(parts, i + 1);
        return [];
      }
      out := out + [n.value];
    }
    assert parts[..|parts|] == parts;
  }

  /** versionString. */
  function Show(n: int): string {
    if n < 0 then "-" + Itoa(-n) else Itoa(n)
  }

  function VersionString(v: Version): string {
    if v == [] then "" else if |v| == 1 then Show(v[0]) else Show(v[0]) + "." + VersionString(v[1..])
  }

  // ---- the order ----

  /** A missing component counts as 0. */
  function Part(v: Version, i: nat): int {
    if i < |v| then v[i] else 0
  }

  /** Below at some component and equal before it. */
  ghost predicate Precedes(a: Version, b: Version) {
    exists k: nat :: FirstBelow(a, b, k)
  }

  ghost predicate FirstBelow(a: Version, b: Version, k: nat) {
    Part(a, k) < Part(b, k) && forall j :: 0 <= j < k ==> Part(a, j) == Part(b, j)
  }

  /** Equal up to trailing zeros. */
  ghost predicate SameVersion(a: Version, b: Version) {
    forall i: nat :: Part(a, i) == Part(b, i)
  }

  /** versionLess: the loop over the longer length. */
  method VersionLess(a: Version, b: Version) returns (r: bool)
    ensures r <==> a != [] && b != [] && Precedes(a, b)
  {
    hide Precedes;
    if |a| == 0 || |b| == 0 { return false; }
    var n := if |b| > |a| then |b| else |a|;
    for i := 0 to n
      invariant forall j :: 0 <= j < i ==> Part(a, j) == Part(b, j)
    {
      var ai, bi := 0, 0;
      if i < |a| { ai := a[i]; }
      if i < |b| { bi := b[i]; }
      if ai != bi {
        DecidedAt(a, b, i);
        return ai < bi;
      }
    }
    NoDifference(a, b, n);
    r := false;
  }

  lemma DecidedAt(a: Version, b: Version, i: nat)
    requires Part(a, i) != Part(b, i) && forall j :: 0 <= j < i ==> Part(a, j) == Part(b, j)
    ensures Precedes(a, b) <==> Part(a, i) < Part(b, i)
  {
    if Part(a, i) < Part(b, i) {
      assert FirstBelow(a, b, i);
    } else {
      forall k: nat ensures !FirstBelow(a, b, k) { }
    }
  }

  lemma NoDifference(a: Version, b: Version, n: nat)
    requires |a| <= n && |b| <= n && forall j :: 0 <= j < n ==> Part(a, j) == Part(b, j)
    ensures !Precedes(a, b)
  {
    forall k: nat ensures !FirstBelow(a, b, k) {
      assert k >= n ==> Part(a, k) == 0 == Part(b, k);
    }
  }

  lemma {:induction false} FirstDifference(a: Version, b: Version, n: nat)
    requires Part(a, n) != Part(b, n)
    ensures Precedes(a, b) || Precedes(b, a)
    decreases n
  {
    if j: nat :| 0 <= j < n && Part(a, j) != Part(b, j) {
      FirstDifference(a, b, j);
    } else {
      assert FirstBelow(a, b, n) || FirstBelow(b, a, n);
    }
  }

  /** On versions that parsed, the order is a strict weak order whose ties are the versions equal up to
      trailing zeros. */
  lemma StrictWeakOrder(a: Version, b: Version, c: Version)
    ensures !Precedes(a, a)
    ensures Precedes(a, b) && Precedes(b, c) ==> Precedes(a, c)
    ensures !Precedes(a, b) && !Precedes(b, a) <==> SameVersion(a, b)
    ensures Precedes(a, b) ==> Precedes(a, c) || Precedes(c, b)
  {
    if Precedes(a, b) && Precedes(b, c) { Chain(a, b, c); }
    if !Precedes(a, b) && !Precedes(b, a) {
      forall i: nat ensures Part(a, i) == Part(b, i) {
        if Part(a, i) != Part(b, i) { FirstDifference(a, b, i); }
      }
    }
    if Precedes(a, b) { Between(a, b, c); }
  }

  lemma Chain(a: Version, b: Version, c: Version)
    requires Precedes(a, b) && Precedes(b, c)
    ensures Precedes(a, c)
  {
    var i: nat :| FirstBelow(a, b, i);
    var k: nat :| FirstBelow(b, c, k);
    assert FirstBelow(a, c, if i < k then i else k);
  }

  lemma Between(a: Version, b: Version, c: Version)
    requires Precedes(a, b)
    ensures Precedes(a, c) || Precedes(c, b)
  {
    var k: nat :| FirstBelow(a, b, k);
    if j: nat :| 0 <= j <= k && Part(a, j) != Part(c, j) {
      FirstDifference(a, c, j);
      if !Precedes(a, c) {
        var m: nat :| FirstBelow(c, a, m);
        assert FirstBelow(c, b, if m < k then m else k);
      }
    } else {
      assert FirstBelow(c, b, k);
    }
  }

  // ---- the correlator ----

  datatype Entry = Entry(build: string, threshold: Version, cve: string, product: string, kb: string, severity: real)

  datatype Os = Os(family: string, build: string, ubr: string)

  datatype Finding = Finding(cve: string, severity: real, observed: string, fixed: string, product: string)

  function Lower(c: char): char {
    if 'A' <= c <= 'Z' then (c as int + 32) as char else c
  }

  /** strings.EqualFold with "windows", for ASCII. */
  predicate IsWindows(family: string) {
    |family| == 7 && forall i :: 0 <= i < 7 ==> Lower(family[i]) == "windows"[i]
  }

  function Observed(os: Os): string {
    "10.0." + os.build + "." + os.ubr
  }

  /** Whether the host can be assessed at all. */
  predicate Assessable(os: Os) {
    IsWindows(os.family) && os.build != "" && os.ubr != "" && ParseVersion(Observed(os)) != []
  }

  /** The host lacks the fix: it is of the entry's build and below its threshold. */
  ghost predicate Affected(os: Os, e: Entry) {
    e.build == os.build && e.threshold != [] && Precedes(ParseVersion(Observed(os)), e.threshold)
  }

  function FindingOf(os: Os, e: Entry): Finding {
    Finding(e.cve, e.severity, Observed(os), VersionString(e.threshold) + (if e.kb != "" then " (" + e.kb + ")" else ""), e.product)
  }

  /** The scan without an index: every entry against the host, the first finding of each CVE kept. */
  ghost function Scan(os: Os, entries: seq<Entry>): seq<Finding> {
    if entries == [] then []
    else
      var front, e := Scan(os, entries[..|entries| - 1]), entries[|entries| - 1];
      if Affected(os, e) && e.cve !in Cves(front) then front + [FindingOf(os, e)] else front
  }

  function Cves(fs: seq<Finding>): (r: set<string>)
    ensures forall c :: c in r <==> exists i :: 0 <= i < |fs| && fs[i].cve == c
  {
    set i | 0 <= i < |fs| :: fs[i].cve
  }

  function OfBuild(entries: seq<Entry>, build: string): seq<Entry> {
    if entries == [] then []
    else
      var e := entries[|entries| - 1];
      OfBuild(entries[..|entries| - 1], build) + if e.build == build then [e] else []
  }

  function Lookup(index: map<string, seq<Entry>>, build: string): seq<Entry> {
    if build in index then index[build] else []
  }

  lemma {:induction false} IndexFindsTheSame(os: Os, entries: seq<Entry>)
    ensures Scan(os, OfBuild(entries, os.build)) == Scan(os, entries)
    decreases |entries|
  {
    hide FindingOf, Cves, Precedes, ParseVersion, Observed;
    if entries != [] {
      var front, e := entries[..|entries| - 1], entries[|entries| - 1];
      IndexFindsTheSame(os, front);
      if e.build == os.build {
        assert (OfBuild(front, os.build) + [e])[..|OfBuild(front, os.build)|] == OfBuild(front, os.build);
      } else {
        assert OfBuild(entries, os.build) == OfBuild(front, os.build);
      }
    }
  }

  /** A report has one finding per CVE, for exactly the CVEs with an entry that affects the host. */
  lemma {:induction false} ScanIsExact(os: Os, entries: seq<Entry>, cve: string)
    ensures cve in Cves(Scan(os, entries)) <==> exists i :: 0 <= i < |entries| && entries[i].cve == cve && Affected(os, entries[i])
    ensures forall i, k :: 0 <= i < k < |Scan(os, entries)| ==> Scan(os, entries)[i].cve != Scan(os, entries)[k].cve
    decreases |entries|
  {
    hide Affected, Cves;
    if entries != [] {
      var front, e := entries[..|entries| - 1], entries[|entries| - 1];
      ScanIsExact(os, front, cve);
      assert forall i :: 0 <= i < |front| ==> front[i] == entries[i];
      CvesGrow(Scan(os, front), FindingOf(os, e));
    }
  }

  lemma CvesGrow(fs: seq<Finding>, f: Finding)
    ensures Cves(fs + [f]) == Cves(fs) + {f.cve}
  {
    forall c | c in Cves(fs) ensures c in Cves(fs + [f]) {
      var i :| 0 <= i < |fs| && fs[i].cve == c;
      assert (fs + [f])[i] == fs[i];
    }
    assert (fs + [f])[|fs|] == f;
  }

  class MsrcCorrelator {
    var byBuild: map<string, seq<Entry>>
    ghost var loaded: seq<Entry>

    ghost predicate Valid()
      reads this
    {
      forall build :: Lookup(byBuild, build) == OfBuild(loaded, build)
    }

    constructor ()
      ensures Valid() && loaded == []
    {
      byBuild, loaded := map[], [];
    }

    method Add(e: Entry)
      requires Valid()
      modifies this
      ensures Valid() && loaded == old(loaded) + [e]
    {
      byBuild := byBuild[e.build := Lookup(byBuild, e.build) + [e]];
      ghost var before := loaded;
      loaded := loaded + [e];
      assert loaded[..|before|] == before;
      forall b ensures Lookup(byBuild, b) == OfBuild(loaded, b) {
        assert OfBuild(loaded, b) == OfBuild(before, b) + if e.build == b then [e] else [];
      }
    }

    method Load(entries: seq<Entry>)
      requires Valid() && loaded == []
      modifies this
      ensures Valid() && loaded == entries
    {
      hide Valid;
      for i := 0 to |entries|
        invariant Valid() && loaded == entries[..i]
      {
        Add(entries[i]);
      }
    }

    /** Correlate emits exactly what scanning every loaded entry would, and nothing for a host it cannot
        assess. */
    method Correlate(os: Os) returns (findings: seq<Finding>)
      requires Valid()
      ensures findings == if Assessable(os) then Scan(os, loaded) else []
    {
      hide ParseVersion, Precedes, Cves, FindingOf, Observed, IsWindows;
      NoCves();
      if !IsWindows(os.family) || os.build == "" || os.ubr == "" { return []; }
      var hostVer := ParseVersionLoop(Observed(os));
      if |hostVer| == 0 { return []; }
      IndexFindsTheSame(os, loaded);
      var entries := Lookup(byBuild, os.build);
      findings := [];
      var seen: set<string> := {};
      for i := 0 to |entries|
        invariant findings == Scan(os, entries[..i]) && seen == Cves(findings)
      {
        assert entries[..i + 1][..i] == entries[..i];
        OfBuildOnly(loaded, os.build, i);
        var below := VersionLess(hostVer, entries[i].threshold);
        if below && entries[i].cve !in seen {
          CvesGrow(findings, FindingOf(os, entries[i]));
          FindingCve(os, entries[i]);
          seen := seen + {entries[i].cve};
          findings := findings + [FindingOf(os, entries[i])];
        }
      }
      assert entries[..|entries|] == entries;
    }
  }

  lemma NoCves()
    ensures Cves([]) == {}
  {
  }

  lemma FindingCve(os: Os, e: Entry)
    ensures FindingOf(os, e).cve == e.cve
  {
  }

  lemma {:induction false} OfBuildOnly(entries: seq<Entry>, build: string, i: nat)
    requires i < |OfBuild(entries, build)|
    ensures OfBuild(entries, build)[i].build == build
    decreases |entries|
  {
    var front := OfBuild(entries[..|entries| - 1], build);
    if i < |front| { OfBuildOnly(entries[..|entries| - 1], build, i); }
  }

  // ---- patching a host ----

  /** A host whose version is no lower has no more CVEs. */
  lemma NotLowerFindsNoMore(low: Os, high: Os, entries: seq<Entry>, cve: string)
    requires low.build == high.build && !Precedes(ParseVersion(Observed(high)), ParseVersion(Observed(low)))
    requires cve in Cves(Scan(high, entries))
    ensures cve in Cves(Scan(low, entries))
  {
    hide ParseVersion, Observed, Precedes, Cves, Scan;
    ScanIsExact(low, entries, cve);
    ScanIsExact(high, entries, cve);
    var i :| 0 <= i < |entries| && entries[i].cve == cve && Affected(high, entries[i]);
    StrictWeakOrder(ParseVersion(Observed(high)), entries[i].threshold, ParseVersion(Observed(low)));
  }

  lemma AtoiItoa(n: nat)
    requires n <= MAX_INT
    ensures Atoi(Itoa(n)) == Some(n)
  {
    ItoaRoundTrip(n);
    var s := Itoa(n);
    assert s[0] in s && IsDigit(s[0]);
  }

  /** The revision is the last component of the host's version. */
  lemma ObservedVersion(build: string, n: nat)
    requires n <= MAX_INT
    ensures var p := Numbers(SplitAll("10.0." + build, '.'));
      ParseVersion(Observed(Os("windows", build, Itoa(n)))) == if p.Some? then p.value + [n] else []
  {
    hide SplitAll, Atoi, Itoa, TrimSpace, IsSpace;
    DigitsAreNotBlank();
    var front := "10.0." + build;
    var s := Observed(Os("windows", build, Itoa(n)));
    assert s == front + ['.'] + Itoa(n);
    assert TrimSpace(s) == s by {
      assert s[|s| - 1] == Itoa(n)[|Itoa(n)| - 1];
      assert Itoa(n)[|Itoa(n)| - 1] in Itoa(n) && s[0] == '1';
      TrimTight(s);
    }
    SplitOfJoined(front, Itoa(n), '.');
    assert !IsDigit('.');
    NoSeparator(Itoa(n), '.');
    AtoiItoa(n);
    var parts := SplitAll(front, '.');
    assert (parts + [Itoa(n)])[..|parts|] == parts;
  }

  lemma DigitsAreNotBlank()
    ensures forall c :: IsDigit(c) ==> !IsSpace(c)
    ensures !IsSpace('1')
  {
  }

  lemma LastPartDecides(p: Version, m: int, n: int)
    requires m <= n
    ensures !Precedes(p + [n], p + [m])
  {
    forall k: nat ensures !FirstBelow(p + [n], p + [m], k) {
      assert k < |p| ==> Part(p + [n], k) == p[k] == Part(p + [m], k);
    }
  }

  /** Raising a Windows host's update revision never adds a finding. */
  lemma PatchingNeverAdds(family: string, build: string, m: nat, n: nat, entries: seq<Entry>, cve: string)
    requires m <= n <= MAX_INT && cve in Cves(Scan(Os(family, build, Itoa(n)), entries)) && Assessable(Os(family, build, Itoa(n)))
    ensures Assessable(Os(family, build, Itoa(m))) && cve in Cves(Scan(Os(family, build, Itoa(m)), entries))
  {
    hide ParseVersion, Numbers, SplitAll, Precedes, Cves, Scan, IsWindows, Itoa;
    ObservedVersion(build, m);
    ObservedVersion(build, n);
    var low, high := Os(family, build, Itoa(m)), Os(family, build, Itoa(n));
    assert Observed(low) == Observed(low.(family := "windows")) && Observed(high) == Observed(high.(family := "windows"));
    var p := Numbers(SplitAll("10.0." + build, '.'));
    LastPartDecides(p.value, m, n);
    NotLowerFindsNoMore(low, high, entries, cve);
  }

  // ---- texts and findings ----

  /** Components a 64-bit integer holds. */
  predicate InRange(v: Version) {
    forall i :: 0 <= i < |v| ==> 0 <= v[i] + MAX_INT + 1 && v[i] <= MAX_INT
  }

  lemma AtoiShow(n: int)
    requires 0 <= n + MAX_INT + 1 && n <= MAX_INT
    ensures Atoi(Show(n)) == Some(n) && (Show(n)[..1] == "-" <==> n < 0) && '.' !in Show(n) && Show(n) != "" && forall c :: c in Show(n) ==> !IsSpace(c)
  {
    hide IsSpace;
    DigitsAreNotBlank();
    DashIsNotBlank();
    var s := Show(n);
    if n >= 0 {
      AtoiItoa(n);
      assert s[0] in s && IsDigit(s[0]) && s[..1][0] == s[0];
    } else {
      ItoaRoundTrip(-n);
      assert s[1..] == Itoa(-n) && s[0] == '-' && s[..1] == "-";
    }
  }

  /** A sign in front is read, both ways. */
  lemma AtoiSigns(n: nat)
    requires n <= MAX_INT
    ensures Atoi("+" + Itoa(n)) == Some(n)
    ensures var m := Atoi("-" + Itoa(n)); m.Some? && m.value + n == 0
  {
    ItoaRoundTrip(n);
    var p, m := "+" + Itoa(n), "-" + Itoa(n);
    assert p[1..] == Itoa(n) && m[1..] == Itoa(n);
  }

  /** s is the numeral d with a sign or without. */
  predicate Spells(s: string, d: string) {
    (s == d || s == "+" + d || s == "-" + d) && d != "" && forall c :: c in d ==> IsDigit(c)
  }

  /** Only numerals are read, signed or not, and only those a 64-bit integer holds. */
  lemma AtoiInRange(s: string)
    ensures Atoi(s).Some? ==> 0 <= Atoi(s).value + MAX_INT + 1 && Atoi(s).value <= MAX_INT
    ensures Atoi(s).Some? ==> exists d :: Spells(s, d)
  {
    if Atoi(s).Some? {
      if s[0] == '+' || s[0] == '-' {
        assert s == [s[0]] + s[1..];
        assert Spells(s, s[1..]);
      } else {
        assert Spells(s, s);
      }
    }
  }

  lemma DashIsNotBlank()
    ensures !IsSpace('-') && !IsSpace('.')
  {
  }

  lemma {:induction false} PartsOfText(v: Version)
    requires v != [] && InRange(v)
    ensures Numbers(SplitAll(VersionString(v), '.')) == Some(v)
    ensures VersionString(v) != "" && forall c :: c in VersionString(v) ==> !IsSpace(c)
    decreases |v|
  {
    hide Atoi, Show, IsSpace, SplitAll, Numbers;
    AtoiShow(v[0]);
    DashIsNotBlank();
    if |v| == 1 {
      NoSeparator(Show(v[0]), '.');
      NumbersCons(Show(v[0]), []);
      NoNumbers();
      assert [Show(v[0])] + [] == [Show(v[0])];
      assert [v[0]] + [] == [v[0]];
      assert v == [v[0]];
    } else {
      var rest := VersionString(v[1..]);
      assert VersionString(v) == Show(v[0]) + ['.'] + rest;
      PartsOfText(v[1..]);
      FirstPart(Show(v[0]), rest, '.');
      NumbersCons(Show(v[0]), SplitAll(rest, '.'));
      assert v == [v[0]] + v[1..];
    }
  }

  lemma NoNumbers()
    ensures Numbers([]) == Some([])
  {
  }

  lemma NoSeparator(s: string, sep: char)
    requires sep !in s
    ensures SplitAll(s, sep) == [s]
  {
  }

  lemma FirstPart(s: string, rest: string, sep: char)
    requires sep !in s
    ensures SplitAll(s + [sep] + rest, sep) == [s] + SplitAll(rest, sep)
  {
    var t := s + [sep] + rest;
    var i := IndexOf(t, sep);
    assert t[|s|] == sep && t[..|s|] == s && t[|s| + 1..] == rest;
    assert forall k :: 0 <= k < i ==> t[..i][k] == t[k];
    assert forall k :: 0 <= k < |s| ==> t[k] == s[k] && s[k] in s;
    assert i == |s|;
  }

  lemma {:induction false} NumbersCons(part: string, rest: seq<string>)
    ensures Numbers([part] + rest) ==
      if Atoi(part).Some? && Numbers(rest).Some? then Some([Atoi(part).value] + Numbers(rest).value) else None
    decreases |rest|
  {
    hide Atoi;
    var all := [part] + rest;
    if rest == [] {
      assert all == [part] && all[..0] == [];
      if Atoi(part).Some? {
        var x := [Atoi(part).value];
        assert [] + x == x + [];
      }
    } else {
      var n := |rest| - 1;
      NumbersCons(part, rest[..n]);
      assert all[..|all| - 1] == [part] + rest[..n] && all[|all| - 1] == rest[n];
      if Atoi(part).Some? && Numbers(rest).Some? {
        var x, y, z := [Atoi(part).value], Numbers(rest[..n]).value, [Atoi(rest[n]).value];
        assert (x + y) + z == x + (y + z);
      }
    }
  }

  /** The round trip: a version written out reads back as itself. */
  lemma VersionRoundTrip(v: Version)
    requires InRange(v)
    ensures ParseVersion(VersionString(v)) == v && (VersionString(v) == "" <==> v == [])
  {
    hide SplitAll, Numbers, IsSpace;
    var s := VersionString(v);
    if v != [] {
      PartsOfText(v);
      assert s[0] in s && s[|s| - 1] in s;
      TrimTight(s);
    }
  }

  /** A host is assessed if its family is "windows" in any case, and it gives a build and a revision that make a
      version. */
  lemma AssessableIff(os: Os)
    ensures Assessable(os) <==> (
      && os.build != "" && os.ubr != "" && ParseVersion("10.0." + os.build + "." + os.ubr) != []
      && |os.family| == 7 && os.family[0] in {'w', 'W'} && os.family[1] in {'i', 'I'} && os.family[2] in {'n', 'N'} && os.family[3] in {'d', 'D'}
      && os.family[4] in {'o', 'O'} && os.family[5] in {'w', 'W'} && os.family[6] in {'s', 'S'})
  {
    hide ParseVersion;
    var f := os.family;
    if |f| == 7 {
      FoldsTo(f[0], 'w');
      FoldsTo(f[1], 'i');
      FoldsTo(f[2], 'n');
      FoldsTo(f[3], 'd');
      FoldsTo(f[4], 'o');
      FoldsTo(f[5], 'w');
      FoldsTo(f[6], 's');
      assert IsWindows(f) <==> Lower(f[0]) == 'w' && Lower(f[1]) == 'i' && Lower(f[2]) == 'n' && Lower(f[3]) == 'd' && Lower(f[4]) == 'o' && Lower(f[5]) == 'w' && Lower(f[6]) == 's';
    }
  }

  lemma FoldsTo(c: char, low: char)
    requires 'a' <= low <= 'z'
    ensures Lower(c) == low <==> c == low || c as int == low as int - 32
  {
  }

  /** The entry is for the host's build and its threshold is above the host's version. */
  ghost predicate Lacks(os: Os, e: Entry) {
    e.build == os.build && e.threshold != [] && Precedes(ParseVersion("10.0." + os.build + "." + os.ubr), e.threshold)
  }

  /** What a finding says of the host and the entry. */
  predicate Tells(f: Finding, os: Os, e: Entry) {
    && f.cve == e.cve && f.severity == e.severity && f.product == e.product && f.observed == "10.0." + os.build + "." + os.ubr
    && f.fixed == if e.kb == "" then VersionString(e.threshold) else VersionString(e.threshold) + " (" + e.kb + ")"
  }

  lemma FindingTells(f: Finding, os: Os, e: Entry)
    ensures f == FindingOf(os, e) <==> Tells(f, os, e)
  {
    var v := VersionString(e.threshold);
    assert v + "" == v && v + " (" + e.kb + ")" == v + (" (" + e.kb + ")");
  }

  /** A host's findings are those of the first entry it lacks of each CVE. */
  lemma {:induction false} FindingsAre(os: Os, entries: seq<Entry>, f: Finding)
    ensures f in Scan(os, entries) <==> exists i ::
      && 0 <= i < |entries| && Lacks(os, entries[i]) && Tells(f, os, entries[i])
      && forall j :: 0 <= j < i && entries[j].cve == entries[i].cve ==> !Lacks(os, entries[j])
    decreases |entries|
  {
    hide Lacks, Tells, FindingOf, Cves, Precedes, ParseVersion;
    if entries != [] {
      var n := |entries| - 1;
      var front := entries[..n];
      assert forall i :: 0 <= i < n ==> front[i] == entries[i];
      FindingsAre(os, front, f);
      ScanIsExact(os, front, entries[n].cve);
      FindingTells(f, os, entries[n]);
      forall i | 0 <= i < |entries| ensures Lacks(os, entries[i]) <==> Affected(os, entries[i]) { LacksIff(os, entries[i]); }
      if exists i :: 0 <= i < |entries| && Lacks(os, entries[i]) && Tells(f, os, entries[i])
                     && forall j :: 0 <= j < i && entries[j].cve == entries[i].cve ==> !Lacks(os, entries[j]) {
        var i :| 0 <= i < |entries| && Lacks(os, entries[i]) && Tells(f, os, entries[i])
                 && forall j :: 0 <= j < i && entries[j].cve == entries[i].cve ==> !Lacks(os, entries[j]);
        assert i < n ==> f in Scan(os, front);
      }
    }
  }

  lemma LacksIff(os: Os, e: Entry)
    ensures Lacks(os, e) <==> Affected(os, e)
  {
    hide Precedes, ParseVersion;
  }
}
