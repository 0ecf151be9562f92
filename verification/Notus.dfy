/** The Notus correlator of correlation/notus.go, with the release scoping of correlation/scope.go: an index
    by package name that finds what a scan of every loaded advisory would.

    Version comparison, the Debian name split and the classification of product names are parameters. */
module Notus {
  import opened Prelude
  import RpmName
  import opened Dotted

  datatype Scope = Scope(distro: string, release: string)

  datatype Fixed = Fixed(name: string, fullVersion: string, fullName: string, specifier: string)

  datatype Entry = Entry(oid: string, fixed: seq<Fixed>)

  datatype File = File(pkgType: string, product: string, advisories: seq<Entry>, fileName: string)

  datatype Match = Match(
    oid: string, fixedVersion: string, fixedFullPkg: string, specifier: string, product: string, fileName: string, pkgType: string, scope: Scope)

  datatype Package = Package(name: string, version: string, fullName: string, arch: string, source: string)

  datatype Finding = Finding(oid: string, observed: string, fixed: string, specifier: string, product: string, source: string, advisory: string)

  /** vulnerable is None where isVulnerable returns an error. */
  datatype Library = Library(
    advisoryScope: string -> Scope, splitDeb: string -> Option<(string, string)>,
    vulnerable: (string, string, string, string) -> Option<bool>)

  // ---- scope ----

  predicate Known(s: Scope) {
    s.distro != ""
  }

  predicate ComponentPrefix(adv: string, host: string) {
    adv != "" && host != "" && SplitAll(adv, '.') <= SplitAll(host, '.')
  }

  predicate AppliesTo(s: Scope, host: Scope) {
    Known(s) && Known(host) && s.distro == host.distro && ComponentPrefix(s.release, host.release)
  }

  method ReleaseComponentsPrefix(adv: string, host: string) returns (r: bool)
    ensures r == ComponentPrefix(adv, host)
  {
    hide SplitAll;
    if adv == "" || host == "" { return false; }
    var a, h := SplitAll(adv, '.'), SplitAll(host, '.');
    if |a| > |h| { return false; }
    for i := 0 to |a|
      invariant forall k :: 0 <= k < i ==> a[k] == h[k]
    {
      if a[i] != h[i] { return false; }
    }
    r := true;
  }

  /** An advisory's release applies to the same release and to any of its minor releases, never to one that
      merely starts with the same digits. */
  lemma ReleasePrefixIff(adv: string, host: string)
    ensures ComponentPrefix(adv, host) <==> adv != "" && host != "" && (host == adv || adv + "." <= host)
  {
    PartsPrefixIff(adv, host, '.');
  }

  // ---- loading ----

  /** Name, fixed version and display name of a fixed_packages entry; empty strings when malformed. */
  function ExtractFixedPkg(lib: Library, pkgType: string, fp: Fixed): (string, string, string) {
    if pkgType == "deb" then
      if fp.fullName != "" && lib.splitDeb(fp.fullName).Some? then
        (lib.splitDeb(fp.fullName).value.0, lib.splitDeb(fp.fullName).value.1, fp.fullName)
      else if fp.name == "" || fp.fullVersion == "" then ("", "", "")
      else (fp.name, fp.fullVersion, fp.name + "-" + fp.fullVersion)
    else if pkgType == "rpm" && fp.fullName != "" && RpmName.Split(fp.fullName).Some? then
      (RpmName.Split(fp.fullName).value.0, RpmName.Split(fp.fullName).value.1, fp.fullName)
    else ("", "", "")
  }

  /** A loaded advisory entry, filed under its package name. */
  type Filed = (string, Match)

  function OfFixed(lib: Library, f: File, oid: string, fixed: seq<Fixed>): seq<Filed> {
    if fixed == [] then []
    else
      var fp := fixed[|fixed| - 1];
      var (name, version, full) := ExtractFixedPkg(lib, f.pkgType, fp);
      var m := Match(oid, version, full, fp.specifier, f.product, f.fileName, f.pkgType, lib.advisoryScope(f.product));
      OfFixed(lib, f, oid, fixed[..|fixed| - 1]) + if name == "" || version == "" then [] else [(name, m)]
  }

  function OfEntries(lib: Library, f: File, entries: seq<Entry>): seq<Filed> {
    if entries == [] then []
    else
      var e := entries[|entries| - 1];
      OfEntries(lib, f, entries[..|entries| - 1]) + OfFixed(lib, f, e.oid, e.fixed)
  }

  /** Everything the files hold, in load order. */
  function OfFiles(lib: Library, files: seq<File>): seq<Filed> {
    if files == [] then []
    else
      var f := files[|files| - 1];
      OfFiles(lib, files[..|files| - 1]) + OfEntries(lib, f, f.advisories)
  }

  function Named(loaded: seq<Filed>, name: string): seq<Match> {
    if loaded == [] then []
    else
      var last := loaded[|loaded| - 1];
      Named(loaded[..|loaded| - 1], name) + if last.0 == name then [last.1] else []
  }

  lemma NamedMore(loaded: seq<Filed>, name: string, m: Match, x: string)
    ensures Named(loaded + [(name, m)], x) == Named(loaded, x) + if x == name then [m] else []
  {
    assert (loaded + [(name, m)])[..|loaded|] == loaded;
  }

  function Lookup(index: map<string, seq<Match>>, name: string): seq<Match> {
    if name in index then index[name] else []
  }

  // ---- matching ----

  predicate SourcePkgTypeMatch(source: string, pkgType: string) {
    (pkgType == "deb" && source == "dpkg") || (pkgType == "rpm" && source == "rpm")
  }

  predicate Hits(lib: Library, host: Scope, pkg: Package, m: Match) {
    && SourcePkgTypeMatch(pkg.source, m.pkgType) && AppliesTo(m.scope, host)
    && lib.vulnerable(m.pkgType, pkg.version, m.fixedVersion, m.specifier) == Some(true)
  }

  function Observed(pkg: Package): string {
    if pkg.fullName != "" then pkg.fullName
    else if pkg.arch != "" then pkg.name + "-" + pkg.version + "." + pkg.arch
    else pkg.name + "-" + pkg.version
  }

  function FindingOf(pkg: Package, m: Match): Finding {
    Finding(m.oid, Observed(pkg), m.fixedFullPkg, m.specifier, m.product, pkg.source, m.fileName)
  }

  function OfCandidates(lib: Library, host: Scope, pkg: Package, ms: seq<Match>): seq<Finding> {
    if ms == [] then []
    else
      var m := ms[|ms| - 1];
      OfCandidates(lib, host, pkg, ms[..|ms| - 1]) + if Hits(lib, host, pkg, m) then [FindingOf(pkg, m)] else []
  }

  /** The scan without an index: every loaded entry against the package. */
  function Scan(lib: Library, host: Scope, pkg: Package, loaded: seq<Filed>): seq<Finding> {
    if loaded == [] then []
    else
      var (name, m) := loaded[|loaded| - 1];
      Scan(lib, host, pkg, loaded[..|loaded| - 1]) + if name == pkg.name && Hits(lib, host, pkg, m) then [FindingOf(pkg, m)] else []
  }

  function ScanAll(lib: Library, host: Scope, pkgs: seq<Package>, loaded: seq<Filed>): seq<Finding> {
    if pkgs == [] then []
    else ScanAll(lib, host, pkgs[..|pkgs| - 1], loaded) + Scan(lib, host, pkgs[|pkgs| - 1], loaded)
  }

  /** The index finds what the scan finds, in the same order. */
  lemma {:induction false} IndexFindsTheSame(lib: Library, host: Scope, pkg: Package, loaded: seq<Filed>)
    ensures OfCandidates(lib, host, pkg, Named(loaded, pkg.name)) == Scan(lib, host, pkg, loaded)
    decreases |loaded|
  {
    hide Hits;
    if loaded != [] {
      var front := loaded[..|loaded| - 1];
      IndexFindsTheSame(lib, host, pkg, front);
      var last := loaded[|loaded| - 1];
      if last.0 == pkg.name {
        assert (Named(front, pkg.name) + [last.1])[..|Named(front, pkg.name)|] == Named(front, pkg.name);
      } else {
        assert Named(loaded, pkg.name) == Named(front, pkg.name);
      }
    }
  }

  // ---- no duplicates ----

  function Key(f: Finding): string {
    f.oid + "|" + f.observed
  }

  function Keys(fs: seq<Finding>): (r: set<string>)
    ensures forall k :: k in r <==> exists i :: 0 <= i < |fs| && Key(fs[i]) == k
  {
    set i | 0 <= i < |fs| :: Key(fs[i])
  }

  /** The findings with a key not seen before, in order. */
  function Dedup(fs: seq<Finding>): seq<Finding> {
    if fs == [] then []
    else
      var front, last := Dedup(fs[..|fs| - 1]), fs[|fs| - 1];
      if Key(last) in Keys(fs[..|fs| - 1]) then front else front + [last]
  }

  lemma {:induction false} DedupIsExact(fs: seq<Finding>)
    ensures Keys(Dedup(fs)) == Keys(fs)
    ensures forall i, k :: 0 <= i < k < |Dedup(fs)| ==> Key(Dedup(fs)[i]) != Key(Dedup(fs)[k])
    ensures forall i :: 0 <= i < |Dedup(fs)| ==> Dedup(fs)[i] in fs
    decreases |fs|
  {
    hide Key, Keys;
    if fs != [] {
      var front, last := fs[..|fs| - 1], fs[|fs| - 1];
      DedupIsExact(front);
      KeysGrow(front, last);
      KeysGrow(Dedup(front), last);
      assert fs == front + [last];
      forall i | 0 <= i < |Dedup(front)| ensures Key(Dedup(front)[i]) in Keys(front) { }
    }
  }

  lemma KeysGrow(fs: seq<Finding>, f: Finding)
    ensures Keys(fs + [f]) == Keys(fs) + {Key(f)}
  {
    hide Key;
    forall k | k in Keys(fs) ensures k in Keys(fs + [f]) {
      var i :| 0 <= i < |fs| && Key(fs[i]) == k;
      assert (fs + [f])[i] == fs[i];
    }
    assert (fs + [f])[|fs|] == f;
  }

  /** One key, one pair of OID and package, as long as OIDs hold no bar. */
  lemma KeyIsInjective(f: Finding, g: Finding)
    requires '|' !in f.oid && '|' !in g.oid
    ensures Key(f) == Key(g) <==> f.oid == g.oid && f.observed == g.observed
  {
    if Key(f) == Key(g) {
      BarAt(f.oid, f.observed);
      BarAt(g.oid, g.observed);
      assert Key(f)[..|f.oid|] == f.oid && Key(f)[|f.oid| + 1..] == f.observed;
      assert Key(g)[..|g.oid|] == g.oid && Key(g)[|g.oid| + 1..] == g.observed;
    }
  }

  lemma BarAt(a: string, b: string)
    requires '|' !in a
    ensures IndexOf(a + "|" + b, '|') == |a|
  {
    var s := a + "|" + b;
    assert s[|a|] == '|' && s[..|a|] == a;
    FirstIs(s, |a|, '|');
  }

  /** As long as OIDs hold no bar, a report names each pair of OID and package once, and names every pair the
      scan finds. */
  lemma ReportIsExact(all: seq<Finding>)
    requires forall f :: f in all ==> '|' !in f.oid
    ensures var r := Dedup(all);
      && (forall i, k :: 0 <= i < k < |r| ==> r[i].oid != r[k].oid || r[i].observed != r[k].observed)
      && (forall f :: f in all ==> exists i :: 0 <= i < |r| && r[i].oid == f.oid && r[i].observed == f.observed)
  {
    hide Dedup, Key, Keys;
    DedupIsExact(all);
    var r := Dedup(all);
    forall i, k | 0 <= i < k < |r| ensures r[i].oid != r[k].oid || r[i].observed != r[k].observed {
      KeyIsInjective(r[i], r[k]);
    }
    forall f | f in all ensures exists i :: 0 <= i < |r| && r[i].oid == f.oid && r[i].observed == f.observed {
      assert Key(f) in Keys(all);
      var i :| 0 <= i < |r| && Key(r[i]) == Key(f);
      KeyIsInjective(r[i], f);
    }
  }

  // ---- what is loaded and what is found ----

  /** An advisory's fixed package names a package and its fixed version: a Debian one by its full name if that
      splits, else by its two parts, an rpm by its full name. */
  predicate Names(lib: Library, pkgType: string, fp: Fixed, name: string, version: string, full: string) {
    && name != "" && version != ""
    && (|| (&& pkgType == "deb" && fp.fullName != "" && lib.splitDeb(fp.fullName) == Some((name, version)) && full == fp.fullName)
        || (&& pkgType == "deb" && (fp.fullName == "" || lib.splitDeb(fp.fullName) == None)
            && fp.name == name && fp.fullVersion == version && full == name + "-" + version)
        || (pkgType == "rpm" && fp.fullName != "" && RpmName.Split(fp.fullName) == Some((name, version)) && full == fp.fullName))
  }

  /** The entry is one of the advisory's fixed packages, with the file's product, type, name and scope. */
  predicate Advises(lib: Library, f: File, oid: string, fp: Fixed, name: string, m: Match) {
    && Names(lib, f.pkgType, fp, name, m.fixedVersion, m.fixedFullPkg)
    && m.oid == oid && m.specifier == fp.specifier && m.product == f.product && m.fileName == f.fileName && m.pkgType == f.pkgType
    && m.scope == lib.advisoryScope(f.product)
  }

  lemma {:induction false} FixedAre(lib: Library, f: File, oid: string, fixed: seq<Fixed>, name: string, m: Match)
    ensures (name, m) in OfFixed(lib, f, oid, fixed) <==> exists fp :: fp in fixed && Advises(lib, f, oid, fp, name, m)
    decreases |fixed|
  {
    hide RpmName.Split;
    if fixed != [] {
      var n := |fixed| - 1;
      FixedAre(lib, f, oid, fixed[..n], name, m);
      assert fixed == fixed[..n] + [fixed[n]] && fixed[n] in fixed;
    }
  }

  predicate AdvisesBy(lib: Library, f: File, e: Entry, name: string, m: Match) {
    exists fp :: fp in e.fixed && Advises(lib, f, e.oid, fp, name, m)
  }

  lemma {:induction false} EntriesAre(lib: Library, f: File, entries: seq<Entry>, name: string, m: Match)
    ensures (name, m) in OfEntries(lib, f, entries) <==> exists e :: e in entries && AdvisesBy(lib, f, e, name, m)
    decreases |entries|
  {
    hide OfFixed, Advises;
    if entries != [] {
      var n := |entries| - 1;
      EntriesAre(lib, f, entries[..n], name, m);
      FixedAre(lib, f, entries[n].oid, entries[n].fixed, name, m);
      assert entries == entries[..n] + [entries[n]] && entries[n] in entries;
    }
  }

  /** What is loaded under a name: exactly the fixed packages of that name in the files' advisories. */
  lemma {:induction false} LoadedAre(lib: Library, files: seq<File>, name: string, m: Match)
    ensures (name, m) in OfFiles(lib, files) <==> exists f, e :: f in files && e in f.advisories && AdvisesBy(lib, f, e, name, m)
    decreases |files|
  {
    hide OfEntries, AdvisesBy;
    if files != [] {
      var n := |files| - 1;
      LoadedAre(lib, files[..n], name, m);
      EntriesAre(lib, files[n], files[n].advisories, name, m);
      assert files == files[..n] + [files[n]] && files[n] in files;
    }
  }

  /** The entry concerns the installed package: the sources match, the advisory is for the host's distribution
      and for its release or one this is a minor release of, and the version installed is vulnerable against
      the version fixed. */
  predicate Concerns(lib: Library, host: Scope, pkg: Package, m: Match) {
    && (pkg.source, m.pkgType) in {("dpkg", "deb"), ("rpm", "rpm")}
    && m.scope.distro == host.distro != "" && m.scope.release != "" && host.release != ""
    && (host.release == m.scope.release || m.scope.release + "." <= host.release)
    && lib.vulnerable(m.pkgType, pkg.version, m.fixedVersion, m.specifier) == Some(true)
  }

  lemma HitsIff(lib: Library, host: Scope, pkg: Package, m: Match)
    ensures Hits(lib, host, pkg, m) <==> Concerns(lib, host, pkg, m)
  {
    hide ComponentPrefix;
    ReleasePrefixIff(m.scope.release, host.release);
  }

  /** The finding a package and an entry give. */
  predicate Reports(f: Finding, pkg: Package, m: Match) {
    && f.oid == m.oid && f.fixed == m.fixedFullPkg && f.specifier == m.specifier && f.product == m.product
    && f.source == pkg.source && f.advisory == m.fileName
    && f.observed == (
         if pkg.fullName != "" then pkg.fullName
         else pkg.name + "-" + pkg.version + (if pkg.arch == "" then "" else "." + pkg.arch))
  }

  lemma FindingReports(f: Finding, pkg: Package, m: Match)
    ensures f == FindingOf(pkg, m) <==> Reports(f, pkg, m)
  {
    var p := pkg.name + "-" + pkg.version;
    assert p + "" == p && p + "." + pkg.arch == p + ("." + pkg.arch);
  }

  lemma {:induction false} PackageFinds(lib: Library, host: Scope, pkg: Package, loaded: seq<Filed>, f: Finding)
    ensures f in Scan(lib, host, pkg, loaded) <==> exists m :: (pkg.name, m) in loaded && Concerns(lib, host, pkg, m) && Reports(f, pkg, m)
    decreases |loaded|
  {
    hide Hits, Concerns, Reports, FindingOf;
    if loaded != [] {
      var n := |loaded| - 1;
      PackageFinds(lib, host, pkg, loaded[..n], f);
      HitsIff(lib, host, pkg, loaded[n].1);
      FindingReports(f, pkg, loaded[n].1);
      assert loaded == loaded[..n] + [loaded[n]];
      if loaded[n].0 == pkg.name { assert (pkg.name, loaded[n].1) in loaded; }
    }
  }

  /** What a host's inventory finds: exactly the findings of its packages against the entries loaded under their
      names that concern them. */
  lemma {:induction false} InventoryFinds(lib: Library, host: Scope, pkgs: seq<Package>, loaded: seq<Filed>, f: Finding)
    ensures f in ScanAll(lib, host, pkgs, loaded) <==>
      exists pkg, m :: pkg in pkgs && (pkg.name, m) in loaded && Concerns(lib, host, pkg, m) && Reports(f, pkg, m)
    decreases |pkgs|
  {
    hide Scan, Concerns, Reports;
    if pkgs != [] {
      var n := |pkgs| - 1;
      InventoryFinds(lib, host, pkgs[..n], loaded, f);
      PackageFinds(lib, host, pkgs[n], loaded, f);
      assert pkgs == pkgs[..n] + [pkgs[n]] && pkgs[n] in pkgs;
    }
  }

  /** Packages and entries are gone through in order. */
  lemma {:induction false} ScanInOrder(lib: Library, host: Scope, pkg: Package, a: seq<Filed>, b: seq<Filed>)
    ensures Scan(lib, host, pkg, a + b) == Scan(lib, host, pkg, a) + Scan(lib, host, pkg, b)
    decreases |b|
  {
    hide Hits, FindingOf;
    if b == [] {
      assert a + b == a;
    } else {
      ScanInOrder(lib, host, pkg, a, b[..|b| - 1]);
      assert (a + b)[..|a + b| - 1] == a + b[..|b| - 1];
    }
  }

  lemma {:induction false} PackagesInOrder(lib: Library, host: Scope, a: seq<Package>, b: seq<Package>, loaded: seq<Filed>)
    ensures ScanAll(lib, host, a + b, loaded) == ScanAll(lib, host, a, loaded) + ScanAll(lib, host, b, loaded)
    decreases |b|
  {
    hide Scan;
    if b == [] {
      assert a + b == a;
    } else {
      PackagesInOrder(lib, host, a, b[..|b| - 1], loaded);
      assert (a + b)[..|a + b| - 1] == a + b[..|b| - 1];
    }
  }

  /** Of the findings with one key the first is reported, where it was found. */
  lemma {:induction false} FirstIsReported(a: seq<Finding>, f: Finding, b: seq<Finding>)
    requires Key(f) !in Keys(a)
    ensures Dedup(a + [f]) == Dedup(a) + [f] && Dedup(a + [f]) <= Dedup(a + [f] + b)
    decreases |b|
  {
    hide Key, Keys;
    if b == [] {
      assert (a + [f])[..|a|] == a && a + [f] + b == a + [f];
    } else {
      FirstIsReported(a, f, b[..|b| - 1]);
      assert (a + [f] + b)[..|a + [f] + b| - 1] == a + [f] + b[..|b| - 1];
    }
  }

  // ---- the class ----

  class NotusCorrelator {
    const lib: Library
    var index: map<string, seq<Match>>
    var unclassified: set<string>
    ghost var loaded: seq<Filed>

    ghost predicate Valid()
      reads this
    {
      forall name :: Lookup(index, name) == Named(loaded, name)
    }

    constructor (lib: Library)
      ensures Valid() && this.lib == lib && loaded == [] && unclassified == {}
    {
      this.lib, index, unclassified, loaded := lib, map[], {}, [];
    }

    /** Files one entry under its package name. */
    method Add(name: string, m: Match)
      requires Valid()
      modifies this`index, this`loaded
      ensures Valid() && loaded == old(loaded) + [(name, m)]
    {
      hide Named;
      var was := Lookup(index, name);
      index := index[name := was + [m]];
      ghost var before := loaded;
      loaded := loaded + [(name, m)];
      forall x ensures Lookup(index, x) == Named(loaded, x) { NamedMore(before, name, m, x); }
    }

    method IndexEntry(f: File, e: Entry)
      requires Valid()
      modifies this`index, this`loaded
      ensures Valid() && loaded == old(loaded) + OfFixed(lib, f, e.oid, e.fixed)
    {
      hide ExtractFixedPkg, Named, Valid;
      for i := 0 to |e.fixed|
        invariant Valid() && loaded == old(loaded) + OfFixed(lib, f, e.oid, e.fixed[..i])
      {
        assert e.fixed[..i + 1][..i] == e.fixed[..i];
        var fp := e.fixed[i];
        var (name, version, full) := ExtractFixedPkg(lib, f.pkgType, fp);
        if name != "" && version != "" {
          Add(name, Match(e.oid, version, full, fp.specifier, f.product, f.fileName, f.pkgType, lib.advisoryScope(f.product)));
        }
      }
      assert e.fixed[..|e.fixed|] == e.fixed;
    }

    method IndexFile(f: File)
      requires Valid()
      modifies this
      ensures Valid() && loaded == old(loaded) + OfEntries(lib, f, f.advisories)
      ensures unclassified == old(unclassified) + if Known(lib.advisoryScope(f.product)) then {} else {f.product}
    {
      hide OfFixed, Named;
      if !Known(lib.advisoryScope(f.product)) { unclassified := unclassified + {f.product}; }
      assert loaded + [] == loaded && unclassified + {} == unclassified;
      for i := 0 to |f.advisories|
        invariant Valid() && loaded == old(loaded) + OfEntries(lib, f, f.advisories[..i])
        invariant unclassified == old(unclassified) + if Known(lib.advisoryScope(f.product)) then {} else {f.product}
      {
        assert f.advisories[..i + 1][..i] == f.advisories[..i];
        IndexEntry(f, f.advisories[i]);
      }
      assert f.advisories[..|f.advisories|] == f.advisories;
    }

    method Load(files: seq<File>)
      requires Valid() && loaded == []
      modifies this
      ensures Valid() && loaded == OfFiles(lib, files)
    {
      hide OfEntries, Named, Valid;
      for i := 0 to |files|
        invariant Valid() && loaded == OfFiles(lib, files[..i])
      {
        assert files[..i + 1][..i] == files[..i];
        IndexFile(files[i]);
      }
      assert files[..|files|] == files;
    }

    /** The loop over one package's candidates, continuing from what earlier packages gave. */
    method CorrelatePackage(pkg: Package, host: Scope, before: seq<Finding>, seenBefore: set<string>, ghost all: seq<Finding>)
      returns (findings: seq<Finding>, seen: set<string>)
      requires Valid() && before == Dedup(all) && seenBefore == Keys(all)
      ensures findings == Dedup(all + Scan(lib, host, pkg, loaded)) && seen == Keys(all + Scan(lib, host, pkg, loaded))
    {
      var candidates := Lookup(index, pkg.name);
      IndexFindsTheSame(lib, host, pkg, loaded);
      hide Hits, Dedup, Keys, Named, FindingOf, Key, Scan;
      findings, seen := before, seenBefore;
      ghost var now := all;
      for k := 0 to |candidates|
        invariant now == all + OfCandidates(lib, host, pkg, candidates[..k]) && findings == Dedup(now) && seen == Keys(now)
      {
        assert candidates[..k + 1][..k] == candidates[..k];
        var m := candidates[k];
        if Hits(lib, host, pkg, m) {
          var f := FindingOf(pkg, m);
          DedupStep(now, f);
          KeysGrow(now, f);
          now := now + [f];
          if Key(f) !in seen {
            seen := seen + {Key(f)};
            findings := findings + [f];
          }
        }
      }
      assert candidates[..|candidates|] == candidates;
    }

    /** Correlate emits exactly what scanning every loaded advisory for every package would, keeping the first
        finding of each key. */
    method Correlate(pkgs: seq<Package>, host: Scope) returns (findings: seq<Finding>)
      requires Valid()
      ensures findings == Dedup(ScanAll(lib, host, pkgs, loaded))
    {
      hide Dedup, Keys, Scan;
      NothingFound();
      findings := [];
      var seen: set<string> := {};
      for i := 0 to |pkgs|
        invariant findings == Dedup(ScanAll(lib, host, pkgs[..i], loaded)) && seen == Keys(ScanAll(lib, host, pkgs[..i], loaded))
      {
        assert pkgs[..i + 1][..i] == pkgs[..i];
        findings, seen := CorrelatePackage(pkgs[i], host, findings, seen, ScanAll(lib, host, pkgs[..i], loaded));
      }
      assert pkgs[..|pkgs|] == pkgs;
    }
  }

  lemma NothingFound()
    ensures Dedup([]) == [] && Keys([]) == {}
  {
  }

  lemma DedupStep(fs: seq<Finding>, f: Finding)
    ensures Dedup(fs + [f]) == if Key(f) in Keys(fs) then Dedup(fs) else Dedup(fs) + [f]
  {
    assert (fs + [f])[..|fs|] == fs;
  }
}
