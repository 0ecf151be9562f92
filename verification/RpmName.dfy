/** Reading an rpm full name NAME-VERSION-RELEASE[.ARCH] from the right: splitRPMFullName of
    correlation/notus.go. */
module RpmName {
  import opened Prelude

  /** The architectures that are cut off. */
  const KNOWN_ARCHES: set<string> := {
    "x86_64", "amd64", "i386", "i486", "i586", "i686", "athlon", "geode", "pentium3", "pentium4",
    "aarch64", "arm64", "armhf", "armv5tel", "armv5tejl", "armv6l", "armv6hl", "armv7l", "armv7hl", "armv7hnl",
    "ppc", "ppc64", "ppc64le", "ppc64p7", "s390", "s390x", "sparc", "sparcv8", "sparcv9", "sparc64",
    "mips", "mipsel", "mips64", "mips64el", "riscv64", "loongarch64", "alpha", "ia64", "sh4",
    "noarch", "all", "src", "nosrc"}

  predicate KnownArch(s: string) {
    s in KNOWN_ARCHES
  }

  function CutArch(full: string): string {
    var dot := LastIndexOf(full, '.');
    if dot >= 0 && KnownArch(full[dot + 1..]) then full[..dot] else full
  }

  /** The name, and version and release as one string; nothing when a part is missing. */
  function Split(full: string): Option<(string, string)> {
    SplitDashes(CutArch(full))
  }

  function SplitDashes(s: string): Option<(string, string)> {
    var last := LastIndexOf(s, '-');
    if last <= 0 then None
    else
      var second := LastIndexOf(s[..last], '-');
      if second <= 0 then None else Some((s[..second], s[second + 1..]))
  }

  function Full(name: string, version: string, release: string): string {
    name + "-" + version + "-" + release
  }

  lemma ArchesArePlain(a: string)
    requires KnownArch(a)
    ensures '.' !in a && '-' !in a
  {
  }

  lemma LastAt(a: string, c: char, b: string)
    requires c !in b
    ensures LastIndexOf(a + [c] + b, c) == |a|
  {
    var s := a + [c] + b;
    assert s[|a|] == c && s[|a| + 1..] == b;
  }

  /** The two last hyphens are found whatever hyphens and digits the name holds. */
  lemma SplitPlain(name: string, version: string, release: string)
    requires name != "" && '-' !in version && '-' !in release
    ensures SplitDashes(Full(name, version, release)) == Some((name, version + "-" + release))
  {
    hide LastIndexOf, Full;
    var s, front := Full(name, version, release), name + ['-'] + version;
    Parts(name, version, release);
    LastAt(front, '-', release);
    SliceAt(front, release, s);
    LastAt(name, '-', version);
    SliceAt(name, version + "-" + release, s);
  }

  lemma Parts(name: string, version: string, release: string)
    ensures Full(name, version, release) == (name + ['-'] + version) + ['-'] + release
    ensures Full(name, version, release) == name + "-" + (version + "-" + release)
  {
  }

  lemma SliceAt(a: string, b: string, s: string)
    requires s == a + "-" + b
    ensures s[..|a|] == a && s[|a| + 1..] == b
  {
  }

  /** NAME-VERSION-RELEASE.ARCH splits back into its parts, for every non-empty name. */
  lemma SplitInverts(name: string, version: string, release: string, arch: string)
    requires name != "" && '-' !in version && '-' !in release && KnownArch(arch)
    ensures Split(Full(name, version, release) + "." + arch) == Some((name, version + "-" + release))
  {
    hide KnownArch, SplitDashes, LastIndexOf;
    ArchesArePlain(arch);
    var s := Full(name, version, release);
    var full := s + "." + arch;
    assert full == s + ['.'] + arch;
    LastAt(s, '.', arch);
    assert full[|s| + 1..] == arch && full[..|s|] == s;
    SplitPlain(name, version, release);
  }

  lemma CutIsShorter(full: string)
    ensures var dot := LastIndexOf(full, '.');
      if dot >= 0 && KnownArch(full[dot + 1..]) then |CutArch(full)| < |full| else CutArch(full) == full
  {
    hide KnownArch;
  }

  /** The form without an architecture splits back exactly when its last dot segment is not an
      architecture. */
  lemma SplitInvertsArchless(name: string, version: string, release: string)
    requires name != "" && '-' !in version && '-' !in release
    ensures var full := Full(name, version, release);
      var dot := LastIndexOf(full, '.');
      Split(full) == Some((name, version + "-" + release)) <==> dot < 0 || !KnownArch(full[dot + 1..])
  {
    hide KnownArch, CutArch, SplitDashes;
    var full := Full(name, version, release);
    CutIsShorter(full);
    var dot := LastIndexOf(full, '.');
    if dot < 0 || !KnownArch(full[dot + 1..]) {
      SplitPlain(name, version, release);
    } else if Split(full).Some? {
      var v, r := SplitRejoins(full);
    }
  }

  /** Whatever the split returns, its parts with a hyphen between spell the name less a known
      architecture; neither version nor release holds a hyphen. */
  lemma SplitRejoins(full: string) returns (version: string, release: string)
    requires Split(full).Some?
    ensures var (name, vr) := Split(full).value;
      && CutArch(full) == name + "-" + vr && name != ""
      && vr == version + "-" + release && '-' !in version && '-' !in release
  {
    hide CutArch, LastIndexOf;
    var s := CutArch(full);
    var last := LastIndexOf(s, '-');
    var front := s[..last];
    var second := LastIndexOf(front, '-');
    version, release := front[second + 1..], s[last + 1..];
    Rejoin(s, last, second);
  }

  lemma Rejoin(s: string, last: nat, second: nat)
    requires second < last < |s| && s[last] == '-' && s[second] == '-'
    ensures s[second + 1..] == s[..last][second + 1..] + "-" + s[last + 1..] && s == s[..second] + "-" + s[second + 1..]
  {
  }
}
