/** Version strings of the self-updater: normalizeVersion, parseVer and isNewer of
    agent/internal/update/update.go. */
module Versions {
  import opened Prelude

  /** normalizeVersion: outer blanks off, one leading v off, everything from the first hyphen off. */
  function Normalize(v: string): string {
    var t := TrimSpace(v);
    var u := if t != "" && t[0] == 'v' then t[1..] else t;
    var i := IndexOf(u, '-');
    if i >= 0 then u[..i] else u
  }

  /** A version component: what strconv.Atoi gives when it succeeds on a non-negative number, else 0. */
  function Component(part: string): nat {
    var t := TrimSpace(part);
    var d := if t != "" && t[0] == '+' then t[1..] else t;
    if d != "" && (forall c :: c in d ==> IsDigit(c)) && DigitsValue(d) <= MAX_INT then DigitsValue(d) else 0
  }

  /** strings.SplitN(v, ".", n): at most n parts, the last one taking the rest. */
  function SplitN(v: string, n: nat): (parts: seq<string>)
    requires n > 0
    ensures 0 < |parts| <= n
    decreases |v|
  {
    var i := IndexOf(v, '.');
    if n == 1 || i < 0 then [v] else [v[..i]] + SplitN(v[i + 1..], n - 1)
  }

  datatype Triple = Triple(major: nat, minor: nat, patch: nat)

  /** The numbers of an already normalized text. */
  function TripleOf(n: string): Triple {
    var p := SplitN(n, 3);
    Triple(Component(p[0]), if |p| > 1 then Component(p[1]) else 0, if |p| > 2 then Component(p[2]) else 0)
  }

  function ParseVer(v: string): Triple {
    TripleOf(Normalize(v))
  }

  /** parseVer, filling its three slots in a loop. */
  method ComputeVer(v: string) returns (t: Triple)
    ensures t == ParseVer(v)
  {
    hide Component, Normalize, SplitN;
    var out := new nat[3](_ => 0);
    var parts := SplitN(Normalize(v), 3);
    for i := 0 to |parts|
      invariant forall k :: 0 <= k < 3 ==> out[k] == if k < i then Component(parts[k]) else 0
    {
      out[i] := Component(parts[i]);
    }
    t := Triple(out[0], out[1], out[2]);
  }

  predicate Above(s: Triple, t: Triple) {
    s.major > t.major || (s.major == t.major && (s.minor > t.minor || (s.minor == t.minor && s.patch > t.patch)))
  }

  /** isNewer. */
  predicate IsNewer(a: string, b: string) {
    Above(ParseVer(a), ParseVer(b))
  }

  /** isNewer is a strict weak order: versions with one triple are interchangeable. */
  lemma NewerIsStrictWeakOrder(a: string, b: string, c: string)
    ensures !IsNewer(a, a)
    ensures IsNewer(a, b) && IsNewer(b, c) ==> IsNewer(a, c)
    ensures !IsNewer(a, b) && !IsNewer(b, c) ==> !IsNewer(a, c)
    ensures !IsNewer(a, b) && !IsNewer(b, a) <==> ParseVer(a) == ParseVer(b)
  {
  }

  /** Versions with one normal form have one triple. */
  lemma NormalFormDecides(a: string, b: string)
    requires Normalize(a) == Normalize(b)
    ensures ParseVer(a) == ParseVer(b)
  {
  }

  /** The empty version (no floor yet) is newer than nothing. */
  lemma EmptyIsLowest(v: string)
    ensures !IsNewer("", v)
  {
    assert TrimSpace("") == "" && Normalize("") == "" && IndexOf("", '.') == -1;
    assert SplitN("", 3) == [""];
  }

  // ---- normalizing twice ----

  /** The updater stores normalized versions and compares them again with isNewer, which normalizes
      once more. A version is faithful when that second pass reads the same numbers. */
  predicate Faithful(v: string) {
    ParseVer(Normalize(v)) == ParseVer(v)
  }

  /** The second pass changes nothing exactly when the first left no outer blank and no leading v. */
  lemma NormalizeTwice(v: string)
    ensures Normalize(Normalize(v)) == Normalize(v) <==> Tight(Normalize(v)) && (Normalize(v) != "" ==> Normalize(v)[0] != 'v')
  {
    var n := Normalize(v);
    assert '-' !in n;
    TrimTight(n);
    var t := TrimSpace(n);
    if t != n { assert |t| < |n|; }
    var u := if t != "" && t[0] == 'v' then t[1..] else t;
    assert '-' !in u by {
      forall c | c in u ensures c in n {}
    }
  }

  lemma StableIsFaithful(v: string)
    requires Tight(Normalize(v)) && (Normalize(v) != "" ==> Normalize(v)[0] != 'v')
    ensures Faithful(v)
  {
    NormalizeTwice(v);
  }

  // ---- a second normalization never lowers a version ----

  lemma BlanksInComponent(c: char, p: string)
    requires IsSpace(c)
    ensures Component([c] + p) == Component(p) && Component(p + [c]) == Component(p)
  {
    assert ([c] + p)[1..] == p;
    LastBlankIrrelevant(p, c);
  }

  lemma LeadingBlank(c: char, x: string)
    requires IsSpace(c)
    ensures TripleOf([c] + x) == TripleOf(x)
  {
    hide Component;
    var y := [c] + x;
    LeadingSplit(c, x, 3);
    BlanksInComponent(c, SplitN(x, 3)[0]);
  }

  lemma DotAfterBlank(c: char, x: string)
    requires c != '.'
    ensures IndexOf([c] + x, '.') == if IndexOf(x, '.') < 0 then -1 else IndexOf(x, '.') + 1
  {
    assert ([c] + x)[1..] == x;
  }

  lemma LeadingSplit(c: char, x: string, n: nat)
    requires IsSpace(c) && n > 0
    ensures SplitN([c] + x, n) == SplitN(x, n)[0 := [c] + SplitN(x, n)[0]]
  {
    hide IndexOf, SplitN;
    var y, i := [c] + x, IndexOf(x, '.');
    DotAfterBlank(c, x);
    SplitStep(x, n);
    SplitStep(y, n);
    if i >= 0 && n > 1 {
      assert y[..i + 1] == [c] + x[..i] && y[i + 2..] == x[i + 1..];
    }
  }

  lemma SplitStep(v: string, n: nat)
    requires n > 0
    ensures var i := IndexOf(v, '.'); SplitN(v, n) == if n == 1 || i < 0 then [v] else [v[..i]] + SplitN(v[i + 1..], n - 1)
  {
    hide IndexOf;
  }

  lemma {:induction false} TrailingSplit(x: string, c: char, n: nat)
    requires IsSpace(c) && n > 0
    ensures var p := SplitN(x, n); SplitN(x + [c], n) == p[..|p| - 1] + [p[|p| - 1] + [c]]
    decreases n
  {
    hide IndexOf, SplitN;
    var y, i := x + [c], IndexOf(x, '.');
    FirstDot(x, c);
    SplitStep(x, n);
    SplitStep(y, n);
    if i >= 0 && n > 1 {
      assert y[..i] == x[..i] && y[i + 1..] == x[i + 1..] + [c];
      TrailingSplit(x[i + 1..], c, n - 1);
    }
  }

  lemma FirstDot(x: string, c: char)
    requires c != '.'
    ensures IndexOf(x + [c], '.') == IndexOf(x, '.')
  {
    var i, k := IndexOf(x, '.'), IndexOf(x + [c], '.');
    assert i >= 0 ==> (x + [c])[i] == '.';
    assert forall j :: 0 <= j < |x| ==> (x + [c])[j] == x[j];
    assert k >= 0 ==> x[k] == '.';
    assert forall j :: 0 <= j < k ==> (x + [c])[..k][j] == (x + [c])[j];
    assert forall j :: 0 <= j < i ==> x[..i][j] == x[j];
  }

  lemma TrailingBlank(x: string, c: char)
    requires IsSpace(c)
    ensures TripleOf(x + [c]) == TripleOf(x)
  {
    hide Component;
    TrailingSplit(x, c, 3);
    var p := SplitN(x, 3);
    BlanksInComponent(c, p[|p| - 1]);
  }

  lemma {:induction false} TripleLeft(x: string)
    ensures TripleOf(TrimLeft(x)) == TripleOf(x)
    decreases |x|
  {
    hide TripleOf;
    if x != "" && IsSpace(x[0]) {
      TripleLeft(x[1..]);
      LeadingBlank(x[0], x[1..]);
      assert x == [x[0]] + x[1..];
    }
  }

  lemma {:induction false} TripleRight(x: string)
    ensures TripleOf(TrimRight(x)) == TripleOf(x)
    decreases |x|
  {
    hide TripleOf;
    if x != "" && IsSpace(x[|x| - 1]) {
      TripleRight(x[..|x| - 1]);
      TrailingBlank(x[..|x| - 1], x[|x| - 1]);
      assert x == x[..|x| - 1] + [x[|x| - 1]];
    }
  }

  /** A component that begins with a v is unreadable, so 0: taking the v off raises the version exactly when
      a positive number is left. */
  lemma LeadingV(x: string)
    requires x != "" && x[0] == 'v'
    ensures !Above(TripleOf(x), TripleOf(x[1..]))
    ensures Above(TripleOf(x[1..]), TripleOf(x)) <==> Component(SplitN(x[1..], 3)[0]) > 0
  {
    hide Component;
    VComponent(SplitN(x, 3)[0]);
    VSplit(x, 3);
  }

  lemma VComponent(p: string)
    requires p != "" && p[0] == 'v'
    ensures Component(p) == 0
  {
    TrimLeftCuts(p);
    TrimRightCuts(p);
    assert TrimLeft(p) == p;
    var t := TrimSpace(p);
    assert t != "" && t[0] == 'v';
    assert t[0] in t && !IsDigit(t[0]);
  }

  lemma VSplit(x: string, n: nat)
    requires x != "" && x[0] == 'v' && n > 0
    ensures SplitN(x, n)[0] != "" && SplitN(x, n)[0][0] == 'v'
    ensures SplitN(x[1..], n) == SplitN(x, n)[0 := SplitN(x, n)[0][1..]]
  {
    var i := IndexOf(x, '.');
    assert i >= 0 ==> x[..i][1..] == x[1..][..i - 1] && x[i + 1..] == x[1..][i..];
  }

  /** What a second normalization reads is never lower than what the first did, and it is higher exactly when
      the first one left a v in front of a positive number: outer blanks do not matter, and a v taken off a
      component that could not be read only makes it readable. */
  lemma NormalNeverLower(v: string)
    ensures !IsNewer(v, Normalize(v))
    ensures var t := TrimSpace(Normalize(v));
      IsNewer(Normalize(v), v) <==> t != "" && t[0] == 'v' && Component(SplitN(t[1..], 3)[0]) > 0
  {
    hide TripleOf, TrimLeft, TrimRight;
    var n := Normalize(v);
    assert '-' !in n by { NoHyphen(v); }
    var t := TrimSpace(n);
    TrimTight(n);
    TripleLeft(n);
    TripleRight(TrimLeft(n));
    var u := if t != "" && t[0] == 'v' then t[1..] else t;
    assert '-' !in u;
    assert Normalize(n) == u;
    if u != t { LeadingV(t); }
  }

  lemma NoHyphen(v: string)
    ensures '-' !in Normalize(v)
  {
  }

  // ---- reading two-part versions ----

  /** A tight version without a hyphen loses just its leading v. */
  lemma NormalOfPrefixed(v: string, n: string)
    requires v != "" && Tight(v) && '-' !in v && v[0] == 'v' && n == v[1..]
    ensures Normalize(v) == n
  {
    TrimTight(v);
  }

  lemma NormalOfPlain(v: string)
    requires v != "" && Tight(v) && '-' !in v && v[0] != 'v'
    ensures Normalize(v) == v
  {
    TrimTight(v);
  }

  lemma SplitAtDot(a: string, rest: string, n: nat)
    requires n > 1 && '.' !in a
    ensures SplitN(a + "." + rest, n) == [a] + SplitN(rest, n - 1)
  {
    var s := a + "." + rest;
    var i := IndexOf(s, '.');
    assert s[|a|] == '.' && s[..|a|] == a;
    assert forall k :: 0 <= k < i ==> s[..i][k] == s[k];
    assert i == |a| && s[i + 1..] == rest;
  }

  lemma NoDotNoSplit(b: string, n: nat)
    requires n > 0 && '.' !in b
    ensures SplitN(b, n) == [b]
  {
  }

  lemma ParseDottedPair(v: string, a: string, b: string)
    requires Normalize(v) == a + "." + b && '.' !in a && '.' !in b
    ensures ParseVer(v) == Triple(Component(a), Component(b), 0)
  {
    hide Normalize, Component, SplitN;
    SplitAtDot(a, b, 3);
    NoDotNoSplit(b, 2);
    assert [a] + [b] == [a, b];
  }

  lemma ParseDottedTriple(v: string, a: string, b: string, c: string)
    requires Normalize(v) == a + "." + b + "." + c && '.' !in a && '.' !in b && '.' !in c
    ensures ParseVer(v) == Triple(Component(a), Component(b), Component(c))
  {
    hide Normalize, Component, SplitN;
    assert a + "." + b + "." + c == a + "." + (b + "." + c);
    SplitAtDot(a, b + "." + c, 3);
    SplitAtDot(b, c, 2);
    NoDotNoSplit(c, 1);
    assert [a] + ([b] + [c]) == [a, b, c];
  }

  lemma SampleComponents()
    ensures Component("v1") == 0 && Component("0") == 0 && Component("1") == 1 && Component("2") == 2
  {
    hide TrimSpace, Normalize, ParseVer, DigitsValue;
    OneDigit('0');
    OneDigit('1');
    OneDigit('2');
    VComponent("v1");
  }

  lemma OneDigit(c: char)
    requires IsDigit(c)
    ensures Component([c]) == c as int - 48
  {
    hide TrimSpace, Normalize, ParseVer;
    TrimTight([c]);
    assert [c][..0] == [];
    assert forall d :: d in [c] ==> d == c;
    assert DigitsValue([c]) == c as int - 48;
  }

  /** Five version texts: "1.2.0" has the numbers of "1.2", and "vv1.2" has them only once normalized. */
  lemma SampleVersions()
    ensures Normalize("0.1") == "0.1" && ParseVer("0.1") == Triple(0, 1, 0)
    ensures Normalize("1.2") == "1.2" && ParseVer("1.2") == Triple(1, 2, 0)
    ensures Normalize("1.2.0") == "1.2.0" && ParseVer("1.2.0") == Triple(1, 2, 0)
    ensures Normalize("vv1.2") == "v1.2" && ParseVer("vv1.2") == Triple(0, 2, 0)
    ensures Normalize("v1.2") == "1.2" && ParseVer("v1.2") == Triple(1, 2, 0)
  {
    hide Normalize, ParseVer, Component;
    NormalOfPlain("0.1");
    NormalOfPlain("1.2");
    NormalOfPlain("1.2.0");
    NormalOfPrefixed("vv1.2", "v1.2");
    NormalOfPrefixed("v1.2", "1.2");
    assert "0" + "." + "1" == "0.1" && "1" + "." + "2" == "1.2" && "1" + "." + "2" + "." + "0" == "1.2.0" && "v1" + "." + "2" == "v1.2";
    ParseDottedPair("0.1", "0", "1");
    ParseDottedPair("1.2", "1", "2");
    ParseDottedTriple("1.2.0", "1", "2", "0");
    ParseDottedPair("vv1.2", "v1", "2");
    ParseDottedPair("v1.2", "1", "2");
    SampleComponents();
  }

  // ---- what a version text says ----

  lemma ReadsNumber(n: nat)
    requires n <= MAX_INT
    ensures Component(Itoa(n)) == n && '.' !in Itoa(n) && '-' !in Itoa(n)
  {
    var s := Itoa(n);
    ItoaRoundTrip(n);
    assert s[0] in s && s[|s| - 1] in s && IsDigit(s[0]) && IsDigit(s[|s| - 1]);
    TrimTight(s);
    assert !IsDigit('.') && !IsDigit('-');
  }

  predicate Numeral(s: string) {
    s != "" && forall c :: c in s ==> IsDigit(c)
  }

  /** Normalizing a text takes off the v in front of a numeral and the suffix behind one. */
  lemma CoreOfText(pre: string, core: string, suffix: string)
    requires pre == "" || pre == "v"
    requires core != "" && IsDigit(core[0]) && IsDigit(core[|core| - 1]) && '-' !in core
    requires suffix != "" ==> suffix[0] == '-' && !IsSpace(suffix[|suffix| - 1])
    ensures Normalize(pre + core + suffix) == core
  {
    hide TrimSpace, IndexOf;
    var text := pre + core + suffix;
    assert text[|pre|] == core[0];
    assert text[|text| - 1] == if suffix == "" then core[|core| - 1] else suffix[|suffix| - 1];
    assert pre == "v" ==> text[0] == 'v';
    TrimTight(text);
    HyphenEnds(core, suffix);
    assert pre == "v" ==> text[1..] == core + suffix;
    assert pre == "" ==> text == core + suffix;
  }

  function Dots(x: string, y: string, z: string): string {
    x + "." + y + "." + z
  }

  lemma DotsShape(x: string, y: string, z: string)
    requires Numeral(x) && Numeral(y) && Numeral(z)
    ensures var core := Dots(x, y, z); core != "" && IsDigit(core[0]) && IsDigit(core[|core| - 1]) && '-' !in core
    ensures '.' !in x && '.' !in y && '.' !in z
  {
    assert !IsDigit('-') && !IsDigit('.');
    var core := Dots(x, y, z);
    assert core[0] == x[0] && x[0] in x && core[|core| - 1] == z[|z| - 1] && z[|z| - 1] in z;
  }

  /** Release texts: three numbers, a v in front or not, a hyphen and anything after them or nothing. Both the
      stored form and the numbers are what one would say. */
  lemma ReleaseText(pre: string, a: nat, b: nat, c: nat, suffix: string)
    requires (pre == "" || pre == "v") && a <= MAX_INT && b <= MAX_INT && c <= MAX_INT
    requires suffix != "" ==> suffix[0] == '-' && !IsSpace(suffix[|suffix| - 1])
    ensures var core := Dots(Itoa(a), Itoa(b), Itoa(c));
      Normalize(pre + core + suffix) == core && ParseVer(pre + core + suffix) == Triple(a, b, c)
  {
    hide Component, TripleOf, TrimSpace, Normalize, ParseVer, Itoa;
    ReadsNumber(a);
    ReadsNumber(b);
    ReadsNumber(c);
    DotsShape(Itoa(a), Itoa(b), Itoa(c));
    CoreOfText(pre, Dots(Itoa(a), Itoa(b), Itoa(c)), suffix);
    ParseDottedTriple(pre + Dots(Itoa(a), Itoa(b), Itoa(c)) + suffix, Itoa(a), Itoa(b), Itoa(c));
  }

  lemma HyphenEnds(core: string, suffix: string)
    requires '-' !in core && (suffix != "" ==> suffix[0] == '-')
    ensures var i := IndexOf(core + suffix, '-'); (if i >= 0 then (core + suffix)[..i] else core + suffix) == core
  {
    var s := core + suffix;
    var i := IndexOf(s, '-');
    if suffix == "" {
      assert s == core;
    } else {
      assert s[|core|] == '-' && s[..|core|] == core;
      assert forall k :: 0 <= k < i ==> s[..i][k] == s[k];
      assert forall k :: 0 <= k < |core| ==> s[k] == core[k] && core[k] in core;
      assert i == |core|;
    }
  }

  /** The order on texts is the order on their numbers, the first deciding before the second and the third. */
  lemma NewerByNumbers(s: string, t: string, a: nat, b: nat, c: nat, x: nat, y: nat, z: nat)
    requires ParseVer(s) == Triple(a, b, c) && ParseVer(t) == Triple(x, y, z)
    ensures IsNewer(s, t) <==> a > x || (a == x && b > y) || (a == x && b == y && c > z)
  {
    hide ParseVer;
  }

  /** A component that is no number, or too large, reads as 0. */
  lemma UnreadableComponent(p: string)
    requires Tight(p) && p != "" && p[0] != '+'
    ensures (exists c :: c in p && !IsDigit(c)) ==> Component(p) == 0
    ensures (forall c :: c in p ==> IsDigit(c)) ==> Component(p) == if DigitsValue(p) <= MAX_INT then DigitsValue(p) else 0
  {
    TrimTight(p);
  }
}
