/** Subject names as the proxy forwards them, and the two parsers that read them back:
    control-plane/sensorjobs/authz.go (escape-aware; remediation uses a copy) and
    control-plane/enroll/enroll.go (which splits at every comma).

    Values are rendered with single-character backslash escapes (section 2.4 of RFC 2253). */
module DistinguishedName {
  import opened Prelude

  type Attributes = map<string, seq<string>>

  datatype Attr = Attr(key: string, value: string)

  // ---- splitting and unescaping ----

  function Prefixed(head: string, parts: seq<string>): (r: seq<string>)
    requires parts != []
    ensures |r| == |parts|
  {
    [head + parts[0]] + parts[1..]
  }

  /** splitUnescaped: a backslash and the byte after it stay together and never separate. */
  function Split(s: string, sep: char): (parts: seq<string>)
    ensures parts != []
  {
    if s == "" then [""]
    else if s[0] == '\\' && |s| > 1 then Prefixed(s[..2], Split(s[2..], sep))
    else if s[0] == sep then [""] + Split(s[1..], sep)
    else Prefixed(s[..1], Split(s[1..], sep))
  }

  lemma PrefixedTwice(a: string, b: string, parts: seq<string>)
    requires parts != []
    ensures Prefixed(a, Prefixed(b, parts)) == Prefixed(a + b, parts) && Prefixed("", parts) == parts
  {
    assert a + (b + parts[0]) == a + b + parts[0] && "" + parts[0] == parts[0];
  }

  /** What splitting a non-empty rest does to the part being built. */
  lemma SplitTurn(cur: string, rest: string, sep: char)
    requires rest != ""
    ensures rest[0] == '\\' && |rest| > 1 ==> Prefixed(cur, Split(rest, sep)) == Prefixed(cur + [rest[0]] + [rest[1]], Split(rest[2..], sep))
    ensures !(rest[0] == '\\' && |rest| > 1) && rest[0] == sep ==> Prefixed(cur, Split(rest, sep)) == [cur] + Prefixed("", Split(rest[1..], sep))
    ensures !(rest[0] == '\\' && |rest| > 1) && rest[0] != sep ==> Prefixed(cur, Split(rest, sep)) == Prefixed(cur + [rest[0]], Split(rest[1..], sep))
  {
    if rest[0] == '\\' && |rest| > 1 {
      PrefixedTwice(cur, rest[..2], Split(rest[2..], sep));
      assert cur + rest[..2] == cur + [rest[0]] + [rest[1]];
    } else if rest[0] == sep {
      PrefixedTwice("", "", Split(rest[1..], sep));
      assert cur + "" == cur;
    } else {
      PrefixedTwice(cur, rest[..1], Split(rest[1..], sep));
      assert rest[..1] == [rest[0]];
    }
  }

  method SplitUnescaped(s: string, sep: char) returns (parts: seq<string>)
    ensures parts == Split(s, sep)
  {
    hide Split, Prefixed;
    parts := [];
    var cur := "";
    var i := 0;
    PrefixedTwice("", "", Split(s, sep));
    assert s[0..] == s;
    while i < |s|
      invariant 0 <= i <= |s|
      invariant parts + Prefixed(cur, Split(s[i..], sep)) == Split(s, sep)
    {
      ghost var rest := s[i..];
      SplitTurn(cur, rest, sep);
      if s[i] == '\\' && i + 1 < |s| {
        assert rest[2..] == s[i + 2..];
        cur := cur + [s[i]] + [s[i + 1]];
        i := i + 2;
      } else if s[i] == sep {
        assert rest[1..] == s[i + 1..];
        parts := parts + [cur];
        cur := "";
        i := i + 1;
      } else {
        assert rest[1..] == s[i + 1..];
        cur := cur + [s[i]];
        i := i + 1;
      }
    }
    assert s[i..] == "";
    SplitEnd(cur, sep);
    parts := parts + [cur];
  }

  lemma SplitEnd(cur: string, sep: char)
    ensures Prefixed(cur, Split("", sep)) == [cur]
  {
    assert cur + "" == cur;
  }

  lemma JoinPrefixed(head: string, parts: seq<string>, sep: char)
    requires parts != []
    ensures Join(Prefixed(head, parts), sep) == head + Join(parts, sep)
  {
    assert Prefixed(head, parts)[1..] == parts[1..];
  }

  /** Splitting loses nothing: joining the parts with the separator restores any input. */
  lemma {:induction false} JoinUndoesSplit(s: string, sep: char)
    ensures Join(Split(s, sep), sep) == s
    decreases |s|
  {
    if s == "" {
    } else if s[0] == '\\' && |s| > 1 {
      JoinUndoesSplit(s[2..], sep);
      JoinPrefixed(s[..2], Split(s[2..], sep), sep);
    } else if s[0] == sep {
      JoinUndoesSplit(s[1..], sep);
      assert Split(s, sep)[1..] == Split(s[1..], sep);
    } else {
      JoinUndoesSplit(s[1..], sep);
      JoinPrefixed(s[..1], Split(s[1..], sep), sep);
    }
  }

  function Unescaped(s: string): string {
    if s == "" then ""
    else if s[0] == '\\' && |s| > 1 then [s[1]] + Unescaped(s[2..])
    else [s[0]] + Unescaped(s[1..])
  }

  lemma {:induction false} NothingToUnescape(s: string)
    requires '\\' !in s
    ensures Unescaped(s) == s
    decreases |s|
  {
    if s != "" { NothingToUnescape(s[1..]); }
  }

  /** unescapeDN. */
  method UnescapeDN(s: string) returns (r: string)
    ensures r == Unescaped(s)
  {
    if '\\' !in s {
      NothingToUnescape(s);
      return s;
    }
    r := "";
    var i := 0;
    assert s[0..] == s;
    while i < |s|
      invariant 0 <= i <= |s| && r + Unescaped(s[i..]) == Unescaped(s)
    {
      ghost var rest := s[i..];
      if s[i] == '\\' && i + 1 < |s| {
        assert rest[2..] == s[i + 2..];
        assert r + Unescaped(rest) == (r + [s[i + 1]]) + Unescaped(rest[2..]);
        r := r + [s[i + 1]];
        i := i + 2;
      } else {
        assert rest[1..] == s[i + 1..];
        assert r + Unescaped(rest) == (r + [s[i]]) + Unescaped(rest[1..]);
        r := r + [s[i]];
        i := i + 1;
      }
    }
    assert s[i..] == "" && r + "" == r;
  }

  // ---- the escape-aware parser ----

  function Upper(s: string): (r: string)
    ensures |r| == |s|
  {
    seq(|s|, i requires 0 <= i < |s| => if 'a' <= s[i] <= 'z' then (s[i] as int - 32) as char else s[i])
  }

  function Appended(m: Attributes, key: string, value: string): Attributes {
    m[key := (if key in m then m[key] else []) + [value]]
  }

  /** One attribute: a segment without a non-empty key before '=' is skipped. */
  function AddPair(m: Attributes, segment: string): Attributes {
    var p := TrimSpace(segment);
    var eq := IndexOf(p, '=');
    if eq <= 0 then m
    else Appended(m, Upper(TrimSpace(p[..eq])), Unescaped(TrimSpace(p[eq + 1..])))
  }

  function AddPairs(m: Attributes, segments: seq<string>): Attributes
    decreases |segments|
  {
    if segments == [] then m else AddPairs(AddPair(m, segments[0]), segments[1..])
  }

  /** parseDN of the sensor and remediation services. */
  function Parsed(dn: string): Attributes {
    var t := TrimSpace(dn);
    if t == "" then map[]
    else if t[0] == '/' && ',' !in t then AddPairs(map[], Split(t[1..], '/'))
    else AddPairs(map[], Split(t, ','))
  }

  /** One turn of parseDN's loop. */
  method ParsePair(m: Attributes, segment: string) returns (out: Attributes)
    ensures out == AddPair(m, segment)
  {
    hide Upper, TrimSpace, IndexOf, Unescaped;
    out := m;
    var p := TrimSpace(segment);
    var eq := IndexOf(p, '=');
    if eq <= 0 { return; }
    var key := Upper(TrimSpace(p[..eq]));
    var v := UnescapeDN(TrimSpace(p[eq + 1..]));
    out := m[key := (if key in m then m[key] else []) + [v]];
  }

  method ParsePairs(pairs: seq<string>) returns (out: Attributes)
    ensures out == AddPairs(map[], pairs)
  {
    hide AddPair;
    out := map[];
    for i := 0 to |pairs|
      invariant AddPairs(out, pairs[i..]) == AddPairs(map[], pairs)
    {
      out := ParsePair(out, pairs[i]);
    }
  }

  method ParseDN(dn: string) returns (out: Attributes)
    ensures out == Parsed(dn)
  {
    hide TrimSpace, Split, AddPairs;
    var t := TrimSpace(dn);
    if t == "" { return map[]; }
    var pairs: seq<string>;
    if t[0] == '/' && ',' !in t {
      pairs := SplitUnescaped(t[1..], '/');
    } else {
      pairs := SplitUnescaped(t, ',');
    }
    out := ParsePairs(pairs);
  }

  function FirstOf(m: Attributes, k: string): string {
    if k in m && m[k] != [] then m[k][0] else ""
  }

  // ---- rendering ----

  /** e writes v with single-character escapes; commas and backslashes must be escaped, any other
      byte may be. */
  predicate Renders(v: string, e: string)
    decreases |v|
  {
    if v == "" then e == ""
    else if e != "" && e[0] == '\\' then |e| > 1 && e[1] == v[0] && Renders(v[1..], e[2..])
    else e != "" && e[0] == v[0] && v[0] != ',' && Renders(v[1..], e[1..])
  }

  lemma {:induction false} UnescapeUndoesRendering(v: string, e: string)
    requires Renders(v, e)
    ensures Unescaped(e) == v
    decreases |v|
  {
    if v != "" {
      if e[0] == '\\' { UnescapeUndoesRendering(v[1..], e[2..]); } else { UnescapeUndoesRendering(v[1..], e[1..]); }
    }
  }

  /** The bytes that a proxy writes as a backslash and two hexadecimal digits: controls and those outside ASCII. */
  predicate Foreign(c: char) {
    !(0x20 <= c as int < 0x7f)
  }

  function HexDigit(d: nat): char
    requires d < 16
  {
    if d < 10 then (48 + d) as char else (55 + d) as char
  }

  function HexPair(c: char): (h: string)
    ensures |h| == 2 && forall x :: x in h ==> !Foreign(x) && x != ',' && x != '\\' && !IsSpace(x)
  {
    [HexDigit(c as int / 16 % 16), HexDigit(c as int % 16)]
  }

  /** e writes v with single-character escapes and hex pairs. */
  predicate Writes(v: string, e: string)
    decreases |v|
  {
    if v == "" then e == ""
    else if e != "" && e[0] == '\\' then
      if |e| > 1 && e[1] == v[0] then Writes(v[1..], e[2..])
      else |e| > 2 && Foreign(v[0]) && e[1..3] == HexPair(v[0]) && Writes(v[1..], e[3..])
    else e != "" && e[0] == v[0] && v[0] != ',' && Writes(v[1..], e[1..])
  }

  /** How many bytes of e stand for the first byte of v. */
  function Width(v: string, e: string): nat
    requires v != "" && Writes(v, e)
  {
    if e[0] != '\\' then 1 else if e[1] == v[0] then 2 else 3
  }

  lemma {:induction false} UnescapedGrows(v: string, e: string)
    requires Writes(v, e)
    ensures |Unescaped(e)| >= |v|
    ensures |Unescaped(e)| == |v| <==> Renders(v, e)
    decreases |v|
  {
    if v != "" { UnescapedGrows(v[1..], e[Width(v, e)..]); }
    if v != "" && Width(v, e) == 3 {
      assert e[2] == HexPair(v[0])[1] && e[2..][1..] == e[3..];
    }
  }

  /** unescapeDN does not read hex pairs: it restores a value exactly when none was used. */
  lemma {:induction false} HexPairIsNotUndone(v: string, e: string)
    requires Writes(v, e)
    ensures Unescaped(e) == v <==> Renders(v, e)
  {
    UnescapedGrows(v, e);
    if Renders(v, e) { UnescapeUndoesRendering(v, e); }
  }

  lemma {:induction false} RenderingWrites(v: string, e: string)
    requires Renders(v, e)
    ensures Writes(v, e)
    decreases |v|
  {
    if v != "" { RenderingWrites(v[1..], e[if e[0] == '\\' then 2 else 1..]); }
  }

  /** No comma outside an escape, and no backslash left open at the end. */
  predicate Closed(p: string) {
    if p == "" then true
    else if p[0] == '\\' then |p| > 1 && Closed(p[2..])
    else p[0] != ',' && Closed(p[1..])
  }

  lemma {:induction false} RenderingCloses(v: string, e: string)
    requires Renders(v, e)
    ensures Closed(e)
    decreases |v|
  {
    if v != "" {
      if e[0] == '\\' { RenderingCloses(v[1..], e[2..]); } else { RenderingCloses(v[1..], e[1..]); }
    }
  }

  lemma {:induction false} ClosedConcat(p: string, q: string)
    requires '\\' !in p && ',' !in p && Closed(q)
    ensures Closed(p + q)
    decreases |p|
  {
    if p == "" {
      assert p + q == q;
    } else {
      assert (p + q)[1..] == p[1..] + q;
      ClosedConcat(p[1..], q);
    }
  }

  /** A closed segment is split off whole. */
  lemma {:induction false} SplitClosed(p: string, rest: string)
    requires Closed(p)
    ensures Split(p, ',') == [p] && Split(p + "," + rest, ',') == [p] + Split(rest, ',')
    decreases |p|
  {
    var s := p + "," + rest;
    if p == "" {
      assert s[1..] == rest;
    } else if p[0] == '\\' {
      SplitClosed(p[2..], rest);
      assert s[2..] == p[2..] + "," + rest && s[..2] == p[..2] && p == p[..2] + p[2..];
    } else {
      SplitClosed(p[1..], rest);
      assert s[1..] == p[1..] + "," + rest && s[..1] == p[..1] && p == p[..1] + p[1..];
    }
  }

  /** A rendering keeps the ends of a value without outer blanks. */
  lemma {:induction false} RenderingEnds(v: string, e: string)
    requires Writes(v, e)
    ensures v == "" <==> e == ""
    ensures v != "" ==> (e[|e| - 1] == v[|v| - 1] || !IsSpace(e[|e| - 1])) && (e[0] == '\\' || e[0] == v[0])
    decreases |v|
  {
    if v != "" {
      RenderingEnds(v[1..], e[Width(v, e)..]);
      if Width(v, e) == 3 { assert e[2] == HexPair(v[0])[1] && e[2] in HexPair(v[0]); }
    }
  }

  predicate GoodKey(k: string) {
    && k != "" && Tight(k) && Upper(k) == k && k[0] != '/'
    && '=' !in k && ',' !in k && '\\' !in k
  }

  function Segment(a: Attr, e: string): string {
    a.key + "=" + e
  }

  /** The attributes of a name written one after the other, comma-separated. */
  function Rendered(attrs: seq<Attr>, es: seq<string>): string
    requires |attrs| == |es|
  {
    if attrs == [] then ""
    else if |attrs| == 1 then Segment(attrs[0], es[0])
    else Segment(attrs[0], es[0]) + "," + Rendered(attrs[1..], es[1..])
  }

  function Multimap(m: Attributes, attrs: seq<Attr>): Attributes
    decreases |attrs|
  {
    if attrs == [] then m else Multimap(Appended(m, attrs[0].key, attrs[0].value), attrs[1..])
  }

  predicate Renderable(attrs: seq<Attr>, es: seq<string>) {
    |attrs| == |es| && forall i :: 0 <= i < |attrs| ==> GoodKey(attrs[i].key) && Tight(attrs[i].value) && Renders(attrs[i].value, es[i])
  }

  predicate Writable(attrs: seq<Attr>, es: seq<string>) {
    |attrs| == |es| && forall i :: 0 <= i < |attrs| ==> GoodKey(attrs[i].key) && Tight(attrs[i].value) && Writes(attrs[i].value, es[i])
  }

  /** The first '=' of a segment is the one after its key. */
  lemma CutSegment(key: string, e: string)
    requires '=' !in key
    ensures var p := key + "=" + e; IndexOf(p, '=') == |key| && p[..|key|] == key && p[|key| + 1..] == e
  {
    var p := key + "=" + e;
    var eq := IndexOf(p, '=');
    assert p[|key|] == '=' && p[..|key|] == key;
    assert forall i :: 0 <= i < eq ==> p[..eq][i] == p[i];
    assert forall i :: 0 <= i < |key| ==> p[i] == key[i];
  }

  lemma SegmentShape(a: Attr, e: string)
    requires GoodKey(a.key) && Tight(a.value) && Writes(a.value, e)
    ensures Tight(Segment(a, e)) && Segment(a, e) != "" && Segment(a, e)[0] == a.key[0] && Tight(e)
  {
    hide Upper, IndexOf;
    RenderingEnds(a.value, e);
    var p := Segment(a, e);
    assert e != "" ==> p[|p| - 1] == e[|e| - 1];
  }

  lemma SegmentCloses(a: Attr, e: string)
    requires GoodKey(a.key) && Renders(a.value, e)
    ensures Closed(Segment(a, e))
  {
    hide Upper, IndexOf;
    RenderingCloses(a.value, e);
    ClosedConcat(a.key + "=", e);
    assert Segment(a, e) == (a.key + "=") + e;
  }

  /** One rendered attribute is read back as itself. */
  lemma SegmentParses(m: Attributes, a: Attr, e: string)
    requires GoodKey(a.key) && Tight(a.value) && Renders(a.value, e)
    ensures AddPair(m, Segment(a, e)) == Appended(m, a.key, a.value)
  {
    hide Upper, IndexOf, TrimSpace, Unescaped, Renders, Writes, Appended;
    RenderingWrites(a.value, e);
    SegmentShape(a, e);
    TrimTight(Segment(a, e));
    TrimTight(a.key);
    TrimTight(e);
    CutSegment(a.key, e);
    UnescapeUndoesRendering(a.value, e);
  }

  lemma {:induction false} RenderedShape(attrs: seq<Attr>, es: seq<string>)
    requires attrs != [] && Writable(attrs, es)
    ensures Tight(Rendered(attrs, es)) && Rendered(attrs, es) != "" && Rendered(attrs, es)[0] == attrs[0].key[0]
    decreases |attrs|
  {
    hide GoodKey, Writes;
    SegmentShape(attrs[0], es[0]);
    if |attrs| > 1 {
      RenderedShape(attrs[1..], es[1..]);
      var p, rest := Segment(attrs[0], es[0]), Rendered(attrs[1..], es[1..]);
      assert Rendered(attrs, es) == p + "," + rest;
      assert (p + "," + rest)[|p| + 1 + |rest| - 1] == rest[|rest| - 1];
    }
  }

  lemma {:induction false} SegmentsParse(m: Attributes, attrs: seq<Attr>, es: seq<string>)
    requires attrs != [] && Renderable(attrs, es)
    ensures AddPairs(m, Split(Rendered(attrs, es), ',')) == Multimap(m, attrs)
    decreases |attrs|
  {
    hide GoodKey, Renders, Tight, AddPair, Segment, Closed, Appended;
    var a, e := attrs[0], es[0];
    SegmentParses(m, a, e);
    SegmentCloses(a, e);
    var p := Segment(a, e);
    if |attrs| == 1 {
      SplitClosed(p, "");
      assert [p][1..] == [] && attrs[1..] == [];
    } else {
      var rest := Rendered(attrs[1..], es[1..]);
      SegmentsParse(Appended(m, a.key, a.value), attrs[1..], es[1..]);
      SplitClosed(p, rest);
      assert ([p] + Split(rest, ','))[1..] == Split(rest, ',');
    }
  }

  /** parseDN undoes any single-character-escape rendering: every attribute list whose values have no
      outer blanks comes back as the same multimap, in order. */
  lemma ParseUndoesRendering(attrs: seq<Attr>, es: seq<string>)
    requires Renderable(attrs, es)
    ensures Parsed(Rendered(attrs, es)) == Multimap(map[], attrs)
  {
    if attrs == [] {
      EmptyName();
    } else {
      hide Renders, Writes, TrimSpace, Split, AddPairs, Multimap, Rendered, Unescaped;
      forall i | 0 <= i < |attrs| ensures Writes(attrs[i].value, es[i]) { RenderingWrites(attrs[i].value, es[i]); }
      assert GoodKey(attrs[0].key);
      SegmentsParse(map[], attrs, es);
      RenderedShape(attrs, es);
      TrimTight(Rendered(attrs, es));
    }
  }

  lemma EmptyName()
    ensures Parsed(Rendered([], [])) == Multimap(map[], [])
  {
    TrimTight("");
  }

  // ---- other spellings ----

  /** Keys are read in any case: the lower-case spelling of a good key is that key. */
  lemma LowerCaseKeys()
    ensures Upper("cn") == "CN" && Upper("o") == "O" && Upper("ou") == "OU" && Upper("Ou") == "OU"
  {
  }

  /** Letter by letter: the twenty-six lower-case letters change to their capitals, and nothing else changes. */
  lemma UpperIs(s: string, i: nat)
    requires i < |s|
    ensures var c, u := s[i] as int, Upper(s)[i] as int;
      if 97 <= c < 97 + 26 then u == c - 32 && 65 <= u < 65 + 26 else u == c
  {
  }

  /** A segment is filed under its key's upper-case spelling. */
  lemma AnyCase(m: Attributes, k: string, v: string, e: string)
    requires k != "" && Tight(k) && '=' !in k && Tight(v) && Renders(v, e)
    ensures AddPair(m, k + "=" + e) == Appended(m, Upper(k), v)
  {
    hide Upper, IndexOf, TrimSpace, Unescaped, Renders, Writes, Appended;
    RenderingWrites(v, e);
    RenderingEnds(v, e);
    var p := k + "=" + e;
    assert Tight(e) && Tight(p) by { assert e != "" ==> p[|p| - 1] == e[|e| - 1]; }
    TrimTight(p);
    TrimTight(k);
    TrimTight(e);
    CutSegment(k, e);
    UnescapeUndoesRendering(v, e);
  }

  lemma {:induction false} SplitPlain(p: string, rest: string, sep: char)
    requires '\\' !in p && sep !in p && sep != '\\'
    ensures Split(p + [sep] + rest, sep) == [p] + Split(rest, sep) && Split(p, sep) == [p]
    decreases |p|
  {
    var s := p + [sep] + rest;
    if p == "" {
      assert s[0] == sep && s[1..] == rest;
    } else {
      assert p[0] in p && s[0] == p[0] && s[..1] == p[..1] == [p[0]];
      assert s[1..] == p[1..] + [sep] + rest && p == [p[0]] + p[1..];
      SplitPlain(p[1..], rest, sep);
    }
  }

  /** The one-line form: a slash before each attribute instead of commas between them. */
  lemma SlashForm(k: string, v: string, j: string, w: string)
    requires GoodKey(k) && GoodKey(j) && '/' !in k && '/' !in j && Tight(v) && Tight(w)
    requires forall c :: c in v || c in w ==> c !in {'/', ',', '\\'}
    ensures Parsed("/" + k + "=" + v + "/" + j + "=" + w) == Appended(Appended(map[], k, v), j, w)
  {
    hide Upper, IndexOf, TrimSpace, Unescaped, Appended, Split, AddPair, IsSpace;
    var p, q := k + "=" + v, j + "=" + w;
    var dn := "/" + k + "=" + v + "/" + j + "=" + w;
    var body := p + ['/'] + q;
    assert dn == ['/'] + body && dn[1..] == body;
    SlashIsNoBlank();
    assert Tight(dn) by { assert dn[|dn| - 1] == if w == "" then '=' else w[|w| - 1]; }
    TrimTight(dn);
    SplitPlain(p, q, '/');
    SplitPlain(q, "", '/');
    PlainRenders(v);
    PlainRenders(w);
    assert ',' !in dn by { assert forall c :: c in dn ==> c in k || c in v || c in j || c in w || c == '/' || c == '='; }
    assert Split(body, '/') == [p] + [q];
    AnyCase(map[], k, v, v);
    AnyCase(Appended(map[], k, v), j, w, w);
    TwoPairs(map[], p, q);
  }

  lemma SlashIsNoBlank()
    ensures !IsSpace('/') && !IsSpace('=')
  {
  }

  lemma TwoPairs(m: Attributes, p: string, q: string)
    ensures AddPairs(m, [p] + [q]) == AddPair(AddPair(m, p), q)
  {
    hide AddPair;
    var s, n := [p] + [q], AddPair(m, p);
    assert s[0] == p && s[1..] == [q] && [q][1..] == [];
    assert AddPairs(n, [q]) == AddPair(n, q);
  }

  lemma {:induction false} PlainRenders(v: string)
    requires '\\' !in v && ',' !in v
    ensures Renders(v, v)
    decreases |v|
  {
    if v != "" { PlainRenders(v[1..]); }
  }

  // ---- the comma-splitting parser ----

  function AddRawPair(m: Attributes, segment: string): Attributes {
    var p := TrimSpace(segment);
    var eq := IndexOf(p, '=');
    if eq <= 0 then m else Appended(m, Upper(TrimSpace(p[..eq])), TrimSpace(p[eq + 1..]))
  }

  function AddRawPairs(m: Attributes, segments: seq<string>): Attributes
    decreases |segments|
  {
    if segments == [] then m else AddRawPairs(AddRawPair(m, segments[0]), segments[1..])
  }

  /** parseDN of the enrollment service. */
  function RawParsed(dn: string): Attributes {
    var t := TrimSpace(dn);
    if t == "" then map[]
    else if t[0] == '/' && ',' !in t then AddRawPairs(map[], SplitAll(t[1..], '/'))
    else AddRawPairs(map[], SplitAll(t, ','))
  }

  method RawParsePair(m: Attributes, segment: string) returns (out: Attributes)
    ensures out == AddRawPair(m, segment)
  {
    hide Upper, TrimSpace, IndexOf, Unescaped;
    out := m;
    var p := TrimSpace(segment);
    var eq := IndexOf(p, '=');
    if eq <= 0 { return; }
    var key := Upper(TrimSpace(p[..eq]));
    out := m[key := (if key in m then m[key] else []) + [TrimSpace(p[eq + 1..])]];
  }

  method RawParseDN(dn: string) returns (out: Attributes)
    ensures out == RawParsed(dn)
  {
    hide TrimSpace, SplitAll, AddRawPair;
    var t := TrimSpace(dn);
    out := map[];
    if t == "" { return; }
    var pairs := if t[0] == '/' && ',' !in t then SplitAll(t[1..], '/') else SplitAll(t, ',');
    for i := 0 to |pairs|
      invariant AddRawPairs(out, pairs[i..]) == AddRawPairs(map[], pairs)
    {
      out := RawParsePair(out, pairs[i]);
    }
  }

  /** This parser too files a segment under its key's upper-case spelling, whatever follows the first '='. */
  lemma RawAnyCase(m: Attributes, k: string, h: string)
    requires k != "" && Tight(k) && '=' !in k && Tight(h)
    ensures AddRawPair(m, k + "=" + h) == Appended(m, Upper(k), h)
  {
    hide Upper, IndexOf, TrimSpace, Appended;
    var p := k + "=" + h;
    EqualsIsNoBlank();
    assert Tight(p) by { assert p[0] == k[0] && p[|p| - 1] == if h == "" then '=' else h[|h| - 1]; }
    TrimTight(p);
    TrimTight(k);
    TrimTight(h);
    CutSegment(k, h);
  }

  lemma EqualsIsNoBlank()
    ensures !IsSpace('=')
  {
  }

  /** The rendering used no escape, and the value has no blank to lose. */
  predicate Plain(v: string, e: string) {
    e == v && Tight(v)
  }

  /** Up to the first comma. */
  function Head(e: string): string {
    var i := IndexOf(e, ',');
    if i < 0 then e else e[..i]
  }

  /** What the comma-splitting parser reads of a value is the value only if it was rendered plainly. */
  lemma EscapedValueIsLost(v: string, e: string)
    requires Writes(v, e)
    ensures TrimSpace(Head(e)) == v <==> Plain(v, e)
  {
    hide TrimSpace;
    TrimTight(Head(e));
    TrimTight(e);
    CommasRendered(v, e);
    RenderingEnds(v, e);
    if e == v { NoPlainComma(v); }
    TrimAddsNothing(Head(e), ',');
    if ',' !in e { assert Head(e) == e; } else { assert ',' !in Head(e) && ',' in v; }
  }

  lemma TrimAddsNothing(s: string, c: char)
    requires c !in s
    ensures c !in TrimSpace(s)
  {
    TrimTight(s);
  }

  lemma {:induction false} CommasRendered(v: string, e: string)
    requires Writes(v, e)
    ensures ',' in e <==> ',' in v
    decreases |v|
  {
    if v != "" {
      var n := Width(v, e);
      CommasRendered(v[1..], e[n..]);
      assert v == [v[0]] + v[1..] && e == e[..n] + e[n..];
      assert e[..n] == if n == 1 then [v[0]] else if n == 2 then [e[0], v[0]] else [e[0]] + HexPair(v[0]);
    }
  }

  lemma {:induction false} NoPlainComma(v: string)
    requires Writes(v, v)
    ensures ',' !in v
    decreases |v|
  {
    if v != "" {
      if v[0] == '\\' {
        RenderingLength(v[1..], v[Width(v, v)..]);
      } else {
        NoPlainComma(v[1..]);
      }
    }
  }

  lemma {:induction false} RenderingLength(v: string, e: string)
    requires Writes(v, e)
    ensures |e| >= |v|
    decreases |v|
  {
    if v != "" { RenderingLength(v[1..], e[Width(v, e)..]); }
  }

  lemma FirstKeptOnce(m: Attributes, segment: string, k: string)
    requires k in m && m[k] != []
    ensures k in AddRawPair(m, segment) && AddRawPair(m, segment)[k] != [] && AddRawPair(m, segment)[k][0] == m[k][0]
  {
    hide TrimSpace, IndexOf, Upper;
  }

  /** Later segments do not change the first value of a key already present. */
  lemma {:induction false} FirstIsKept(m: Attributes, segments: seq<string>, k: string)
    requires k in m && m[k] != []
    ensures FirstOf(AddRawPairs(m, segments), k) == m[k][0]
    decreases |segments|
  {
    hide AddRawPair;
    if segments != [] {
      FirstKeptOnce(m, segments[0], k);
      FirstIsKept(AddRawPair(m, segments[0]), segments[1..], k);
    }
  }

  ghost predicate ValuesTight(m: Attributes) {
    forall k, i :: k in m && 0 <= i < |m[k]| ==> Tight(m[k][i])
  }

  /** Every value the parser returns has lost its outer blanks. */
  lemma {:induction false} RawValuesTight(m: Attributes, segments: seq<string>)
    requires ValuesTight(m)
    ensures ValuesTight(AddRawPairs(m, segments))
    decreases |segments|
  {
    hide TrimSpace, Upper;
    if segments != [] {
      var p := TrimSpace(segments[0]);
      var eq := IndexOf(p, '=');
      if eq > 0 { TrimTight(p[eq + 1..]); }
      RawValuesTight(AddRawPair(m, segments[0]), segments[1..]);
    }
  }

  /** The first comma of a text whose first n bytes hold none. */
  lemma FirstComma(p: string, q: string)
    requires ',' !in p
    ensures IndexOf(p + "," + q, ',') == |p|
    ensures SplitAll(p + "," + q, ',') == [p] + SplitAll(q, ',')
  {
    var s := p + "," + q;
    var i := IndexOf(s, ',');
    assert s[|p|] == ',';
    assert forall j :: 0 <= j < |p| ==> s[j] == p[j];
    assert forall j :: 0 <= j < i ==> s[..i][j] == s[j];
    assert s[..|p|] == p && s[|p| + 1..] == q;
  }

  lemma NoComma(s: string)
    requires ',' !in s
    ensures SplitAll(s, ',') == [s]
  {
  }

  lemma HeadPart(k: string, e: string, tail: string)
    requires ',' !in k && ',' in e
    ensures SplitAll(k + e + tail, ',')[0] == k + Head(e)
  {
    hide SplitAll;
    var h := IndexOf(e, ',');
    var p, q := k + e[..h], e[h + 1..] + tail;
    assert k + e + tail == p + "," + q;
    FirstComma(p, q);
  }

  lemma WholePart(k: string, e: string, rest: string)
    requires ',' !in k && ',' !in e
    ensures SplitAll(k + e + ("," + rest), ',') == [k + Head(e)] + SplitAll(rest, ',')
  {
    hide SplitAll;
    assert k + e + ("," + rest) == (k + e) + "," + rest;
    FirstComma(k + e, rest);
  }

  lemma OnlyPart(k: string, e: string)
    requires ',' !in k && ',' !in e
    ensures SplitAll(k + e + "", ',') == [k + Head(e)]
  {
    assert k + e + "" == k + e;
    NoComma(k + e);
  }

  lemma RawSegment(m: Attributes, key: string, h: string)
    requires GoodKey(key) && key !in m
    ensures FirstOf(AddRawPair(m, key + "=" + h), key) == TrimSpace(h)
    ensures Tight(h) ==> AddRawPair(m, key + "=" + h) == Appended(m, key, h)
  {
    hide TrimSpace, Upper, IndexOf;
    var s := key + "=" + h;
    var t := TrimRight(h);
    TrimmedSegment(key, h);
    CutSegment(key, t);
    TrimTight(key);
    TrimTight(h);
  }

  /** Trimming a segment trims its value on the right. */
  lemma TrimmedSegment(key: string, h: string)
    requires GoodKey(key)
    ensures TrimSpace(key + "=" + h) == key + "=" + TrimRight(h)
    ensures TrimSpace(TrimRight(h)) == TrimSpace(h)
  {
    hide Upper;
    var s := key + "=" + h;
    assert TrimLeft(s) == s;
    TrimRightAfter(key + "=", h);
    TrimsCommute(h);
  }

  lemma {:induction false} TrimRightAfter(p: string, h: string)
    requires p != "" && !IsSpace(p[|p| - 1])
    ensures TrimRight(p + h) == p + TrimRight(h)
    decreases |h|
  {
    if h != "" && IsSpace(h[|h| - 1]) {
      assert (p + h)[..|p + h| - 1] == p + h[..|h| - 1];
      TrimRightAfter(p, h[..|h| - 1]);
    } else if h == "" {
      assert p + h == p;
    }
  }

  lemma {:induction false} TrimsCommute(h: string)
    ensures TrimSpace(TrimRight(h)) == TrimSpace(h)
    decreases |h|
  {
    hide TrimSpace;
    if h != "" && IsSpace(h[|h| - 1]) {
      var g := h[..|h| - 1];
      TrimsCommute(g);
      LastBlankIrrelevant(g, h[|h| - 1]);
      assert h == g + [h[|h| - 1]];
    }
  }

  predicate DistinctKeys(attrs: seq<Attr>) {
    forall i, j :: 0 <= i < j < |attrs| ==> attrs[i].key != attrs[j].key
  }

  ghost predicate ReadBack(m: Attributes, attrs: seq<Attr>) {
    forall i :: 0 <= i < |attrs| ==> FirstOf(m, attrs[i].key) == attrs[i].value
  }

  ghost predicate AllPlain(attrs: seq<Attr>, es: seq<string>)
    requires |attrs| == |es|
  {
    forall i :: 0 <= i < |attrs| ==> Plain(attrs[i].value, es[i])
  }

  lemma SegmentIs(a: Attr, e: string)
    ensures Segment(a, e) == a.key + "=" + e
  {
  }

  lemma RawTail(attrs: seq<Attr>, es: seq<string>)
    requires |attrs| == |es| > 0
    ensures |attrs| == 1 ==> Rendered(attrs, es) == attrs[0].key + "=" + es[0] + ""
    ensures |attrs| > 1 ==> Rendered(attrs, es) == attrs[0].key + "=" + es[0] + ("," + Rendered(attrs[1..], es[1..]))
  {
    hide Segment;
    var p := Segment(attrs[0], es[0]);
    SegmentIs(attrs[0], es[0]);
    if |attrs| > 1 {
      var rest := Rendered(attrs[1..], es[1..]);
      assert p + "," + rest == p + ("," + rest);
    } else {
      assert p + "" == p;
    }
  }

  /** How the parser cuts off the first attribute. */
  lemma RawCut(attrs: seq<Attr>, es: seq<string>)
    requires attrs != [] && Writable(attrs, es)
    ensures var segs := SplitAll(Rendered(attrs, es), ',');
      && segs[0] == attrs[0].key + "=" + Head(es[0])
      && (',' !in es[0] ==> segs[1..] == if |attrs| == 1 then [] else SplitAll(Rendered(attrs[1..], es[1..]), ','))
  {
    hide TrimSpace, Writes, Tight, Rendered, SplitAll, Upper;
    assert GoodKey(attrs[0].key);
    var k, e := attrs[0].key + "=", es[0];
    RawTail(attrs, es);
    if ',' in e {
      HeadPart(k, e, if |attrs| == 1 then "" else "," + Rendered(attrs[1..], es[1..]));
    } else if |attrs| == 1 {
      OnlyPart(k, e);
    } else {
      WholePart(k, e, Rendered(attrs[1..], es[1..]));
    }
  }

  lemma {:induction false} RawReadsPlain(m: Attributes, attrs: seq<Attr>, es: seq<string>)
    requires attrs != [] && Writable(attrs, es) && DistinctKeys(attrs)
    requires forall i :: 0 <= i < |attrs| ==> attrs[i].key !in m
    ensures ReadBack(AddRawPairs(m, SplitAll(Rendered(attrs, es), ',')), attrs) <==> AllPlain(attrs, es)
    ensures AllPlain(attrs, es) ==> AddRawPairs(m, SplitAll(Rendered(attrs, es), ',')) == Multimap(m, attrs)
    decreases |attrs|
  {
    hide TrimSpace, IndexOf, Writes, Tight, GoodKey, AddRawPair, Head, Rendered, SplitAll;
    var a, e := attrs[0], es[0];
    var segs := SplitAll(Rendered(attrs, es), ',');
    RawCut(attrs, es);
    EscapedValueIsLost(a.value, e);
    RawSegment(m, a.key, Head(e));
    var m1 := AddRawPair(m, segs[0]);
    FirstPresent(m, a.key, Head(e));
    FirstIsKept(m1, segs[1..], a.key);
    if Plain(a.value, e) {
      PlainHead(a.value, e);
      if |attrs| > 1 {
        RawReadsPlain(m1, attrs[1..], es[1..]);
        assert ReadBack(AddRawPairs(m1, segs[1..]), attrs[1..]) <==> AllPlain(attrs[1..], es[1..]);
      }
    }
  }

  lemma PlainHead(v: string, e: string)
    requires Writes(v, e) && Plain(v, e)
    ensures ',' !in e && Head(e) == e && Tight(e)
  {
    NoPlainComma(v);
  }

  lemma FirstPresent(m: Attributes, key: string, h: string)
    requires GoodKey(key) && key !in m
    ensures key in AddRawPair(m, key + "=" + h) && AddRawPair(m, key + "=" + h)[key] != []
    ensures forall k :: k in AddRawPair(m, key + "=" + h) ==> k in m || k == key
  {
    hide TrimSpace, Upper, IndexOf;
    TrimmedSegment(key, h);
    CutSegment(key, TrimRight(h));
    TrimTight(key);
  }

  /** The enrollment parser returns every attribute of a name unchanged exactly when no value needed an
      escape or has outer blanks. */
  lemma RawParseExact(attrs: seq<Attr>, es: seq<string>)
    requires attrs != [] && |attrs| == |es| && DistinctKeys(attrs)
    requires forall i :: 0 <= i < |attrs| ==> GoodKey(attrs[i].key) && Writes(attrs[i].value, es[i])
    ensures ReadBack(RawParsed(Rendered(attrs, es)), attrs) <==> AllPlain(attrs, es)
    ensures AllPlain(attrs, es) ==> RawParsed(Rendered(attrs, es)) == Multimap(map[], attrs)
  {
    hide TrimSpace, IndexOf, Writes, Tight, SplitAll, AddRawPairs;
    var dn := Rendered(attrs, es);
    if Writable(attrs, es) {
      RenderedShape(attrs, es);
      TrimTight(dn);
      assert GoodKey(attrs[0].key);
      RawReadsPlain(map[], attrs, es);
    } else {
      var k :| 0 <= k < |attrs| && !Tight(attrs[k].value);
      RawResultTight(dn, attrs[k].key);
    }
  }

  lemma RawResultTight(dn: string, k: string)
    ensures Tight(FirstOf(RawParsed(dn), k))
  {
    hide TrimSpace, IndexOf;
    var t := TrimSpace(dn);
    if t != "" {
      RawValuesTight(map[], if t[0] == '/' && ',' !in t then SplitAll(t[1..], '/') else SplitAll(t, ','));
    }
  }

  /** What the enrollment parser reads as the first attribute of a name with several. */
  lemma RawFirstValue(attrs: seq<Attr>, es: seq<string>)
    requires |attrs| == |es| >= 2
    requires GoodKey(attrs[0].key) && GoodKey(attrs[1].key)
    ensures FirstOf(RawParsed(Rendered(attrs, es)), attrs[0].key) == TrimSpace(Head(es[0]))
  {
    hide IndexOf, Head, Upper, SplitAll, AddRawPair, AddRawPairs;
    var k, e := attrs[0].key, es[0];
    var h := TrimmedName(attrs, es);
    var t := k + "=" + e + ("," + h);
    var segs := SplitAll(t, ',');
    if ',' in e {
      HeadPart(k + "=", e, "," + h);
    } else {
      WholePart(k + "=", e, h);
    }
    assert segs[0] == k + "=" + Head(e);
    RawSegment(map[], k, Head(e));
    FirstPresent(map[], k, Head(e));
    FirstIsKept(AddRawPair(map[], segs[0]), segs[1..], k);
    AddRawPairsCons(segs);
  }

  lemma AddRawPairsCons(segs: seq<string>)
    requires segs != []
    ensures AddRawPairs(map[], segs) == AddRawPairs(AddRawPair(map[], segs[0]), segs[1..])
  {
    hide AddRawPair;
  }

  /** Trimming a name of several attributes touches only what follows the second key. */
  lemma TrimmedName(attrs: seq<Attr>, es: seq<string>) returns (h: string)
    requires |attrs| == |es| >= 2
    requires GoodKey(attrs[0].key) && GoodKey(attrs[1].key)
    ensures TrimSpace(Rendered(attrs, es)) == attrs[0].key + "=" + es[0] + ("," + h)
    ensures attrs[0].key + "=" + es[0] + ("," + h) != "" && (attrs[0].key + "=" + es[0] + ("," + h))[0] != '/'
  {
    hide Upper, Rendered, TrimSpace, GoodKey;
    var k, k1 := attrs[0].key, attrs[1].key;
    RawTail(attrs, es);
    RawTail(attrs[1..], es[1..]);
    var q := RestAfterKey(attrs[1..], es[1..]);
    GoodKeyStart(k);
    TrimTwoAttributes(k, es[0], k1, q);
    h := k1 + "=" + TrimRight(q);
  }

  lemma GoodKeyStart(k: string)
    requires GoodKey(k)
    ensures k != "" && !IsSpace(k[0]) && k[0] != '/'
  {
  }

  lemma RestAfterKey(attrs: seq<Attr>, es: seq<string>) returns (q: string)
    requires |attrs| == |es| > 0
    ensures Rendered(attrs, es) == attrs[0].key + "=" + q
  {
    hide Rendered;
    RawTail(attrs, es);
    q := if |attrs| == 1 then es[0] else es[0] + ("," + Rendered(attrs[1..], es[1..]));
    if |attrs| == 1 { assert es[0] + "" == es[0]; }
    assert |attrs| > 1 ==> attrs[0].key + "=" + es[0] + ("," + Rendered(attrs[1..], es[1..])) == attrs[0].key + "=" + q;
  }

  lemma TrimAfter(p: string, q: string)
    requires p != "" && !IsSpace(p[0]) && !IsSpace(p[|p| - 1])
    ensures TrimSpace(p + q) == p + TrimRight(q)
  {
    hide TrimRight;
    assert (p + q)[0] == p[0];
    TrimRightAfter(p, q);
  }

  lemma Regroup(a: string, b: string, q: string)
    ensures a + ("," + (b + q)) == (a + ("," + b)) + q
  {
  }

  lemma TrimTwoAttributes(k: string, e: string, k1: string, q: string)
    requires k != "" && !IsSpace(k[0])
    ensures TrimSpace(k + "=" + e + ("," + (k1 + "=" + q))) == k + "=" + e + ("," + (k1 + "=" + TrimRight(q)))
  {
    hide TrimSpace, TrimRight;
    var a, b := k + "=" + e, k1 + "=";
    var p := a + ("," + b);
    assert a[0] == k[0] && p[0] == a[0];
    assert b[|b| - 1] == '=' && p[|p| - 1] == b[|b| - 1];
    Regroup(a, b, q);
    Regroup(a, b, TrimRight(q));
    TrimAfter(p, q);
  }
}
