/** Certificates: the CA's revoked list (control-plane/ca/ca.go), enrollment and renewal
    (control-plane/enroll/enroll.go) and token revocation (control-plane/api/api.go), one request
    at a time. EnrollmentRuns interleaves them.

    X.509 is symbolic: a certificate is its subject, and signing either fails or returns a fresh
    serial, both given as parameters. Serials are numbers; their hex spelling is not modelled. */
module Enrollment {
  import opened Prelude
  import opened Tokens
  import opened DistinguishedName

  datatype Subject = Subject(cn: string, o: string, ou: string)

  /** A parsed certificate request: whether it parses and its proof of possession holds, and its CN. */
  datatype Csr = Csr(sound: bool, cn: string)

  datatype EnrollRequest = EnrollRequest(token: string, agentId: string, os: string, arch: string, csr: Option<Csr>)

  datatype Issued = Issued(subject: Subject, serial: nat)

  // ---- names ----

  predicate Special(c: char) {
    c == ',' || c == '\\' || c == '+' || c == '"' || c == '<' || c == '>' || c == ';'
  }

  /** The escapes of section 2.4 of RFC 2253: the special characters anywhere, a blank or '#' in front, a
      blank at the end; and hex pairs for controls and bytes outside ASCII. */
  function EscapeFrom(v: string, first: bool): string {
    if v == "" then ""
    else
      var c := v[0];
      var escaped := Special(c) || (first && (c == '#' || c == ' ')) || (|v| == 1 && c == ' ');
      (if escaped then ['\\', c] else if Foreign(c) then ['\\'] + HexPair(c) else [c]) + EscapeFrom(v[1..], false)
  }

  function Escape(v: string): string {
    EscapeFrom(v, true)
  }

  lemma {:induction false} EscapeRenders(v: string, first: bool)
    ensures Writes(v, EscapeFrom(v, first))
    decreases |v|
  {
    if v != "" {
      var c := v[0];
      var escaped := Special(c) || (first && (c == '#' || c == ' ')) || (|v| == 1 && c == ' ');
      EscapeRenders(v[1..], false);
      var e := EscapeFrom(v, first);
      assert e[if escaped then 2 else if Foreign(c) then 3 else 1..] == EscapeFrom(v[1..], false);
      if Foreign(c) {
        assert e[1] == HexPair(c)[0] && HexPair(c)[0] in HexPair(c) && e[1..3] == HexPair(c);
      }
    }
  }

  /** Either nothing needed an escape, or the rendering shows a backslash. */
  lemma {:induction false} EscapeShows(v: string, first: bool)
    ensures EscapeFrom(v, first) == v || '\\' in EscapeFrom(v, first)
    ensures EscapeFrom(v, first) == v && v != "" ==> v[|v| - 1] != ' ' && (first ==> v[0] != ' ')
    decreases |v|
  {
    if v != "" {
      EscapeShows(v[1..], false);
      var c := v[0];
      var escaped := Special(c) || (first && (c == '#' || c == ' ')) || (|v| == 1 && c == ' ');
      assert v == [c] + v[1..];
      if escaped || Foreign(c) {
        assert EscapeFrom(v, first)[0] == '\\';
        assert |EscapeFrom(v, first)| > |v| by { EscapeRenders(v[1..], false); RenderingLength(v[1..], EscapeFrom(v[1..], false)); }
      } else {
        assert EscapeFrom(v, first)[1..] == EscapeFrom(v[1..], false);
      }
    }
  }

  /** validateAgentID. */
  predicate ValidAgentId(id: string) {
    0 < |id| <= 128 && forall i :: 0 <= i < |id| ==> id[i] as int >= 0x20 && id[i] as int != 0x7f && !Special(id[i]) && id[i] != '='
  }

  /** The subject's attributes in the order a proxy renders them: CN, then OU and O when present. */
  function Attributes(s: Subject): seq<Attr> {
    [Attr("CN", s.cn)] + (if s.ou != "" then [Attr("OU", s.ou)] else []) + (if s.o != "" then [Attr("O", s.o)] else [])
  }

  function Escapes(attrs: seq<Attr>): (es: seq<string>)
    ensures |es| == |attrs|
    ensures forall i :: 0 <= i < |attrs| ==> es[i] == Escape(attrs[i].value)
  {
    if attrs == [] then [] else [Escape(attrs[0].value)] + Escapes(attrs[1..])
  }

  /** The DN header forwarded for a client certificate. */
  function ForwardedDN(s: Subject): string {
    Rendered(Attributes(s), Escapes(Attributes(s)))
  }

  /** The identity Renew takes from that header. */
  function RenewedSubject(s: Subject): Subject {
    var f := RawParsed(ForwardedDN(s));
    Subject(FirstOf(f, "CN"), FirstOf(f, "O"), FirstOf(f, "OU"))
  }

  lemma KeysAreGood()
    ensures GoodKey("CN") && GoodKey("OU") && GoodKey("O")
  {
    assert Upper("CN") == "CN" && Upper("OU") == "OU" && Upper("O") == "O";
  }

  lemma AttributesOfSubject(s: Subject)
    ensures DistinctKeys(Attributes(s))
    ensures forall i :: 0 <= i < |Attributes(s)| ==> GoodKey(Attributes(s)[i].key) && Writes(Attributes(s)[i].value, Escapes(Attributes(s))[i])
  {
    hide GoodKey, Writes, Escape;
    KeysAreGood();
    forall i | 0 <= i < |Attributes(s)| ensures Writes(Attributes(s)[i].value, Escapes(Attributes(s))[i]) {
      RenderOne(Attributes(s)[i].value);
    }
  }

  lemma RenderOne(v: string)
    ensures Writes(v, Escape(v))
  {
    EscapeRenders(v, true);
  }

  /** A value the rendering leaves as it is and the parser does not trim. */
  predicate PlainValue(v: string) {
    Plain(v, Escape(v))
  }

  lemma {:induction false} AbsentKey(m: DistinguishedName.Attributes, attrs: seq<Attr>, k: string)
    requires forall i :: 0 <= i < |attrs| ==> attrs[i].key != k
    ensures k in Multimap(m, attrs) <==> k in m
    decreases |attrs|
  {
    if attrs != [] {
      AbsentKey(Appended(m, attrs[0].key, attrs[0].value), attrs[1..], k);
    }
  }

  /** Renewal keeps a certificate's CN, O and OU exactly when none of them needs an escape, for a special
      character or a byte outside printable ASCII, or has outer blanks. */
  lemma RenewalKeepsIdentity(s: Subject)
    ensures RenewedSubject(s) == s <==> PlainValue(s.cn) && PlainValue(s.o) && PlainValue(s.ou)
  {
    hide RawParsed, Rendered, Plain, Escape, GoodKey, Writes, Multimap;
    var a, es := Attributes(s), Escapes(Attributes(s));
    AttributesOfSubject(s);
    RawParseExact(a, es);
    EmptyIsPlain();
    var f := RawParsed(ForwardedDN(s));
    assert AllPlain(a, es) <==> PlainValue(s.cn) && PlainValue(s.o) && PlainValue(s.ou) by { AttributesPlain(s); }
    if AllPlain(a, es) {
      if s.o == "" { AbsentKey(map[], a, "O"); }
      if s.ou == "" { AbsentKey(map[], a, "OU"); }
    }
    ReadBackOfSubject(f, s);
  }

  lemma EmptyIsPlain()
    ensures PlainValue("")
  {
  }

  lemma AttributesPlain(s: Subject)
    ensures AllPlain(Attributes(s), Escapes(Attributes(s))) <==> PlainValue(s.cn) && PlainValue(s.o) && PlainValue(s.ou)
  {
    hide Plain, Escape;
    EmptyIsPlain();
    var a, es := Attributes(s), Escapes(Attributes(s));
    assert a[0] == Attr("CN", s.cn);
    assert s.ou != "" ==> a[1] == Attr("OU", s.ou);
    assert s.o != "" ==> a[|a| - 1] == Attr("O", s.o);
    assert AllPlain(a, es) ==> Plain(a[0].value, es[0]) && Plain(a[|a| - 1].value, es[|a| - 1]) && (s.ou != "" ==> Plain(a[1].value, es[1]));
  }

  lemma ReadBackOfSubject(f: DistinguishedName.Attributes, s: Subject)
    ensures Subject(FirstOf(f, "CN"), FirstOf(f, "O"), FirstOf(f, "OU")) == s ==> ReadBack(f, Attributes(s))
    ensures ReadBack(f, Attributes(s)) && (s.o == "" ==> "O" !in f) && (s.ou == "" ==> "OU" !in f)
        ==> Subject(FirstOf(f, "CN"), FirstOf(f, "O"), FirstOf(f, "OU")) == s
  {
    var a := Attributes(s);
    assert a[0] == Attr("CN", s.cn);
    assert s.ou != "" ==> a[1] == Attr("OU", s.ou);
    assert s.o != "" ==> a[|a| - 1] == Attr("O", s.o);
  }

  /** A tenant whose name holds a comma does not survive its first renewal. */
  lemma CommaTenantIsLost(cn: string, ou: string)
    ensures RenewedSubject(Subject(cn, "Acme, Inc", ou)) != Subject(cn, "Acme, Inc", ou)
  {
    var v := "Acme, Inc";
    EscapeRenders(v, true);
    assert v[4] == ',';
    if Escape(v) == v {
      NoPlainComma(v);
      assert false;
    }
    RenewalKeepsIdentity(Subject(cn, v, ou));
  }

  lemma {:induction false} ForeignIsNotPlain(v: string, first: bool, i: nat)
    requires i < |v| && Foreign(v[i])
    ensures EscapeFrom(v, first) != v
    decreases |v|
  {
    EscapeRenders(v[1..], false);
    RenderingLength(v[1..], EscapeFrom(v[1..], false));
    if i > 0 && |EscapeFrom(v, first)| == |v| {
      ForeignIsNotPlain(v[1..], false, i - 1);
      assert EscapeFrom(v, first)[1..] == EscapeFrom(v[1..], false);
    }
  }

  /** Nor does one written with bytes outside ASCII. */
  lemma AccentedTenantIsLost(cn: string, ou: string)
    ensures RenewedSubject(Subject(cn, "S\U{c3}\U{a3}o Paulo", ou)) != Subject(cn, "S\U{c3}\U{a3}o Paulo", ou)
  {
    var v := "S\U{c3}\U{a3}o Paulo";
    ForeignIsNotPlain(v, true, 1);
    RenewalKeepsIdentity(Subject(cn, v, ou));
  }

  /** An agent id read back from a certificate's name, if valid at all, is the one certified. */
  lemma RenewedCnIsTheCertified(s: Subject)
    requires ValidAgentId(s.cn) && s.o != "" && ValidAgentId(RenewedSubject(s).cn)
    ensures RenewedSubject(s).cn == s.cn && PlainValue(s.cn)
  {
    hide RawParsed, Rendered, GoodKey, Writes, TrimSpace, Head;
    var a, es := Attributes(s), Escapes(Attributes(s));
    AttributesOfSubject(s);
    assert a[0] == Attr("CN", s.cn) && |a| >= 2;
    RawFirstValue(a, es);
    var e := Escape(s.cn);
    assert es[0] == e;
    RenewedCnText(s.cn, RenewedSubject(s).cn);
  }

  lemma RenewedCnText(cn: string, got: string)
    requires ValidAgentId(cn) && ValidAgentId(got) && got == TrimSpace(Head(Escape(cn)))
    ensures got == cn && PlainValue(cn)
  {
    hide TrimSpace, Escape;
    var e := Escape(cn);
    RenderOne(cn);
    CommasRendered(cn, e);
    assert Special(',') && ',' !in cn && Head(e) == e;
    EscapeShows(cn, true);
    EscapeIs(cn);
    assert Special('\\');
    if '\\' in e {
      TrimKeepsBackslash(e);
      assert false;
    } else {
      TrimTight(e);
    }
  }

  lemma EscapeIs(v: string)
    ensures Escape(v) == EscapeFrom(v, true)
  {
  }

  lemma TrimKeepsBackslash(s: string)
    requires '\\' in s
    ensures '\\' in TrimSpace(s)
  {
    var l := TrimLeft(s);
    TrimLeftCuts(s);
    TrimRightCuts(l);
    var i :| 0 <= i < |s| && s[i] == '\\';
    assert i >= |s| - |l| && l[i - (|s| - |l|)] == '\\';
    var j := i - (|s| - |l|);
    assert j < |TrimRight(l)| && TrimRight(l)[j] == '\\';
  }

  // ---- the CA's revoked list ----

  class CA {
    var revoked: seq<nat>

    constructor ()
      ensures revoked == []
    {
      revoked := [];
    }

    method RevokeCertSerial(serial: nat)
      modifies this
      ensures revoked == old(revoked) + [serial]
    {
      revoked := revoked + [serial];
    }

    method IsRevoked(serial: nat) returns (r: bool)
      ensures r <==> serial in revoked
    {
      for i := 0 to |revoked|
        invariant serial !in revoked[..i]
      {
        if revoked[i] == serial { return true; }
      }
      assert revoked[..|revoked|] == revoked;
      r := false;
    }
  }

  // ---- one request at a time ----

  /** What Enroll checks before it signs: the subject to certify, or the refusal. */
  function EnrollGate(s: Store, req: EnrollRequest, now: nat): Reply<Subject> {
    if req.agentId == "" || req.csr == None || req.token == "" || !ValidAgentId(req.agentId) then Err(BadRequest)
    else
      var c := Check(s, req.token, Scope("", "", req.os, req.arch), now);
      if c.Err? then Err(c.error)
      else if c.value.scope.tenant == "" || !req.csr.value.sound || req.csr.value.cn != req.agentId then Err(BadRequest)
      else Ok(Subject(req.agentId, c.value.scope.tenant, c.value.scope.policy))
  }

  function EnrollmentOf(req: EnrollRequest, serial: nat): Enrollment {
    Enrollment(0, req.agentId, req.os, req.arch, serial)
  }

  /** What Renew checks before it signs: the subject read from the presented certificate. */
  function RenewGate(verified: bool, presented: Subject, isRevoked: bool, csr: Option<Csr>, agentId: string): Reply<Subject> {
    var s := RenewedSubject(presented);
    if !verified then Err(BadRequest)
    else if isRevoked then Err(AlreadyRevoked)
    else if s.cn == "" || s.o == "" || csr == None || !csr.value.sound then Err(BadRequest)
    else if csr.value.cn != s.cn || (agentId != "" && agentId != s.cn) then Err(BadRequest)
    else Ok(s)
  }

  function RenewalOf(serial: nat): Enrollment {
    Enrollment(0, "", "", "", serial)
  }

  function Serials(r: Record): seq<nat> {
    seq(|r.enrollments|, i requires 0 <= i < |r.enrollments| => r.enrollments[i].serial)
  }

  class Service {
    const tokens: Manager
    const ca: CA

    constructor (tokens: Manager, ca: CA)
      ensures this.tokens == tokens && this.ca == ca
    {
      this.tokens, this.ca := tokens, ca;
    }

    /** Enroll: validate, check the request, sign, and consume the token last. */
    method Enroll(req: EnrollRequest, serial: Option<nat>, now: nat) returns (r: Reply<Issued>)
      modifies tokens.store
      ensures var s := old(tokens.store.State());
        var g := EnrollGate(s, req, now);
        if g.Err? then tokens.store.State() == s && r == Err(g.error)
        else if serial == None then tokens.store.State() == s && r.Err?
        else
          var (t, c) := ConsumeStep(s, req.token, EnrollmentOf(req, serial.value), now);
          tokens.store.State() == t && r == if c.Ok? then Ok(Issued(g.value, serial.value)) else Err(c.error)
    {
      hide Check, ConsumeStep, ValidAgentId;
      if req.agentId == "" || req.csr == None || req.token == "" { return Err(BadRequest); }
      if !ValidAgentId(req.agentId) { return Err(BadRequest); }
      var c := tokens.Validate(req.token, Scope("", "", req.os, req.arch), now);
      if c.Err? { return Err(c.error); }
      if c.value.scope.tenant == "" { return Err(BadRequest); }
      if !req.csr.value.sound { return Err(BadRequest); }
      if req.csr.value.cn != req.agentId { return Err(BadRequest); }
      if serial == None { return Err(BadRequest); }
      var consumed := tokens.Consume(req.token, EnrollmentOf(req, serial.value), now);
      if consumed.Err? { return Err(consumed.error); }
      r := Ok(Issued(Subject(req.agentId, c.value.scope.tenant, c.value.scope.policy), serial.value));
    }

    /** Renew: check the certificate and the request, sign, and append to the token's record last. */
    method Renew(verified: bool, presented: Subject, presentedSerial: nat, csr: Option<Csr>, agentId: string, serial: Option<nat>, now: nat)
      returns (r: Reply<Issued>)
      modifies tokens.store
      ensures var s := old(tokens.store.State());
        var g := RenewGate(verified, presented, presentedSerial in ca.revoked, csr, agentId);
        if g.Err? then tokens.store.State() == s && r == Err(g.error)
        else if serial == None then tokens.store.State() == s && r.Err?
        else
          var (t, c) := AppendStep(s, g.value.cn, RenewalOf(serial.value), now);
          tokens.store.State() == t && r == if c.Ok? then Ok(Issued(g.value, serial.value)) else Err(c.error)
    {
      hide AppendStep, ForwardedDN, RawParsed, FirstOf, Parsed;
      if !verified { return Err(BadRequest); }
      var gone := ca.IsRevoked(presentedSerial);
      if gone { return Err(AlreadyRevoked); }
      var f := RawParseDN(ForwardedDN(presented));
      var cn, org, ou := FirstOf(f, "CN"), FirstOf(f, "O"), FirstOf(f, "OU");
      if cn == "" || org == "" { return Err(BadRequest); }
      if csr == None || !csr.value.sound { return Err(BadRequest); }
      if csr.value.cn != cn { return Err(BadRequest); }
      if agentId != "" && agentId != cn { return Err(BadRequest); }
      if serial == None { return Err(BadRequest); }
      var appended := tokens.AppendEnrollment(cn, RenewalOf(serial.value), now);
      if appended.Err? { return Err(appended.error); }
      r := Ok(Issued(Subject(cn, org, ou), serial.value));
    }

    /** revokeToken: mark the record, then revoke every serial in its audit trail. */
    method RevokeToken(id: string, operator: string, now: nat) returns (r: Reply<Record>)
      modifies tokens.store, ca
      ensures (tokens.store.State(), r) == RevokeStep(old(tokens.store.State()), id, operator, now)
      ensures ca.revoked == old(ca.revoked) + if r.Ok? then Serials(r.value) else []
    {
      r := tokens.RevokeRecord(id, operator, now);
      if r.Err? { return; }
      ghost var before, all := ca.revoked, Serials(r.value);
      for i := 0 to |r.value.enrollments|
        invariant tokens.store.State() == RevokeStep(old(tokens.store.State()), id, operator, now).0
        invariant ca.revoked == before + all[..i]
      {
        ca.RevokeCertSerial(r.value.enrollments[i].serial);
      }
      assert all[..|all|] == all;
    }
  }

  // ---- what the gates let through ----

  /** Between one and 128 bytes, none of them a control or one of the eight that mean something in a name. */
  lemma AgentIds(id: string)
    ensures ValidAgentId(id) <==> (
      && 1 <= |id| <= 128
      && forall c :: c in id ==> 0x20 <= c as int && c as int != 0x7f && c !in {',', '=', '+', '"', '\\', ';', '<', '>'})
  {
    forall i | 0 <= i < |id| ensures id[i] in id {}
  }

  /** A byte that is written as it is wherever it stands. */
  predicate Ordinary(c: char) {
    0x20 <= c as int < 0x7f && c !in {',', '\\', '+', '"', '<', '>', ';'}
  }

  /** The values that survive a renewal, spelled out: printable ASCII without the seven special characters,
      not beginning with a blank or '#' and not ending with a blank. */
  lemma PlainTexts(v: string)
    ensures PlainValue(v) <==> (
      && (forall c :: c in v ==> Ordinary(c))
      && (v != "" ==> v[0] != ' ' && v[0] != '#' && v[|v| - 1] != ' '))
  {
    hide TrimSpace;
    PlainFrom(v, true);
    EscapeIs(v);
    if v != "" { assert v[0] in v && v[|v| - 1] in v; }
  }

  lemma {:induction false} PlainFrom(v: string, first: bool)
    ensures EscapeFrom(v, first) == v <==> (
      && (forall c :: c in v ==> Ordinary(c))
      && (v != "" ==> (first ==> v[0] != ' ' && v[0] != '#') && v[|v| - 1] != ' '))
    decreases |v|
  {
    if v != "" {
      var c, t := v[0], v[1..];
      PlainFrom(t, false);
      EscapeRenders(t, false);
      RenderingLength(t, EscapeFrom(t, false));
      var e := EscapeFrom(v, first);
      assert c in v && v == [c] + t;
      if e[..1] == [c] && |e| == 1 + |EscapeFrom(t, false)| { assert e[1..] == EscapeFrom(t, false); }
      assert e == v ==> |e| == |v|;
    }
  }

  /** With a plain subject, a renewal is let through exactly for a verified certificate that is not revoked, with
      a name and a tenant, and a sound request for the same name; it certifies the same subject again. */
  lemma RenewAnswers(verified: bool, presented: Subject, isRevoked: bool, csr: Option<Csr>, agentId: string)
    requires PlainValue(presented.cn) && PlainValue(presented.o) && PlainValue(presented.ou)
    ensures var g := RenewGate(verified, presented, isRevoked, csr, agentId);
      && (g.Ok? <==> (&& verified && !isRevoked && presented.cn != "" && presented.o != ""
                      && csr.Some? && csr.value.sound && csr.value.cn == presented.cn && agentId in {"", presented.cn}))
      && (g.Ok? ==> g.value == presented)
      && (g.Err? ==> g.error == if verified && isRevoked then AlreadyRevoked else BadRequest)
  {
    hide RenewedSubject, PlainValue;
    RenewalKeepsIdentity(presented);
  }

  /** A minted token enrolls, until it expires, exactly the hosts it was minted for, under a valid name that the
      request proves and that no token holds yet, and certifies the token's tenant and policy. */
  lemma MintedTokenEnrolls(s: Store, m: MintRequest, id: string, secret: string, now: nat, req: EnrollRequest, serial: nat, later: nat)
    requires (forall x :: x in s.rec ==> s.rec[x].id == x) && MintStep(s, m, Some((id, secret)), now).1.Ok?
    requires id != "" && '.' !in id && secret != "" && req.token == "st_" + id + "." + secret
    ensures var t := MintStep(s, m, Some((id, secret)), now).0;
      var g := EnrollGate(t, req, later);
      var (u, c) := ConsumeStep(t, req.token, EnrollmentOf(req, serial), later);
      && (g.Ok? <==> (&& later <= now + m.ttl && m.scope.os in {"", req.os} && m.scope.arch in {"", req.arch}
                      && ValidAgentId(req.agentId) && req.csr.Some? && req.csr.value.sound && req.csr.value.cn == req.agentId))
      && (g.Ok? ==> g.value == Subject(req.agentId, m.scope.tenant, m.scope.policy))
      && (g.Ok? ==> (c.Ok? <==> req.agentId !in s.agents))
      && (g.Ok? && c.Ok? ==>
            && u.agents == s.agents[req.agentId := id] && id in u.rec && u.rec[id].usedCount == 1 && !u.rec[id].revoked
            && u.rec[id].scope == m.scope && u.rec[id].id == id
            && u.rec[id].enrollments == [Enrollment(later, req.agentId, req.os, req.arch, serial)]
            && (forall x :: x in u.rec ==> u.rec[x].id == x))
  {
    hide MintStep, Check, ValidAgentId, ConsumeStep, Usable;
    MintAnswers(s, m, Some((id, secret)), now);
    MintedText(s, m, id, secret, now);
    var t := MintStep(s, m, Some((id, secret)), now).0;
    MintedTokenWorks(s, m, id, secret, now, Scope("", "", req.os, req.arch), later, secret + "x");
    EmptyIdIsInvalid();
    assert req.token != "" by { assert |req.token| == 3 + |id| + 1 + |secret|; }
    if EnrollGate(t, req, later).Ok? {
      ConsumeIsChecked(t, req.token, EnrollmentOf(req, serial), later);
      if ConsumeStep(t, req.token, EnrollmentOf(req, serial), later).1.Ok? { ConsumeLeaves(t, req.token, EnrollmentOf(req, serial), later); }
    }
  }

  /** What an enrollment is refused for: first what is missing or misnamed, then whatever is wrong with the
      token, in the token's own terms, then an unsound request, one for another name, or a token without a tenant. */
  lemma EnrollRefusals(s: Store, req: EnrollRequest, now: nat)
    ensures var g := EnrollGate(s, req, now);
      var c := Check(s, req.token, Scope("", "", req.os, req.arch), now);
      var complete := req.token != "" && req.csr.Some? && ValidAgentId(req.agentId);
      && (!complete ==> g == Err(BadRequest)) && (complete && c.Err? ==> g == Err(c.error))
      && (complete && c.Ok? ==>
            if c.value.scope.tenant != "" && req.csr.value == Csr(true, req.agentId)
            then g == Ok(Subject(req.agentId, c.value.scope.tenant, c.value.scope.policy)) else g == Err(BadRequest))
  {
    hide Check, ValidAgentId;
    EmptyIdIsInvalid();
  }

  lemma EmptyIdIsInvalid()
    ensures !ValidAgentId("")
  {
  }

  lemma ConsumeIsChecked(s: Store, token: string, e: Enrollment, now: nat)
    requires (forall x :: x in s.rec ==> s.rec[x].id == x) && Check(s, token, Scope("", "", e.os, e.arch), now).Ok?
    ensures ConsumeStep(s, token, e, now).1.Ok? <==> e.agentId == "" || e.agentId !in s.agents
    ensures ConsumeStep(s, token, e, now).1.Ok? ==> ConsumeStep(s, token, e, now).1.value.id == Check(s, token, Scope("", "", e.os, e.arch), now).value.id
  {
    hide ParseToken, SecretHash, Permits;
  }

  /** The whole life of an identity: minted, enrolled, renewed and revoked. The renewal certifies the same
      subject; revoking the token finds both serials; and from then on the token enrolls nobody, and neither
      certificate renews. */
  lemma IdentityLife(s: Store, m: MintRequest, id: string, secret: string, now: nat, req: EnrollRequest, first: nat, at1: nat, second: nat, at2: nat, operator: string, at3: nat)
    requires (forall x :: x in s.rec ==> s.rec[x].id == x) && MintStep(s, m, Some((id, secret)), now).1.Ok?
    requires id != "" && '.' !in id && secret != "" && req.token == "st_" + id + "." + secret
    requires at1 <= now + m.ttl && m.scope.os in {"", req.os} && m.scope.arch in {"", req.arch} && req.agentId !in s.agents
    requires ValidAgentId(req.agentId) && req.csr == Some(Csr(true, req.agentId))
    requires PlainValue(req.agentId) && PlainValue(m.scope.tenant) && PlainValue(m.scope.policy)
    ensures var subject := Subject(req.agentId, m.scope.tenant, m.scope.policy);
      var s0 := MintStep(s, m, Some((id, secret)), now).0;
      && EnrollGate(s0, req, at1) == Ok(subject)
      && var s1 := ConsumeStep(s0, req.token, EnrollmentOf(req, first), at1).0;
         && RenewGate(true, subject, false, req.csr, "") == Ok(subject)
         && var (s2, renewed) := AppendStep(s1, subject.cn, RenewalOf(second), at2);
            && renewed.Ok?
            && var (s3, r) := RevokeStep(s2, id, operator, at3);
               (&& r.Ok? && Serials(r.value) == [first, second]
                && r.value.enrollments == [Enrollment(at1, req.agentId, req.os, req.arch, first), Enrollment(at2, req.agentId, "", "", second)]
                && RenewGate(true, subject, true, req.csr, "") == Err(AlreadyRevoked)
                && AppendStep(s3, subject.cn, RenewalOf(second), at3).1 == Err(AlreadyRevoked)
                && EnrollGate(s3, req, at3) == Err(AlreadyRevoked))
  {
    hide MintStep, EnrollGate, ConsumeStep, RenewGate, AppendStep, RevokeStep, PlainValue, ValidAgentId, Check, SecretHash;
    var subject := Subject(req.agentId, m.scope.tenant, m.scope.policy);
    var s0 := MintStep(s, m, Some((id, secret)), now).0;
    MintAnswers(s, m, Some((id, secret)), now);
    MintedTokenEnrolls(s, m, id, secret, now, req, first, at1);
    var (s1, c) := ConsumeStep(s0, req.token, EnrollmentOf(req, first), at1);
    if req.agentId == "" { EmptyIdIsInvalid(); }
    ConsumedRecord(s, m, id, secret, now, req, first, at1);
    RenewAnswers(true, subject, false, req.csr, "");
    RenewAnswers(true, subject, true, req.csr, "");
    AppendAnswers(s1, subject.cn, RenewalOf(second), at2);
    var s2 := AppendStep(s1, subject.cn, RenewalOf(second), at2).0;
    RevokeAnswers(s2, id, operator, at3);
    var s3 := RevokeStep(s2, id, operator, at3).0;
    AppendAnswers(s3, subject.cn, RenewalOf(second), at3);
    var body := id + "." + secret;
    assert req.token == "st_" + body;
    CheckAnswers(s3, req.token, body, id, secret, secret, Scope("", "", req.os, req.arch), at3);
    GateRepeatsCheck(s3, req, at3);
  }

  lemma ConsumedRecord(s: Store, m: MintRequest, id: string, secret: string, now: nat, req: EnrollRequest, serial: nat, later: nat)
    requires (forall x :: x in s.rec ==> s.rec[x].id == x) && MintStep(s, m, Some((id, secret)), now).1.Ok?
    requires id != "" && '.' !in id && secret != "" && req.token == "st_" + id + "." + secret
    requires ConsumeStep(MintStep(s, m, Some((id, secret)), now).0, req.token, EnrollmentOf(req, serial), later).1.Ok?
    ensures var u := ConsumeStep(MintStep(s, m, Some((id, secret)), now).0, req.token, EnrollmentOf(req, serial), later).0;
      id in u.rec && u.rec[id].secretHash == SecretHash(secret)
  {
    hide MintStep, ConsumeStep, SecretHash;
    MintAnswers(s, m, Some((id, secret)), now);
    ConsumeLeaves(MintStep(s, m, Some((id, secret)), now).0, req.token, EnrollmentOf(req, serial), later);
  }

  lemma GateRepeatsCheck(s: Store, req: EnrollRequest, now: nat)
    requires ValidAgentId(req.agentId) && req.csr.Some? && req.token != "" && Check(s, req.token, Scope("", "", req.os, req.arch), now).Err?
    ensures EnrollGate(s, req, now) == Err(Check(s, req.token, Scope("", "", req.os, req.arch), now).error)
  {
  }
}
