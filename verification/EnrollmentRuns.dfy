/** Every interleaving of enrollments, renewals and token revocations. Each locked section of
    tokens.Manager, each signature and each addition to the CA's list is one atomic step; between
    the steps of a request any other request may run. */
module EnrollmentRuns {
  import opened Prelude
  import opened Tokens
  import opened Enrollment

  /** A certificate the CA signed: its subject, and (as history) the token it was issued under, through
      however many renewals. */
  datatype Cert = Cert(subject: Subject, token: string)

  /** A request in flight. */
  datatype Op =
    | Enrolling(req: EnrollRequest, subject: Subject)                  // validated
    | EnrollSigned(req: EnrollRequest, subject: Subject, serial: nat)   // signed, token not consumed
    | Renewing(presented: nat, subject: Subject)                        // certificate checked
    | RenewSigned(presented: nat, subject: Subject, serial: nat)        // signed, not yet recorded
    | Revoking(id: string, todo: seq<nat>)                              // record marked, serials to revoke

  /** released: serials of certificates handed to clients; finished: tokens whose revokeToken returned. */
  datatype World = World(
    store: Store, revoked: seq<nat>, certs: map<nat, Cert>, ops: map<nat, Op>, released: set<nat>, finished: set<string>)

  datatype Event =
    | Mint(mreq: MintRequest, rnd: Option<(string, string)>, now: nat)
    | StartEnroll(op: nat, req: EnrollRequest, now: nat)
    | SignEnroll(op: nat, serial: nat)
    | CommitEnroll(op: nat, now: nat)
    | StartRenew(op: nat, presented: nat, csr: Option<Csr>, agentId: string)
    | SignRenew(op: nat, serial: nat)
    | CommitRenew(op: nat, now: nat)
    | StartRevoke(op: nat, id: string, operator: string, now: nat)
    | RevokeOne(op: nat)
    | FinishRevoke(op: nat)
    | Abandon(op: nat)

  /** Ids and serials are fresh when drawn; a client renews with a certificate it was handed. */
  predicate Enabled(w: World, e: Event) {
    match e
    case Mint(_, rnd, _) => rnd.Some? ==> rnd.value.0 !in w.store.rec
    case StartEnroll(op, _, _) => op !in w.ops
    case SignEnroll(op, serial) => op in w.ops && w.ops[op].Enrolling? && serial !in w.certs
    case CommitEnroll(op, _) => op in w.ops && w.ops[op].EnrollSigned?
    case StartRenew(op, presented, _, _) => op !in w.ops && presented in w.released && presented in w.certs
    case SignRenew(op, serial) => op in w.ops && w.ops[op].Renewing? && w.ops[op].presented in w.certs && serial !in w.certs
    case CommitRenew(op, _) => op in w.ops && w.ops[op].RenewSigned?
    case StartRevoke(op, _, _, _) => op !in w.ops
    case RevokeOne(op) => op in w.ops && w.ops[op].Revoking? && w.ops[op].todo != []
    case FinishRevoke(op) => op in w.ops && w.ops[op].Revoking? && w.ops[op].todo == []
    case Abandon(op) => op in w.ops && !w.ops[op].Revoking?
  }

  function TokenId(token: string): string {
    var p := ParseToken(token);
    if p == None then "" else p.value.0
  }

  function Do(w: World, e: Event): World
    requires Enabled(w, e)
  {
    match e
    case Mint(mreq, rnd, now) => w.(store := MintStep(w.store, mreq, rnd, now).0)
    case StartEnroll(op, req, now) =>
      var g := EnrollGate(w.store, req, now);
      if g.Ok? then w.(ops := w.ops[op := Enrolling(req, g.value)]) else w
    case SignEnroll(op, serial) =>
      var o := w.ops[op];
      w.(certs := w.certs[serial := Cert(o.subject, TokenId(o.req.token))], ops := w.ops[op := EnrollSigned(o.req, o.subject, serial)])
    case CommitEnroll(op, now) =>
      var o := w.ops[op];
      var (s, r) := ConsumeStep(w.store, o.req.token, EnrollmentOf(o.req, o.serial), now);
      w.(store := s, ops := w.ops - {op}, released := if r.Ok? then w.released + {o.serial} else w.released)
    case StartRenew(op, presented, csr, agentId) =>
      var g := RenewGate(true, w.certs[presented].subject, presented in w.revoked, csr, agentId);
      if g.Ok? then w.(ops := w.ops[op := Renewing(presented, g.value)]) else w
    case SignRenew(op, serial) =>
      var o := w.ops[op];
      w.(certs := w.certs[serial := Cert(o.subject, w.certs[o.presented].token)], ops := w.ops[op := RenewSigned(o.presented, o.subject, serial)])
    case CommitRenew(op, now) =>
      var o := w.ops[op];
      var (s, r) := AppendStep(w.store, o.subject.cn, RenewalOf(o.serial), now);
      w.(store := s, ops := w.ops - {op}, released := if r.Ok? then w.released + {o.serial} else w.released)
    case StartRevoke(op, id, operator, now) =>
      var (s, r) := RevokeStep(w.store, id, operator, now);
      if r.Ok? then w.(store := s, ops := w.ops[op := Revoking(id, Serials(r.value))]) else w
    case RevokeOne(op) =>
      var o := w.ops[op];
      w.(revoked := w.revoked + [o.todo[0]], ops := w.ops[op := Revoking(o.id, o.todo[1..])])
    case FinishRevoke(op) => w.(ops := w.ops - {op}, finished := w.finished + {w.ops[op].id})
    case Abandon(op) => w.(ops := w.ops - {op})
  }

  // ---- the invariant ----

  predicate Audits(r: Record, serial: nat) {
    exists i :: 0 <= i < |r.enrollments| && r.enrollments[i].serial == serial
  }

  ghost predicate StoreOk(s: Store) {
    && (forall id :: id in s.rec ==> s.rec[id].id == id)
    && (forall a :: a in s.agents ==> ValidAgentId(a) && s.agents[a] in s.rec)
  }

  /** A released certificate names an agent of its token, and its serial is in the token's record. */
  ghost predicate CertOk(store: Store, c: Cert, serial: nat) {
    && ValidAgentId(c.subject.cn) && c.subject.o != ""
    && c.subject.cn in store.agents && store.agents[c.subject.cn] == c.token
    && c.token in store.rec && Audits(store.rec[c.token], serial) && CarriesScope(store.rec[c.token].scope, c.subject)
  }

  /** The certificate carries the token's tenant and policy, when a renewal can carry them at all. */
  ghost predicate CarriesScope(scope: Scope, s: Subject) {
    PlainValue(scope.tenant) && PlainValue(scope.policy) ==> s.o == scope.tenant && s.ou == scope.policy
  }

  ghost predicate ReleasedOk(w: World) {
    forall s :: s in w.released ==> s in w.certs && CertOk(w.store, w.certs[s], s)
  }

  ghost predicate CertifiesScope(s: Store, req: EnrollRequest, subject: Subject) {
    && ValidAgentId(req.agentId) && TokenId(req.token) in s.rec && subject.o != ""
    && subject == Subject(req.agentId, s.rec[TokenId(req.token)].scope.tenant, s.rec[TokenId(req.token)].scope.policy)
  }

  ghost predicate OpOk(w: World, o: Op) {
    match o
    case Enrolling(req, subject) => CertifiesScope(w.store, req, subject)
    case EnrollSigned(req, subject, serial) =>
      && CertifiesScope(w.store, req, subject)
      && serial in w.certs && w.certs[serial] == Cert(subject, TokenId(req.token))
    case Renewing(p, subject) => p in w.released && p in w.certs && subject == RenewedSubject(w.certs[p].subject) && subject.o != ""
    case RenewSigned(p, subject, serial) =>
      && p in w.released && p in w.certs && subject == RenewedSubject(w.certs[p].subject) && subject.o != ""
      && serial in w.certs && w.certs[serial] == Cert(subject, w.certs[p].token)
    case Revoking(id, todo) =>
      && id in w.store.rec && w.store.rec[id].revoked
      && forall s :: Audits(w.store.rec[id], s) ==> s in w.revoked || s in todo
  }

  ghost predicate OpsOk(w: World) {
    forall k :: k in w.ops ==> OpOk(w, w.ops[k])
  }

  ghost predicate FinishedOk(w: World) {
    forall id :: id in w.finished ==>
      && id in w.store.rec && w.store.rec[id].revoked
      && forall s :: Audits(w.store.rec[id], s) ==> s in w.revoked
  }

  ghost predicate Inv(w: World) {
    StoreOk(w.store) && ReleasedOk(w) && OpsOk(w) && FinishedOk(w)
  }

  ghost predicate Init(w: World) {
    w.store == Store(map[], map[]) && w.revoked == [] && w.certs == map[] && w.ops == map[] && w.released == {} && w.finished == {}
  }

  // ---- preservation ----

  /** How a step may change a record: nothing it audits is lost, and a revoked record is frozen. */
  ghost predicate RecordGrows(r: Record, t: Record) {
    && (forall n :: Audits(r, n) ==> Audits(t, n))
    && (r.revoked ==> t.revoked && t.enrollments == r.enrollments)
    && t.scope == r.scope
  }

  ghost predicate StoreGrows(s: Store, t: Store) {
    && (forall id :: id in s.rec ==> id in t.rec && RecordGrows(s.rec[id], t.rec[id]))
    && (forall a :: a in s.agents ==> a in t.agents && t.agents[a] == s.agents[a])
  }

  /** Everything but the new operation survives a step that only adds. */
  lemma Survives(w: World, v: World)
    requires Inv(w) && StoreOk(v.store) && StoreGrows(w.store, v.store)
    requires forall s :: s in w.certs ==> s in v.certs && v.certs[s] == w.certs[s]
    requires forall s :: s in w.revoked ==> s in v.revoked
    requires w.released <= v.released
    ensures forall s :: s in w.released ==> s in v.certs && CertOk(v.store, v.certs[s], s)
    ensures forall k :: k in w.ops ==> OpOk(v, w.ops[k])
    ensures v.finished == w.finished ==> FinishedOk(v)
  {
    hide ValidAgentId, RenewedSubject, TokenId;
    forall k | k in w.ops ensures OpOk(v, w.ops[k]) {
      assert OpOk(w, w.ops[k]);
      if w.ops[k].Revoking? { FrozenAudits(w.store.rec[w.ops[k].id], v.store.rec[w.ops[k].id]); }
    }
    forall id | id in w.finished ensures id in v.store.rec && v.store.rec[id].revoked && forall s :: Audits(v.store.rec[id], s) ==> s in v.revoked {
      FrozenAudits(w.store.rec[id], v.store.rec[id]);
    }
  }

  lemma FrozenAudits(r: Record, t: Record)
    requires t.enrollments == r.enrollments
    ensures forall s :: Audits(t, s) <==> Audits(r, s)
  {
  }

  lemma SameStoreGrows(s: Store)
    ensures StoreGrows(s, s)
  {
  }

  lemma AuditedGrows(r: Record, e: Tokens.Enrollment, now: nat)
    ensures forall n :: Audits(r, n) ==> Audits(Audited(r, e, now), n)
    ensures Audits(Audited(r, e, now), e.serial)
  {
    var t := Audited(r, e, now);
    forall n | Audits(r, n) ensures Audits(t, n) {
      var i :| 0 <= i < |r.enrollments| && r.enrollments[i].serial == n;
      assert t.enrollments[i].serial == n;
    }
    assert t.enrollments[|r.enrollments|].serial == e.serial;
  }

  lemma MintKeeps(w: World, e: Event)
    requires Inv(w) && e.Mint? && Enabled(w, e)
    ensures Inv(Do(w, e))
  {
    hide ValidAgentId, RenewedSubject, TokenId, SecretHash;
    var v := Do(w, e);
    Survives(w, v);
  }

  lemma StartsKeep(w: World, e: Event)
    requires Inv(w) && (e.StartEnroll? || e.StartRenew? || e.Abandon?) && Enabled(w, e)
    ensures Inv(Do(w, e))
  {
    hide ValidAgentId, RenewedSubject, TokenId, EnrollGate, CertOk;
    SameStoreGrows(w.store);
    if e.StartEnroll? { EnrollGateOk(w.store, e.req, e.now); }
    Survives(w, Do(w, e));
  }

  lemma EnrollGateOk(s: Store, req: EnrollRequest, now: nat)
    requires forall id :: id in s.rec ==> s.rec[id].id == id
    ensures var g := EnrollGate(s, req, now); g.Ok? ==> CertifiesScope(s, req, g.value)
  {
    hide ValidAgentId, ParseToken;
  }

  lemma SignsKeep(w: World, e: Event)
    requires Inv(w) && (e.SignEnroll? || e.SignRenew?) && Enabled(w, e)
    ensures Inv(Do(w, e))
  {
    hide ValidAgentId, RenewedSubject, TokenId, CertOk, StoreOk, FinishedOk;
    SameStoreGrows(w.store);
    assert OpOk(w, w.ops[e.op]);
    Survives(w, Do(w, e));
  }

  lemma ConsumeGrows(s: Store, token: string, e: Tokens.Enrollment, now: nat)
    requires StoreOk(s) && ValidAgentId(e.agentId)
    ensures var (t, r) := ConsumeStep(s, token, e, now);
      && StoreGrows(s, t) && StoreOk(t)
      && (r.Ok? ==> TokenId(token) in t.rec && Audits(t.rec[TokenId(token)], e.serial)
                    && e.agentId in t.agents && t.agents[e.agentId] == TokenId(token))
  {
    hide ConsumeStep, ParseToken;
    ConsumeShape(s, token, e, now);
    var (t, r) := ConsumeStep(s, token, e, now);
    if r.Ok? {
      var k := r.value.id;
      AuditedGrows(s.rec[k].(usedCount := s.rec[k].usedCount + 1), e, now);
      FrozenAudits(s.rec[k], s.rec[k].(usedCount := s.rec[k].usedCount + 1));
    } else {
      SameStoreGrows(s);
    }
  }

  lemma CommitEnrollKeeps(w: World, e: Event)
    requires Inv(w) && e.CommitEnroll? && Enabled(w, e)
    ensures Inv(Do(w, e))
  {
    hide RenewedSubject, ConsumeStep, TokenId, RecordGrows, Audits, PlainValue, ValidAgentId, StoreOk, StoreGrows;
    var v, o := Do(w, e), w.ops[e.op];
    assert OpOk(w, o);
    ConsumeGrows(w.store, o.req.token, EnrollmentOf(o.req, o.serial), e.now);
    ScopeStays(w.store, v.store);
    Survives(w, v);
  }

  lemma AppendGrows(s: Store, agentId: string, e: Tokens.Enrollment, now: nat)
    requires forall id :: id in s.rec ==> s.rec[id].id == id
    ensures var (t, r) := AppendStep(s, agentId, e, now);
      && StoreGrows(s, t) && t.agents == s.agents && t.rec.Keys == s.rec.Keys
      && (forall id :: id in t.rec ==> t.rec[id].id == id)
      && (r.Ok? ==> agentId in s.agents && s.agents[agentId] in t.rec && Audits(t.rec[s.agents[agentId]], e.serial))
  {
    var (t, r) := AppendStep(s, agentId, e, now);
    if r.Ok? {
      AuditedGrows(s.rec[s.agents[agentId]], e.(agentId := agentId), now);
    } else {
      SameStoreGrows(s);
    }
  }

  lemma ScopeStays(s: Store, t: Store)
    requires StoreGrows(s, t)
    ensures forall id :: id in s.rec ==> id in t.rec && t.rec[id].scope == s.rec[id].scope
  {
  }

  lemma RenewedCertOk(s: Store, c: Cert, p: nat, subject: Subject, serial: nat)
    requires CertOk(s, c, p) && subject == RenewedSubject(c.subject) && subject.o != ""
    requires subject.cn in s.agents && ValidAgentId(subject.cn)
    requires s.agents[subject.cn] in s.rec && Audits(s.rec[s.agents[subject.cn]], serial)
    ensures CertOk(s, Cert(subject, c.token), serial)
  {
    hide RenewedSubject, ValidAgentId, PlainValue, Audits;
    RenewedCnIsTheCertified(c.subject);
    RenewalKeepsIdentity(c.subject);
  }

  /** A renewal that could be recorded was for the agent the presented certificate names. */
  lemma CommitRenewKeeps(w: World, e: Event)
    requires Inv(w) && e.CommitRenew? && Enabled(w, e)
    ensures Inv(Do(w, e))
  {
    hide RenewedSubject, AppendStep, TokenId, ValidAgentId, CertOk, Audits, RecordGrows, FinishedOk;
    var v, o := Do(w, e), w.ops[e.op];
    assert OpOk(w, o);
    AppendGrows(w.store, o.subject.cn, RenewalOf(o.serial), e.now);
    Survives(w, v);
    if o.serial in v.released && o.serial !in w.released {
      RenewedCertOk(v.store, w.certs[o.presented], o.presented, o.subject, o.serial);
    }
  }

  lemma RevokeGrows(s: Store, id: string, operator: string, now: nat)
    requires forall x :: x in s.rec ==> s.rec[x].id == x
    ensures var (t, r) := RevokeStep(s, id, operator, now);
      && StoreGrows(s, t) && t.agents == s.agents && (forall x :: x in t.rec ==> t.rec[x].id == x) && t.rec.Keys == s.rec.Keys
      && (r.Ok? ==> id in t.rec && t.rec[id] == r.value && r.value.revoked)
      && (r.Err? ==> t == s)
  {
    var (t, r) := RevokeStep(s, id, operator, now);
    if r.Ok? { FrozenAudits(s.rec[id], r.value); }
  }

  lemma SerialsAudited(r: Record)
    ensures forall s :: Audits(r, s) ==> s in Serials(r)
  {
    forall s | Audits(r, s) ensures s in Serials(r) {
      var i :| 0 <= i < |r.enrollments| && r.enrollments[i].serial == s;
      assert Serials(r)[i] == s;
    }
  }

  lemma StartRevokeKeeps(w: World, e: Event)
    requires Inv(w) && e.StartRevoke? && Enabled(w, e)
    ensures Inv(Do(w, e))
  {
    hide RenewedSubject, RevokeStep, TokenId, ValidAgentId, Serials, CertOk, CertifiesScope, RecordGrows;
    var v := Do(w, e);
    RevokeGrows(w.store, e.id, e.operator, e.now);
    var r := RevokeStep(w.store, e.id, e.operator, e.now).1;
    if r.Ok? { SerialsAudited(r.value); }
    Survives(w, v);
  }

  lemma RevokesKeep(w: World, e: Event)
    requires Inv(w) && (e.RevokeOne? || e.FinishRevoke?) && Enabled(w, e)
    ensures Inv(Do(w, e))
  {
    hide RenewedSubject, TokenId, ValidAgentId, CertOk, StoreOk, CertifiesScope;
    var v := Do(w, e);
    SameStoreGrows(w.store);
    assert OpOk(w, w.ops[e.op]);
    Survives(w, v);
  }

  lemma StepKeeps(w: World, e: Event)
    requires Inv(w) && Enabled(w, e)
    ensures Inv(Do(w, e))
  {
    hide Do, Inv;
    match e
    case Mint(_, _, _) => MintKeeps(w, e);
    case StartEnroll(_, _, _) => StartsKeep(w, e);
    case SignEnroll(_, _) => SignsKeep(w, e);
    case CommitEnroll(_, _) => CommitEnrollKeeps(w, e);
    case StartRenew(_, _, _, _) => StartsKeep(w, e);
    case SignRenew(_, _) => SignsKeep(w, e);
    case CommitRenew(_, _) => CommitRenewKeeps(w, e);
    case StartRevoke(_, _, _, _) => StartRevokeKeeps(w, e);
    case RevokeOne(_) => RevokesKeep(w, e);
    case FinishRevoke(_) => RevokesKeep(w, e);
    case Abandon(_) => StartsKeep(w, e);
  }

  ghost predicate IsRun(ws: seq<World>, es: seq<Event>) {
    && |ws| == |es| + 1 && Init(ws[0])
    && forall i {:trigger es[i]} :: 0 <= i < |es| ==> Enabled(ws[i], es[i]) && ws[i + 1] == Do(ws[i], es[i])
  }

  lemma {:induction false} RunsKeepInvariant(ws: seq<World>, es: seq<Event>, n: nat)
    requires IsRun(ws, es) && n < |ws|
    ensures Inv(ws[n])
    decreases n
  {
    hide Do;
    if n > 0 {
      RunsKeepInvariant(ws, es, n - 1);
      StepKeeps(ws[n - 1], es[n - 1]);
    }
  }

  /** Once revokeToken has returned for a token, every certificate ever handed out under it, then,
      before or later, through any chain of renewals and any interleaving, is on the CA's list. */
  lemma RevokedTokenKillsEveryCertificate(ws: seq<World>, es: seq<Event>, n: nat, serial: nat)
    requires IsRun(ws, es) && n < |ws| && serial in ws[n].released
    ensures serial in ws[n].certs
    ensures ws[n].certs[serial].token in ws[n].finished ==> serial in ws[n].revoked
  {
    RunsKeepInvariant(ws, es, n);
  }

  /** The agent of a handed-out certificate stays bound to the token it enrolled with, and through any
      chain of renewals the certificate keeps that token's tenant and policy when they render plainly. */
  lemma CertificatesStayWithTheirToken(ws: seq<World>, es: seq<Event>, n: nat, serial: nat)
    requires IsRun(ws, es) && n < |ws| && serial in ws[n].released
    ensures serial in ws[n].certs
    ensures var c, s := ws[n].certs[serial], ws[n].store;
      && c.subject.cn in s.agents && s.agents[c.subject.cn] == c.token && c.token in s.rec
      && (PlainValue(s.rec[c.token].scope.tenant) && PlainValue(s.rec[c.token].scope.policy) ==>
            c.subject.o == s.rec[c.token].scope.tenant && c.subject.ou == s.rec[c.token].scope.policy)
  {
    RunsKeepInvariant(ws, es, n);
  }

  // ---- conservation over runs ----

  lemma StepConserves(w: World, e: Event)
    requires Inv(w) && Conserved(w.store) && Enabled(w, e)
    ensures Conserved(Do(w, e).store)
  {
    hide Conserved, MintStep, ConsumeStep, AppendStep, RevokeStep, EnrollGate, RenewGate, RenewedSubject, TokenId;
    match e
    case Mint(mreq, rnd, now) => MintConserves(w.store, mreq, rnd, now);
    case CommitEnroll(op, now) =>
      var o := w.ops[op];
      assert OpOk(w, o);
      ConsumeConserves(w.store, o.req.token, EnrollmentOf(o.req, o.serial), now);
    case CommitRenew(op, now) => AppendAndRevokeConserve(w.store, w.ops[op].subject.cn, RenewalOf(w.ops[op].serial), "", "", now);
    case StartRevoke(op, id, operator, now) => AppendAndRevokeConserve(w.store, "", RenewalOf(0), id, operator, now);
    case _ =>
  }

  /** In every interleaving a token's use count is the number of agents bound to it and stays within
      its cap; an agent, once bound, keeps its token. */
  lemma {:induction false} UsesAreConserved(ws: seq<World>, es: seq<Event>, n: nat)
    requires IsRun(ws, es) && n < |ws|
    ensures forall id :: id in ws[n].store.rec ==>
      ws[n].store.rec[id].usedCount == |Bound(ws[n].store.agents, id)| <= ws[n].store.rec[id].maxUses
    ensures Conserved(ws[n].store)
    decreases n
  {
    hide Do, Bound;
    if n > 0 {
      UsesAreConserved(ws, es, n - 1);
      RunsKeepInvariant(ws, es, n - 1);
      StepConserves(ws[n - 1], es[n - 1]);
    }
  }

  lemma StepGrows(w: World, e: Event)
    requires Inv(w) && Enabled(w, e)
    ensures StoreGrows(w.store, Do(w, e).store)
  {
    hide ConsumeStep, AppendStep, RevokeStep, EnrollGate, RenewGate, RenewedSubject, TokenId, StoreGrows;
    SameStoreGrows(w.store);
    match e
    case Mint(mreq, rnd, now) => MintGrows(w.store, mreq, rnd, now);
    case CommitEnroll(op, now) =>
      var o := w.ops[op];
      assert OpOk(w, o);
      ConsumeGrows(w.store, o.req.token, EnrollmentOf(o.req, o.serial), now);
    case CommitRenew(op, now) => AppendGrows(w.store, w.ops[op].subject.cn, RenewalOf(w.ops[op].serial), now);
    case StartRevoke(op, id, operator, now) => RevokeGrows(w.store, id, operator, now);
    case _ =>
  }

  lemma MintGrows(s: Store, req: MintRequest, rnd: Option<(string, string)>, now: nat)
    requires rnd.Some? ==> rnd.value.0 !in s.rec
    ensures StoreGrows(s, MintStep(s, req, rnd, now).0)
  {
  }

  lemma GrowsOn(a: Store, b: Store, c: Store)
    requires StoreGrows(a, b) && StoreGrows(b, c)
    ensures StoreGrows(a, c)
  {
    hide Audits;
    forall id | id in a.rec ensures id in c.rec && RecordGrows(a.rec[id], c.rec[id]) {
      assert RecordGrows(a.rec[id], b.rec[id]) && RecordGrows(b.rec[id], c.rec[id]);
    }
  }

  /** An agent's token never changes, and what a record audits is never lost. */
  lemma {:induction false} AgentsKeepTheirToken(ws: seq<World>, es: seq<Event>, m: nat, n: nat)
    requires IsRun(ws, es) && m <= n < |ws|
    ensures StoreGrows(ws[m].store, ws[n].store)
    decreases n - m
  {
    hide Do, Inv, RecordGrows, StoreGrows;
    if m == n {
      SameStoreGrows(ws[m].store);
    } else {
      AgentsKeepTheirToken(ws, es, m, n - 1);
      RunsKeepInvariant(ws, es, n - 1);
      StepGrows(ws[n - 1], es[n - 1]);
      GrowsOn(ws[m].store, ws[n - 1].store, ws[n].store);
    }
  }

  // ---- a request nobody comes between ----

  lemma Closed(ops: map<nat, Op>, op: nat)
    requires op !in ops
    ensures forall a: Op, b: Op {:trigger ops[op := a][op := b]} :: ops[op := a][op := b] - {op} == ops
  {
  }

  /** An enrollment whose steps follow one another leaves and hands out what Service.Enroll does. */
  lemma EnrollIsARun(w: World, op: nat, req: EnrollRequest, serial: nat, now: nat)
    requires op !in w.ops && serial !in w.certs
    ensures Enabled(w, StartEnroll(op, req, now))
    ensures var g, w1 := EnrollGate(w.store, req, now), Do(w, StartEnroll(op, req, now));
      && (g.Err? ==> w1 == w)
      && (g.Ok? ==>
            && Enabled(w1, SignEnroll(op, serial))
            && var w2 := Do(w1, SignEnroll(op, serial));
               && Enabled(w2, CommitEnroll(op, now))
               && var (t, c) := ConsumeStep(w.store, req.token, EnrollmentOf(req, serial), now);
                  Do(w2, CommitEnroll(op, now)) == World(
                    t, w.revoked, w.certs[serial := Cert(g.value, TokenId(req.token))], w.ops,
                    if c.Ok? then w.released + {serial} else w.released, w.finished))
  {
    hide EnrollGate, ConsumeStep, TokenId;
    Closed(w.ops, op);
  }

  /** And a renewal leaves and hands out what Service.Renew does; the new certificate keeps the token of the old. */
  lemma RenewIsARun(w: World, op: nat, presented: nat, csr: Option<Csr>, agentId: string, serial: nat, now: nat)
    requires op !in w.ops && serial !in w.certs && presented in w.released && presented in w.certs
    ensures Enabled(w, StartRenew(op, presented, csr, agentId))
    ensures var g := RenewGate(true, w.certs[presented].subject, presented in w.revoked, csr, agentId);
      var w1 := Do(w, StartRenew(op, presented, csr, agentId));
      && (g.Err? ==> w1 == w)
      && (g.Ok? ==>
            && Enabled(w1, SignRenew(op, serial))
            && var w2 := Do(w1, SignRenew(op, serial));
               && Enabled(w2, CommitRenew(op, now))
               && var (t, c) := AppendStep(w.store, g.value.cn, RenewalOf(serial), now);
                  Do(w2, CommitRenew(op, now)) == World(
                    t, w.revoked, w.certs[serial := Cert(g.value, w.certs[presented].token)], w.ops,
                    if c.Ok? then w.released + {serial} else w.released, w.finished))
  {
    hide RenewGate, AppendStep;
    Closed(w.ops, op);
  }

  /** Serial by serial, until none is left. */
  function Drained(w: World, op: nat): World
    requires op in w.ops && w.ops[op].Revoking?
    decreases |w.ops[op].todo|
  {
    if w.ops[op].todo == [] then w else Drained(Do(w, RevokeOne(op)), op)
  }

  lemma {:induction false} DrainedRevokes(w: World, op: nat)
    requires op in w.ops && w.ops[op].Revoking?
    ensures Drained(w, op) == w.(revoked := w.revoked + w.ops[op].todo, ops := w.ops[op := Revoking(w.ops[op].id, [])])
    decreases |w.ops[op].todo|
  {
    var o := w.ops[op];
    if o.todo == [] {
      assert w.revoked + o.todo == w.revoked && w.ops[op := o] == w.ops;
    } else {
      DrainedRevokes(Do(w, RevokeOne(op)), op);
      assert w.revoked + [o.todo[0]] + o.todo[1..] == w.revoked + o.todo;
    }
  }

  /** A revocation takes as many steps as the record names serials, and leaves what Service.RevokeToken does. */
  lemma RevokeIsARun(w: World, op: nat, id: string, operator: string, now: nat)
    requires op !in w.ops
    ensures Enabled(w, StartRevoke(op, id, operator, now))
    ensures var (t, r) := RevokeStep(w.store, id, operator, now);
      var w1 := Do(w, StartRevoke(op, id, operator, now));
      && (r.Err? ==> w1 == w)
      && (r.Ok? ==>
            && op in w1.ops && w1.ops[op].Revoking?
            && var w2 := Drained(w1, op);
               && Enabled(w2, FinishRevoke(op))
               && Do(w2, FinishRevoke(op)) == World(t, w.revoked + Serials(r.value), w.certs, w.ops, w.released, w.finished + {id}))
  {
    hide RevokeStep, Drained, Serials;
    var w1 := Do(w, StartRevoke(op, id, operator, now));
    if RevokeStep(w.store, id, operator, now).1.Ok? { DrainedRevokes(w1, op); }
    Closed(w.ops, op);
  }
}
