/** Bootstrap tokens: control-plane/tokens/tokens.go over the in-memory store of store.go.

    The clock and the random id and secret are parameters; the secret hash is a free symbol. */
module Tokens {
  import opened Prelude

  const MAX_DEPLOYMENT_USES: nat := 100_000

  datatype Error =
    | Malformed | NotFound | Expired | AlreadyRevoked | Exhausted | ScopeMismatch
    | AgentAlreadyExists | AgentUnknown | BadRequest

  datatype Reply<+T> = Ok(value: T) | Err(error: Error)

  datatype Kind = SingleHost | Deployment | UnknownKind

  datatype Scope = Scope(tenant: string, policy: string, os: string, arch: string)

  /** One audited certificate: the agent it names and its serial. */
  datatype Enrollment = Enrollment(at: nat, agentId: string, os: string, arch: string, serial: nat)

  datatype Record = Record(
    id: string, secretHash: string, kind: Kind, scope: Scope, maxUses: nat, usedCount: nat,
    expiresAt: nat, revoked: bool, revokedBy: string, revokedAt: nat, enrollments: seq<Enrollment>)

  /** MemStore: records by id, and the token that enrolled each agent. */
  datatype Store = Store(rec: map<string, Record>, agents: map<string, string>)

  datatype MintRequest = MintRequest(kind: Kind, scope: Scope, ttl: int, maxUses: int)

  /** What the operator gets: the token's text is shown this once. */
  datatype Minted = Minted(id: string, token: string, record: Record)

  function SecretHash(secret: string): string {
    "hash(" + secret + ")"
  }

  /** parseToken: an optional "st_", then id and secret around the first dot. */
  function ParseToken(token: string): Option<(string, string)> {
    var t := if |token| >= 3 && token[..3] == "st_" then token[3..] else token;
    var i := IndexOf(t, '.');
    if i <= 0 || i + 1 == |t| then None else Some((t[..i], t[i + 1..]))
  }

  predicate Permits(s: Scope, p: Scope) {
    (s.os != "" ==> p.os == s.os) && (s.arch != "" ==> p.arch == s.arch)
  }

  function Remaining(r: Record): nat {
    if r.maxUses > r.usedCount then r.maxUses - r.usedCount else 0
  }

  // ---- the operations ----

  function MintStep(s: Store, req: MintRequest, rnd: Option<(string, string)>, now: nat): (Store, Reply<Minted>) {
    if req.kind == UnknownKind then (s, Err(Malformed))
    else if req.scope.tenant == "" || req.ttl <= 0 then (s, Err(BadRequest))
    else if req.kind == Deployment && (req.maxUses < 1 || req.maxUses > MAX_DEPLOYMENT_USES) then (s, Err(BadRequest))
    else if rnd == None then (s, Err(BadRequest))
    else
      var uses := if req.kind == Deployment then req.maxUses else 1;
      var r := Record(rnd.value.0, SecretHash(rnd.value.1), req.kind, req.scope, uses, 0, now + req.ttl, false, "", 0, []);
      (s.(rec := s.rec[r.id := r]), Ok(Minted(r.id, "st_" + rnd.value.0 + "." + rnd.value.1, r)))
  }

  function Check(s: Store, token: string, presented: Scope, now: nat): Reply<Record> {
    match ParseToken(token)
    case None => Err(Malformed)
    case Some((id, secret)) =>
      if id !in s.rec || s.rec[id].secretHash != SecretHash(secret) then Err(NotFound)
      else if s.rec[id].revoked then Err(AlreadyRevoked)
      else if now > s.rec[id].expiresAt then Err(Expired)
      else if s.rec[id].usedCount >= s.rec[id].maxUses then Err(Exhausted)
      else if !Permits(s.rec[id].scope, presented) then Err(ScopeMismatch)
      else Ok(s.rec[id])
  }

  function Audited(r: Record, e: Enrollment, now: nat): Record {
    r.(enrollments := r.enrollments + [if e.at == 0 then e.(at := now) else e])
  }

  function ConsumeStep(s: Store, token: string, e: Enrollment, now: nat): (Store, Reply<Record>) {
    var c := Check(s, token, Scope("", "", e.os, e.arch), now);
    if c.Err? then (s, c)
    else if e.agentId != "" && e.agentId in s.agents then (s, Err(AgentAlreadyExists))
    else
      var r := Audited(c.value.(usedCount := c.value.usedCount + 1), e, now);
      if r.id !in s.rec then (s, Err(NotFound))
      else (Store(s.rec[r.id := r], if e.agentId != "" then s.agents[e.agentId := r.id] else s.agents), Ok(r))
  }

  function AppendStep(s: Store, agentId: string, e: Enrollment, now: nat): (Store, Reply<()>) {
    if agentId == "" then (s, Err(BadRequest))
    else if agentId !in s.agents || s.agents[agentId] !in s.rec then (s, Err(AgentUnknown))
    else
      var r := s.rec[s.agents[agentId]];
      if r.revoked then (s, Err(AlreadyRevoked))
      else if r.id !in s.rec then (s, Err(NotFound))
      else (s.(rec := s.rec[r.id := Audited(r, e.(agentId := agentId), now)]), Ok(()))
  }

  function RevokeStep(s: Store, id: string, operator: string, now: nat): (Store, Reply<Record>) {
    if id !in s.rec then (s, Err(NotFound))
    else if s.rec[id].revoked then (s, Err(AlreadyRevoked))
    else
      var r := s.rec[id].(revoked := true, revokedBy := operator, revokedAt := now);
      if r.id !in s.rec then (s, Err(NotFound)) else (s.(rec := s.rec[r.id := r]), Ok(r))
  }

  // ---- the classes ----

  class MemStore {
    var rec: map<string, Record>
    var agents: map<string, string>

    ghost function State(): Store
      reads this
    {
      Store(rec, agents)
    }

    constructor ()
      ensures State() == Store(map[], map[])
    {
      rec, agents := map[], map[];
    }

    method Put(r: Record)
      modifies this`rec
      ensures rec == old(rec)[r.id := r]
    {
      rec := rec[r.id := r];
    }

    method Get(id: string) returns (r: Option<Record>)
      ensures r == if id in rec then Some(rec[id]) else None
    {
      r := if id in rec then Some(rec[id]) else None;
    }

    /** Replaces a known record; an unknown one is an error and changes nothing. */
    method Update(r: Record) returns (ok: bool)
      modifies this`rec
      ensures ok == (r.id in old(rec)) && rec == if ok then old(rec)[r.id := r] else old(rec)
    {
      ok := r.id in rec;
      if ok { rec := rec[r.id := r]; }
    }

    method RegisterAgentID(agentId: string, tokenId: string)
      modifies this`agents
      ensures agents == old(agents)[agentId := tokenId]
    {
      agents := agents[agentId := tokenId];
    }
  }

  /** Every method runs under the manager's lock: one step of the store. */
  class Manager {
    const store: MemStore

    constructor (store: MemStore)
      ensures this.store == store
    {
      this.store := store;
    }

    method Mint(req: MintRequest, rnd: Option<(string, string)>, now: nat) returns (r: Reply<Minted>)
      modifies store
      ensures (store.State(), r) == MintStep(old(store.State()), req, rnd, now)
    {
      if req.kind == UnknownKind { return Err(Malformed); }
      if req.scope.tenant == "" { return Err(BadRequest); }
      if req.ttl <= 0 { return Err(BadRequest); }
      var maxUses := 1;
      if req.kind == Deployment {
        if req.maxUses < 1 || req.maxUses > MAX_DEPLOYMENT_USES { return Err(BadRequest); }
        maxUses := req.maxUses;
      }
      if rnd == None { return Err(BadRequest); }
      var rec := Record(rnd.value.0, SecretHash(rnd.value.1), req.kind, req.scope, maxUses, 0, now + req.ttl, false, "", 0, []);
      store.Put(rec);
      r := Ok(Minted(rec.id, "st_" + rnd.value.0 + "." + rnd.value.1, rec));
    }

    method Validate(token: string, presented: Scope, now: nat) returns (r: Reply<Record>)
      ensures r == Check(store.State(), token, presented, now)
    {
      var parsed := ParseToken(token);
      if parsed == None { return Err(Malformed); }
      var (id, secret) := parsed.value;
      var got := store.Get(id);
      if got == None { return Err(NotFound); }
      var rec := got.value;
      if rec.secretHash != SecretHash(secret) { return Err(NotFound); }
      if rec.revoked { return Err(AlreadyRevoked); }
      if now > rec.expiresAt { return Err(Expired); }
      if rec.usedCount >= rec.maxUses { return Err(Exhausted); }
      if !Permits(rec.scope, presented) { return Err(ScopeMismatch); }
      r := Ok(rec);
    }

    method Consume(token: string, e: Enrollment, now: nat) returns (r: Reply<Record>)
      modifies store
      ensures (store.State(), r) == ConsumeStep(old(store.State()), token, e, now)
    {
      r := Validate(token, Scope("", "", e.os, e.arch), now);
      if r.Err? { return; }
      if e.agentId != "" && e.agentId in store.agents { return Err(AgentAlreadyExists); }
      var enr := if e.at == 0 then e.(at := now) else e;
      var rec := r.value.(usedCount := r.value.usedCount + 1, enrollments := r.value.enrollments + [enr]);
      var ok := store.Update(rec);
      if !ok { return Err(NotFound); }
      if enr.agentId != "" { store.RegisterAgentID(enr.agentId, rec.id); }
      r := Ok(rec);
    }

    method AppendEnrollment(agentId: string, e: Enrollment, now: nat) returns (r: Reply<()>)
      modifies store
      ensures (store.State(), r) == AppendStep(old(store.State()), agentId, e, now)
    {
      if agentId == "" { return Err(BadRequest); }
      if agentId !in store.agents { return Err(AgentUnknown); }
      var got := store.Get(store.agents[agentId]);
      if got == None { return Err(AgentUnknown); }
      var rec := got.value;
      if rec.revoked { return Err(AlreadyRevoked); }
      var enr := (if e.at == 0 then e.(at := now) else e).(agentId := agentId);
      var ok := store.Update(rec.(enrollments := rec.enrollments + [enr]));
      r := if ok then Ok(()) else Err(NotFound);
    }

    method RevokeRecord(id: string, operator: string, now: nat) returns (r: Reply<Record>)
      modifies store
      ensures (store.State(), r) == RevokeStep(old(store.State()), id, operator, now)
    {
      var got := store.Get(id);
      if got == None { return Err(NotFound); }
      if got.value.revoked { return Err(AlreadyRevoked); }
      var rec := got.value.(revoked := true, revokedBy := operator, revokedAt := now);
      var ok := store.Update(rec);
      r := if ok then Ok(rec) else Err(NotFound);
    }
  }

  // ---- conservation ----

  /** The agents bound to a token. */
  ghost function Bound(agents: map<string, string>, id: string): set<string> {
    set a | a in agents && agents[a] == id
  }

  /** Uses and agents agree, and no token is used beyond its cap. */
  ghost predicate Conserved(s: Store) {
    && (forall id :: id in s.rec ==> s.rec[id].id == id && s.rec[id].usedCount <= s.rec[id].maxUses)
    && (forall id :: id in s.rec ==> s.rec[id].usedCount == |Bound(s.agents, id)|)
    && (forall a :: a in s.agents ==> s.agents[a] in s.rec)
  }

  /** A fresh token id is bound to no agent. */
  lemma MintConserves(s: Store, req: MintRequest, rnd: Option<(string, string)>, now: nat)
    requires Conserved(s) && (rnd.Some? ==> rnd.value.0 !in s.rec)
    ensures Conserved(MintStep(s, req, rnd, now).0)
  {
    var t := MintStep(s, req, rnd, now).0;
    forall id | id in t.rec ensures t.rec[id].usedCount == |Bound(t.agents, id)| {
      assert Bound(t.agents, id) == Bound(s.agents, id);
      if id !in s.rec { assert Bound(t.agents, id) == {}; }
    }
  }

  /** What a successful Consume passed, and what it changed. */
  lemma ConsumeShape(s: Store, token: string, e: Enrollment, now: nat)
    requires forall id :: id in s.rec ==> s.rec[id].id == id
    ensures var (t, r) := ConsumeStep(s, token, e, now);
      && (r.Err? ==> t == s)
      && (r.Ok? ==> var k := r.value.id;
                    && k in s.rec && !s.rec[k].revoked && s.rec[k].usedCount < s.rec[k].maxUses
                    && ParseToken(token).Some? && ParseToken(token).value.0 == k
                    && (e.agentId != "" ==> e.agentId !in s.agents)
                    && r.value == Audited(s.rec[k].(usedCount := s.rec[k].usedCount + 1), e, now)
                    && t == Store(s.rec[k := r.value], if e.agentId != "" then s.agents[e.agentId := k] else s.agents))
  {
    hide ParseToken, SecretHash, Permits;
  }

  lemma NewAgentBinds(agents: map<string, string>, agent: string, k: string, id: string)
    requires agent !in agents
    ensures |Bound(agents[agent := k], id)| == |Bound(agents, id)| + (if id == k then 1 else 0)
  {
    var more := agents[agent := k];
    if id == k {
      assert Bound(more, id) == Bound(agents, id) + {agent};
    } else {
      assert Bound(more, id) == Bound(agents, id);
    }
  }

  lemma NamedConserves(s: Store, t: Store, k: string, agent: string, r: Record)
    requires Conserved(s) && k in s.rec && agent !in s.agents && r.id == k
    requires r.usedCount == s.rec[k].usedCount + 1 <= r.maxUses
    requires t == Store(s.rec[k := r], s.agents[agent := k])
    ensures Conserved(t)
  {
    hide Bound;
    forall id | id in t.rec ensures t.rec[id].usedCount == |Bound(t.agents, id)| {
      NewAgentBinds(s.agents, agent, k, id);
    }
  }

  /** A token that is well formed, known with its secret, neither revoked nor expired nor used up, and minted
      for this host. */
  predicate Usable(s: Store, token: string, e: Enrollment, now: nat) {
    var p := ParseToken(token);
    && p.Some? && p.value.0 in s.rec
    && var r := s.rec[p.value.0];
      (&& r.secretHash == SecretHash(p.value.1) && !r.revoked && now <= r.expiresAt && r.usedCount < r.maxUses
       && Permits(r.scope, Scope("", "", e.os, e.arch)))
  }

  /** Consume succeeds exactly for a usable token and an agent that is not yet bound. */
  lemma ConsumeSucceedsIff(s: Store, token: string, e: Enrollment, now: nat)
    requires forall id :: id in s.rec ==> s.rec[id].id == id
    ensures ConsumeStep(s, token, e, now).1.Ok? <==> Usable(s, token, e, now) && (e.agentId == "" || e.agentId !in s.agents)
  {
    hide ParseToken, SecretHash, Permits;
  }

  /** A successful Consume binds exactly one more agent to its token when the enrollment names an agent, as
      every Enroll does; uses and agents part exactly when a usable token is spent on no agent. */
  lemma ConsumeConserves(s: Store, token: string, e: Enrollment, now: nat)
    requires Conserved(s)
    ensures Conserved(ConsumeStep(s, token, e, now).0) <==> e.agentId != "" || !Usable(s, token, e, now)
  {
    hide ConsumeStep, Usable;
    ConsumeShape(s, token, e, now);
    ConsumeSucceedsIff(s, token, e, now);
    var (t, r) := ConsumeStep(s, token, e, now);
    if r.Ok? {
      var k := r.value.id;
      if e.agentId != "" {
        NamedConserves(s, t, k, e.agentId, r.value);
      } else {
        assert Bound(t.agents, k) == Bound(s.agents, k) && t.rec[k].usedCount == |Bound(s.agents, k)| + 1;
      }
    }
  }

  lemma AppendAndRevokeConserve(s: Store, agentId: string, e: Enrollment, id: string, operator: string, now: nat)
    requires Conserved(s)
    ensures Conserved(AppendStep(s, agentId, e, now).0) && Conserved(RevokeStep(s, id, operator, now).0)
  {
    hide Bound;
  }

  // ---- the text of a token ----

  lemma HashInjective(a: string, b: string)
    requires SecretHash(a) == SecretHash(b)
    ensures a == b
  {
    assert a == SecretHash(a)[5..|SecretHash(a)| - 1] && b == SecretHash(b)[5..|SecretHash(b)| - 1];
  }

  /** An id without dots and a secret around the first dot. */
  ghost predicate Halves(body: string, id: string, secret: string) {
    body == id + "." + secret && id != "" && secret != "" && '.' !in id
  }

  lemma HalvesAtDot(body: string, id: string, secret: string)
    requires '.' !in id && body == id + "." + secret
    ensures IndexOf(body, '.') == |id| && body[..|id|] == id && body[|id| + 1..] == secret
  {
    var i := IndexOf(body, '.');
    assert body[|id|] == '.' && body[..|id|] == id && body[|id| + 1..] == secret;
    assert forall k :: 0 <= k < i ==> body[..i][k] == body[k];
    assert forall k :: 0 <= k < |id| ==> body[k] == id[k] && id[k] in id;
  }

  /** The text after the prefix, if it is there, is read as its halves, and as nothing exactly when it has none. */
  lemma TokenTexts(token: string, body: string)
    requires token == "st_" + body || (token == body && !("st_" <= token))
    ensures ParseToken(token) == None <==> forall id, secret :: !Halves(body, id, secret)
    ensures forall id, secret :: Halves(body, id, secret) ==> ParseToken(token) == Some((id, secret))
  {
    if token == "st_" + body { assert token[..3] == "st_" && token[3..] == body; }
    var i := IndexOf(body, '.');
    if i > 0 && i + 1 < |body| { assert Halves(body, body[..i], body[i + 1..]); }
    forall id, secret | Halves(body, id, secret) ensures ParseToken(token) == Some((id, secret)) { HalvesAtDot(body, id, secret); }
  }

  /** MALFORMED is the answer exactly for a text that, less its prefix, has no dot or an empty half. */
  lemma MalformedIff(s: Store, token: string, body: string, presented: Scope, now: nat)
    requires token == "st_" + body || (token == body && !("st_" <= token))
    ensures Check(s, token, presented, now) == Err(Malformed) <==> forall id, secret :: !Halves(body, id, secret)
  {
    hide ParseToken, SecretHash, Permits;
    TokenTexts(token, body);
  }

  /** What a token's text is answered with: unknown ids and wrong secrets alike, then revoked, expired, used up
      and minted for another host, in this order; otherwise its record. */
  lemma CheckAnswers(s: Store, token: string, body: string, id: string, secret: string, minted: string, presented: Scope, now: nat)
    requires token == "st_" + body || (token == body && !("st_" <= token))
    requires Halves(body, id, secret) && (id in s.rec ==> s.rec[id].secretHash == SecretHash(minted))
    ensures var c := Check(s, token, presented, now);
      if id !in s.rec || secret != minted then c == Err(NotFound)
      else
        var r := s.rec[id];
        if r.revoked then c == Err(AlreadyRevoked)
        else if r.expiresAt < now then c == Err(Expired)
        else if r.maxUses <= r.usedCount then c == Err(Exhausted)
        else if (r.scope.os in {"", presented.os}) && (r.scope.arch in {"", presented.arch}) then c == Ok(r)
        else c == Err(ScopeMismatch)
  {
    hide ParseToken, SecretHash;
    TokenTexts(token, body);
    if id in s.rec && SecretHash(secret) == SecretHash(minted) { HashInjective(secret, minted); }
  }

  /** A token is minted exactly for a known kind, a tenant, a positive lifetime and, for a deployment, one to a
      hundred thousand uses. Its record is filed under its id, unused and live; a single host's has one use. */
  lemma MintAnswers(s: Store, req: MintRequest, rnd: Option<(string, string)>, now: nat)
    ensures var (t, r) := MintStep(s, req, rnd, now);
      && (r.Ok? <==> !req.kind.UnknownKind? && req.scope.tenant != "" && req.ttl > 0 && rnd.Some? && (req.kind.Deployment? ==> 1 <= req.maxUses <= 100_000))
      && (r.Err? ==> t == s) && (r == Err(Malformed) <==> req.kind.UnknownKind?)
      && (r.Ok? ==>
            var k := r.value.record;
            && r.value.id == k.id == rnd.value.0 && t.rec == s.rec[k.id := k] && t.agents == s.agents
            && k.kind == req.kind && k.scope == req.scope && k.secretHash == SecretHash(rnd.value.1)
            && k.usedCount == 0 && !k.revoked && k.enrollments == [] && k.expiresAt == now + req.ttl
            && (k.kind.SingleHost? ==> k.maxUses == 1) && (k.kind.Deployment? ==> k.maxUses == req.maxUses))
  {
    hide SecretHash;
  }

  /** The round trip: the text just minted is accepted from then on until it expires, from every host it was
      minted for and from no other; with any other secret it is not known. */
  lemma MintedTokenWorks(s: Store, req: MintRequest, id: string, secret: string, now: nat, presented: Scope, later: nat, other: string)
    requires MintStep(s, req, Some((id, secret)), now).1.Ok? && id != "" && '.' !in id && secret != ""
    requires other != "" && other != secret
    ensures var (t, m) := MintStep(s, req, Some((id, secret)), now);
      && (Check(t, m.value.token, presented, later).Ok? <==>
            later <= now + req.ttl && (req.scope.os in {"", presented.os}) && (req.scope.arch in {"", presented.arch}))
      && (Check(t, m.value.token, presented, later).Ok? ==> Check(t, m.value.token, presented, later) == Ok(m.value.record))
      && Check(t, "st_" + id + "." + other, presented, later) == Err(NotFound)
  {
    hide MintStep, Check, SecretHash;
    MintAnswers(s, req, Some((id, secret)), now);
    MintedText(s, req, id, secret, now);
    var t := MintStep(s, req, Some((id, secret)), now).0;
    var body, wrong := id + "." + secret, id + "." + other;
    assert "st_" + id + "." + secret == "st_" + body && "st_" + id + "." + other == "st_" + wrong;
    CheckAnswers(t, "st_" + body, body, id, secret, secret, presented, later);
    CheckAnswers(t, "st_" + wrong, wrong, id, other, secret, presented, later);
  }

  lemma MintedText(s: Store, req: MintRequest, id: string, secret: string, now: nat)
    requires MintStep(s, req, Some((id, secret)), now).1.Ok?
    ensures MintStep(s, req, Some((id, secret)), now).1.value.token == "st_" + id + "." + secret
  {
  }

  /** A renewal is audited exactly for an agent whose token is known and not revoked, under the agent's own name
      and dated now unless it is dated; it uses nothing up. */
  lemma AppendAnswers(s: Store, agentId: string, e: Enrollment, now: nat)
    requires forall id :: id in s.rec ==> s.rec[id].id == id
    ensures var (t, r) := AppendStep(s, agentId, e, now);
      var known := agentId in s.agents && s.agents[agentId] in s.rec;
      && (r.Ok? <==> agentId != "" && known && !s.rec[s.agents[agentId]].revoked)
      && (r == Err(AgentUnknown) <==> agentId != "" && !known)
      && (r == Err(AlreadyRevoked) <==> agentId != "" && known && s.rec[s.agents[agentId]].revoked)
      && (r.Err? ==> t == s)
      && (r.Ok? ==>
            var k, id := s.rec[s.agents[agentId]], s.agents[agentId];
            t == s.(rec := s.rec[id := k.(enrollments := k.enrollments + [Enrollment(if e.at > 0 then e.at else now, agentId, e.os, e.arch, e.serial)])]))
  {
  }

  /** A successful consume is one use more, one audit entry, dated now unless it is dated, and one agent bound. */
  lemma ConsumeLeaves(s: Store, token: string, e: Enrollment, now: nat)
    requires (forall id :: id in s.rec ==> s.rec[id].id == id) && ConsumeStep(s, token, e, now).1.Ok?
    ensures var (t, r) := ConsumeStep(s, token, e, now);
      var id := r.value.id;
      && id in s.rec && t.rec == s.rec[id := r.value]
      && r.value == s.rec[id].(usedCount := s.rec[id].usedCount + 1,
                               enrollments := s.rec[id].enrollments + [Enrollment(if e.at > 0 then e.at else now, e.agentId, e.os, e.arch, e.serial)])
      && t.agents == if e.agentId == "" then s.agents else s.agents[e.agentId := id]
  {
    hide ParseToken, SecretHash, Permits;
  }

  /** A token is revoked once, by name and date; its uses and its audit trail stay. */
  lemma RevokeAnswers(s: Store, id: string, operator: string, now: nat)
    requires forall x :: x in s.rec ==> s.rec[x].id == x
    ensures var (t, r) := RevokeStep(s, id, operator, now);
      && (r.Ok? <==> id in s.rec && !s.rec[id].revoked)
      && (r == Err(NotFound) <==> id !in s.rec) && (r == Err(AlreadyRevoked) <==> id in s.rec && s.rec[id].revoked)
      && (r.Err? ==> t == s)
      && (r.Ok? ==> r.value == s.rec[id].(revoked := true, revokedBy := operator, revokedAt := now) && t == s.(rec := s.rec[id := r.value]))
  {
  }
}
