/** What the operations of the remediation queue and of the agent answer and leave, in terms of the stored
    jobs, the journal and the clock alone; and the whole life of a job when nothing goes wrong. */
module RemediationLaws {
  import opened Prelude
  import opened Utf8
  import opened RemediationCanonical
  import opened RemediationServer
  import opened RemediationAgent

  // ---- the queue ----

  predicate Final(s: JobState) {
    s.Verified? || s.Failed? || s.Expired? || s.Rejected?
  }

  predicate Owns(agentId: string, tenant: string, j: Job) {
    j.agentId == agentId && j.tenant == tenant
  }

  /** The file after an operation that saves: the jobs as JSON writes them, or what it held. */
  predicate Wrote(s: Server, t: Server, writeOk: bool) {
    t.durable == s.durable && t.disk == if s.durable && writeOk then Filed(t.jobs) else s.disk
  }

  /** A job is created exactly for a complete request of a known type whose payload is JSON, if it can be saved.
      It awaits approval, unsigned, with the request's window and an expiry. The finished jobs that make room
      are those more than seven days old; every other job stays. */
  lemma EnqueueAnswers(s: Server, req: Request, compact: Option<string>, ids: Option<Ids>, now: Time, ttl: nat, w: bool)
    ensures var (t, r) := EnqueueStep(s, req, compact, ids, now, ttl, w);
      var complete := req.tenant != "" && req.agentId != "" && req.typ in {"package_patch", "config_hardening"} && compact.Some? && ids.Some?;
      && (r.Done? <==> complete && (s.durable ==> w)) && !r.NotFound?
      && (!complete ==> t == s)
      && (complete ==> t.disk == (if r.Done? && s.durable then Filed(t.jobs) else s.disk))
      && (r.Done? ==>
            var j := r.value;
            && j.jobId == ids.value.job && j.jobId in t.jobs && t.jobs[j.jobId] == j
            && j.correlationId == ids.value.correlation && j.nonce == ids.value.nonce && j.schemaVersion == "1.0.0"
            && j.tenant == req.tenant && j.agentId == req.agentId && j.typ == req.typ
            && j.payload == compact.value && j.payloadSha == Digest(compact.value)
            && j.state.PendingApproval? && j.signature.Unsigned? && j.approvedBy == "" && j.issuedAt == 0 && j.approvedAt == 0 && j.result == None
            && j.notBefore == req.notBefore && j.notAfter == req.notAfter && j.createdAt == now && j.deliveredAt == 0 && j.ackedAt == 0
            && j.expiresAt == now + if req.ttl > 0 then req.ttl else ttl)
      && (complete ==> forall id :: id != ids.value.job ==>
            && (id in t.jobs <==> id in s.jobs && !(Final(s.jobs[id].state) && s.jobs[id].createdAt + 7 * 24 * 3600 * SECOND < now))
            && (id in t.jobs ==> t.jobs[id] == s.jobs[id]))
      && (complete && r.Refused? ==> ids.value.job !in t.jobs)
  {
    hide Digest, Transcribed;
  }

  /** Only a pending job is approved, by a named operator, with a key at hand, if it can be saved; it is issued,
      approved and signed at that moment. Otherwise a pending job stays pending and unsigned. */
  lemma ApproveAnswers(s: Server, id: string, approver: string, now: Time, hasSigner: bool, w: bool)
    ensures var (t, r) := ApproveStep(s, id, approver, now, hasSigner, w);
      && (r.Done? <==> approver != "" && id in s.jobs && s.jobs[id].state.PendingApproval? && hasSigner && (s.durable ==> w))
      && (r.NotFound? <==> approver != "" && id !in s.jobs)
      && (r.Done? ==>
            var j := s.jobs[id].(state := Approved, issuedAt := now, approvedBy := approver, approvedAt := now);
            r.value == j.(signature := Signed(Message(JobFields(j)))) && t.jobs == s.jobs[id := r.value] && Wrote(s, t, w))
      && (!r.Done? ==>
            && t.jobs.Keys == s.jobs.Keys && t.disk == s.disk
            && (forall x :: x in s.jobs && (x != id || !s.jobs[x].state.PendingApproval?) ==> t.jobs[x] == s.jobs[x])
            && (id in s.jobs && t.jobs[id] != s.jobs[id] ==>
                  t.jobs[id] == s.jobs[id].(signature := Unsigned, approvedBy := "", issuedAt := 0, approvedAt := 0)))
  {
    hide Message, JobFields, Transcribed;
  }

  /** A rejection ends a job that has not ended, and leaves one that has. */
  lemma RejectAnswers(s: Server, id: string, approver: string, now: Time, w: bool)
    ensures var (t, r) := RejectStep(s, id, approver, now, w);
      && (r.NotFound? <==> id !in s.jobs)
      && (id !in s.jobs || Final(s.jobs[id].state) ==> t == s && !r.Refused?)
      && (id in s.jobs && !Final(s.jobs[id].state) ==>
            && t.jobs == s.jobs[id := s.jobs[id].(state := Rejected, approvedBy := approver, approvedAt := now)]
            && Wrote(s, t, w) && (r.Done? <==> s.durable ==> w))
  {
    hide Transcribed;
  }

  /** Past its expiry. */
  predicate Late(j: Job, now: Time) {
    j.expiresAt > 0 && j.expiresAt < now
  }

  /** What a poll may hand out: the agent's own approved job, or one delivered longer ago than the redelivery
      window, neither late nor outside its maintenance window. */
  predicate Waiting(j: Job, agentId: string, tenant: string, now: Time, redeliver: nat) {
    && Owns(agentId, tenant, j) && !Late(j, now) && j.notBefore <= now && (j.notAfter > 0 ==> now <= j.notAfter)
    && (j.state.Approved? || (j.state.Delivered? && j.deliveredAt + redeliver < now))
  }

  /** A poll picks an oldest waiting job, and none only if none is waiting. */
  lemma PollPicks(jobs: map<string, Job>, agentId: string, tenant: string, now: Time, redeliver: nat, pick: Option<string>)
    requires MayPick(jobs, agentId, tenant, now, redeliver, pick)
    ensures pick.Some? <==> exists id :: id in jobs && Waiting(jobs[id], agentId, tenant, now, redeliver)
    ensures pick.Some? ==> (
      && pick.value in jobs && Waiting(jobs[pick.value], agentId, tenant, now, redeliver)
      && forall id :: id in jobs && Waiting(jobs[id], agentId, tenant, now, redeliver) ==> jobs[pick.value].createdAt <= jobs[id].createdAt)
  {
    hide Waiting, Eligible;
    forall id | id in jobs
      ensures Eligible(jobs[id], agentId, tenant, now, redeliver) <==> Waiting(jobs[id], agentId, tenant, now, redeliver)
    {
      WaitingIsEligible(jobs[id], agentId, tenant, now, redeliver);
    }
  }

  lemma WaitingIsEligible(j: Job, agentId: string, tenant: string, now: Time, redeliver: nat)
    ensures Eligible(j, agentId, tenant, now, redeliver) <==> Waiting(j, agentId, tenant, now, redeliver)
  {
  }

  /** The job picked is handed out, delivered now, exactly if that can be saved. Handed out or not, the agent's
      own late jobs that had not ended expire, and no other job changes. */
  lemma PollLeaves(s: Server, agentId: string, tenant: string, now: Time, redeliver: nat, pick: Option<string>, w: bool)
    requires MayPick(s.jobs, agentId, tenant, now, redeliver, pick)
    ensures var (t, r) := PollStep(s, agentId, tenant, now, pick, w);
      && (r.Some? <==> pick.Some? && (s.durable ==> w)) && t.jobs.Keys == s.jobs.Keys
      && (r.Some? ==> r.value == s.jobs[pick.value].(state := Delivered, deliveredAt := now) && t.jobs[pick.value] == r.value)
      && (t.jobs != s.jobs && (r.Some? || pick == None) ==> Wrote(s, t, w))
      && (r == None && (pick.Some? || t.jobs == s.jobs) ==> t.disk == s.disk)
      && forall id :: id in s.jobs && !(r.Some? && id == pick.value) ==>
           t.jobs[id] == if Owns(agentId, tenant, s.jobs[id]) && Late(s.jobs[id], now) && !Final(s.jobs[id].state)
                         then s.jobs[id].(state := Expired) else s.jobs[id]
  {
    hide Filed, WindowOpen, Swept, Late, Final, Owns, Lapsed, Mine;
    forall id | id in s.jobs
      ensures SweptAll(s.jobs, agentId, tenant, now)[id] ==
        if Owns(agentId, tenant, s.jobs[id]) && Late(s.jobs[id], now) && !Final(s.jobs[id].state) then s.jobs[id].(state := Expired) else s.jobs[id]
    {
      SweptIs(s.jobs[id], agentId, tenant, now);
    }
    if pick.Some? { EligibleIsCurrent(s.jobs[pick.value], agentId, tenant, now, redeliver); }
  }

  lemma SweptIs(j: Job, agentId: string, tenant: string, now: Time)
    ensures Swept(j, agentId, tenant, now) == if Owns(agentId, tenant, j) && Late(j, now) && !Final(j.state) then j.(state := Expired) else j
  {
  }

  lemma EligibleIsCurrent(j: Job, agentId: string, tenant: string, now: Time, redeliver: nat)
    requires Eligible(j, agentId, tenant, now, redeliver)
    ensures !Late(j, now)
  {
  }

  /** An ack is believed from the job's own agent and tenant, and moves a delivered job on. */
  lemma AckAnswers(s: Server, id: string, agentId: string, tenant: string, now: Time, w: bool)
    ensures var (t, found) := AckStep(s, id, agentId, tenant, now, w);
      && (found <==> id in s.jobs && Owns(agentId, tenant, s.jobs[id]))
      && (found && s.jobs[id].state.Delivered? ==> t.jobs == s.jobs[id := s.jobs[id].(state := Acked, ackedAt := now)] && Wrote(s, t, w))
      && (!(found && s.jobs[id].state.Delivered?) ==> t == s)
  {
    hide Transcribed;
  }

  /** A report counts once the job was delivered, acked or not: it is stored, stamped with the server's clock,
      and leaves the job APPLIED exactly when its status is "applied", FAILED otherwise. An earlier report or
      the end of the job stands; before delivery, and from anyone else, a report is refused. */
  lemma ReportAnswers(s: Server, id: string, agentId: string, tenant: string, res: Option<Result>, now: Time, w: bool)
    ensures var (t, found) := ReportStep(s, id, agentId, tenant, res, now, w);
      var mine := id in s.jobs && Owns(agentId, tenant, s.jobs[id]);
      && (found <==> mine && !s.jobs[id].state.PendingApproval? && !s.jobs[id].state.Approved?)
      && (mine && (s.jobs[id].state.Delivered? || s.jobs[id].state.Acked?) ==>
            && t.jobs.Keys == s.jobs.Keys && (forall x :: x in s.jobs && x != id ==> t.jobs[x] == s.jobs[x]) && Wrote(s, t, w)
            && t.jobs[id] == s.jobs[id].(state := t.jobs[id].state, result := t.jobs[id].result) && t.jobs[id].result.Some?
            && (res.Some? ==> t.jobs[id].result.value == res.value.(reportedAt := now))
            && (res == None ==> t.jobs[id].result.value == Result("failed", EMPTY_REPORT, "", now))
            && (t.jobs[id].state.Applied? <==> res.Some? && res.value.status == "applied")
            && (t.jobs[id].state.Failed? <==> !(res.Some? && res.value.status == "applied")))
      && (!(mine && (s.jobs[id].state.Delivered? || s.jobs[id].state.Acked?)) ==> t == s)
  {
    hide Transcribed;
  }

  /** Only a re-scan of an applied job makes it verified. */
  lemma VerifyAnswers(s: Server, id: string, w: bool)
    ensures var (t, found) := VerifyStep(s, id, w);
      && (found <==> id in s.jobs)
      && (found && s.jobs[id].state.Applied? ==> t.jobs == s.jobs[id := s.jobs[id].(state := Verified)] && Wrote(s, t, w))
      && (!(found && s.jobs[id].state.Applied?) ==> t == s)
  {
    hide Transcribed;
  }

  /** Reaping removes the jobs that ended and were created longer ago than the retention, seven days unless set. */
  lemma ReapAnswers(s: Server, now: Time, retention: int, w: bool)
    ensures var t := ReapStep(s, now, retention, w);
      && (forall id :: id in t.jobs <==> (
            id in s.jobs && !(Final(s.jobs[id].state) && s.jobs[id].createdAt < now - if retention > 0 then retention else 7 * 24 * 3600 * SECOND)))
      && (forall id :: id in t.jobs ==> t.jobs[id] == s.jobs[id])
      && (t.jobs != s.jobs ==> Wrote(s, t, w)) && (t.jobs == s.jobs ==> t == s)
  {
    hide Transcribed;
  }

  /** A restart keeps every filed job but those past approval that carry no signature. */
  lemma ReloadAnswers(s: Server)
    ensures forall id :: id in Reload(s).jobs <==> (
      id in s.disk && var j := s.disk[id];
        (j.signature.Signed? || j.state.PendingApproval? || j.state.Failed? || j.state.Expired? || j.state.Rejected?))
    ensures forall id :: id in Reload(s).jobs ==> Reload(s).jobs[id] == s.disk[id]
    ensures Reload(s).disk == s.disk
  {
  }

  // ---- the agent ----

  /** The signature and the digest are those of the order itself. */
  predicate Authentic(o: Order) {
    o.signature == Signed(Message(OrderFields(o))) && o.payloadSha == Digest(o.payload)
  }

  /** Issued and not expired, give or take the skew. */
  predicate Current(o: Order, now: Time, skew: nat) {
    (o.issuedAt > 0 ==> o.issuedAt <= now + skew) && (o.expiresAt > 0 ==> now <= o.expiresAt + skew)
  }

  predicate InWindow(o: Order, now: Time) {
    o.notBefore <= now && (o.notAfter > 0 ==> now <= o.notAfter)
  }

  predicate Journaled(js: JournalState, id: string) {
    id in js.m && js.m[id].status == "applied"
  }

  /** A polled order reaches its handler exactly when it is authentic and current, not yet applied by the
      journal's account, inside its window, and of a type that has a handler. */
  lemma RunsExactlyWhen(js: JournalState, handlers: set<string>, response: Option<Order>, clock: Clock, skew: nat, h: HandlerOutcome, w: bool)
    ensures var (_, a, _) := RunOnceStep(js, handlers, response, clock, skew, h, w);
      a.ran <==> response.Some? && response.value.jobId != "" && Authentic(response.value) && Current(response.value, clock.poll, skew)
                 && !Journaled(js, response.value.jobId) && InWindow(response.value, clock.apply) && response.value.typ in handlers
  {
    hide Message, OrderFields, Digest;
  }

  /** What a turn leaves and sends. A run is journaled, on disk if the write succeeds, and acked and reported as
      "applied" or "failed" by whether the handler erred; a job applied before is reported as such again; an
      order past its window or without a handler is reported as failed; in every other case nothing is sent. */
  lemma TurnLeaves(js: JournalState, handlers: set<string>, response: Option<Order>, clock: Clock, skew: nat, h: HandlerOutcome, w: bool)
    ensures var (js1, a, sends) := RunOnceStep(js, handlers, response, clock, skew, h, w);
      var taken := response.Some? && response.value.jobId != "" && Authentic(response.value) && Current(response.value, clock.poll, skew);
      && (a.ran ==>
            var id, status := response.value.jobId, if h.err == None then "applied" else "failed";
            && js1.m == js.m[id := Entry(status, clock.apply)] && js1.disk == (if w then js1.m else js.disk)
            && sends.ack == Some(id) && sends.report.Some? && sends.report.value.0 == id && sends.report.value.1.status == status
            && var r := if h.res == None then Result("", "", "", 0) else h.res.value;
               sends.report.value.1 == Result(
                 status, if r.detail == "" && h.err.Some? then h.err.value else r.detail, r.evidence,
                 if r.reportedAt == 0 then clock.apply else r.reportedAt))
      && (!a.ran ==> js1 == js)
      && (taken && Journaled(js, response.value.jobId) ==>
            sends.ack == Some(response.value.jobId) && sends.report.Some? && sends.report.value.0 == response.value.jobId
            && sends.report.value.1 == Result("applied", ALREADY_APPLIED, "", clock.report))
      && (taken && !Journaled(js, response.value.jobId) && response.value.notBefore > clock.apply ==> sends == Sends(None, None))
      && (taken && !a.ran && !Journaled(js, response.value.jobId) && response.value.notBefore <= clock.apply ==>
            sends.ack == Some(response.value.jobId) && sends.report.Some? && sends.report.value.0 == response.value.jobId
            && sends.report.value.1 == Result("failed", if InWindow(response.value, clock.apply) then Unsupported(response.value.typ) else WINDOW_CLOSED, "", clock.apply))
      && (!taken ==> sends == Sends(None, None))
      && (a.err <==> response.Some? && response.value.jobId != "" && !taken)
      && (a.outcome.OutcomeApplied? <==> a.ran && h.err == None)
      && (a.outcome.OutcomeSkipped? <==> taken && Journaled(js, response.value.jobId))
      && (a.outcome.OutcomeDeferred? <==> !taken || (!Journaled(js, response.value.jobId) && response.value.notBefore > clock.apply))
  {
    hide Message, OrderFields, Digest;
  }

  /** The answers of a run, ack first, take a delivered job to APPLIED exactly when the handler did not err, and
      to FAILED otherwise, whatever could be saved. */
  lemma AnswersAreRecorded(
    s: Server, js: JournalState, handlers: set<string>, o: Order, clock: Clock, skew: nat, h: HandlerOutcome, w: bool,
    agentId: string, tenant: string, ackAt: Time, ackSaved: bool, reportAt: Time, reportSaved: bool)
    requires o.jobId in s.jobs && Owns(agentId, tenant, s.jobs[o.jobId]) && s.jobs[o.jobId].state.Delivered?
    requires RunOnceStep(js, handlers, Some(o), clock, skew, h, w).1.ran
    ensures var sends := RunOnceStep(js, handlers, Some(o), clock, skew, h, w).2;
      && sends.ack.Some? && sends.report.Some?
      && var (s1, acked) := AckStep(s, sends.ack.value, agentId, tenant, ackAt, ackSaved);
         var (s2, reported) := ReportStep(s1, sends.report.value.0, agentId, tenant, Some(sends.report.value.1), reportAt, reportSaved);
         (&& acked && reported && s1.jobs[o.jobId].state.Acked? && s2.jobs.Keys == s.jobs.Keys
          && (s2.jobs[o.jobId].state.Applied? <==> h.err == None) && (s2.jobs[o.jobId].state.Failed? <==> h.err.Some?))
  {
    hide RunOnceStep, AckStep, ReportStep, Message, OrderFields, Digest, Filed;
    TurnLeaves(js, handlers, Some(o), clock, skew, h, w);
    var sends := RunOnceStep(js, handlers, Some(o), clock, skew, h, w).2;
    AckAnswers(s, sends.ack.value, agentId, tenant, ackAt, ackSaved);
    var s1 := AckStep(s, sends.ack.value, agentId, tenant, ackAt, ackSaved).0;
    ReportAnswers(s1, sends.report.value.0, agentId, tenant, Some(sends.report.value.1), reportAt, reportSaved);
  }

  // ---- the whole life of a job ----

  /** The moments of a job's life up to its run. */
  datatype Times = Times(enqueued: Time, approved: Time, polled: Time, clock: Clock)

  function Expiry(req: Request, ttl: nat, at: Times): Time {
    at.enqueued + if req.ttl > 0 then req.ttl else ttl
  }

  /** Moments at which the poll, the agent's check and its window all admit the job. */
  predicate Timely(req: Request, ttl: nat, at: Times, skew: nat) {
    && 0 < at.enqueued <= at.approved <= at.polled <= Expiry(req, ttl, at)
    && at.approved <= at.clock.poll + skew && at.clock.poll <= Expiry(req, ttl, at) + skew
    && req.notBefore <= at.polled && req.notBefore <= at.clock.apply
    && (req.notAfter > 0 ==> at.polled <= req.notAfter && at.clock.apply <= req.notAfter)
  }

  /** The queue once the job is approved. */
  function Queued(s: Server, req: Request, payload: string, ids: Ids, ttl: nat, approver: string, at: Times): Server {
    ApproveStep(EnqueueStep(s, req, Some(payload), Some(ids), at.enqueued, ttl, true).0, ids.job, approver, at.approved, true, true).0
  }

  /** The job a poll hands out after that. */
  function Issued(req: Request, payload: string, ids: Ids, ttl: nat, approver: string, at: Times): Job {
    var j := Job("1.0.0", ids.job, ids.correlation, req.tenant, req.agentId, req.typ, payload, Digest(payload), ids.nonce, Delivered,
                 at.approved, req.notBefore, req.notAfter, Expiry(req, ttl, at), approver, at.approved, Unsigned, at.enqueued, at.polled, 0, None);
    j.(signature := Signed(Message(JobFields(j))))
  }

  lemma QueuedJob(s: Server, req: Request, payload: string, ids: Ids, ttl: nat, approver: string, at: Times)
    requires req.tenant != "" && req.agentId != "" && req.typ in {"package_patch", "config_hardening"} && approver != ""
    ensures var t := Queued(s, req, payload, ids, ttl, approver, at);
      ids.job in t.jobs && t.jobs[ids.job] == Issued(req, payload, ids, ttl, approver, at).(state := Approved, deliveredAt := 0)
  {
    hide EnqueueStep, ApproveStep, Message, Digest, Filed, Rfc3339;
    var (s1, r1) := EnqueueStep(s, req, Some(payload), Some(ids), at.enqueued, ttl, true);
    EnqueueAnswers(s, req, Some(payload), Some(ids), at.enqueued, ttl, true);
    ApproveAnswers(s1, ids.job, approver, at.approved, true, true);
  }

  /** The text of a job that nothing on the way rewrites. */
  ghost predicate Legible(lay: Layout, j: Job) {
    TextOk(j) && ValidUtf8(j.approvedBy) && WireSafe(j.payload) && |ResponseText(lay, j)| <= MAX_JOB_BYTES
  }

  lemma IssuedRuns(
    req: Request, payload: string, ids: Ids, ttl: nat, approver: string, at: Times,
    lay: Layout, js: JournalState, handlers: set<string>, skew: nat, h: HandlerOutcome, w: bool)
    requires ids.job != "" && req.typ in handlers && !Journaled(js, ids.job) && Timely(req, ttl, at, skew)
    requires Legible(lay, Issued(req, payload, ids, ttl, approver, at))
    ensures var o := Wire(lay, Issued(req, payload, ids, ttl, approver, at));
      o.Some? && o.value.jobId == ids.job && RunOnceStep(js, handlers, o, at.clock, skew, h, w).1.ran
  {
    hide RunOnceStep, Message, Digest, ResponseText, HtmlEscape, WireSafe, ValidUtf8, Transcoded, Rfc3339;
    var j := Issued(req, payload, ids, ttl, approver, at);
    assert j.signature == Sign(j);
    DeliveredVerifies(lay, j, j);
    TextSurvives(j);
    var o := Wire(lay, j);
    RunsExactlyWhen(js, handlers, o, at.clock, skew, h, w);
  }

  /** A legible request of a known type, enqueued, approved, picked, run, acked and reported in time, with every
      save and message getting through, ends APPLIED exactly when the handler did not err, and VERIFIED after
      the re-scan; with an error it ends FAILED. */
  lemma JobGoesThrough(
    s: Server, req: Request, payload: string, ids: Ids, ttl: nat, approver: string, at: Times, redeliver: nat,
    lay: Layout, js: JournalState, handlers: set<string>, skew: nat, h: HandlerOutcome, w: bool, ackAt: Time, reportAt: Time)
    requires req.tenant != "" && req.agentId != "" && req.typ in {"package_patch", "config_hardening"} && approver != "" && ids.job != ""
    requires req.typ in handlers && !Journaled(js, ids.job) && Timely(req, ttl, at, skew)
    requires Legible(lay, Issued(req, payload, ids, ttl, approver, at))
    requires MayPick(Queued(s, req, payload, ids, ttl, approver, at).jobs, req.agentId, req.tenant, at.polled, redeliver, Some(ids.job))
    ensures var (s3, handed) := PollStep(Queued(s, req, payload, ids, ttl, approver, at), req.agentId, req.tenant, at.polled, Some(ids.job), true);
      && handed.Some?
      && var (_, a, sends) := RunOnceStep(js, handlers, Wire(lay, handed.value), at.clock, skew, h, w);
         && a.ran && sends.ack.Some? && sends.report.Some?
         && var s4 := AckStep(s3, sends.ack.value, req.agentId, req.tenant, ackAt, true).0;
            var s5 := ReportStep(s4, sends.report.value.0, req.agentId, req.tenant, Some(sends.report.value.1), reportAt, true).0;
            var s6 := VerifyStep(s5, ids.job, true).0;
            (&& ids.job in s5.jobs && ids.job in s6.jobs
             && s5.jobs[ids.job].state == (if h.err == None then Applied else Failed)
             && s6.jobs[ids.job].state == (if h.err == None then Verified else Failed))
  {
    hide PollStep, RunOnceStep, AckStep, ReportStep, VerifyStep, Queued, MayPick, Message, Digest, Filed, Legible, Wire, JobFields;
    var q := Queued(s, req, payload, ids, ttl, approver, at);
    QueuedJob(s, req, payload, ids, ttl, approver, at);
    PollLeaves(q, req.agentId, req.tenant, at.polled, redeliver, Some(ids.job), true);
    var (s3, handed) := PollStep(q, req.agentId, req.tenant, at.polled, Some(ids.job), true);
    assert handed == Some(Issued(req, payload, ids, ttl, approver, at));
    IssuedRuns(req, payload, ids, ttl, approver, at, lay, js, handlers, skew, h, w);
    var o := Wire(lay, handed.value).value;
    AnswersAreRecorded(s3, js, handlers, o, at.clock, skew, h, w, req.agentId, req.tenant, ackAt, true, reportAt, true);
    var sends := RunOnceStep(js, handlers, Some(o), at.clock, skew, h, w).2;
    TurnLeaves(js, handlers, Some(o), at.clock, skew, h, w);
    var s4 := AckStep(s3, sends.ack.value, req.agentId, req.tenant, ackAt, true).0;
    var s5 := ReportStep(s4, sends.report.value.0, req.agentId, req.tenant, Some(sends.report.value.1), reportAt, true).0;
    VerifyAnswers(s5, ids.job, true);
  }
}
