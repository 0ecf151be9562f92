/** The whole remediation protocol: one server, any number of agents, an unreliable network.

    The network is the worst one the design allows for: an agent may receive any order at all,
    any number of times and in any order, as long as its signature is one the server released;
    a report may arrive late, often or never, but only from the agent that sent it (mTLS).
    Server saves may fail, the server may crash and reload, agents may restart. */
module RemediationProtocol {
  import opened Prelude
  import opened Utf8
  import opened RemediationCanonical
  import opened RemediationServer
  import opened RemediationAgent

  /** A client certificate's CN and O. */
  datatype Ident = Ident(cn: string, o: string)

  /** One handler run, with the order it ran on and the agent's clock at the poll and at the run. */
  datatype Run = Run(who: Ident, order: Order, polledAt: Time, appliedAt: Time, ok: bool)

  datatype Sent = Sent(who: Ident, id: string, res: Result)

  /** approvals, runs, used, handed, reaped and reloaded are history: what Approve released, what handlers
      ran, which job ids exist or existed, which jobs Poll handed out, which Reap removed, and which were
      read back from the file since they were approved. */
  datatype World = World(
    server: Server, clock: Time, hasSigner: bool, redeliver: nat, defaultTtl: nat, skew: nat,
    journals: map<Ident, JournalState>, handlers: map<Ident, set<string>>, reports: set<Sent>,
    approvals: set<Job>, runs: set<Run>, used: set<string>, handed: set<string>, reaped: set<string>,
    reloaded: set<string>)

  datatype Event =
    | Enqueue(req: Request, compact: Option<string>, ids: Option<Ids>, now: Time, w: bool)
    | Approve(id: string, approver: string, now: Time, w: bool)
    | Reject(id: string, approver: string, now: Time, w: bool)
    | Poll(who: Ident, now: Time, pick: Option<string>, w: bool)
    | Ack(who: Ident, id: string, now: Time, w: bool)
    | Report(sent: Sent, now: Time, w: bool)
    | Verify(id: string, w: bool)
    | Reap(now: Time, retention: int, w: bool)
    | CrashReload
    | AgentRun(who: Ident, response: Option<Order>, at: Clock, h: HandlerOutcome, w: bool)
    | AgentRestart(who: Ident, readOk: bool)

  ghost predicate Released(sig: Signature, approvals: set<Job>) {
    sig == Unsigned || exists a :: a in approvals && sig == Sign(a)
  }

  /** Server time does not run backwards; new ids are fresh hexadecimal; the network forges no signature
      and no agent's report. */
  ghost predicate Enabled(w: World, e: Event) {
    match e
    case Enqueue(_, _, ids, now, _) => w.clock <= now && (ids.Some? ==> FreshIds(w, ids.value))
    case Approve(_, _, now, _) => w.clock <= now
    case Reject(_, _, now, _) => w.clock <= now
    case Poll(who, now, pick, _) => w.clock <= now && MayPick(w.server.jobs, who.cn, who.o, now, w.redeliver, pick)
    case Ack(_, _, now, _) => w.clock <= now
    case Report(sent, now, _) => w.clock <= now && sent in w.reports
    case Verify(_, _) => true
    case Reap(now, _, _) => w.clock <= now
    case CrashReload => true
    case AgentRun(who, response, _, _, _) =>
      who in w.journals && who in w.handlers && (response.Some? ==> Released(response.value.signature, w.approvals))
    case AgentRestart(who, _) => who in w.journals
  }

  ghost predicate FreshIds(w: World, ids: Ids) {
    ids.job !in w.used && Hex(ids.job) && Hex(ids.correlation) && Hex(ids.nonce)
  }

  ghost function DoEnqueue(w: World, e: Event): World
    requires e.Enqueue?
  {
    w.(server := EnqueueStep(w.server, Received(e.req), e.compact, e.ids, e.now, w.defaultTtl, e.w).0, clock := e.now,
       used := if e.ids.Some? then w.used + {e.ids.value.job} else w.used,
       reaped := if Acceptable(Received(e.req), e.compact, e.ids) then w.reaped + (w.server.jobs.Keys - Reaped(w.server.jobs, e.now, 0).Keys) else w.reaped)
  }

  ghost function DoApprove(w: World, e: Event): World
    requires e.Approve?
  {
    var (s, r) := ApproveStep(w.server, e.id, e.approver, e.now, w.hasSigner, e.w);
    w.(server := s, clock := e.now, approvals := if r.Done? then w.approvals + {r.value} else w.approvals,
       reloaded := if r.Done? then w.reloaded - {e.id} else w.reloaded)
  }

  ghost function DoReject(w: World, e: Event): World
    requires e.Reject?
  {
    w.(server := RejectStep(w.server, e.id, e.approver, e.now, e.w).0, clock := e.now)
  }

  ghost function DoPoll(w: World, e: Event): World
    requires e.Poll? && (e.pick.Some? ==> e.pick.value in w.server.jobs)
  {
    var (s, r) := PollStep(w.server, e.who.cn, e.who.o, e.now, e.pick, e.w);
    w.(server := s, clock := e.now, handed := if r.Some? then w.handed + {r.value.jobId} else w.handed)
  }

  ghost function DoAck(w: World, e: Event): World
    requires e.Ack?
  {
    w.(server := AckStep(w.server, e.id, e.who.cn, e.who.o, e.now, e.w).0, clock := e.now)
  }

  ghost function DoReport(w: World, e: Event): World
    requires e.Report?
  {
    w.(server := ReportStep(w.server, e.sent.id, e.sent.who.cn, e.sent.who.o, Some(e.sent.res), e.now, e.w).0, clock := e.now)
  }

  ghost function DoVerify(w: World, e: Event): World
    requires e.Verify?
  {
    w.(server := VerifyStep(w.server, e.id, e.w).0)
  }

  ghost function DoReap(w: World, e: Event): World
    requires e.Reap?
  {
    w.(server := ReapStep(w.server, e.now, e.retention, e.w), clock := e.now,
       reaped := w.reaped + (w.server.jobs.Keys - Reaped(w.server.jobs, e.now, e.retention).Keys))
  }

  ghost function DoCrash(w: World): World {
    w.(server := Reload(w.server), reloaded := w.server.disk.Keys)
  }

  ghost function DoRun(w: World, e: Event): World
    requires e.AgentRun? && e.who in w.journals && e.who in w.handlers
  {
    var (js, a, sends) := RunOnceStep(w.journals[e.who], w.handlers[e.who], e.response, e.at, w.skew, e.h, e.w);
    w.(journals := w.journals[e.who := js],
       runs := if a.ran then w.runs + {Run(e.who, e.response.value, e.at.poll, e.at.apply, a.outcome == OutcomeApplied)} else w.runs,
       reports := if sends.report.Some? then w.reports + {Sent(e.who, sends.report.value.0, sends.report.value.1)} else w.reports)
  }

  ghost function DoRestart(w: World, e: Event): World
    requires e.AgentRestart? && e.who in w.journals
  {
    w.(journals := w.journals[e.who := Loaded(w.journals[e.who], e.readOk)])
  }

  ghost function Do(w: World, e: Event): World
    requires Enabled(w, e)
  {
    match e
    case Enqueue(_, _, _, _, _) => DoEnqueue(w, e)
    case Approve(_, _, _, _) => DoApprove(w, e)
    case Reject(_, _, _, _) => DoReject(w, e)
    case Poll(_, _, _, _) => DoPoll(w, e)
    case Ack(_, _, _, _) => DoAck(w, e)
    case Report(_, _, _) => DoReport(w, e)
    case Verify(_, _) => DoVerify(w, e)
    case Reap(_, _, _) => DoReap(w, e)
    case CrashReload => DoCrash(w)
    case AgentRun(_, _, _, _, _) => DoRun(w, e)
    case AgentRestart(_, _) => DoRestart(w, e)
  }

  // ---- the invariant ----

  ghost predicate Succeeded(runs: set<Run>, who: Ident, id: string) {
    exists r :: r in runs && r.who == who && r.order.jobId == id && r.ok
  }

  /** j carries a's signature and payload, and a's signed fields: as they were, or as the file gives them
      back. */
  ghost predicate Signs(a: Job, j: Job, filed: bool) {
    j.signature == Sign(a) && a.payload == j.payload && JobFields(j) == JobFields(if filed then Transcribed(a) else a)
  }

  ghost predicate JobOk(w: World, id: string, j: Job, filed: bool) {
    && j.jobId == id && id in w.used && j.payloadSha == Digest(j.payload) && j.issuedAt <= w.clock && TextOk(j)
    && (j.state == PendingApproval ==> j.signature == Unsigned && forall a :: a in w.approvals ==> a.jobId != id)
    && (RequiresSignature(j.state) ==> exists a :: a in w.approvals && Signs(a, j, filed))
    && (j.state == Applied || j.state == Verified ==> Succeeded(w.runs, Ident(j.agentId, j.tenant), id))
  }

  ghost predicate StoreOk(w: World, store: map<string, Job>, filed: set<string>) {
    forall id :: id in store ==> JobOk(w, id, store[id], id in filed)
  }

  ghost predicate ApprovalsOk(w: World) {
    && (forall a :: a in w.approvals ==> a.jobId in w.used && a.payloadSha == Digest(a.payload) && TextOk(a))
    && (forall a, b :: a in w.approvals && b in w.approvals && a.jobId == b.jobId ==> a == b)
  }

  ghost predicate RunOk(w: World, r: Run) {
    && (exists a :: a in w.approvals && OrderFields(r.order) == JobFields(a) && r.order.payload == a.payload)
    && VerifyAt(r.order, r.polledAt, w.skew)
    && !BeforeWindow(r.order, r.appliedAt) && !AfterWindow(r.order, r.appliedAt)
  }

  ghost predicate JournalOk(w: World, who: Ident, m: map<string, Entry>) {
    forall id :: AppliedOk(m, id) ==> Succeeded(w.runs, who, id)
  }

  ghost predicate AgentsOk(w: World) {
    && (forall r :: r in w.runs ==> RunOk(w, r))
    && (forall who :: who in w.journals ==> JournalOk(w, who, w.journals[who].m) && JournalOk(w, who, w.journals[who].disk))
    && (forall s :: s in w.reports && s.res.status == APPLIED ==> Succeeded(w.runs, s.who, s.id))
  }

  /** A job once handed out is at DELIVERED or later, in memory and on disk, until reaped. */
  ghost predicate HandedOk(w: World) {
    w.server.durable ==> forall id :: id in w.handed ==>
      && (id in w.server.disk || id in w.reaped) && (id in w.server.jobs || id in w.reaped)
      && (id in w.server.disk ==> Rank(w.server.disk[id].state) >= 2)
      && (id in w.server.jobs ==> Rank(w.server.jobs[id].state) >= 2)
  }

  ghost predicate Inv(w: World) {
    && (!w.server.durable ==> w.server.disk == map[])
    && StoreOk(w, w.server.jobs, w.reloaded) && StoreOk(w, w.server.disk, w.server.disk.Keys)
    && ApprovalsOk(w) && AgentsOk(w) && HandedOk(w) && w.handed <= w.used
  }

  ghost predicate Init(w: World) {
    && w.server.jobs == map[] && w.server.disk == map[]
    && (forall who :: who in w.journals ==> w.journals[who] == JournalState(map[], map[]))
    && w.reports == {} && w.approvals == {} && w.runs == {} && w.used == {} && w.handed == {} && w.reaped == {} && w.reloaded == {}
  }

  // ---- preservation ----

  /** History and clock only grow; then what was true of a stored job still is, unless it is pending
      and has just been approved. */
  ghost predicate Grows(w: World, v: World) {
    && w.clock <= v.clock && w.used <= v.used && w.approvals <= v.approvals && w.runs <= v.runs
  }

  lemma StoreKept(w: World, v: World, store: map<string, Job>, filed: set<string>)
    requires StoreOk(w, store, filed) && Grows(w, v) && v.approvals == w.approvals
    ensures StoreOk(v, store, filed)
  {
    hide Message, JobFields, OrderFields, Sign, Digest, TextOk, Signs;
    forall id | id in store ensures JobOk(v, id, store[id], id in filed) {
      assert JobOk(w, id, store[id], id in filed);
    }
  }

  /** What the file gives back of a job is as well founded as the job, under the spelling of the file. */
  lemma FiledJobOk(w: World, id: string, j: Job, filed: bool)
    requires JobOk(w, id, j, filed)
    ensures JobOk(w, id, Transcribed(j), true)
  {
    hide Message, JobFields, OrderFields, Sign, Digest, Succeeded, ValidUtf8, Transcoded;
    TextSurvives(j);
    if RequiresSignature(j.state) {
      var a :| a in w.approvals && Signs(a, j, filed);
      TranscribedTwice(a);
      FieldsTranscribed(j, if filed then Transcribed(a) else a);
      assert Signs(a, Transcribed(j), true);
    }
  }

  lemma FiledStoreOk(w: World, store: map<string, Job>, filed: set<string>)
    requires StoreOk(w, store, filed)
    ensures StoreOk(w, Filed(store), Filed(store).Keys)
  {
    hide JobOk, Transcribed;
    forall id | id in Filed(store) ensures JobOk(w, id, Filed(store)[id], id in Filed(store).Keys) {
      FiledJobOk(w, id, store[id], id in filed);
    }
  }

  /** A save leaves the old file or writes the new memory. */
  lemma SavedStores(w: World, v: World, jobs: map<string, Job>, wr: bool)
    requires Inv(w) && Grows(w, v) && v.approvals == w.approvals
    requires StoreOk(v, jobs, v.reloaded)
    requires v.server == Save(w.server.(jobs := jobs), wr) || v.server == w.server.(jobs := jobs)
    ensures (!v.server.durable ==> v.server.disk == map[])
    ensures StoreOk(v, v.server.jobs, v.reloaded) && StoreOk(v, v.server.disk, v.server.disk.Keys)
  {
    hide Message, JobFields, OrderFields, Sign, Digest, JobOk, Filed;
    StoreKept(w, v, w.server.disk, w.server.disk.Keys);
    FiledStoreOk(v, jobs, v.reloaded);
  }

  /** Steps that change one stored job and no history beyond the clock. */
  lemma OneJobChanged(w: World, v: World, id: string, j: Job, wr: bool)
    requires Inv(w) && id in w.server.jobs && w.clock <= v.clock
    requires v == w.(clock := v.clock, server := v.server)
    requires v.server == Save(w.server.(jobs := w.server.jobs[id := j]), wr) || v.server == w.server.(jobs := w.server.jobs[id := j])
    requires JobOk(v, id, j, id in w.reloaded) && Rank(w.server.jobs[id].state) <= Rank(j.state)
    ensures Inv(v)
  {
    hide Message, JobFields, OrderFields, Sign, Digest, JobOk, Transcribed;
    StoreKept(w, v, w.server.jobs, w.reloaded);
    SavedStores(w, v, w.server.jobs[id := j], wr);
    AgentsKept(w, v);
    HandsOfOne(w, v, id, j);
    assert ApprovalsOk(v);
  }

  /** The handed-out jobs keep their rank when one job's rank does not fall. */
  lemma HandsOfOne(w: World, v: World, id: string, j: Job)
    requires HandedOk(w) && v == w.(clock := v.clock, server := v.server) && id in w.server.jobs
    requires v.server.jobs == w.server.jobs[id := j] && v.server.durable == w.server.durable
    requires v.server.disk == w.server.disk || v.server.disk == Filed(v.server.jobs)
    requires Rank(w.server.jobs[id].state) <= Rank(j.state)
    ensures HandedOk(v)
  {
    hide Transcoded, TranscribedResult;
  }

  lemma AgentsKept(w: World, v: World)
    requires AgentsOk(w) && Grows(w, v) && w.runs == v.runs && w.journals == v.journals && w.reports == v.reports && w.skew == v.skew
    ensures AgentsOk(v)
  {
    hide Message, JobFields, OrderFields, Sign, Digest;
    forall r | r in v.runs ensures RunOk(v, r) { assert RunOk(w, r); }
    forall who | who in v.journals ensures JournalOk(v, who, v.journals[who].m) && JournalOk(v, who, v.journals[who].disk) {
      assert JournalOk(w, who, w.journals[who].m) && JournalOk(w, who, w.journals[who].disk);
    }
  }

  lemma EnqueueKeeps(w: World, e: Event)
    requires Inv(w) && e.Enqueue?
    requires w.clock <= e.now && (e.ids.Some? ==> FreshIds(w, e.ids.value))
    ensures Inv(DoEnqueue(w, e))
  {
    hide Message, JobFields, Sign, JobOk, Transcribed, NewJob;
    var v := DoEnqueue(w, e);
    StoreKept(w, v, w.server.jobs, w.reloaded);
    AgentsKept(w, v);
    var req := Received(e.req);
    if Acceptable(req, e.compact, e.ids) {
      var j := NewJob(req, e.compact.value, e.ids.value, e.now, w.defaultTtl);
      NewJobOk(w, v, e, j);
      EnqueuedStore(w, v, e, j);
    } else {
      StoreKept(w, v, w.server.disk, w.server.disk.Keys);
    }
  }

  /** A new job is made of hexadecimal ids, a known type and strings decoded from JSON. */
  lemma NewJobOk(w: World, v: World, e: Event, j: Job)
    requires Inv(w) && e.Enqueue? && e.ids.Some? && FreshIds(w, e.ids.value) && Acceptable(Received(e.req), e.compact, e.ids)
    requires v == DoEnqueue(w, e) && j == NewJob(Received(e.req), e.compact.value, e.ids.value, e.now, w.defaultTtl)
    ensures JobOk(v, j.jobId, j, j.jobId in v.reloaded) && j.jobId == e.ids.value.job && j.jobId !in w.used && j.state == PendingApproval
  {
    hide Message, JobFields, Sign, Transcoded, ValidUtf8, Transcribed;
    TranscodedIsValid(e.req.tenant);
    TranscodedIsValid(e.req.agentId);
    AsciiIsValid("1.0.0");
    AsciiIsValid(e.ids.value.job);
    AsciiIsValid(e.ids.value.correlation);
    AsciiIsValid(e.ids.value.nonce);
    TranscodedIsValid(e.req.typ);
  }

  lemma EnqueuedStore(w: World, v: World, e: Event, j: Job)
    requires Inv(w) && e.Enqueue? && Acceptable(Received(e.req), e.compact, e.ids) && v == DoEnqueue(w, e)
    requires j == NewJob(Received(e.req), e.compact.value, e.ids.value, e.now, w.defaultTtl)
    requires JobOk(v, j.jobId, j, j.jobId in v.reloaded) && j.jobId !in w.used && w.clock <= v.clock
    requires StoreOk(v, w.server.jobs, w.reloaded) && AgentsOk(v)
    ensures Inv(v)
  {
    hide Message, JobFields, Sign, JobOk, Transcribed, NewJob;
    var kept := Reaped(w.server.jobs, e.now, 0);
    var jobs := if Saved(w.server, e.w) then kept[j.jobId := j] else kept - {j.jobId};
    SavedStores(w, v, jobs, e.w);
    JobsAreUsed(w);
    EnqueuedHands(w, v, e, j);
  }

  lemma JobsAreUsed(w: World)
    requires Inv(w)
    ensures w.server.jobs.Keys <= w.used
  {
    hide TextOk, Signs, Succeeded;
    forall id | id in w.server.jobs ensures id in w.used { assert JobOk(w, id, w.server.jobs[id], id in w.reloaded); }
  }

  lemma EnqueuedHands(w: World, v: World, e: Event, j: Job)
    requires HandedOk(w) && w.handed <= w.used && e.Enqueue? && Acceptable(Received(e.req), e.compact, e.ids) && v == DoEnqueue(w, e)
    requires j == NewJob(Received(e.req), e.compact.value, e.ids.value, e.now, w.defaultTtl) && j.jobId !in w.used
    ensures HandedOk(v)
  {
    hide Received, Transcoded, TranscribedResult;
  }

  /** Signing happens last, over everything Approve has set. */
  lemma ApprovedIsSigned(j: Job, approver: string, now: Time)
    ensures var a := ApprovedJob(j, approver, now); a.signature == Sign(a)
  {
    hide Message;
  }

  /** The approval of a pending job: its record is the only one with its id. */
  lemma ApprovedStores(w: World, v: World, id: string, a: Job)
    requires Inv(w) && Grows(w, v) && id in w.server.jobs && w.server.jobs[id].state == PendingApproval
    requires v.approvals == w.approvals + {a} && v.server == Save(w.server.(jobs := w.server.jobs[id := a]), true)
    requires a.state == Approved && a.signature == Sign(a) && a.issuedAt <= v.clock && id !in v.reloaded && w.reloaded <= v.reloaded + {id}
    requires v.reloaded <= w.reloaded
    requires a == w.server.jobs[id].(state := a.state, signature := a.signature, issuedAt := a.issuedAt, approvedAt := a.approvedAt, approvedBy := a.approvedBy)
    ensures StoreOk(v, v.server.jobs, v.reloaded) && StoreOk(v, v.server.disk, v.server.disk.Keys)
    ensures v.used == w.used ==> ApprovalsOk(v)
  {
    hide Message, JobFields, Sign, Digest, Transcribed, JobOk, TextOk, Filed;
    ApprovedJobOk(w, v, id, a);
    ApprovedOthers(w, v, w.server.jobs, w.reloaded, a);
    var jobs := w.server.jobs[id := a];
    forall x | x in jobs ensures JobOk(v, x, jobs[x], x in v.reloaded) {
      if x != id { IdsMatch(w, x); }
    }
    FiledStoreOk(v, jobs, v.reloaded);
    ApprovedDisk(w, v, id, a);
  }

  lemma IdsMatch(w: World, id: string)
    requires Inv(w) && id in w.server.jobs
    ensures w.server.jobs[id].jobId == id && JobOk(w, id, w.server.jobs[id], id in w.reloaded)
  {
    hide TextOk, Signs, Succeeded;
    assert JobOk(w, id, w.server.jobs[id], id in w.reloaded);
  }

  lemma ApprovedJobOk(w: World, v: World, id: string, a: Job)
    requires Inv(w) && Grows(w, v) && id in w.server.jobs && w.server.jobs[id].state == PendingApproval && v.approvals == w.approvals + {a}
    requires a.state == Approved && a.signature == Sign(a) && a.issuedAt <= v.clock
    requires a == w.server.jobs[id].(state := a.state, signature := a.signature, issuedAt := a.issuedAt, approvedAt := a.approvedAt, approvedBy := a.approvedBy)
    ensures JobOk(v, id, a, false) && a.jobId == id
    ensures v.used == w.used ==> ApprovalsOk(v)
  {
    hide Message, JobFields, Sign, Digest, Transcribed, ValidUtf8, AgentsOk, HandedOk;
    assert JobOk(w, id, w.server.jobs[id], id in w.reloaded);
    assert Signs(a, a, false);
  }

  /** The other jobs are not touched by an approval. */
  lemma ApprovedOthers(w: World, v: World, store: map<string, Job>, filed: set<string>, a: Job)
    requires StoreOk(w, store, filed) && Grows(w, v) && v.approvals == w.approvals + {a}
    ensures forall x :: x in store && (x != a.jobId || store[x].state != PendingApproval) ==> JobOk(v, x, store[x], x in filed)
  {
    hide Message, JobFields, Sign, Digest, Transcribed, TextOk;
    forall x | x in store && (x != a.jobId || store[x].state != PendingApproval) ensures JobOk(v, x, store[x], x in filed) {
      assert JobOk(w, x, store[x], x in filed);
    }
  }

  /** Approve saves before it returns, or there is no file. */
  lemma ApprovedDisk(w: World, v: World, id: string, a: Job)
    requires Inv(w) && v.server == Save(w.server.(jobs := w.server.jobs[id := a]), true)
    requires StoreOk(v, Filed(w.server.jobs[id := a]), Filed(w.server.jobs[id := a]).Keys)
    ensures StoreOk(v, v.server.disk, v.server.disk.Keys)
  {
    hide JobOk, Filed;
  }

  lemma ApproveKeeps(w: World, e: Event)
    requires Inv(w) && e.Approve?
    requires w.clock <= e.now
    ensures Inv(DoApprove(w, e))
  {
    hide Message, JobFields, Sign, Digest, Transcribed, JobOk;
    var v := DoApprove(w, e);
    AgentsApproved(w, v);
    if ApproveStep(w.server, e.id, e.approver, e.now, w.hasSigner, e.w).1.Done? {
      var a := ApprovedShape(w, v, e);
      hide ApproveStep, ApprovedJob;
      ApprovedStores(w, v, e.id, a);
      ApprovedHands(w, v, e.id, a);
    } else if v.server == w.server {
      StoreKept(w, v, w.server.jobs, w.reloaded);
      StoreKept(w, v, w.server.disk, w.server.disk.Keys);
    } else {
      RefusedApproval(w, v, e.id);
    }
  }

  /** What a successful approval changes. */
  lemma ApprovedShape(w: World, v: World, e: Event) returns (a: Job)
    requires Inv(w) && e.Approve? && w.clock <= e.now && v == DoApprove(w, e)
    requires ApproveStep(w.server, e.id, e.approver, e.now, w.hasSigner, e.w).1.Done?
    ensures e.id in w.server.jobs && w.server.jobs[e.id].state == PendingApproval
    ensures v == w.(clock := e.now, server := Save(w.server.(jobs := w.server.jobs[e.id := a]), true), approvals := w.approvals + {a}, reloaded := w.reloaded - {e.id})
    ensures a.state == Approved && a.signature == Sign(a) && a.issuedAt == e.now
    ensures a == w.server.jobs[e.id].(state := a.state, signature := a.signature, issuedAt := a.issuedAt, approvedAt := a.approvedAt, approvedBy := a.approvedBy)
  {
    hide Message, JobFields, Sign, Digest, Transcribed, JobOk, AgentsOk, HandedOk;
    a := ApprovedJob(w.server.jobs[e.id], e.approver, e.now);
    ApprovedIsSigned(w.server.jobs[e.id], e.approver, e.now);
  }

  lemma ApprovedHands(w: World, v: World, id: string, a: Job)
    requires HandedOk(w) && v == w.(clock := v.clock, server := v.server, approvals := v.approvals, reloaded := v.reloaded)
    requires id in w.server.jobs && w.server.jobs[id].state == PendingApproval && a.state == Approved
    requires v.server == Save(w.server.(jobs := w.server.jobs[id := a]), true)
    ensures HandedOk(v)
  {
    hide Transcoded, TranscribedResult;
  }

  /** More approvals leave every run, entry and report as well founded as it was. */
  lemma AgentsApproved(w: World, v: World)
    requires AgentsOk(w) && w.approvals <= v.approvals && w.runs == v.runs && w.journals == v.journals && w.reports == v.reports && w.skew == v.skew
    ensures AgentsOk(v)
  {
    hide Message, JobFields, OrderFields, Sign, Digest, VerifyAt;
    forall r | r in v.runs ensures RunOk(v, r) { assert RunOk(w, r); }
    forall who | who in v.journals ensures JournalOk(v, who, v.journals[who].m) && JournalOk(v, who, v.journals[who].disk) {
      assert JournalOk(w, who, w.journals[who].m) && JournalOk(w, who, w.journals[who].disk);
    }
  }

  /** An approval that could not be saved puts the job back, unsigned. */
  lemma RefusedApproval(w: World, v: World, id: string)
    requires Inv(w) && w.clock <= v.clock && v == w.(clock := v.clock, server := v.server) && id in w.server.jobs
    requires w.server.jobs[id].state == PendingApproval
    requires v.server == w.server.(jobs := w.server.jobs[id := w.server.jobs[id].(signature := Unsigned, approvedBy := "", issuedAt := 0, approvedAt := 0)])
    ensures Inv(v)
  {
    hide Message, JobFields, Sign, Digest;
    assert JobOk(w, id, w.server.jobs[id], id in w.reloaded);
    OneJobChanged(w, v, id, v.server.jobs[id], false);
  }

  lemma StampedJobOk(w: World, v: World, id: string, j: Job, j1: Job, filed: bool)
    requires JobOk(w, id, j, filed) && Grows(w, v) && v.approvals == w.approvals
    requires j1 == j.(state := j1.state, deliveredAt := j1.deliveredAt, ackedAt := j1.ackedAt, result := j1.result)
    requires RequiresSignature(j1.state) ==> RequiresSignature(j.state)
    requires j1.state != PendingApproval
    requires j1.state == Applied || j1.state == Verified ==> Succeeded(v.runs, Ident(j.agentId, j.tenant), id)
    ensures JobOk(v, id, j1, filed)
  {
    hide Message, Transcribed;
    if RequiresSignature(j1.state) {
      var a :| a in w.approvals && Signs(a, j, filed);
      assert a in v.approvals && Signs(a, j1, filed);
    }
  }

  /** The shape of Reject, Verify, Ack and Report: at most one stored job changes. */
  lemma SingleChangeKeeps(w: World, v: World, id: string, wr: bool)
    requires Inv(w) && w.clock <= v.clock && v == w.(clock := v.clock, server := v.server)
    requires v.server == w.server || (id in w.server.jobs && id in v.server.jobs
      && v.server == Save(w.server.(jobs := w.server.jobs[id := v.server.jobs[id]]), wr)
      && JobOk(v, id, v.server.jobs[id], id in w.reloaded) && Rank(w.server.jobs[id].state) <= Rank(v.server.jobs[id].state))
    ensures Inv(v)
  {
    hide Message, JobFields, OrderFields, Sign, Digest;
    if v.server == w.server {
      AgentsKept(w, v);
      StoreKept(w, v, w.server.jobs, w.reloaded);
      StoreKept(w, v, w.server.disk, w.server.disk.Keys);
    } else {
      OneJobChanged(w, v, id, v.server.jobs[id], wr);
    }
  }

  lemma RejectedJobOk(w: World, v: World, id: string, j: Job, j1: Job, filed: bool)
    requires JobOk(w, id, j, filed) && w.used <= v.used && w.clock <= v.clock && j1.state == Rejected
    requires j1 == j.(state := j1.state, approvedBy := j1.approvedBy, approvedAt := j1.approvedAt)
    ensures JobOk(v, id, j1, filed)
  {
    hide Message, JobFields, Sign, Digest, Transcribed, ValidUtf8;
  }

  lemma RejectKeeps(w: World, e: Event)
    requires Inv(w) && e.Reject?
    requires w.clock <= e.now
    ensures Inv(DoReject(w, e))
  {
    hide Message, JobFields, OrderFields, Sign, Digest, Transcribed, Filed, AgentsOk, HandedOk, JobOk;
    var v := DoReject(w, e);
    if v.server != w.server {
      RejectedJobOk(w, v, e.id, w.server.jobs[e.id], v.server.jobs[e.id], e.id in w.reloaded);
    }
    SingleChangeKeeps(w, v, e.id, e.w);
  }

  lemma VerifyKeeps(w: World, e: Event)
    requires Inv(w) && e.Verify?
    ensures Inv(DoVerify(w, e))
  {
    hide Message, JobFields, OrderFields, Sign, Digest, TextOk, Signs, Transcribed, Filed, AgentsOk, HandedOk;
    var v := DoVerify(w, e);
    if v.server != w.server {
      assert JobOk(w, e.id, w.server.jobs[e.id], e.id in w.reloaded);
      StampedJobOk(w, v, e.id, w.server.jobs[e.id], v.server.jobs[e.id], e.id in w.reloaded);
    }
    SingleChangeKeeps(w, v, e.id, e.w);
  }

  lemma AckKeeps(w: World, e: Event)
    requires Inv(w) && e.Ack?
    requires w.clock <= e.now
    ensures Inv(DoAck(w, e))
  {
    hide Message, JobFields, OrderFields, Sign, Digest, TextOk, Signs, Transcribed, Filed, AgentsOk, HandedOk;
    var v := DoAck(w, e);
    if v.server != w.server {
      assert JobOk(w, e.id, w.server.jobs[e.id], e.id in w.reloaded);
      StampedJobOk(w, v, e.id, w.server.jobs[e.id], v.server.jobs[e.id], e.id in w.reloaded);
    }
    SingleChangeKeeps(w, v, e.id, e.w);
  }

  /** A recorded result rests on a report, and a report of success on a run that succeeded. */
  lemma ReportedJobOk(w: World, v: World, sent: Sent, j1: Job)
    requires Inv(w) && sent in w.reports && Grows(w, v) && v.approvals == w.approvals && v.runs == w.runs
    requires sent.id in w.server.jobs && Mine(w.server.jobs[sent.id], sent.who.cn, sent.who.o)
    requires w.server.jobs[sent.id].state == Delivered || w.server.jobs[sent.id].state == Acked
    requires j1 == w.server.jobs[sent.id].(state := j1.state, result := j1.result)
    requires j1.state == (if sent.res.status == APPLIED then Applied else Failed)
    ensures JobOk(v, sent.id, j1, sent.id in w.reloaded)
  {
    hide Message, JobFields, OrderFields, Sign, Digest;
    var j := w.server.jobs[sent.id];
    assert JobOk(w, sent.id, j, sent.id in w.reloaded);
    assert Ident(j.agentId, j.tenant) == sent.who;
    StampedJobOk(w, v, sent.id, j, j1, sent.id in w.reloaded);
  }

  lemma ReportKeeps(w: World, e: Event)
    requires Inv(w) && e.Report?
    requires w.clock <= e.now && e.sent in w.reports
    ensures Inv(DoReport(w, e))
  {
    hide Message, JobFields, OrderFields, Sign, Digest, TextOk, Signs, Succeeded, Transcribed, JobOk;
    var v := DoReport(w, e);
    if v.server != w.server {
      ReportedJobOk(w, v, e.sent, v.server.jobs[e.sent.id]);
    }
    SingleChangeKeeps(w, v, e.sent.id, e.w);
  }

  /** The sweep, and the delivery of one swept job, leave a good store. */
  lemma PollStores(w: World, v: World, who: Ident, now: Time, pick: Option<string>)
    requires Inv(w) && w.clock <= now == v.clock && Grows(w, v) && v.approvals == w.approvals
    requires MayPick(w.server.jobs, who.cn, who.o, now, w.redeliver, pick)
    ensures var swept := SweptAll(w.server.jobs, who.cn, who.o, now);
      StoreOk(v, swept, w.reloaded)
      && (pick.Some? ==> StoreOk(v, swept[pick.value := swept[pick.value].(state := Delivered, deliveredAt := now)], w.reloaded))
  {
    hide Message, JobFields, OrderFields, Sign, Digest, TextOk, Signs;
    StoreKept(w, v, w.server.jobs, w.reloaded);
    var swept := SweptAll(w.server.jobs, who.cn, who.o, now);
    forall id | id in swept ensures JobOk(v, id, swept[id], id in w.reloaded) {
      var j := w.server.jobs[id];
      assert JobOk(w, id, j, id in w.reloaded) && JobOk(v, id, j, id in w.reloaded);
      if swept[id] != j { StampedJobOk(w, v, id, j, swept[id], id in w.reloaded); }
    }
    if pick.Some? {
      var j := w.server.jobs[pick.value];
      assert JobOk(w, pick.value, j, pick.value in w.reloaded);
      StampedJobOk(w, v, pick.value, j, j.(state := Delivered, deliveredAt := now), pick.value in w.reloaded);
    }
  }

  lemma PollRank(s: Server, agentId: string, tenant: string, now: Time, redeliver: nat, pick: Option<string>, wr: bool, id: string)
    requires MayPick(s.jobs, agentId, tenant, now, redeliver, pick) && id in s.jobs
    ensures var t := PollStep(s, agentId, tenant, now, pick, wr).0;
      id in t.jobs && Rank(s.jobs[id].state) <= Rank(t.jobs[id].state) && (Terminal(s.jobs[id].state) ==> t.jobs[id].state == s.jobs[id].state)
  {
    hide Message;
  }

  /** A step that raises ranks, keeps every job, and may add one delivered job to the handed set. */
  lemma RaisedHands(w: World, v: World, newly: Option<string>)
    requires HandedOk(w) && w.handed <= w.used && v.server.durable == w.server.durable && v.reaped == w.reaped && v.used == w.used
    requires v.server.jobs.Keys == w.server.jobs.Keys
    requires v.server.disk == w.server.disk || v.server.disk == Filed(v.server.jobs)
    requires forall id :: id in w.server.jobs ==> Rank(w.server.jobs[id].state) <= Rank(v.server.jobs[id].state)
    requires v.handed == if newly.Some? then w.handed + {newly.value} else w.handed
    requires newly.Some? ==> newly.value in v.server.jobs && v.server.jobs[newly.value].state == Delivered && newly.value in w.used
    requires newly.Some? && w.server.durable ==> v.server.disk == Filed(v.server.jobs)
    ensures HandedOk(v) && v.handed <= v.used
  {
    hide Message, Transcoded, TranscribedResult;
  }

  lemma PollRaises(s: Server, agentId: string, tenant: string, now: Time, redeliver: nat, pick: Option<string>, wr: bool)
    requires MayPick(s.jobs, agentId, tenant, now, redeliver, pick)
    ensures var t := PollStep(s, agentId, tenant, now, pick, wr).0;
      && t.jobs.Keys == s.jobs.Keys && (t.disk == s.disk || t.disk == Filed(t.jobs))
      && forall id :: id in s.jobs ==> Rank(s.jobs[id].state) <= Rank(t.jobs[id].state)
  {
    hide Message, Transcribed, Filed, Eligible, Rank, Swept;
    var t := PollStep(s, agentId, tenant, now, pick, wr).0;
    forall id | id in s.jobs ensures Rank(s.jobs[id].state) <= Rank(t.jobs[id].state) {
      PollRank(s, agentId, tenant, now, redeliver, pick, wr, id);
    }
  }

  lemma PollDelivers(s: Server, agentId: string, tenant: string, now: Time, redeliver: nat, p: string, wr: bool)
    requires MayPick(s.jobs, agentId, tenant, now, redeliver, Some(p)) && Saved(s, wr)
    ensures var (t, r) := PollStep(s, agentId, tenant, now, Some(p), wr);
      && p in t.jobs && t.jobs[p].state == Delivered && r == Some(t.jobs[p]) && t.jobs[p].jobId == s.jobs[p].jobId
      && (s.durable ==> t.disk == Filed(t.jobs))
  {
  }

  lemma PollHands(w: World, e: Event)
    requires HandedOk(w) && w.handed <= w.used && e.Poll?
    requires forall id :: id in w.server.jobs ==> w.server.jobs[id].jobId == id && id in w.used
    requires MayPick(w.server.jobs, e.who.cn, e.who.o, e.now, w.redeliver, e.pick)
    ensures HandedOk(DoPoll(w, e)) && DoPoll(w, e).handed <= DoPoll(w, e).used
  {
    hide SweptAll, Swept;
    var v := DoPoll(w, e);
    PollRaises(w.server, e.who.cn, e.who.o, e.now, w.redeliver, e.pick, e.w);
    if e.pick.Some? && Saved(w.server, e.w) {
      PollDelivers(w.server, e.who.cn, e.who.o, e.now, w.redeliver, e.pick.value, e.w);
      RaisedHands(w, v, e.pick);
    } else {
      RaisedHands(w, v, None);
    }
  }

  lemma PollKeeps(w: World, e: Event)
    requires Inv(w) && e.Poll?
    requires w.clock <= e.now && MayPick(w.server.jobs, e.who.cn, e.who.o, e.now, w.redeliver, e.pick)
    ensures Inv(DoPoll(w, e))
  {
    hide Message, JobFields, OrderFields, Sign, Digest, TextOk, Signs, Succeeded, Transcribed, Filed, AgentsOk, HandedOk;
    var v := DoPoll(w, e);
    AgentsKept(w, v);
    PollStores(w, v, e.who, e.now, e.pick);
    forall id | id in w.server.jobs ensures w.server.jobs[id].jobId == id && id in w.used {
      assert JobOk(w, id, w.server.jobs[id], id in w.reloaded);
    }
    PollHands(w, e);
    SavedStores(w, v, v.server.jobs, e.w);
  }

  lemma ReapKeeps(w: World, e: Event)
    requires Inv(w) && e.Reap?
    requires w.clock <= e.now
    ensures Inv(DoReap(w, e))
  {
    hide Message, JobFields, OrderFields, Sign, Digest, JobOk, Transcribed;
    var v := DoReap(w, e);
    AgentsKept(w, v);
    StoreKept(w, v, w.server.jobs, w.reloaded);
    var kept := Reaped(w.server.jobs, e.now, e.retention);
    forall id | id in kept ensures JobOk(v, id, kept[id], id in w.reloaded) {
      assert JobOk(v, id, w.server.jobs[id], id in w.reloaded);
    }
    SavedStores(w, v, kept, e.w);
    ReapedHands(w, v, e);
  }

  lemma ReapedHands(w: World, v: World, e: Event)
    requires HandedOk(w) && e.Reap? && v == DoReap(w, e)
    ensures HandedOk(v)
  {
    hide Transcoded, TranscribedResult;
  }

  /** No stored job is incoherent, so a reload brings back exactly the file. */
  lemma ReloadIsExact(w: World)
    requires Inv(w)
    ensures Reload(w.server).jobs == w.server.disk
  {
    hide Message;
    forall id | id in w.server.disk ensures id in Reload(w.server).jobs {
      assert JobOk(w, id, w.server.disk[id], true);
    }
  }

  lemma CrashKeeps(w: World)
    requires Inv(w)
    ensures Inv(DoCrash(w))
  {
    hide Message, JobFields, OrderFields, Sign, Digest;
    ReloadIsExact(w);
    var v := DoCrash(w);
    StoreKept(w, v, w.server.disk, w.server.disk.Keys);
    AgentsKept(w, v);
    if w.server.durable { assert HandedOk(v); }
  }

  /** A handler run goes through the poll's verification and the executor's window gate. */
  lemma NewRunOk(w: World, v: World, r: Run)
    requires Inv(w) && v.approvals == w.approvals && v.skew == w.skew && Released(r.order.signature, w.approvals)
    requires VerifyAt(r.order, r.polledAt, w.skew) && !BeforeWindow(r.order, r.appliedAt) && !AfterWindow(r.order, r.appliedAt)
    ensures RunOk(v, r)
  {
    var b :| b in w.approvals && r.order.signature == Sign(b);
    VerifiedIsSigned(r.order, JobFields(b), b.payload);
  }

  lemma AgentsExtended(w: World, v: World, who: Ident, js: JournalState)
    requires AgentsOk(w) && who in w.journals && w.runs <= v.runs && v.approvals == w.approvals && v.skew == w.skew
    requires v.journals == w.journals[who := js] && JournalOk(v, who, js.m) && JournalOk(v, who, js.disk)
    requires forall r :: r in v.runs && r !in w.runs ==> RunOk(v, r)
    requires forall s :: s in v.reports && s !in w.reports && s.res.status == APPLIED ==> Succeeded(v.runs, s.who, s.id)
    ensures AgentsOk(v)
  {
    hide Message, JobFields, OrderFields, Sign, Digest;
    forall r | r in v.runs ensures RunOk(v, r) {
      if r in w.runs { assert RunOk(w, r); }
    }
    forall x | x in v.journals ensures JournalOk(v, x, v.journals[x].m) && JournalOk(v, x, v.journals[x].disk) {
      if x != who {
        assert JournalOk(w, x, w.journals[x].m) && JournalOk(w, x, w.journals[x].disk);
      }
    }
  }

  /** The effect of one RunOnce on the world, in terms of its journal, attempt and report. */
  lemma AgentStepKeeps(w: World, v: World, who: Ident, js: JournalState, ran: Option<Run>, report: Option<Sent>)
    requires Inv(w) && who in w.journals
    requires v == w.(journals := w.journals[who := js], runs := v.runs, reports := v.reports)
    requires v.runs == if ran.Some? then w.runs + {ran.value} else w.runs
    requires v.reports == if report.Some? then w.reports + {report.value} else w.reports
    requires ran.Some? ==> RunOk(v, ran.value)
    requires JournalOk(v, who, js.m) && JournalOk(v, who, js.disk)
    requires report.Some? && report.value.res.status == APPLIED ==> Succeeded(v.runs, report.value.who, report.value.id)
    ensures Inv(v)
  {
    hide Message, JobFields, OrderFields, Sign, Digest;
    StoreKept(w, v, w.server.jobs, w.reloaded);
    StoreKept(w, v, w.server.disk, w.server.disk.Keys);
    AgentsExtended(w, v, who, js);
  }

  /** What a RunOnce leaves behind rests on runs that succeeded. */
  lemma NewEvidence(w: World, v: World, e: Event, js: JournalState, a: Attempt, sends: Sends)
    requires Inv(w) && e.AgentRun? && e.who in w.journals && e.who in w.handlers
    requires (js, a, sends) == RunOnceStep(w.journals[e.who], w.handlers[e.who], e.response, e.at, w.skew, e.h, e.w)
    requires w.runs <= v.runs
    requires a.ran && e.response.Some? ==> Run(e.who, e.response.value, e.at.poll, e.at.apply, a.outcome == OutcomeApplied) in v.runs
    ensures JournalOk(v, e.who, js.m) && JournalOk(v, e.who, js.disk)
    ensures sends.report.Some? && sends.report.value.1.status == APPLIED ==> Succeeded(v.runs, e.who, sends.report.value.0)
  {
    hide Message;
    assert JournalOk(w, e.who, w.journals[e.who].m) && JournalOk(w, e.who, w.journals[e.who].disk);
    forall id
      ensures AppliedOk(js.m, id) || AppliedOk(js.disk, id) ==> Succeeded(v.runs, e.who, id)
      ensures sends.report.Some? && sends.report.value.0 == id && sends.report.value.1.status == APPLIED ==> Succeeded(v.runs, e.who, id)
    {
      EvidenceOfApplied(w.journals[e.who], w.handlers[e.who], e.response, e.at, w.skew, e.h, e.w, id);
    }
  }

  lemma AgentRunKeeps(w: World, e: Event)
    requires Inv(w) && e.AgentRun?
    requires e.who in w.journals && e.who in w.handlers && (e.response.Some? ==> Released(e.response.value.signature, w.approvals))
    ensures Inv(DoRun(w, e))
  {
    hide Message, JobFields, OrderFields, Sign, Digest;
    var v := DoRun(w, e);
    var (js, a, sends) := RunOnceStep(w.journals[e.who], w.handlers[e.who], e.response, e.at, w.skew, e.h, e.w);
    EvidenceOfApplied(w.journals[e.who], w.handlers[e.who], e.response, e.at, w.skew, e.h, e.w, "");
    var ran := if a.ran then Some(Run(e.who, e.response.value, e.at.poll, e.at.apply, a.outcome == OutcomeApplied)) else None;
    var report := if sends.report.Some? then Some(Sent(e.who, sends.report.value.0, sends.report.value.1)) else None;
    NewEvidence(w, v, e, js, a, sends);
    if a.ran { NewRunOk(w, v, ran.value); }
    AgentStepKeeps(w, v, e.who, js, ran, report);
  }

  lemma AgentRestartKeeps(w: World, e: Event)
    requires Inv(w) && e.AgentRestart?
    requires e.who in w.journals
    ensures Inv(DoRestart(w, e))
  {
    hide Message, JobFields, OrderFields, Sign, Digest;
    var v := DoRestart(w, e);
    StoreKept(w, v, w.server.jobs, w.reloaded);
    StoreKept(w, v, w.server.disk, w.server.disk.Keys);
    forall r | r in v.runs ensures RunOk(v, r) { assert RunOk(w, r); }
    forall who | who in v.journals ensures JournalOk(v, who, v.journals[who].m) && JournalOk(v, who, v.journals[who].disk) {
      assert JournalOk(w, who, w.journals[who].m) && JournalOk(w, who, w.journals[who].disk);
    }
  }

  lemma StepKeeps(w: World, e: Event)
    requires Inv(w) && Enabled(w, e)
    ensures Inv(Do(w, e))
  {
    hide Message, JobFields, OrderFields, Sign, Digest;
    match e
    case Enqueue(_, _, _, _, _) => EnqueueKeeps(w, e);
    case Approve(_, _, _, _) => ApproveKeeps(w, e);
    case Poll(_, _, _, _) => PollKeeps(w, e);
    case Reject(_, _, _, _) => RejectKeeps(w, e);
    case Ack(_, _, _, _) => AckKeeps(w, e);
    case Report(_, _, _) => ReportKeeps(w, e);
    case Verify(_, _) => VerifyKeeps(w, e);
    case Reap(_, _, _) => ReapKeeps(w, e);
    case CrashReload => CrashKeeps(w);
    case AgentRun(_, _, _, _, _) => AgentRunKeeps(w, e);
    case AgentRestart(_, _) => AgentRestartKeeps(w, e);
  }

  // ---- runs ----

  ghost predicate Next(w: World, e: Event, v: World) {
    Enabled(w, e) && v == Do(w, e)
  }

  /** ws is a run: it starts fresh and each world follows from the one before by an enabled event. */
  ghost predicate IsRun(ws: seq<World>, es: seq<Event>) {
    && |ws| == |es| + 1 && Init(ws[0])
    && forall i :: 0 <= i < |es| ==> Next(ws[i], es[i], ws[i + 1])
  }

  lemma {:induction false} RunsKeepInvariant(ws: seq<World>, es: seq<Event>, n: nat)
    requires IsRun(ws, es) && n < |ws|
    ensures Inv(ws[n])
    decreases n
  {
    hide Message, JobFields, OrderFields, Sign, Digest;
    if n > 0 {
      RunsKeepInvariant(ws, es, n - 1);
      assert Next(ws[n - 1], es[n - 1], ws[n]);
      StepKeeps(ws[n - 1], es[n - 1]);
    }
  }

  // ---- what the protocol promises, in every run ----

  /** Every handler run, on whatever the network delivered, was on an order that in all thirteen
      signed fields and in its payload is a job an operator approved, and inside its window. */
  lemma HandlersRunOnlyApprovedJobs(ws: seq<World>, es: seq<Event>, n: nat, r: Run)
    requires IsRun(ws, es) && n < |ws| && r in ws[n].runs
    ensures exists a :: a in ws[n].approvals && OrderFields(r.order) == JobFields(a) && r.order.payload == a.payload
    ensures VerifyAt(r.order, r.polledAt, ws[n].skew)
    ensures r.order.expiresAt != 0 ==> r.polledAt <= r.order.expiresAt + ws[n].skew
    ensures r.order.notBefore <= r.appliedAt && (r.order.notAfter != 0 ==> r.appliedAt <= r.order.notAfter)
  {
    hide Message, JobFields, OrderFields, Sign, Digest;
    RunsKeepInvariant(ws, es, n);
    assert RunOk(ws[n], r);
  }

  /** The run's order was polled neither before its issue nor after its expiry, up to the skew, and run inside
      its window; and so, up to the second the signature cuts times to, for the approval's own times. */
  ghost predicate InTime(a: Job, r: Run, skew: nat) {
    && (a.issuedAt != 0 ==> a.issuedAt < r.polledAt + skew + SECOND)
    && (a.expiresAt != 0 ==> r.polledAt < a.expiresAt + skew + SECOND)
    && (a.notBefore != 0 ==> a.notBefore < r.appliedAt + SECOND)
    && (a.notAfter != 0 ==> r.appliedAt < a.notAfter + SECOND)
  }

  /** No handler runs on an order that is not yet issued, has expired or is outside its window, nor long before
      or after what was approved: on every order of every run, and on the approval behind it. */
  lemma RunsAreInTime(ws: seq<World>, es: seq<Event>, n: nat, r: Run)
    requires IsRun(ws, es) && n < |ws| && r in ws[n].runs
    ensures var o, skew := r.order, ws[n].skew;
      && (o.issuedAt != 0 ==> o.issuedAt <= r.polledAt + skew) && (o.expiresAt != 0 ==> r.polledAt <= o.expiresAt + skew)
      && (o.notBefore != 0 ==> o.notBefore <= r.appliedAt) && (o.notAfter != 0 ==> r.appliedAt <= o.notAfter)
    ensures exists a :: a in ws[n].approvals && OrderFields(r.order) == JobFields(a) && r.order.payload == a.payload && InTime(a, r, ws[n].skew)
  {
    hide Message, Rfc3339, Sign, Digest, RemediationCanonical.Verify;
    RunsKeepInvariant(ws, es, n);
    assert RunOk(ws[n], r);
    var a :| a in ws[n].approvals && OrderFields(r.order) == JobFields(a) && r.order.payload == a.payload;
    var s, t := OrderFields(r.order), JobFields(a);
    assert s[7] == t[7] && s[8] == t[8] && s[9] == t[9] && s[10] == t[10];
    Rfc3339Second(r.order.issuedAt, a.issuedAt);
    Rfc3339Second(r.order.notBefore, a.notBefore);
    Rfc3339Second(r.order.notAfter, a.notAfter);
    Rfc3339Second(r.order.expiresAt, a.expiresAt);
  }

  lemma FieldsGiveId(j: Job, o: Order)
    ensures JobFields(j)[1] == j.jobId && OrderFields(o)[1] == o.jobId
  {
    hide Message;
  }

  /** The run and the approval behind an applied job. */
  ghost predicate RanAs(r: Run, a: Job, j: Job) {
    && r.ok && r.who == Ident(j.agentId, j.tenant) && OrderFields(r.order) == JobFields(a) && r.order.payload == a.payload == j.payload
    && j.signature == Sign(a) && (JobFields(j) == JobFields(a) || JobFields(j) == JobFields(Transcribed(a)))
    && (ValidUtf8(a.approvedBy) ==> OrderFields(r.order) == JobFields(j))
  }

  lemma AppliedHasRun(w: World, id: string, j: Job, filed: bool)
    requires Inv(w) && JobOk(w, id, j, filed) && (j.state == Applied || j.state == Verified)
    ensures exists r, a :: r in w.runs && a in w.approvals && RanAs(r, a, j)
  {
    hide Message, JobFields, OrderFields, Sign, Digest, VerifyAt, Transcribed, ValidUtf8;
    var r :| r in w.runs && r.who == Ident(j.agentId, j.tenant) && r.order.jobId == id && r.ok;
    assert RunOk(w, r);
    var a :| a in w.approvals && Signs(a, j, filed);
    var b :| b in w.approvals && OrderFields(r.order) == JobFields(b) && r.order.payload == b.payload;
    FieldsSurvive(a);
    SignedId(a, j, filed);
    FieldsGiveId(b, r.order);
    assert a == b;
    assert RanAs(r, a, j);
  }

  /** The approval behind a job has its id. */
  lemma SignedId(a: Job, j: Job, filed: bool)
    requires Signs(a, j, filed) && TextOk(a)
    ensures a.jobId == j.jobId
  {
    hide Message, Sign, Transcoded, ValidUtf8, Rfc3339;
    TextSurvives(a);
    assert JobFields(j)[1] == j.jobId && JobFields(a)[1] == a.jobId && JobFields(Transcribed(a))[1] == a.jobId;
  }

  /** A job the server holds as APPLIED or VERIFIED, in memory or on disk, was run without error by the agent
      it names, on the approved order with its signature and payload; that order has the job's own signed
      fields, but for the spelling of an approver that the file could not hold. */
  lemma AppliedJobsWereRun(ws: seq<World>, es: seq<Event>, n: nat, id: string, j: Job)
    requires IsRun(ws, es) && n < |ws|
    requires (id in ws[n].server.jobs && j == ws[n].server.jobs[id]) || (id in ws[n].server.disk && j == ws[n].server.disk[id])
    requires j.state == Applied || j.state == Verified
    ensures exists r, a :: r in ws[n].runs && a in ws[n].approvals && RanAs(r, a, j)
  {
    hide Message, RanAs;
    RunsKeepInvariant(ws, es, n);
    AppliedHasRun(ws[n], id, j, !(id in ws[n].server.jobs && j == ws[n].server.jobs[id]) || id in ws[n].reloaded);
  }

  lemma SignatureIffValid(a: Job, j: Job, filed: bool)
    requires Signs(a, j, filed) && TextOk(a)
    ensures j.signature == Sign(j) <==> !filed || ValidUtf8(a.approvedBy)
  {
    hide Message, JobFields, Transcribed, ValidUtf8;
    FieldsSurvive(a);
    MessageInjective(JobFields(j), JobFields(a));
  }

  /** From APPROVED to VERIFIED a job carries the signature of its approval, in memory and on disk, whatever
      saves failed and crashes happened. On disk that signature covers the job's current fields exactly when
      the approver was well-formed UTF-8; in memory also as long as the job was not read back from the file. */
  lemma SignatureCoversCurrentFields(ws: seq<World>, es: seq<Event>, n: nat, id: string)
    requires IsRun(ws, es) && n < |ws|
    ensures var j := ws[n].server.jobs;
      id in j && RequiresSignature(j[id].state) ==>
        exists a :: a in ws[n].approvals && a.jobId == id && j[id].signature == Sign(a) && j[id].payload == a.payload
          && (j[id].signature == Sign(j[id]) <==> id !in ws[n].reloaded || ValidUtf8(a.approvedBy))
    ensures var j := ws[n].server.disk;
      id in j && RequiresSignature(j[id].state) ==>
        exists a :: a in ws[n].approvals && a.jobId == id && j[id].signature == Sign(a) && j[id].payload == a.payload
          && (j[id].signature == Sign(j[id]) <==> ValidUtf8(a.approvedBy))
  {
    hide Message, JobFields, OrderFields, Sign, Digest, Transcribed, ValidUtf8, TextOk;
    RunsKeepInvariant(ws, es, n);
    var w := ws[n];
    if id in w.server.jobs && RequiresSignature(w.server.jobs[id].state) {
      assert JobOk(w, id, w.server.jobs[id], id in w.reloaded);
      var a :| a in w.approvals && Signs(a, w.server.jobs[id], id in w.reloaded);
      SignatureIffValid(a, w.server.jobs[id], id in w.reloaded);
      SignedId(a, w.server.jobs[id], id in w.reloaded);
    }
    if id in w.server.disk && RequiresSignature(w.server.disk[id].state) {
      assert JobOk(w, id, w.server.disk[id], true);
      var a :| a in w.approvals && Signs(a, w.server.disk[id], true);
      SignatureIffValid(a, w.server.disk[id], true);
      SignedId(a, w.server.disk[id], true);
    }
  }

  /** An approver sent in Latin-1 is signed as sent and filed as something else: the filed signature no longer
      covers the filed job. */
  lemma LatinApproverUnsigns(j: Job, now: Time)
    ensures var a := ApprovedJob(j, "Jos\U{e9}", now);
      a.signature == Sign(a) && Transcribed(a).signature != Sign(Transcribed(a))
  {
    hide Message, JobFields, Transcribed, ValidUtf8, TextOk;
    var a := ApprovedJob(j, "Jos\U{e9}", now);
    ApprovedIsSigned(j, "Jos\U{e9}", now);
    LatinNameIsNot();
    FieldsSurvive(a);
    TranscribedSignature(a);
    MessageInjective(JobFields(Transcribed(a)), JobFields(a));
  }

  lemma TranscribedSignature(a: Job)
    ensures Transcribed(a).signature == a.signature
  {
  }

  /** A crash loses nothing the file holds. */
  lemma ReloadDropsNothing(ws: seq<World>, es: seq<Event>, n: nat)
    requires IsRun(ws, es) && n < |ws|
    ensures Reload(ws[n].server).jobs == ws[n].server.disk
  {
    hide Message;
    RunsKeepInvariant(ws, es, n);
    ReloadIsExact(ws[n]);
  }

  /** A handed-out job is DELIVERED on disk at that moment. */
  lemma HandedOutIsDurable(w: World, e: Event)
    requires Inv(w) && e.Poll? && Enabled(w, e) && w.server.durable
    ensures var (s, r) := PollStep(w.server, e.who.cn, e.who.o, e.now, e.pick, e.w);
      r.Some? ==> r.value.jobId in s.disk && s.disk[r.value.jobId] == Transcribed(r.value) && s.disk[r.value.jobId].state == Delivered
                  && Mine(r.value, e.who.cn, e.who.o) && r.value.jobId in Do(w, e).handed
  {
    hide Message;
    if e.pick.Some? {
      assert JobOk(w, e.pick.value, w.server.jobs[e.pick.value], e.pick.value in w.reloaded);
    }
  }

  lemma HandedStepGrows(w: World, e: Event, v: World)
    requires Next(w, e, v)
    ensures w.handed <= v.handed && w.server.durable == v.server.durable
  {
    hide Message, JobFields, OrderFields, Sign, Digest;
  }

  lemma {:induction false} HandedSetGrows(ws: seq<World>, es: seq<Event>, m: nat, n: nat)
    requires IsRun(ws, es) && m <= n < |ws|
    ensures ws[m].handed <= ws[n].handed && ws[m].server.durable == ws[n].server.durable
    decreases n
  {
    hide Message, JobFields, OrderFields, Sign, Digest;
    if m < n {
      HandedSetGrows(ws, es, m, n - 1);
      assert Next(ws[n - 1], es[n - 1], ws[n]);
      HandedStepGrows(ws[n - 1], es[n - 1], ws[n]);
    }
  }

  /** And in every later disk image, through failed saves and crashes, it is at DELIVERED or later
      until it is reaped. */
  lemma DeliveryStaysDurable(ws: seq<World>, es: seq<Event>, m: nat, n: nat, id: string)
    requires IsRun(ws, es) && m <= n < |ws| && ws[m].server.durable && id in ws[m].handed
    ensures id in ws[n].reaped || (id in ws[n].server.disk && Rank(ws[n].server.disk[id].state) >= Rank(Delivered))
  {
    hide Message, JobFields, OrderFields, Sign, Digest;
    RunsKeepInvariant(ws, es, n);
    HandedSetGrows(ws, es, m, n);
  }

  /** The single-job operations. */
  lemma OperationRank(w: World, e: Event, id: string)
    requires Enabled(w, e) && (e.Approve? || e.Reject? || e.Ack? || e.Report? || e.Verify?) && id in w.server.jobs
    ensures id in Do(w, e).server.jobs
    ensures Rank(w.server.jobs[id].state) <= Rank(Do(w, e).server.jobs[id].state)
    ensures Terminal(w.server.jobs[id].state) ==> Do(w, e).server.jobs[id].state == w.server.jobs[id].state
  {
    hide Message, JobFields, OrderFields, Sign, Digest;
  }

  /** Enqueue and Reap only add a new job and drop old ones. */
  lemma UntouchedJob(w: World, e: Event, id: string)
    requires Inv(w) && Enabled(w, e) && (e.Enqueue? || e.Reap? || e.AgentRun? || e.AgentRestart?)
    requires id in w.server.jobs && id in Do(w, e).server.jobs
    ensures Do(w, e).server.jobs[id] == w.server.jobs[id]
  {
    hide Message, JobFields, OrderFields, Sign, Digest;
    assert JobOk(w, id, w.server.jobs[id], id in w.reloaded);
  }

  /** Between crashes a job's rank never falls, and a terminal job keeps its state. */
  lemma RankNeverFalls(w: World, e: Event, id: string)
    requires Inv(w) && Enabled(w, e) && !e.CrashReload?
    requires id in w.server.jobs && id in Do(w, e).server.jobs
    ensures Rank(w.server.jobs[id].state) <= Rank(Do(w, e).server.jobs[id].state)
    ensures Terminal(w.server.jobs[id].state) ==> Do(w, e).server.jobs[id].state == w.server.jobs[id].state
  {
    hide Message, JobFields, OrderFields, Sign, Digest;
    if e.Poll? {
      PollRank(w.server, e.who.cn, e.who.o, e.now, w.redeliver, e.pick, e.w, id);
    } else if e.Approve? || e.Reject? || e.Ack? || e.Report? || e.Verify? {
      OperationRank(w, e, id);
    } else {
      UntouchedJob(w, e, id);
    }
  }

  /** What the agent makes of a response at time t: a verified order, or nothing it acts on. */
  predicate VerifiesAt(lay: Layout, j: Job, t: Time, skew: nat) {
    Wire(lay, j).Some? && VerifyAt(Wire(lay, j).value, t, skew)
  }

  /** An agent whose clock is within the skew of the server's verifies what Poll just handed out exactly when
      the response does not rewrite the payload, the approver was well-formed UTF-8 when the job was signed,
      and the response is within the agent's limit. */
  lemma PolledJobVerifies(ws: seq<World>, es: seq<Event>, n: nat, e: Event, t: Time, lay: Layout, a: Job)
    requires IsRun(ws, es) && n < |ws| && e.Poll? && Enabled(ws[n], e) && e.pick.Some? && a in ws[n].approvals && a.jobId == e.pick.value
    requires e.now - ws[n].skew <= t <= e.now + ws[n].skew
    ensures var r := PollStep(ws[n].server, e.who.cn, e.who.o, e.now, e.pick, e.w).1;
      && (r.Some? ==> r.value.signature == Sign(a))
      && (r.Some? ==> (VerifiesAt(lay, r.value, t, ws[n].skew) <==>
            WireSafe(r.value.payload) && ValidUtf8(a.approvedBy) && |ResponseText(lay, r.value)| <= MAX_JOB_BYTES))
  {
    hide Message, JobFields, Sign, Transcribed, ValidUtf8, WireSafe, ResponseText, HtmlEscape, Digest, OrderFields;
    RunsKeepInvariant(ws, es, n);
    var r := PollStep(ws[n].server, e.who.cn, e.who.o, e.now, e.pick, e.w).1;
    if r.Some? {
      PolledIs(ws[n], e, r.value, a);
      DeliveredVerifies(lay, r.value, a);
      if Wire(lay, r.value).Some? { WireKeepsWindow(lay, r.value); }
    }
  }

  /** A job handed out is signed as its one approval, and inside its window. */
  lemma PolledIs(w: World, e: Event, j: Job, a: Job)
    requires Inv(w) && e.Poll? && Enabled(w, e) && e.pick.Some? && a in w.approvals && a.jobId == e.pick.value
    requires Some(j) == PollStep(w.server, e.who.cn, e.who.o, e.now, e.pick, e.w).1
    ensures j.signature == Sign(a) && j.payloadSha == Digest(j.payload) && TextOk(a)
    ensures JobFields(j) == JobFields(a) || JobFields(j) == JobFields(Transcribed(a))
    ensures j.issuedAt <= e.now && (j.expiresAt != 0 ==> e.now <= j.expiresAt)
  {
    hide Message, Sign, Transcribed, ValidUtf8, Digest;
    var was := w.server.jobs[e.pick.value];
    var filed := e.pick.value in w.reloaded;
    assert JobOk(w, e.pick.value, was, filed);
    assert j == was.(state := Delivered, deliveredAt := e.now) && JobFields(j) == JobFields(was);
    var b :| b in w.approvals && Signs(b, was, filed);
    SignedId(b, was, filed);
    assert b == a;
  }

  lemma WireKeepsWindow(lay: Layout, j: Job)
    requires Wire(lay, j).Some?
    ensures Wire(lay, j).value.issuedAt == j.issuedAt && Wire(lay, j).value.expiresAt == j.expiresAt
  {
    hide ResponseText, HtmlEscape, Transcoded;
  }

  /** The concrete payload that never reaches a handler: a configuration value holding markup. */
  lemma MarkupPayloadNeverVerifies(j: Job, t: Time, skew: nat, lay: Layout, a: Job)
    requires j.payload == "{\"v\":\"<on>\"}" && j.signature == Sign(a) && j.payloadSha == Digest(j.payload) && TextOk(a)
    requires JobFields(j) == JobFields(a) || JobFields(j) == JobFields(Transcribed(a))
    ensures !VerifiesAt(lay, j, t, skew)
  {
    hide Message, ResponseText, HtmlEscape, Transcribed, ValidUtf8, TextOk, JobFields;
    assert Markup(j.payload[6]);
    DeliveredVerifies(lay, j, a);
  }

  /** And the approver that keeps any job from its handler. */
  lemma LatinApproverNeverVerifies(j: Job, now: Time, t: Time, skew: nat, lay: Layout)
    requires TextOk(j) && j.payloadSha == Digest(j.payload)
    ensures !VerifiesAt(lay, ApprovedJob(j, "Jos\U{e9}", now), t, skew)
  {
    hide Message, ResponseText, HtmlEscape, Transcribed, ValidUtf8, JobFields, WireSafe;
    ApprovedIsSigned(j, "Jos\U{e9}", now);
    LatinNameIsNot();
    var a := ApprovedJob(j, "Jos\U{e9}", now);
    DeliveredVerifies(lay, a, a);
  }
}
