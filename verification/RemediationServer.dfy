/** The approval-gated remediation queue: control-plane/remediation/registry.go.

    Each operation is a function from the registry's state (memory and file) to the next one;
    the Registry class performs it in place and is proved to reach exactly that state. The clock,
    the random ids, JSON compaction and whether a file write succeeds are parameters. */
module RemediationServer {
  import opened Prelude
  import opened Utf8
  import opened RemediationCanonical

  const DEFAULT_RETENTION: nat := 7 * 24 * 3600 * SECOND
  const DEFAULT_REDELIVER: nat := 5 * 60 * SECOND
  const EMPTY_REPORT := "relat\U{c3}\U{b3}rio vazio"
  const DEFAULT_TTL: nat := 24 * 3600 * SECOND

  datatype Reply<+T> = Done(value: T) | NotFound | Refused

  datatype Request = Request(
    tenant: string, agentId: string, typ: string, notBefore: Time, notAfter: Time, ttl: int)

  datatype Ids = Ids(job: string, correlation: string, nonce: string)

  /** Memory and file. A registry without a path never writes the file. */
  datatype Server = Server(jobs: map<string, Job>, disk: map<string, Job>, durable: bool)

  predicate Terminal(s: JobState) {
    s == Verified || s == Failed || s == Expired || s == Rejected
  }

  predicate RequiresSignature(s: JobState) {
    s == Approved || s == Delivered || s == Acked || s == Applied || s == Verified
  }

  predicate ValidType(t: string) {
    t == "package_patch" || t == "config_hardening"
  }

  /** How far along its life a job is; every terminal state is last. */
  function Rank(s: JobState): nat {
    match s
    case PendingApproval => 0
    case Approved => 1
    case Delivered => 2
    case Acked => 3
    case Applied => 4
    case _ => 5
  }

  // ---- saving and loading ----

  predicate Saved(s: Server, writeOk: bool) {
    !s.durable || writeOk
  }

  /** The jobs as the file gives them back. */
  function Filed(jobs: map<string, Job>): map<string, Job> {
    map id | id in jobs :: Transcribed(jobs[id])
  }

  /** saveLocked: an atomic rename, or the old file. */
  function Save(s: Server, writeOk: bool): Server {
    if s.durable && writeOk then s.(disk := Filed(s.jobs)) else s
  }

  /** NewRegistry after a crash: a post-approval job without a signature is dropped. */
  function Reload(s: Server): Server {
    s.(jobs := map id | id in s.disk && !(RequiresSignature(s.disk[id].state) && s.disk[id].signature == Unsigned) :: s.disk[id])
  }

  // ---- reaping ----

  predicate Reapable(j: Job, now: Time, retention: int) {
    var r: nat := if retention <= 0 then DEFAULT_RETENTION else retention;
    Terminal(j.state) && j.createdAt < now - r
  }

  function Reaped(jobs: map<string, Job>, now: Time, retention: int): map<string, Job> {
    map id | id in jobs && !Reapable(jobs[id], now, retention) :: jobs[id]
  }

  function ReapStep(s: Server, now: Time, retention: int, writeOk: bool): Server {
    var kept := Reaped(s.jobs, now, retention);
    if kept == s.jobs then s else Save(s.(jobs := kept), writeOk)
  }

  // ---- operator operations ----

  /** A request decoded from JSON. */
  function Received(req: Request): Request {
    req.(tenant := Transcoded(req.tenant), agentId := Transcoded(req.agentId), typ := Transcoded(req.typ))
  }

  /** What randHex draws. */
  predicate Hex(s: string) {
    forall c :: c in s ==> '0' <= c <= '9' || 'a' <= c <= 'f'
  }

  function NewJob(req: Request, payload: string, ids: Ids, now: Time, defaultTtl: nat): Job {
    Job("1.0.0", ids.job, ids.correlation, req.tenant, req.agentId, req.typ, payload, Digest(payload), ids.nonce,
        PendingApproval, 0, req.notBefore, req.notAfter, now + (if req.ttl <= 0 then defaultTtl else req.ttl),
        "", 0, Unsigned, now, 0, 0, None)
  }

  predicate Acceptable(req: Request, compact: Option<string>, ids: Option<Ids>) {
    req.tenant != "" && req.agentId != "" && ValidType(req.typ) && compact.Some? && ids.Some?
  }

  function EnqueueStep(s: Server, req: Request, compact: Option<string>, ids: Option<Ids>, now: Time, defaultTtl: nat, writeOk: bool): (Server, Reply<Job>)
  {
    if !Acceptable(req, compact, ids) then (s, Refused)
    else
      var j := NewJob(req, compact.value, ids.value, now, defaultTtl);
      var kept := Reaped(s.jobs, now, 0);
      if Saved(s, writeOk) then (Save(s.(jobs := kept[j.jobId := j]), writeOk), Done(j))
      else (s.(jobs := kept - {j.jobId}), Refused)
  }

  function ApprovedJob(j: Job, approver: string, now: Time): Job {
    var a := j.(issuedAt := now, approvedBy := approver, approvedAt := now, state := Approved);
    a.(signature := Sign(a))
  }

  function ApproveStep(s: Server, id: string, approver: string, now: Time, hasSigner: bool, writeOk: bool): (Server, Reply<Job>) {
    if approver == "" then (s, Refused)
    else if id !in s.jobs then (s, NotFound)
    else if s.jobs[id].state != PendingApproval || !hasSigner then (s, Refused)
    else
      var j := s.jobs[id];
      var a := ApprovedJob(j, approver, now);
      if Saved(s, writeOk) then (Save(s.(jobs := s.jobs[id := a]), writeOk), Done(a))
      else (s.(jobs := s.jobs[id := j.(signature := Unsigned, approvedBy := "", issuedAt := 0, approvedAt := 0)]), Refused)
  }

  function RejectStep(s: Server, id: string, approver: string, now: Time, writeOk: bool): (Server, Reply<()>) {
    if id !in s.jobs then (s, NotFound)
    else if Terminal(s.jobs[id].state) then (s, Done(()))
    else
      var s1 := s.(jobs := s.jobs[id := s.jobs[id].(state := Rejected, approvedBy := approver, approvedAt := now)]);
      (Save(s1, writeOk), if Saved(s, writeOk) then Done(()) else Refused)
  }

  function VerifyStep(s: Server, id: string, writeOk: bool): (Server, bool) {
    if id !in s.jobs then (s, false)
    else if s.jobs[id].state != Applied then (s, true)
    else (Save(s.(jobs := s.jobs[id := s.jobs[id].(state := Verified)]), writeOk), true)
  }

  // ---- agent operations, each scoped to the caller's CN and O ----

  predicate Mine(j: Job, agentId: string, tenant: string) {
    j.agentId == agentId && j.tenant == tenant
  }

  predicate Lapsed(j: Job, now: Time) {
    j.expiresAt != 0 && now > j.expiresAt
  }

  predicate WindowOpen(j: Job, now: Time) {
    !(j.notBefore != 0 && now < j.notBefore) && !(j.notAfter != 0 && now > j.notAfter)
  }

  function Swept(j: Job, agentId: string, tenant: string, now: Time): Job {
    if Mine(j, agentId, tenant) && !Terminal(j.state) && Lapsed(j, now) then j.(state := Expired) else j
  }

  function SweptAll(jobs: map<string, Job>, agentId: string, tenant: string, now: Time): map<string, Job> {
    map id | id in jobs :: Swept(jobs[id], agentId, tenant, now)
  }

  predicate Eligible(j: Job, agentId: string, tenant: string, now: Time, redeliver: nat) {
    && Mine(j, agentId, tenant) && !Terminal(j.state) && !Lapsed(j, now) && WindowOpen(j, now)
    && (j.state == Approved || (j.state == Delivered && now - j.deliveredAt > redeliver))
  }

  /** What Poll may choose: an eligible job no eligible job is older than, or none when none is eligible. */
  ghost predicate MayPick(jobs: map<string, Job>, agentId: string, tenant: string, now: Time, redeliver: nat, pick: Option<string>) {
    match pick
    case None => forall id :: id in jobs ==> !Eligible(jobs[id], agentId, tenant, now, redeliver)
    case Some(p) =>
      && p in jobs && Eligible(jobs[p], agentId, tenant, now, redeliver)
      && forall id :: id in jobs && Eligible(jobs[id], agentId, tenant, now, redeliver) ==> jobs[p].createdAt <= jobs[id].createdAt
  }

  function PollStep(s: Server, agentId: string, tenant: string, now: Time, pick: Option<string>, writeOk: bool): (Server, Option<Job>)
    requires pick.Some? ==> pick.value in s.jobs
  {
    var swept := SweptAll(s.jobs, agentId, tenant, now);
    if pick == None then
      (if swept == s.jobs then s else Save(s.(jobs := swept), writeOk), None)
    else
      var j := swept[pick.value].(state := Delivered, deliveredAt := now);
      if Saved(s, writeOk) then (Save(s.(jobs := swept[pick.value := j]), writeOk), Some(j))
      else (s.(jobs := swept), None)
  }

  predicate Reachable(s: Server, id: string, agentId: string, tenant: string) {
    id in s.jobs && Mine(s.jobs[id], agentId, tenant)
  }

  function AckStep(s: Server, id: string, agentId: string, tenant: string, now: Time, writeOk: bool): (Server, bool) {
    if !Reachable(s, id, agentId, tenant) then (s, false)
    else if s.jobs[id].state != Delivered then (s, true)
    else (Save(s.(jobs := s.jobs[id := s.jobs[id].(state := Acked, ackedAt := now)]), writeOk), true)
  }

  function Stamped(res: Option<Result>, now: Time): Result {
    match res
    case None => Result("failed", EMPTY_REPORT, "", now)
    case Some(r) => r.(reportedAt := now)
  }

  function ReportStep(s: Server, id: string, agentId: string, tenant: string, res: Option<Result>, now: Time, writeOk: bool): (Server, bool) {
    if !Reachable(s, id, agentId, tenant) then (s, false)
    else
      var j := s.jobs[id];
      if j.state == Applied || Terminal(j.state) then (s, true)
      else if j.state != Delivered && j.state != Acked then (s, false)
      else
        var r := Stamped(res, now);
        var j1 := j.(result := Some(r), state := if r.status == "applied" then Applied else Failed);
        (Save(s.(jobs := s.jobs[id := j1]), writeOk), true)
  }

  // ---- the registry ----

  class Registry {
    var jobs: map<string, Job>
    var disk: map<string, Job>
    const durable: bool
    const hasSigner: bool
    const redeliver: nat
    const defaultTtl: nat

    ghost function State(): Server
      reads this
    {
      Server(jobs, disk, durable)
    }

    /** NewRegistry over an existing file. */
    constructor (file: map<string, Job>, durable: bool, hasSigner: bool, redeliver: int, defaultTtl: int)
      requires !durable ==> file == map[]
      ensures State() == Reload(Server(map[], file, durable))
      ensures this.hasSigner == hasSigner
      ensures this.redeliver == (if redeliver > 0 then redeliver else 5 * 60 * SECOND)
      ensures this.defaultTtl == (if defaultTtl > 0 then defaultTtl else 24 * 3600 * SECOND)
    {
      this.durable := durable;
      this.hasSigner := hasSigner;
      this.redeliver := if redeliver > 0 then redeliver else DEFAULT_REDELIVER;
      this.defaultTtl := if defaultTtl > 0 then defaultTtl else DEFAULT_TTL;
      disk := file;
      var loaded: map<string, Job> := map[];
      var todo := file.Keys;
      while todo != {}
        invariant todo <= file.Keys
        invariant forall id :: id in loaded <==> id in file && id !in todo && !(RequiresSignature(file[id].state) && file[id].signature == Unsigned)
        invariant forall id :: id in loaded ==> loaded[id] == file[id]
      {
        var id :| id in todo;
        todo := todo - {id};
        if !(RequiresSignature(file[id].state) && file[id].signature == Unsigned) {
          loaded := loaded[id := file[id]];
        }
      }
      jobs := loaded;
    }

    method SaveLocked(writeOk: bool) returns (ok: bool)
      modifies this`disk
      ensures ok == Saved(old(State()), writeOk) && State() == Save(old(State()), writeOk)
    {
      if !durable { return true; }
      if writeOk { disk := map id | id in jobs :: Transcribed(jobs[id]); }
      ok := writeOk;
    }

    method ReapLocked(now: Time, retention: int) returns (n: nat)
      modifies this`jobs
      ensures jobs == Reaped(old(jobs), now, retention)
      ensures n == 0 <==> jobs == old(jobs)
    {
      n := 0;
      var todo := jobs.Keys;
      ghost var was := jobs;
      while todo != {}
        invariant todo <= was.Keys
        invariant forall id :: id in jobs <==> id in was && (id in todo || !Reapable(was[id], now, retention))
        invariant forall id :: id in jobs ==> jobs[id] == was[id]
        invariant n == 0 <==> forall id :: id in was && id !in todo ==> !Reapable(was[id], now, retention)
      {
        var id :| id in todo;
        todo := todo - {id};
        if Reapable(jobs[id], now, retention) {
          jobs := jobs - {id};
          n := n + 1;
        }
      }
    }

    method Reap(now: Time, retention: int, writeOk: bool) returns (n: nat)
      modifies this
      ensures State() == ReapStep(old(State()), now, retention, writeOk)
      ensures n == 0 <==> jobs == old(jobs)
    {
      n := ReapLocked(now, retention);
      if n > 0 {
        var _ := SaveLocked(writeOk);
      }
    }

    method Enqueue(req: Request, compact: Option<string>, ids: Option<Ids>, now: Time, writeOk: bool) returns (r: Reply<Job>)
      modifies this
      ensures (State(), r) == EnqueueStep(old(State()), req, compact, ids, now, defaultTtl, writeOk)
    {
      if req.tenant == "" || req.agentId == "" { return Refused; }
      if !ValidType(req.typ) { return Refused; }
      if compact == None { return Refused; }
      if ids == None { return Refused; }
      var j := NewJob(req, compact.value, ids.value, now, defaultTtl);
      var _ := ReapLocked(now, 0);
      jobs := jobs[j.jobId := j];
      var ok := SaveLocked(writeOk);
      if !ok {
        jobs := jobs - {j.jobId};
        assert jobs == Reaped(old(jobs), now, 0) - {j.jobId};
        return Refused;
      }
      r := Done(j);
    }

    method Approve(id: string, approver: string, now: Time, writeOk: bool) returns (r: Reply<Job>)
      modifies this
      ensures (State(), r) == ApproveStep(old(State()), id, approver, now, hasSigner, writeOk)
    {
      if approver == "" { return Refused; }
      if id !in jobs { return NotFound; }
      if jobs[id].state != PendingApproval { return Refused; }
      if !hasSigner { return Refused; }
      var j := jobs[id].(issuedAt := now, approvedBy := approver, approvedAt := now, state := Approved);
      var msg := ServerCanonical(j);
      j := j.(signature := Signed(msg));
      jobs := jobs[id := j];
      var ok := SaveLocked(writeOk);
      if !ok {
        j := j.(state := PendingApproval, signature := Unsigned, approvedBy := "", issuedAt := 0, approvedAt := 0);
        jobs := jobs[id := j];
        assert jobs == old(jobs)[id := j];
        return Refused;
      }
      r := Done(j);
    }

    method Reject(id: string, approver: string, now: Time, writeOk: bool) returns (r: Reply<()>)
      modifies this
      ensures (State(), r) == RejectStep(old(State()), id, approver, now, writeOk)
    {
      if id !in jobs { return NotFound; }
      if Terminal(jobs[id].state) { return Done(()); }
      jobs := jobs[id := jobs[id].(state := Rejected, approvedBy := approver, approvedAt := now)];
      var ok := SaveLocked(writeOk);
      r := if ok then Done(()) else Refused;
    }

    /** One turn of Poll's loop: the job after the sweep, and whether it is a candidate. */
    method Visit(j: Job, agentId: string, tenant: string, now: Time) returns (after: Job, take: bool)
      ensures after == Swept(j, agentId, tenant, now)
      ensures take == Eligible(j, agentId, tenant, now, redeliver)
    {
      after, take := j, false;
      if j.agentId != agentId || j.tenant != tenant || Terminal(j.state) { return; }
      if j.expiresAt != 0 && now > j.expiresAt {
        after := j.(state := Expired);
        return;
      }
      if j.notBefore != 0 && now < j.notBefore { return; }
      if j.notAfter != 0 && now > j.notAfter { return; }
      match j.state
      case Approved => take := true;
      case Delivered => take := now - j.deliveredAt > redeliver;
      case _ =>
    }

    /** The sweep and selection loop of Poll. */
    method SweepAndSelect(agentId: string, tenant: string, now: Time) returns (eligible: seq<string>, changed: bool)
      modifies this`jobs
      ensures jobs == SweptAll(old(jobs), agentId, tenant, now)
      ensures changed <==> jobs != old(jobs)
      ensures forall id :: id in eligible <==> id in old(jobs) && Eligible(old(jobs)[id], agentId, tenant, now, redeliver)
    {
      eligible, changed := [], false;
      var todo := jobs.Keys;
      ghost var was := jobs;
      while todo != {}
        invariant todo <= was.Keys && jobs.Keys == was.Keys
        invariant forall id :: id in was ==> jobs[id] == if id in todo then was[id] else Swept(was[id], agentId, tenant, now)
        invariant changed <==> jobs != was
        invariant forall id :: id in eligible <==> id in was && id !in todo && Eligible(was[id], agentId, tenant, now, redeliver)
      {
        var id :| id in todo;
        todo := todo - {id};
        var j, take := Visit(jobs[id], agentId, tenant, now);
        if j != jobs[id] {
          jobs := jobs[id := j];
          changed := true;
        }
        if take { eligible := eligible + [id]; }
      }
    }

    /** sort.Slice by CreatedAt and element 0: an oldest of the candidates. */
    method Oldest(ids: seq<string>) returns (best: string)
      requires ids != [] && forall i :: 0 <= i < |ids| ==> ids[i] in jobs
      ensures best in ids
      ensures forall i :: 0 <= i < |ids| ==> jobs[best].createdAt <= jobs[ids[i]].createdAt
    {
      best := ids[0];
      for k := 1 to |ids|
        invariant best in ids
        invariant forall i :: 0 <= i < k ==> jobs[best].createdAt <= jobs[ids[i]].createdAt
      {
        if jobs[ids[k]].createdAt < jobs[best].createdAt { best := ids[k]; }
      }
    }

    method Poll(agentId: string, tenant: string, now: Time, writeOk: bool) returns (r: Option<Job>, ghost pick: Option<string>)
      modifies this
      ensures MayPick(old(jobs), agentId, tenant, now, redeliver, pick)
      ensures (State(), r) == PollStep(old(State()), agentId, tenant, now, pick, writeOk)
    {
      var eligible, changed := SweepAndSelect(agentId, tenant, now);
      if eligible == [] {
        if changed {
          var _ := SaveLocked(writeOk);
        }
        assert forall id :: id in old(jobs) ==> id !in eligible;
        return None, None;
      }
      forall i | 0 <= i < |eligible| ensures eligible[i] in jobs {
        assert eligible[i] in eligible;
      }
      var next := Oldest(eligible);
      pick := Some(next);
      var prev := jobs[next];
      jobs := jobs[next := prev.(state := Delivered, deliveredAt := now)];
      var j := jobs[next];
      var ok := SaveLocked(writeOk);
      if !ok {
        jobs := jobs[next := prev];
        assert jobs == SweptAll(old(jobs), agentId, tenant, now);
        return None, pick;
      }
      r := Some(j);
    }

    method Ack(id: string, agentId: string, tenant: string, now: Time, writeOk: bool) returns (found: bool)
      modifies this
      ensures (State(), found) == AckStep(old(State()), id, agentId, tenant, now, writeOk)
    {
      if id !in jobs || jobs[id].agentId != agentId || jobs[id].tenant != tenant { return false; }
      if jobs[id].state == Delivered {
        jobs := jobs[id := jobs[id].(state := Acked, ackedAt := now)];
        var _ := SaveLocked(writeOk);
      }
      found := true;
    }

    method Report(id: string, agentId: string, tenant: string, res: Option<Result>, now: Time, writeOk: bool) returns (found: bool)
      modifies this
      ensures (State(), found) == ReportStep(old(State()), id, agentId, tenant, res, now, writeOk)
    {
      if id !in jobs || jobs[id].agentId != agentId || jobs[id].tenant != tenant { return false; }
      var j := jobs[id];
      if j.state == Applied || Terminal(j.state) { return true; }
      if j.state != Delivered && j.state != Acked { return false; }
      var r := Stamped(res, now);
      jobs := jobs[id := j.(result := Some(r), state := if r.status == "applied" then Applied else Failed)];
      var _ := SaveLocked(writeOk);
      found := true;
    }

    method MarkVerified(id: string, writeOk: bool) returns (found: bool)
      modifies this
      ensures (State(), found) == VerifyStep(old(State()), id, writeOk)
    {
      if id !in jobs { return false; }
      if jobs[id].state == Applied {
        jobs := jobs[id := jobs[id].(state := Verified)];
        var _ := SaveLocked(writeOk);
      }
      found := true;
    }
  }
}
