/** The scan-job registry: ingest/scanlaunch/registry.go, types.go and the handlers of service.go that
    touch it.

    Clocks, fresh request ids and whether a save succeeds are parameters. Times are numbers, 0 is the
    unset time. */
module ScanRegistry {
  import opened Prelude

  datatype State = Pending | Running | Completed | Failed | Stopped | Expired

  predicate Terminal(s: State) {
    s == Completed || s == Failed || s == Stopped || s == Expired
  }

  predicate FailedState(s: State) {
    s == Failed || s == Stopped || s == Expired
  }

  datatype Job = Job(
    id: string, tenant: string, cn: string, history: int, target: string, hosts: seq<string>,
    targetId: string, taskId: string, reportId: string, state: State, progress: int, error: string,
    stop: bool, submittedAt: nat, startedAt: nat, completedAt: nat)

  type Jobs = map<string, Job>

  datatype Request = Request(history: int, target: string, hosts: seq<string>)

  datatype Reply = Found(job: Job) | Created(job: Job) | Refused

  // ---- what the operations do ----

  predicate Cools(j: Job, req: Request, tenant: string, cooldown: int, now: int) {
    !FailedState(j.state) && j.target == req.target && j.tenant == tenant && j.submittedAt > now - cooldown
  }

  /** The existing job FindOrCreate answers with, if any; where several qualify, any of them. */
  predicate Hit(jobs: Jobs, req: Request, tenant: string, cooldown: int, now: int, hit: Option<string>) {
    if exists id :: id in jobs && jobs[id].history == req.history then
      hit.Some? && hit.value in jobs && jobs[hit.value].history == req.history
    else if req.target != "" && cooldown > 0 && exists id :: id in jobs && Cools(jobs[id], req, tenant, cooldown, now) then
      hit.Some? && hit.value in jobs && Cools(jobs[hit.value], req, tenant, cooldown, now)
    else hit == None
  }

  function Reopened(j: Job, now: nat): Job {
    j.(state := Pending, submittedAt := now, error := "", progress := 0)
  }

  predicate Reopens(j: Job, req: Request) {
    j.history == req.history && FailedState(j.state)
  }

  function NewJob(rid: string, req: Request, tenant: string, cn: string, now: nat): Job {
    Job(rid, tenant, cn, req.history, req.target, req.hosts, "", "", "", Pending, 0, "", false, now, 0, 0)
  }

  function CreateStep(
    jobs: Jobs, req: Request, tenant: string, cn: string, now: nat, hit: Option<string>, rid: Option<string>, saved: bool): (Jobs, Reply)
    requires hit.Some? ==> hit.value in jobs
  {
    if hit.Some? then
      var j := jobs[hit.value];
      if Reopens(j, req) then (jobs[hit.value := Reopened(j, now)], Found(Reopened(j, now))) else (jobs, Found(j))
    else if rid == None then (jobs, Refused)
    else if !saved then (jobs - {rid.value}, Refused)
    else
      var j := NewJob(rid.value, req, tenant, cn, now);
      (jobs[rid.value := j], Created(j))
  }

  /** Whether FindOrCreate rewrites the file. */
  predicate Writes(jobs: Jobs, req: Request, hit: Option<string>, rid: Option<string>)
    requires hit.Some? ==> hit.value in jobs
  {
    if hit.Some? then Reopens(jobs[hit.value], req) else rid.Some?
  }

  /** A job its owner may still stop. */
  predicate Deletable(jobs: Jobs, id: string, tenant: string) {
    id in jobs && jobs[id].tenant == tenant && !Terminal(jobs[id].state)
  }

  function StopAsked(j: Job): Job {
    j.(stop := true)
  }

  function RunningIds(jobs: Jobs): set<string> {
    set id | id in jobs && jobs[id].state == Running
  }

  predicate Reapable(j: Job, ttl: int, now: int) {
    Terminal(j.state) && j.completedAt != 0 && j.completedAt < now - ttl
  }

  function Reaped(jobs: Jobs, ttl: int, now: int): Jobs {
    if ttl <= 0 then jobs else map id | id in jobs && !Reapable(jobs[id], ttl, now) :: jobs[id]
  }

  ghost predicate Filed(jobs: Jobs, list: seq<Job>) {
    forall i :: 0 <= i < |list| ==> list[i].id in jobs && jobs[list[i].id] == list[i]
  }

  ghost predicate Ordered(list: seq<Job>) {
    forall i, k :: 0 <= i < k < |list| ==> list[i].id != list[k].id && list[i].submittedAt <= list[k].submittedAt
  }

  ghost predicate Lists(list: seq<Job>, id: string) {
    exists i :: 0 <= i < |list| && list[i].id == id
  }

  /** Every job once, oldest submission first. */
  ghost predicate IsListing(jobs: Jobs, list: seq<Job>) {
    Filed(jobs, list) && Ordered(list) && forall id :: id in jobs ==> Lists(list, id)
  }

  /** Filed under their own ids, no two for one scan history. */
  ghost predicate JobsOk(jobs: Jobs) {
    && (forall id :: id in jobs ==> jobs[id].id == id)
    && (forall a, b :: a in jobs && b in jobs && jobs[a].history == jobs[b].history ==> a == b)
  }

  // ---- the class ----

  class Registry {
    var jobs: Jobs
    var disk: Jobs

    /** NewRegistry: what the file holds. */
    constructor (file: Jobs)
      ensures jobs == disk == file
    {
      jobs, disk := file, file;
    }

    method SaveLocked(saved: bool)
      modifies this`disk
      ensures disk == if saved then jobs else old(disk)
    {
      if saved { disk := jobs; }
    }

    method Get(id: string) returns (r: Option<Job>)
      ensures r == if id in jobs then Some(jobs[id]) else None
    {
      r := if id in jobs then Some(jobs[id]) else None;
    }

    method List() returns (out: seq<Job>)
      requires forall id :: id in jobs ==> jobs[id].id == id
      ensures IsListing(jobs, out)
    {
      out := [];
      var rest := jobs.Keys;
      while rest != {}
        invariant rest <= jobs.Keys
        invariant IsListing(map id | id in jobs && id !in rest :: jobs[id], out)
        decreases rest
      {
        var id :| id in rest;
        var p := |out|;
        while p > 0 && jobs[id].submittedAt < out[p - 1].submittedAt
          invariant 0 <= p <= |out|
          invariant forall k :: p <= k < |out| ==> jobs[id].submittedAt < out[k].submittedAt
        {
          p := p - 1;
        }
        InsertListing(map x | x in jobs && x !in rest :: jobs[x], out, p, jobs[id]);
        assert (map x | x in jobs && x !in rest :: jobs[x])[id := jobs[id]] == map x | x in jobs && x !in rest - {id} :: jobs[x];
        out := out[..p] + [jobs[id]] + out[p..];
        rest := rest - {id};
      }
      assert (map id | id in jobs && id !in rest :: jobs[id]) == jobs;
    }

    method FindByScanHistoryLocked(history: int) returns (r: Option<string>)
      ensures r.Some? ==> r.value in jobs && jobs[r.value].history == history
      ensures r == None ==> forall id :: id in jobs ==> jobs[id].history != history
    {
      var rest := jobs.Keys;
      while rest != {}
        invariant rest <= jobs.Keys
        invariant forall id :: id in jobs && id !in rest ==> jobs[id].history != history
        decreases rest
      {
        var id :| id in rest;
        if jobs[id].history == history { return Some(id); }
        rest := rest - {id};
      }
      r := None;
    }

    method FindOrCreate(req: Request, tenant: string, cn: string, cooldown: int, now: nat, rid: Option<string>, saved: bool)
      returns (r: Reply, ghost hit: Option<string>)
      modifies this
      ensures Hit(old(jobs), req, tenant, cooldown, now, hit)
      ensures (jobs, r) == CreateStep(old(jobs), req, tenant, cn, now, hit, rid, saved)
      ensures disk == if saved && Writes(old(jobs), req, hit, rid) then jobs else old(disk)
    {
      hit := None;
      var existing := FindByScanHistoryLocked(req.history);
      if existing.Some? {
        hit := existing;
        r := Found(jobs[existing.value]);
        if FailedState(r.job.state) {
          jobs := jobs[existing.value := r.job.(state := Pending, submittedAt := now, error := "", progress := 0)];
          r := Found(jobs[existing.value]);
          SaveLocked(saved);
        }
        return;
      }
      if req.target != "" && cooldown > 0 {
        var rest := jobs.Keys;
        while rest != {}
          invariant rest <= jobs.Keys
          invariant forall id :: id in jobs && id !in rest ==> !Cools(jobs[id], req, tenant, cooldown, now)
          decreases rest
        {
          var id :| id in rest;
          var j := jobs[id];
          rest := rest - {id};
          if !FailedState(j.state) {
            if j.target == req.target && j.tenant == tenant && j.submittedAt > now - cooldown {
              hit := Some(id);
              r := Found(j);
              return;
            }
          }
        }
      }
      if rid == None { r := Refused; return; }
      var nj := NewJob(rid.value, req, tenant, cn, now);
      jobs := jobs[rid.value := nj];
      SaveLocked(saved);
      if saved { return Created(nj), None; }
      jobs := jobs - {rid.value};
      assert jobs == old(jobs) - {rid.value};
      r := Refused;
    }

    /** Update with a mutation given by its result on the stored job. */
    method Update(id: string, mutate: Job -> Job, saved: bool) returns (r: Option<Job>)
      modifies this
      ensures r == if id in old(jobs) then Some(mutate(old(jobs)[id])) else None
      ensures jobs == if id in old(jobs) then old(jobs)[id := mutate(old(jobs)[id])] else old(jobs)
      ensures disk == if id in old(jobs) && saved then jobs else old(disk)
    {
      if id !in jobs { return None; }
      jobs := jobs[id := mutate(jobs[id])];
      SaveLocked(saved);
      r := Some(jobs[id]);
    }

    method CountActive() returns (n: nat)
      ensures n == |RunningIds(jobs)|
    {
      n := 0;
      ghost var all := RunningIds(jobs);
      assert forall id :: id in jobs ==> (jobs[id].state == Running <==> id in all);
      hide RunningIds;
      var rest := jobs.Keys;
      while rest != {}
        invariant rest <= jobs.Keys && n == |all - rest|
        decreases rest
      {
        var id :| id in rest;
        CountOne(all, rest, id);
        if jobs[id].state == Running { n := n + 1; }
        rest := rest - {id};
      }
      assert all - {} == all;
    }

    method ReapTerminal(ttl: int, now: int, saved: bool) returns (n: nat)
      modifies this
      ensures jobs == Reaped(old(jobs), ttl, now)
      ensures disk == if saved && n > 0 then jobs else old(disk)
      ensures n == |old(jobs)| - |jobs|
    {
      if ttl <= 0 { return 0; }
      hide Reapable;
      var removed: set<string> := {};
      var rest := jobs.Keys;
      while rest != {}
        invariant rest <= jobs.Keys && removed <= jobs.Keys
        invariant forall id :: id in jobs && id !in rest ==> (id in removed <==> Reapable(jobs[id], ttl, now))
        invariant removed !! rest
        decreases rest
      {
        var id :| id in rest;
        if Reapable(jobs[id], ttl, now) { removed := removed + {id}; }
        rest := rest - {id};
      }
      n := |removed|;
      RemovedCount(jobs, removed);
      assert jobs - removed == Reaped(jobs, ttl, now);
      if removed == {} {
        assert jobs - removed == jobs;
        return;
      }
      jobs := jobs - removed;
      SaveLocked(saved);
    }
  }

  datatype DeleteReply = NotFound | Already(state: State) | Stopping

  class Service {
    const reg: Registry

    constructor (reg: Registry)
      ensures this.reg == reg
    {
      this.reg := reg;
    }

    /** handleDelete: look the job up under its owner, then ask for a stop; the scanner is not touched. */
    method Delete(id: string, tenant: string, saved: bool) returns (r: DeleteReply)
      modifies reg
      ensures r == if id !in old(reg.jobs) || old(reg.jobs)[id].tenant != tenant then NotFound
                   else if Terminal(old(reg.jobs)[id].state) then Already(old(reg.jobs)[id].state) else Stopping
      ensures reg.jobs == if r.Stopping? then old(reg.jobs)[id := StopAsked(old(reg.jobs)[id])] else old(reg.jobs)
      ensures reg.disk == if r.Stopping? && saved then reg.jobs else old(reg.disk)
    {
      var got := reg.Get(id);
      if got == None || got.value.tenant != tenant { return NotFound; }
      if Terminal(got.value.state) { return Already(got.value.state); }
      var _ := reg.Update(id, j => StopAsked(j), saved);
      r := Stopping;
    }
  }

  lemma CountOne(all: set<string>, rest: set<string>, id: string)
    requires id in rest
    ensures |all - (rest - {id})| == |all - rest| + (if id in all then 1 else 0)
  {
    if id in all {
      assert all - (rest - {id}) == (all - rest) + {id};
    } else {
      assert all - (rest - {id}) == all - rest;
    }
  }

  lemma RemovedCount(jobs: Jobs, removed: set<string>)
    requires removed <= jobs.Keys
    ensures |jobs - removed| == |jobs| - |removed|
  {
    assert (jobs - removed).Keys == jobs.Keys - removed;
    assert |jobs.Keys| == |jobs| && |(jobs - removed).Keys| == |jobs - removed|;
  }

  lemma InsertListing(jobs: Jobs, list: seq<Job>, p: nat, j: Job)
    requires IsListing(jobs, list) && p <= |list| && j.id !in jobs
    requires p > 0 ==> list[p - 1].submittedAt <= j.submittedAt
    requires forall k :: p <= k < |list| ==> j.submittedAt < list[k].submittedAt
    ensures IsListing(jobs[j.id := j], list[..p] + [j] + list[p..])
  {
    var out, all := list[..p] + [j] + list[p..], jobs[j.id := j];
    assert Filed(all, out) && forall k :: 0 <= k < |list| ==> list[k].id != j.id;
    InsertOrdered(list, p, j);
    forall id | id in all ensures Lists(out, id) {
      if id == j.id {
        assert out[p].id == id;
      } else {
        assert Lists(list, id);
        var i :| 0 <= i < |list| && list[i].id == id;
        assert out[if i < p then i else i + 1] == list[i];
      }
    }
  }

  lemma InsertOrdered(list: seq<Job>, p: nat, j: Job)
    requires Ordered(list) && p <= |list| && forall k :: 0 <= k < |list| ==> list[k].id != j.id
    requires p > 0 ==> list[p - 1].submittedAt <= j.submittedAt
    requires forall k :: p <= k < |list| ==> j.submittedAt < list[k].submittedAt
    ensures Ordered(list[..p] + [j] + list[p..])
  {
    var out := list[..p] + [j] + list[p..];
    forall i, k | 0 <= i < k < |out| ensures out[i].id != out[k].id && out[i].submittedAt <= out[k].submittedAt {
      var a, b := if i <= p then i else i - 1, if k <= p then k else k - 1;
      if i == p {
        assert out[i] == j && out[k] == list[b];
      } else if k == p {
        assert out[k] == j && out[i] == list[a];
        assert a < p - 1 ==> list[a].submittedAt <= list[p - 1].submittedAt;
      } else {
        assert out[i] == list[a] && out[k] == list[b] && a < b;
      }
    }
  }

  // ---- uniqueness ----

  /** One scan history, one request id: FindOrCreate only adds a job for a history that has none. */
  lemma CreateKeepsUnique(jobs: Jobs, req: Request, tenant: string, cn: string, cooldown: int, now: nat, hit: Option<string>, rid: Option<string>, saved: bool)
    requires JobsOk(jobs) && Hit(jobs, req, tenant, cooldown, now, hit) && (rid.Some? ==> rid.value !in jobs)
    ensures JobsOk(CreateStep(jobs, req, tenant, cn, now, hit, rid, saved).0)
  {
    hide Cools;
    var t := CreateStep(jobs, req, tenant, cn, now, hit, rid, saved).0;
    forall a, b | a in t && b in t && t[a].history == t[b].history ensures a == b {
      assert hit == None ==> forall id :: id in jobs ==> jobs[id].history != req.history;
    }
  }

  /** Asking again for a scan history that has a job answers with that job and creates nothing. */
  lemma ReplayFindsTheJob(jobs: Jobs, req: Request, tenant: string, cn: string, cooldown: int, now: nat, hit: Option<string>, rid: Option<string>, saved: bool, id: string)
    requires JobsOk(jobs) && Hit(jobs, req, tenant, cooldown, now, hit) && id in jobs && jobs[id].history == req.history
    ensures var (t, r) := CreateStep(jobs, req, tenant, cn, now, hit, rid, saved);
      r.Found? && r.job.id == id && t.Keys == jobs.Keys && t[id] == r.job && (!FailedState(jobs[id].state) ==> t == jobs)
  {
    assert hit.Some? && hit.value == id;
    assert jobs[id := jobs[id]] == jobs;
  }

  /** The search by scan history does not ask whose job it is: a caller is answered with another tenant's job
      exactly when the history has one, and such a call changes that job, by reopening it, exactly when it had
      failed, expired or been stopped. */
  lemma OtherTenantsJob(jobs: Jobs, req: Request, tenant: string, cn: string, cooldown: int, now: nat, hit: Option<string>, rid: Option<string>, saved: bool)
    requires JobsOk(jobs) && Hit(jobs, req, tenant, cooldown, now, hit)
    ensures var (t, r) := CreateStep(jobs, req, tenant, cn, now, hit, rid, saved);
      && (r.Found? && r.job.tenant != tenant <==> exists id :: id in jobs && jobs[id].history == req.history && jobs[id].tenant != tenant)
      && (r.Found? && r.job.tenant != tenant ==>
            && r.job.id in jobs && jobs[r.job.id].history == req.history
            && (t != jobs <==> FailedState(jobs[r.job.id].state))
            && (t != jobs ==> t == jobs[r.job.id := Reopened(jobs[r.job.id], now)]))
  {
    if hit.Some? {
      var j := jobs[hit.value];
      assert jobs[hit.value := Reopened(j, now)][hit.value] == Reopened(j, now);
    }
  }

  /** Reopening a job does not withdraw a stop asked for earlier. */
  lemma ReopenKeepsTheStop(jobs: Jobs, req: Request, tenant: string, cn: string, cooldown: int, now: nat, hit: Option<string>, rid: Option<string>, saved: bool, id: string)
    requires JobsOk(jobs) && Hit(jobs, req, tenant, cooldown, now, hit)
    requires id in jobs && jobs[id].history == req.history && FailedState(jobs[id].state)
    ensures var (t, r) := CreateStep(jobs, req, tenant, cn, now, hit, rid, saved);
      id in t && r == Found(t[id]) && t[id].state == Pending && t[id].stop == jobs[id].stop
  {
    assert hit == Some(id);
  }

  // ---- what the operations answer and leave ----

  /** A job that is waiting, running or done well. */
  predicate Good(j: Job) {
    j.state.Pending? || j.state.Running? || j.state.Completed?
  }

  /** A good job of the same tenant for the same target, submitted within the cooldown. */
  predicate Recent(j: Job, req: Request, tenant: string, cooldown: int, now: int) {
    Good(j) && j.tenant == tenant && j.target == req.target && now < j.submittedAt + cooldown
  }

  /** A request makes a new job exactly if its history has none, no recent job covers its target, an id was drawn
      and the file was saved; otherwise it is answered with the job of its history, else with a recent one,
      else refused. Of the jobs there were, only a failed, stopped or expired job of the history changes: it
      waits again, submitted now, with its error and progress cleared. */
  lemma CreateAnswers(jobs: Jobs, req: Request, tenant: string, cn: string, cooldown: int, now: nat, hit: Option<string>, rid: Option<string>, saved: bool)
    requires JobsOk(jobs) && Hit(jobs, req, tenant, cooldown, now, hit) && (rid.Some? ==> rid.value !in jobs)
    ensures var (t, r) := CreateStep(jobs, req, tenant, cn, now, hit, rid, saved);
      var known := exists id :: id in jobs && jobs[id].history == req.history;
      var covered := req.target != "" && cooldown > 0 && exists id :: id in jobs && Recent(jobs[id], req, tenant, cooldown, now);
      && (r.Created? <==> !known && !covered && rid.Some? && saved)
      && (r.Found? <==> known || covered)
      && (r.Created? ==>
            && r.job == Job(rid.value, tenant, cn, req.history, req.target, req.hosts, "", "", "", Pending, 0, "", false, now, 0, 0)
            && t == jobs[rid.value := r.job])
      && (r.Refused? ==> t == jobs)
      && (r.Found? ==>
            && r.job.id in jobs && t.Keys == jobs.Keys && t[r.job.id] == r.job
            && (forall id :: id in jobs && id != r.job.id ==> t[id] == jobs[id])
            && (known ==> r.job.history == req.history) && (!known ==> Recent(r.job, req, tenant, cooldown, now))
            && (Good(jobs[r.job.id]) || !known ==> r.job == jobs[r.job.id])
            && (!Good(jobs[r.job.id]) && known ==> r.job == jobs[r.job.id].(state := Pending, submittedAt := now, error := "", progress := 0)))
  {
    forall id | id in jobs ensures Cools(jobs[id], req, tenant, cooldown, now) <==> Recent(jobs[id], req, tenant, cooldown, now) {}
    hide Cools, Recent;
    if rid.Some? && hit == None { assert jobs - {rid.value} == jobs; }
  }

  /** A stop is taken from the job's own tenant while the job waits or runs. */
  lemma DeletableIff(jobs: Jobs, id: string, tenant: string)
    ensures Deletable(jobs, id, tenant) <==> id in jobs && jobs[id].tenant == tenant && (jobs[id].state.Pending? || jobs[id].state.Running?)
    ensures id in jobs ==> (Terminal(jobs[id].state) <==> !(jobs[id].state.Pending? || jobs[id].state.Running?))
    ensures id in jobs ==> StopAsked(jobs[id]) == jobs[id].(stop := true)
    ensures id in RunningIds(jobs) <==> id in jobs && jobs[id].state.Running?
  {
  }

  /** With a retention set, the jobs that ended before its cutoff go; everything else stays as it is. */
  lemma ReapedAre(jobs: Jobs, ttl: int, now: int)
    ensures forall id :: id in Reaped(jobs, ttl, now) <==> (
      id in jobs && !(ttl > 0 && !jobs[id].state.Pending? && !jobs[id].state.Running? && 0 < jobs[id].completedAt < now - ttl))
    ensures forall id :: id in Reaped(jobs, ttl, now) ==> Reaped(jobs, ttl, now)[id] == jobs[id]
  {
  }
}
