/** The scan reconciler, ingest/scanlaunch/reconciler.go: one tick over a snapshot of the registry.

    The bridge to the scanner, the findings cache, the clock and the outcome of each save are an Env.
    ScanRuns lets the HTTP handlers in between the reconciler's steps. */
module ScanReconciler {
  import opened Prelude
  import opened ScanRegistry

  datatype Bridge = Bridge(ok: bool, status: string, targetId: string, taskId: string, reportId: string, progress: int, error: string)

  /** The outside world as one tick finds it: the bridge's answer to a verb on a job, whether its
      findings could be written, the clock at each reading, and whether its save succeeds. */
  datatype Env = Env(reply: (string, Job) -> Bridge, written: Job -> bool, now: (string, Job) -> nat, saved: Job -> bool)

  datatype Config = Config(maxConcurrent: int, maxDuration: int, retention: int)

  /** What the reconciler writes into a job's stored record. */
  datatype Action =
    | MarkStopped | MarkExpired | MarkFailed(error: string)
    | MarkRunning(targetId: string, taskId: string, reportId: string)
    | MarkCompleted(reportId: string) | MarkProgress(progress: int, reportId: string)
    | Nothing

  datatype Phase = Stops | Polls | Launches

  datatype Call = Call(verb: string, job: Job)

  /** The registry in memory and in its file. */
  datatype Store = Store(jobs: Jobs, disk: Jobs)

  datatype Progress = Progress(store: Store, slots: int, calls: seq<Call>)

  function TruncErr(s: string): string {
    if |s| > 500 then s[..500] else s
  }

  function Mutate(a: Action, j: Job, now: nat): Job {
    match a
    case MarkStopped => j.(state := Stopped, completedAt := now)
    case MarkExpired => j.(state := Expired, completedAt := now)
    case MarkFailed(e) => j.(state := Failed, error := e, completedAt := now)
    case MarkRunning(t, k, r) => j.(state := Running, targetId := t, taskId := k, reportId := r, startedAt := now, error := "")
    case MarkCompleted(r) => j.(state := Completed, progress := 100, reportId := if r != "" then r else j.reportId, completedAt := now)
    case MarkProgress(p, r) => j.(progress := p, reportId := if r != "" then r else j.reportId)
    case Nothing => j
  }

  function Applied(s: Store, id: string, a: Action, now: nat, saved: bool): Store {
    if a == Nothing || id !in s.jobs then s
    else
      var t := s.jobs[id := Mutate(a, s.jobs[id], now)];
      Store(t, if saved then t else s.disk)
  }

  // ---- decisions ----

  predicate Due(p: Phase, j: Job) {
    match p
    case Stops => !Terminal(j.state) && j.stop
    case Polls => j.state == Running && !j.stop
    case Launches => j.state == Pending && !j.stop
  }

  predicate PastCap(j: Job, now: nat, maxDuration: int) {
    j.startedAt != 0 && now - j.startedAt > maxDuration
  }

  predicate StillRunning(status: string) {
    status != "Done" && status != "Stopped" && status != "Interrupted" && status != "Failed"
  }

  function ActionFor(p: Phase, j: Job, env: Env, cfg: Config): Action {
    match p
    case Stops => MarkStopped
    case Polls =>
      var r := env.reply("status", j);
      if !r.ok then Nothing
      else if r.status == "Done" then
        if env.reply("fetch", j).ok && env.written(j) then MarkCompleted(r.reportId) else Nothing
      else if r.status == "Stopped" then MarkStopped
      else if !StillRunning(r.status) then MarkFailed("scan " + r.status)
      else if PastCap(j, env.now("cap", j), cfg.maxDuration) then MarkExpired
      else MarkProgress(r.progress, r.reportId)
    case Launches =>
      var r := env.reply("launch", j);
      if r.ok then MarkRunning(r.targetId, r.taskId, r.reportId) else MarkFailed(TruncErr(r.error))
  }

  function CallsFor(p: Phase, j: Job, env: Env, cfg: Config): seq<Call> {
    match p
    case Stops => if j.state == Running then [Call("stop", j)] else []
    case Polls =>
      var r := env.reply("status", j);
      [Call("status", j)] +
      (if r.ok && r.status == "Done" then [Call("fetch", j)]
       else if r.ok && StillRunning(r.status) && PastCap(j, env.now("cap", j), cfg.maxDuration) then [Call("stop", j)]
       else [])
    case Launches => [Call("launch", j)]
  }

  // ---- a tick nobody interferes with ----

  predicate Acts(p: Phase, slots: int, j: Job) {
    Due(p, j) && (p == Launches ==> slots > 0)
  }

  function SlotsAfter(p: Phase, slots: int, a: Action): int {
    if p == Launches && a.MarkRunning? then slots - 1 else slots
  }

  function Turn(p: Phase, g: Progress, j: Job, env: Env, cfg: Config): Progress {
    if Acts(p, g.slots, j) then
      var a := ActionFor(p, j, env, cfg);
      Progress(Applied(g.store, j.id, a, env.now("update", j), env.saved(j)), SlotsAfter(p, g.slots, a), g.calls + CallsFor(p, j, env, cfg))
    else g
  }

  function Turns(p: Phase, g: Progress, list: seq<Job>, env: Env, cfg: Config): Progress
    decreases |list|
  {
    if list == [] then g else Turn(p, Turns(p, g, list[..|list| - 1], env, cfg), list[|list| - 1], env, cfg)
  }

  function ReapStore(s: Store, ttl: int, now: int, saved: bool): Store {
    var t := Reaped(s.jobs, ttl, now);
    Store(t, if saved && |t| != |s.jobs| then t else s.disk)
  }

  function TickAlone(s: Store, list: seq<Job>, env: Env, cfg: Config, reapAt: nat, reapSaved: bool): Progress {
    var a := Turns(Stops, Progress(s, 0, []), list, env, cfg);
    var b := Turns(Polls, a.(slots := |RunningIds(a.store.jobs)|), list, env, cfg);
    var c := Turns(Launches, b.(slots := cfg.maxConcurrent - b.slots), list, env, cfg);
    c.(store := ReapStore(c.store, cfg.retention, reapAt, reapSaved))
  }

  lemma {:induction false} PollsKeepSlots(g: Progress, list: seq<Job>, env: Env, cfg: Config)
    ensures Turns(Polls, g, list, env, cfg).slots == g.slots
    decreases |list|
  {
    if list != [] { PollsKeepSlots(g, list[..|list| - 1], env, cfg); }
  }

  lemma {:induction false} NoSlotsNoLaunch(g: Progress, list: seq<Job>, i: nat, env: Env, cfg: Config)
    requires i <= |list| && Turns(Launches, g, list[..i], env, cfg).slots <= 0
    ensures Turns(Launches, g, list, env, cfg) == Turns(Launches, g, list[..i], env, cfg)
    decreases |list|
  {
    if i < |list| {
      var front := list[..|list| - 1];
      assert front[..i] == list[..i];
      NoSlotsNoLaunch(g, front, i, env, cfg);
    } else {
      assert list[..i] == list;
    }
  }

  // ---- the class ----

  class Reconciler {
    const reg: Registry
    const cfg: Config
    var calls: seq<Call>

    constructor (reg: Registry, cfg: Config)
      ensures this.reg == reg && this.cfg == cfg && calls == []
    {
      this.reg, this.cfg, calls := reg, cfg, [];
    }

    ghost function State(): Store
      reads reg
    {
      Store(reg.jobs, reg.disk)
    }

    method Ask(verb: string, j: Job, env: Env) returns (r: Bridge)
      modifies this`calls
      ensures r == env.reply(verb, j) && calls == old(calls) + [Call(verb, j)]
    {
      calls := calls + [Call(verb, j)];
      r := env.reply(verb, j);
    }

    method Write(j: Job, a: Action, env: Env)
      requires a != Nothing
      modifies reg
      ensures State() == Applied(old(State()), j.id, a, env.now("update", j), env.saved(j))
    {
      var now := env.now("update", j);
      var _ := reg.Update(j.id, x => Mutate(a, x, now), env.saved(j));
    }

    method Launch(j: Job, env: Env) returns (launched: bool)
      modifies reg, this`calls
      ensures var a := ActionFor(Launches, j, env, cfg);
        && launched == a.MarkRunning?
        && State() == Applied(old(State()), j.id, a, env.now("update", j), env.saved(j))
      ensures calls == old(calls) + CallsFor(Launches, j, env, cfg)
    {
      var r := Ask("launch", j, env);
      if !r.ok {
        Write(j, MarkFailed(TruncErr(r.error)), env);
        return false;
      }
      Write(j, MarkRunning(r.targetId, r.taskId, r.reportId), env);
      launched := true;
    }

    method Poll(j: Job, env: Env)
      modifies reg, this`calls
      ensures State() == Applied(old(State()), j.id, ActionFor(Polls, j, env, cfg), env.now("update", j), env.saved(j))
      ensures calls == old(calls) + CallsFor(Polls, j, env, cfg)
    {
      var r := Ask("status", j, env);
      if !r.ok { return; }
      if r.status == "Done" {
        Complete(j, r, env);
      } else if r.status == "Stopped" {
        Write(j, MarkStopped, env);
      } else if r.status == "Interrupted" || r.status == "Failed" {
        Write(j, MarkFailed("scan " + r.status), env);
      } else if j.startedAt != 0 && env.now("cap", j) - j.startedAt > cfg.maxDuration {
        var _ := Ask("stop", j, env);
        Write(j, MarkExpired, env);
      } else {
        Write(j, MarkProgress(r.progress, r.reportId), env);
      }
    }

    /** Fetches the report of a finished scan and caches its findings before marking it. */
    method Complete(j: Job, status: Bridge, env: Env)
      modifies reg, this`calls
      ensures State() == if env.reply("fetch", j).ok && env.written(j)
        then Applied(old(State()), j.id, MarkCompleted(status.reportId), env.now("update", j), env.saved(j))
        else old(State())
      ensures calls == old(calls) + [Call("fetch", j)]
    {
      var r := Ask("fetch", j, env);
      if !r.ok { return; }
      if !env.written(j) { return; }
      Write(j, MarkCompleted(status.reportId), env);
    }

    method Stop(j: Job, env: Env)
      modifies reg, this`calls
      ensures State() == Applied(old(State()), j.id, MarkStopped, env.now("update", j), env.saved(j))
      ensures calls == old(calls) + CallsFor(Stops, j, env, cfg)
    {
      if j.state == Running { var _ := Ask("stop", j, env); }
      Write(j, MarkStopped, env);
    }

    /** The registry and the call log stand where g left them, counted from c0. */
    ghost predicate Follows(c0: seq<Call>, g: Progress)
      reads this, reg
    {
      State() == g.store && calls == c0 + g.calls
    }

    method StopAll(jobs: seq<Job>, env: Env, ghost c0: seq<Call>, ghost g: Progress)
      requires Follows(c0, g)
      modifies reg, this`calls
      ensures Follows(c0, Turns(Stops, g, jobs, env, cfg))
    {
      hide CallsFor, Applied, Turns;
      NoTurns(Stops, g, jobs, env, cfg);
      for i := 0 to |jobs|
        invariant Follows(c0, Turns(Stops, g, jobs[..i], env, cfg))
      {
        NextTurn(Stops, g, jobs, i, env, cfg);
        if !Terminal(jobs[i].state) {
          if jobs[i].stop { Stop(jobs[i], env); }
        }
      }
      assert jobs[..|jobs|] == jobs;
    }

    method PollAll(jobs: seq<Job>, env: Env, ghost c0: seq<Call>, ghost g: Progress)
      requires Follows(c0, g)
      modifies reg, this`calls
      ensures Follows(c0, Turns(Polls, g, jobs, env, cfg))
    {
      hide ActionFor, CallsFor, Applied, Turns;
      NoTurns(Polls, g, jobs, env, cfg);
      for i := 0 to |jobs|
        invariant Follows(c0, Turns(Polls, g, jobs[..i], env, cfg))
      {
        NextTurn(Polls, g, jobs, i, env, cfg);
        if jobs[i].state == Running && !jobs[i].stop { Poll(jobs[i], env); }
      }
      assert jobs[..|jobs|] == jobs;
    }

    method LaunchAll(jobs: seq<Job>, free: int, env: Env, ghost c0: seq<Call>, ghost g: Progress)
      requires Follows(c0, g) && g.slots == free
      modifies reg, this`calls
      ensures Follows(c0, Turns(Launches, g, jobs, env, cfg))
    {
      hide ActionFor, CallsFor, Applied, Turns;
      var slots := free;
      NoTurns(Launches, g, jobs, env, cfg);
      for i := 0 to |jobs|
        invariant Follows(c0, Turns(Launches, g, jobs[..i], env, cfg)) && Turns(Launches, g, jobs[..i], env, cfg).slots == slots
      {
        if slots <= 0 {
          NoSlotsNoLaunch(g, jobs, i, env, cfg);
          return;
        }
        NextTurn(Launches, g, jobs, i, env, cfg);
        if jobs[i].state == Pending && !jobs[i].stop {
          var launched := Launch(jobs[i], env);
          if launched { slots := slots - 1; }
        }
      }
      assert jobs[..|jobs|] == jobs;
    }

    /** Stops first, then polls, then launches up to the free slots, then reaps; the slots are counted
        between the stops and the polls. */
    method Tick(env: Env, reapAt: nat, reapSaved: bool) returns (ghost list: seq<Job>)
      requires JobsOk(reg.jobs)
      modifies reg, this`calls
      ensures IsListing(old(reg.jobs), list)
      ensures var t := TickAlone(old(State()), list, env, cfg, reapAt, reapSaved);
        State() == t.store && calls == old(calls) + t.calls
    {
      hide IsListing, Turns, Reaped, RunningIds, Applied, Due, CallsFor, ActionFor;
      ghost var g := Progress(State(), 0, []);
      var jobs := reg.List();
      list := jobs;
      StopAll(jobs, env, old(calls), g);
      g := Turns(Stops, g, list, env, cfg);
      var active := reg.CountActive();
      g := g.(slots := active);
      PollAll(jobs, env, old(calls), g);
      PollsKeepSlots(g, list, env, cfg);
      g := Turns(Polls, g, list, env, cfg).(slots := cfg.maxConcurrent - active);
      LaunchAll(jobs, cfg.maxConcurrent - active, env, old(calls), g);
      var _ := reg.ReapTerminal(cfg.retention, reapAt, reapSaved);
    }
  }

  lemma NoTurns(p: Phase, g: Progress, list: seq<Job>, env: Env, cfg: Config)
    ensures Turns(p, g, list[..0], env, cfg) == g
  {
  }

  lemma NextTurn(p: Phase, g: Progress, list: seq<Job>, i: nat, env: Env, cfg: Config)
    requires i < |list|
    ensures Turns(p, g, list[..i + 1], env, cfg) == Turn(p, Turns(p, g, list[..i], env, cfg), list[i], env, cfg)
  {
    assert list[..i + 1][..i] == list[..i];
  }

  // ---- a job that was reopened ----

  /** A job reopened by FindOrCreate is due for launch at the next tick exactly when its stop flag is clear;
      otherwise it is due to be stopped. */
  lemma ReopenedIsDueIff(jobs: Jobs, req: Request, tenant: string, cn: string, cooldown: int, now: nat, hit: Option<string>, rid: Option<string>, saved: bool, id: string, list: seq<Job>, k: nat)
    requires JobsOk(jobs) && Hit(jobs, req, tenant, cooldown, now, hit)
    requires id in jobs && jobs[id].history == req.history && FailedState(jobs[id].state)
    requires IsListing(CreateStep(jobs, req, tenant, cn, now, hit, rid, saved).0, list) && k < |list| && list[k].id == id
    ensures Due(Launches, list[k]) <==> !jobs[id].stop
    ensures Due(Stops, list[k]) <==> jobs[id].stop
    ensures !Due(Polls, list[k])
  {
    ReopenKeepsTheStop(jobs, req, tenant, cn, cooldown, now, hit, rid, saved, id);
  }

  /** The free slots a tick has left when its launch pass reaches list[k]. */
  function SlotsAt(s: Store, list: seq<Job>, k: nat, env: Env, cfg: Config): int
    requires k <= |list|
  {
    var a := Turns(Stops, Progress(s, 0, []), list, env, cfg);
    var b := Turns(Polls, a.(slots := |RunningIds(a.store.jobs)|), list, env, cfg);
    Turns(Launches, b.(slots := cfg.maxConcurrent - b.slots), list[..k], env, cfg).slots
  }

  lemma CallsAreOwn(p: Phase, j: Job, env: Env, cfg: Config)
    ensures forall c :: c in CallsFor(p, j, env, cfg) ==> c.job == j
  {
  }

  lemma {:induction false} NoCalls(p: Phase, g: Progress, list: seq<Job>, env: Env, cfg: Config, c: Call)
    requires c.job !in list
    ensures c in Turns(p, g, list, env, cfg).calls <==> c in g.calls
    decreases |list|
  {
    hide ActionFor, CallsFor, Applied, Acts;
    if list != [] {
      NoCalls(p, g, list[..|list| - 1], env, cfg, c);
      CallsAreOwn(p, list[|list| - 1], env, cfg);
    }
  }

  ghost predicate Apart(list: seq<Job>, k: nat)
    requires k < |list|
  {
    forall i :: 0 <= i < |list| && i != k ==> list[i].id != list[k].id
  }

  /** A phase makes the calls of list[k] exactly if it acts on it. */
  lemma {:induction false} CallLands(p: Phase, g: Progress, list: seq<Job>, k: nat, env: Env, cfg: Config, verb: string)
    requires k < |list| && Apart(list, k)
    ensures Call(verb, list[k]) in Turns(p, g, list, env, cfg).calls <==>
      Call(verb, list[k]) in g.calls || (Acts(p, Turns(p, g, list[..k], env, cfg).slots, list[k]) && Call(verb, list[k]) in CallsFor(p, list[k], env, cfg))
    decreases |list|
  {
    hide ActionFor, CallsFor, Applied, Acts;
    var n := |list| - 1;
    if k < n {
      assert list[..n][..k] == list[..k];
      CallLands(p, g, list[..n], k, env, cfg, verb);
      CallsAreOwn(p, list[n], env, cfg);
    } else {
      NoCalls(p, g, list[..n], env, cfg, Call(verb, list[k]));
    }
  }

  /** And it writes what it learned of list[k] into that job's record, and into no other. */
  lemma {:induction false} Lands(p: Phase, g: Progress, list: seq<Job>, k: nat, env: Env, cfg: Config)
    requires k < |list| && Apart(list, k) && list[k].id in g.store.jobs
    ensures var t, was := Turns(p, g, list, env, cfg).store.jobs, g.store.jobs[list[k].id];
      && list[k].id in t
      && t[list[k].id] == if Acts(p, Turns(p, g, list[..k], env, cfg).slots, list[k])
                          then Mutate(ActionFor(p, list[k], env, cfg), was, env.now("update", list[k])) else was
    decreases |list|
  {
    hide ActionFor, CallsFor, Acts;
    var n := |list| - 1;
    if k < n {
      assert list[..n][..k] == list[..k];
      Lands(p, g, list[..n], k, env, cfg);
    } else {
      NotListed(p, g, list[..n], env, cfg, list[k].id);
    }
  }

  lemma {:induction false} NotListed(p: Phase, g: Progress, list: seq<Job>, env: Env, cfg: Config, id: string)
    requires id in g.store.jobs && forall i :: 0 <= i < |list| ==> list[i].id != id
    ensures var t := Turns(p, g, list, env, cfg).store.jobs; id in t && t[id] == g.store.jobs[id]
    decreases |list|
  {
    hide ActionFor, CallsFor, Mutate, Acts;
    if list != [] { NotListed(p, g, list[..|list| - 1], env, cfg, id); }
  }

  /** Where the launch pass starts, and the whole tick short of the reaping. */
  function BeforeLaunches(s: Store, list: seq<Job>, env: Env, cfg: Config): Progress {
    var a := Turns(Stops, Progress(s, 0, []), list, env, cfg);
    var b := Turns(Polls, a.(slots := |RunningIds(a.store.jobs)|), list, env, cfg);
    b.(slots := cfg.maxConcurrent - b.slots)
  }

  /** What one tick writes into the record of list[k], and the calls it makes about it: each phase looks at
      the job as it was listed. */
  lemma TickOn(s: Store, list: seq<Job>, k: nat, env: Env, cfg: Config, verb: string)
    requires IsListing(s.jobs, list) && k < |list|
    ensures var j, b := list[k], BeforeLaunches(s, list, env, cfg);
      var c := Turns(Launches, b, list, env, cfg);
      var now := env.now("update", j);
      && j.id in c.store.jobs
      && c.store.jobs[j.id] == (
           if Due(Stops, j) then Mutate(MarkStopped, j, now)
           else if Due(Polls, j) then Mutate(ActionFor(Polls, j, env, cfg), j, now)
           else if Acts(Launches, SlotsAt(s, list, k, env, cfg), j) then Mutate(ActionFor(Launches, j, env, cfg), j, now)
           else j)
      && (Call(verb, j) in c.calls <==> (
            || (Due(Stops, j) && Call(verb, j) in CallsFor(Stops, j, env, cfg))
            || (Due(Polls, j) && Call(verb, j) in CallsFor(Polls, j, env, cfg))
            || (Acts(Launches, SlotsAt(s, list, k, env, cfg), j) && Call(verb, j) in CallsFor(Launches, j, env, cfg))))
  {
    hide Turns, CallsFor, Mutate, RunningIds, Lists;
    var g := Progress(s, 0, []);
    var a := Turns(Stops, g, list, env, cfg);
    var b0 := a.(slots := |RunningIds(a.store.jobs)|);
    var b := BeforeLaunches(s, list, env, cfg);
    Lands(Stops, g, list, k, env, cfg);
    Lands(Polls, b0, list, k, env, cfg);
    Lands(Launches, b, list, k, env, cfg);
    CallLands(Stops, g, list, k, env, cfg, verb);
    CallLands(Polls, b0, list, k, env, cfg, verb);
    CallLands(Launches, b, list, k, env, cfg, verb);
    hide ActionFor;
  }

  /** A tick launches a pending job exactly when no stop was asked for and a slot is left. */
  lemma LaunchedIff(s: Store, list: seq<Job>, k: nat, env: Env, cfg: Config, reapAt: nat, reapSaved: bool)
    requires IsListing(s.jobs, list) && k < |list| && list[k].state == Pending
    ensures Call("launch", list[k]) in TickAlone(s, list, env, cfg, reapAt, reapSaved).calls <==> !list[k].stop && SlotsAt(s, list, k, env, cfg) > 0
  {
    hide Turns, RunningIds, ReapStore, IsListing;
    TickOn(s, list, k, env, cfg, "launch");
  }

  lemma {:induction false} TurnsAddNothing(p: Phase, g: Progress, list: seq<Job>, env: Env, cfg: Config)
    ensures Turns(p, g, list, env, cfg).store.jobs.Keys == g.store.jobs.Keys
    decreases |list|
  {
    hide ActionFor, CallsFor, Mutate, Acts;
    if list != [] { TurnsAddNothing(p, g, list[..|list| - 1], env, cfg); }
  }

  lemma TickAddsNothing(s: Store, list: seq<Job>, env: Env, cfg: Config, reapAt: nat, reapSaved: bool)
    ensures TickAlone(s, list, env, cfg, reapAt, reapSaved).store.jobs.Keys <= s.jobs.Keys
  {
    hide Turns, RunningIds, Reapable;
    var a := Turns(Stops, Progress(s, 0, []), list, env, cfg);
    var b0 := a.(slots := |RunningIds(a.store.jobs)|);
    var b := Turns(Polls, b0, list, env, cfg);
    TurnsAddNothing(Stops, Progress(s, 0, []), list, env, cfg);
    TurnsAddNothing(Polls, b0, list, env, cfg);
    TurnsAddNothing(Launches, b.(slots := cfg.maxConcurrent - b.slots), list, env, cfg);
  }

  // ---- what one undisturbed tick does to each job ----

  /** The job leaves the tick as after, unless it had ended longer ago than the retention and is removed. */
  ghost predicate Leaves(s: Store, list: seq<Job>, env: Env, cfg: Config, reapAt: nat, reapSaved: bool, after: Job) {
    var t := TickAlone(s, list, env, cfg, reapAt, reapSaved).store.jobs;
    && (after.id in t ==> t[after.id] == after)
    && (after.id !in t <==> (
          && cfg.retention > 0 && 0 < after.completedAt < reapAt - cfg.retention
          && (after.state.Completed? || after.state.Failed? || after.state.Stopped? || after.state.Expired?)))
  }

  lemma LeavesAs(s: Store, list: seq<Job>, k: nat, env: Env, cfg: Config, reapAt: nat, reapSaved: bool, after: Job)
    requires IsListing(s.jobs, list) && k < |list| && after.id == list[k].id
    requires after == (
      var j := list[k];
      var now := env.now("update", j);
      if Due(Stops, j) then Mutate(MarkStopped, j, now)
      else if Due(Polls, j) then Mutate(ActionFor(Polls, j, env, cfg), j, now)
      else if Acts(Launches, SlotsAt(s, list, k, env, cfg), j) then Mutate(ActionFor(Launches, j, env, cfg), j, now)
      else j)
    ensures Leaves(s, list, env, cfg, reapAt, reapSaved, after)
  {
    hide Turns, Mutate, RunningIds, IsListing, ActionFor, Due, Acts;
    TickOn(s, list, k, env, cfg, "");
    var c := Turns(Launches, BeforeLaunches(s, list, env, cfg), list, env, cfg);
    assert TickAlone(s, list, env, cfg, reapAt, reapSaved).store == ReapStore(c.store, cfg.retention, reapAt, reapSaved);
  }

  /** The calls one tick makes about a job. */
  ghost predicate Calls(s: Store, list: seq<Job>, env: Env, cfg: Config, verb: string, j: Job) {
    Call(verb, j) in TickAlone(s, list, env, cfg, 0, true).calls
  }

  lemma CallsAs(s: Store, list: seq<Job>, k: nat, env: Env, cfg: Config, verb: string)
    requires IsListing(s.jobs, list) && k < |list|
    ensures var j := list[k];
      Calls(s, list, env, cfg, verb, j) <==> (
        || (Due(Stops, j) && Call(verb, j) in CallsFor(Stops, j, env, cfg))
        || (Due(Polls, j) && Call(verb, j) in CallsFor(Polls, j, env, cfg))
        || (Acts(Launches, SlotsAt(s, list, k, env, cfg), j) && Call(verb, j) in CallsFor(Launches, j, env, cfg)))
  {
    hide Turns, CallsFor, Mutate, RunningIds, IsListing, ActionFor, Due, Acts, ReapStore;
    TickOn(s, list, k, env, cfg, verb);
  }

  /** An unfinished job whose stop was asked for is left STOPPED, its flag still set, and the scanner is asked to
      stop it exactly if it was running. */
  lemma TickStops(s: Store, list: seq<Job>, k: nat, env: Env, cfg: Config, reapAt: nat, reapSaved: bool)
    requires IsListing(s.jobs, list) && k < |list| && list[k].stop && list[k].state in {Pending, Running}
    ensures Leaves(s, list, env, cfg, reapAt, reapSaved, list[k].(state := Stopped, completedAt := env.now("update", list[k])))
    ensures Calls(s, list, env, cfg, "stop", list[k]) <==> list[k].state == Running
    ensures forall verb :: verb != "stop" ==> !Calls(s, list, env, cfg, verb, list[k])
  {
    hide Turns, RunningIds, IsListing, Leaves, Calls, ActionFor;
    LeavesAs(s, list, k, env, cfg, reapAt, reapSaved, list[k].(state := Stopped, completedAt := env.now("update", list[k])));
    forall verb ensures Calls(s, list, env, cfg, verb, list[k]) <==> verb == "stop" && list[k].state == Running {
      CallsAs(s, list, k, env, cfg, verb);
    }
  }

  /** A running job no one asked to stop, by the scanner's word on it. Finished: COMPLETED if its report was
      fetched and cached, else as it was. Stopped, interrupted, failed: so marked. Any other word: it expires,
      with a stop call, exactly if it was started longer ago than the cap, and otherwise goes on with the
      progress reported. No word: as it was. */
  lemma TickPolls(s: Store, list: seq<Job>, k: nat, env: Env, cfg: Config, reapAt: nat, reapSaved: bool)
    requires IsListing(s.jobs, list) && k < |list| && list[k].state == Running && !list[k].stop
    ensures var j := list[k];
      var r, now, report := env.reply("status", j), env.now("update", j), if env.reply("status", j).reportId == "" then j.reportId else env.reply("status", j).reportId;
      var working := r.status !in {"Done", "Stopped", "Interrupted", "Failed"};
      var late := j.startedAt > 0 && j.startedAt + cfg.maxDuration < env.now("cap", j);
      && (!r.ok ==> Leaves(s, list, env, cfg, reapAt, reapSaved, j))
      && (r.ok && r.status == "Done" && env.reply("fetch", j).ok && env.written(j) ==>
            Leaves(s, list, env, cfg, reapAt, reapSaved, j.(state := Completed, progress := 100, reportId := report, completedAt := now)))
      && (r.ok && r.status == "Done" && !(env.reply("fetch", j).ok && env.written(j)) ==> Leaves(s, list, env, cfg, reapAt, reapSaved, j))
      && (r.ok && r.status == "Stopped" ==> Leaves(s, list, env, cfg, reapAt, reapSaved, j.(state := Stopped, completedAt := now)))
      && (r.ok && r.status in {"Interrupted", "Failed"} ==>
            Leaves(s, list, env, cfg, reapAt, reapSaved, j.(state := Failed, error := "scan " + r.status, completedAt := now)))
      && (r.ok && working && late ==> Leaves(s, list, env, cfg, reapAt, reapSaved, j.(state := Expired, completedAt := now)))
      && (r.ok && working && !late ==> Leaves(s, list, env, cfg, reapAt, reapSaved, j.(progress := r.progress, reportId := report)))
      && Calls(s, list, env, cfg, "status", j) && !Calls(s, list, env, cfg, "launch", j)
      && (Calls(s, list, env, cfg, "fetch", j) <==> r.ok && r.status == "Done")
      && (Calls(s, list, env, cfg, "stop", j) <==> r.ok && working && late)
  {
    hide Turns, RunningIds, IsListing, Leaves, Calls;
    var j := list[k];
    LeavesAs(s, list, k, env, cfg, reapAt, reapSaved, Mutate(ActionFor(Polls, j, env, cfg), j, env.now("update", j)));
    CallsAs(s, list, k, env, cfg, "status");
    CallsAs(s, list, k, env, cfg, "fetch");
    CallsAs(s, list, k, env, cfg, "stop");
    CallsAs(s, list, k, env, cfg, "launch");
  }

  /** A pending job no one asked to stop: with a slot left it is launched, and RUNNING with the scanner's ids from
      now on if the scanner took it, FAILED with the start of the scanner's error if not; without, it waits. */
  lemma TickLaunches(s: Store, list: seq<Job>, k: nat, env: Env, cfg: Config, reapAt: nat, reapSaved: bool)
    requires IsListing(s.jobs, list) && k < |list| && list[k].state == Pending && !list[k].stop
    ensures var j := list[k];
      var r, now, room := env.reply("launch", j), env.now("update", j), SlotsAt(s, list, k, env, cfg) > 0;
      && (room && r.ok ==>
            Leaves(s, list, env, cfg, reapAt, reapSaved,
                   j.(state := Running, targetId := r.targetId, taskId := r.taskId, reportId := r.reportId, startedAt := now, error := "")))
      && (room && !r.ok ==>
            Leaves(s, list, env, cfg, reapAt, reapSaved, j.(state := Failed, error := if |r.error| <= 500 then r.error else r.error[..500], completedAt := now)))
      && (!room ==> Leaves(s, list, env, cfg, reapAt, reapSaved, j))
      && (forall verb :: Calls(s, list, env, cfg, verb, j) <==> verb == "launch" && room)
  {
    hide Turns, RunningIds, IsListing, Leaves, Calls, SlotsAt;
    var j := list[k];
    LeavesAs(s, list, k, env, cfg, reapAt, reapSaved,
             if SlotsAt(s, list, k, env, cfg) > 0 then Mutate(ActionFor(Launches, j, env, cfg), j, env.now("update", j)) else j);
    forall verb ensures Calls(s, list, env, cfg, verb, j) <==> verb == "launch" && SlotsAt(s, list, k, env, cfg) > 0 {
      CallsAs(s, list, k, env, cfg, verb);
    }
  }

  /** A job that has ended is left alone. */
  lemma TickLeavesEnded(s: Store, list: seq<Job>, k: nat, env: Env, cfg: Config, reapAt: nat, reapSaved: bool)
    requires IsListing(s.jobs, list) && k < |list| && list[k].state in {Completed, Failed, Stopped, Expired}
    ensures Leaves(s, list, env, cfg, reapAt, reapSaved, list[k]) && forall verb :: !Calls(s, list, env, cfg, verb, list[k])
  {
    hide Turns, RunningIds, IsListing, Leaves, Calls, SlotsAt, ActionFor, Mutate;
    LeavesAs(s, list, k, env, cfg, reapAt, reapSaved, list[k]);
    forall verb ensures !Calls(s, list, env, cfg, verb, list[k]) { CallsAs(s, list, k, env, cfg, verb); }
  }

  /** A write changes one record, and the file exactly if it can be saved; reaping writes the file only when it
      removed something. */
  lemma FileFollows(s: Store, id: string, a: Action, now: nat, saved: bool, ttl: int)
    ensures var t := Applied(s, id, a, now, saved);
      && (id !in s.jobs || a.Nothing? ==> t == s)
      && (id in s.jobs && !a.Nothing? ==> t.jobs.Keys == s.jobs.Keys && (forall x :: x in s.jobs && x != id ==> t.jobs[x] == s.jobs[x]))
      && (id in s.jobs && !a.Nothing? ==> t.disk == if saved then t.jobs else s.disk)
    ensures var t := ReapStore(s, ttl, now, saved);
      && t.jobs == Reaped(s.jobs, ttl, now)
      && (t.jobs != s.jobs ==> t.disk == if saved then t.jobs else s.disk) && (t.jobs == s.jobs ==> t == s)
  {
    hide Reapable;
    var kept := Reaped(s.jobs, ttl, now);
    assert kept.Keys <= s.jobs.Keys;
    if |kept| == |s.jobs| {
      SameSize(kept.Keys, s.jobs.Keys);
      assert kept == s.jobs;
    }
  }

  lemma SameSize<T>(a: set<T>, b: set<T>)
    requires a <= b && |a| == |b|
    ensures a == b
  {
    assert |b - a| == |b| - |a|;
  }

  // ---- the slots ----

  lemma {:induction false} StopsRunFewer(g: Progress, list: seq<Job>, env: Env, cfg: Config)
    ensures RunningIds(Turns(Stops, g, list, env, cfg).store.jobs) <= RunningIds(g.store.jobs)
    decreases |list|
  {
    hide CallsFor;
    if list != [] { StopsRunFewer(g, list[..|list| - 1], env, cfg); }
  }

  lemma {:induction false} Fewer<T>(a: set<T>, b: set<T>)
    requires a <= b
    ensures |a| <= |b|
    decreases |a|
  {
    if a != {} {
      var x :| x in a;
      Fewer(a - {x}, b - {x});
    }
  }

  lemma {:induction false} LaunchesTakeOne(g: Progress, list: seq<Job>, env: Env, cfg: Config)
    ensures g.slots - |list| <= Turns(Launches, g, list, env, cfg).slots <= g.slots
    decreases |list|
  {
    hide ActionFor, CallsFor, Applied;
    if list != [] { LaunchesTakeOne(g, list[..|list| - 1], env, cfg); }
  }

  /** The slots left at list[k] are those not running when the tick began, less at most one for each job
      listed before it: with that many, the job is launched. */
  lemma SlotsLeft(s: Store, list: seq<Job>, k: nat, env: Env, cfg: Config)
    requires k <= |list|
    ensures SlotsAt(s, list, k, env, cfg) >= cfg.maxConcurrent - |RunningIds(s.jobs)| - k
    ensures SlotsAt(s, list, k, env, cfg) <= cfg.maxConcurrent
  {
    hide Turns, RunningIds;
    var g := Progress(s, 0, []);
    var a := Turns(Stops, g, list, env, cfg);
    var b0 := a.(slots := |RunningIds(a.store.jobs)|);
    StopsRunFewer(g, list, env, cfg);
    Fewer(RunningIds(a.store.jobs), RunningIds(s.jobs));
    PollsKeepSlots(b0, list, env, cfg);
    LaunchesTakeOne(BeforeLaunches(s, list, env, cfg), list[..k], env, cfg);
  }

  /** A slot is taken by each pending job in turn that the bridge accepts, and by no other: a refused launch leaves it. */
  lemma SlotTaken(s: Store, list: seq<Job>, k: nat, env: Env, cfg: Config)
    requires k < |list|
    ensures var free, j := SlotsAt(s, list, k, env, cfg), list[k];
      SlotsAt(s, list, k + 1, env, cfg) ==
      if j.state == Pending && !j.stop && free > 0 && env.reply("launch", j).ok then free - 1 else free
  {
    hide Turns, RunningIds;
    NextTurn(Launches, BeforeLaunches(s, list, env, cfg), list, k, env, cfg);
  }

  lemma StoppedFirst(s: Store, list: seq<Job>, id: string, env: Env, cfg: Config)
    requires IsListing(s.jobs, list) && id in s.jobs
    ensures var t := Turns(Stops, Progress(s, 0, []), list, env, cfg).store.jobs;
      id in t && (t[id].state == Running <==> s.jobs[id].state == Running && !s.jobs[id].stop)
  {
    hide Turns;
    assert Lists(list, id);
    var k: nat :| k < |list| && list[k].id == id;
    Lands(Stops, Progress(s, 0, []), list, k, env, cfg);
  }

  /** Before the first of them stand the slots of the limit, less the jobs running after the stops. */
  lemma SlotsAtFirst(s: Store, list: seq<Job>, env: Env, cfg: Config)
    requires IsListing(s.jobs, list)
    ensures exists running: set<string> ::
      && (forall id :: id in running <==> id in s.jobs && s.jobs[id].state == Running && !s.jobs[id].stop)
      && SlotsAt(s, list, 0, env, cfg) == cfg.maxConcurrent - |running|
  {
    hide RunningIds, IsListing, Turns;
    var g := Progress(s, 0, []);
    var t := Turns(Stops, g, list, env, cfg).store.jobs;
    TurnsAddNothing(Stops, g, list, env, cfg);
    forall id ensures id in RunningIds(t) <==> id in s.jobs && s.jobs[id].state == Running && !s.jobs[id].stop {
      DeletableIff(t, id, "");
      if id in s.jobs { StoppedFirst(s, list, id, env, cfg); }
    }
    PollsKeepSlots(Turns(Stops, g, list, env, cfg).(slots := |RunningIds(t)|), list, env, cfg);
    NoTurns(Launches, BeforeLaunches(s, list, env, cfg), list, env, cfg);
  }
}
