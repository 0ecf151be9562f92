/** The reconciler and the HTTP handlers over one registry, in every interleaving: between any two
    of the reconciler's registry accesses and bridge calls any handler may run, the reconciler works
    from the snapshot its tick began with, and the process may restart from its file. */
module ScanRuns {
  import opened Prelude
  import opened ScanRegistry
  import opened ScanReconciler

  /** Where the reconciler stands. During the polls, slots holds the number counted as active; act is
      what it will write once it gets the lock, after the bridge answered for snap[i]. */
  datatype Pc =
    | Idle
    | At(phase: Phase, snap: seq<Job>, i: nat, slots: int, act: Option<Action>)
    | Reaping

  /** deletes: handleDelete requests between their lookup and their update. used: request ids ever drawn.
      launches and reopens count, since the process started, launch calls and reopened jobs. */
  datatype World = World(
    store: Store, pc: Pc, deletes: set<string>, used: set<string>, launches: multiset<string>, reopens: multiset<string>)

  datatype Event =
    | Tick(list: seq<Job>)
    | Ask(env: Env)
    | Write(now: nat, saved: bool)
    | Skip
    | Next
    | Reap(now: nat, saved: bool)
    | Create(req: Request, tenant: string, cn: string, cooldown: int, now: nat, hit: Option<string>, rid: Option<string>, saved: bool)
    | LookDelete(id: string, tenant: string)
    | Delete(id: string, saved: bool)
    | Restart

  ghost predicate Enabled(w: World, e: Event) {
    match e
    case Tick(list) => w.pc == Idle && IsListing(w.store.jobs, list)
    case Ask(_) => w.pc.At? && w.pc.act == None && w.pc.i < |w.pc.snap| && Acts(w.pc.phase, w.pc.slots, w.pc.snap[w.pc.i])
    case Write(_, _) => w.pc.At? && w.pc.act.Some? && w.pc.i < |w.pc.snap|
    case Skip => w.pc.At? && w.pc.act == None && w.pc.i < |w.pc.snap| && !Acts(w.pc.phase, w.pc.slots, w.pc.snap[w.pc.i])
    case Next => w.pc.At? && w.pc.act == None && w.pc.i == |w.pc.snap|
    case Reap(_, _) => w.pc == Reaping
    case Create(req, tenant, _, cooldown, now, hit, rid, _) =>
      Hit(w.store.jobs, req, tenant, cooldown, now, hit) && (rid.Some? ==> rid.value !in w.used)
    case LookDelete(_, _) => true
    case Delete(id, _) => id in w.deletes
    case Restart => true
  }

  function DoAsk(cfg: Config, w: World, env: Env): World
    requires Enabled(w, Ask(env))
  {
    var j := w.pc.snap[w.pc.i];
    w.(pc := w.pc.(act := Some(ActionFor(w.pc.phase, j, env, cfg))),
       launches := if w.pc.phase == Launches then w.launches + multiset{j.id} else w.launches)
  }

  function DoWrite(w: World, now: nat, saved: bool): World
    requires Enabled(w, Write(now, saved))
  {
    var a, j := w.pc.act.value, w.pc.snap[w.pc.i];
    w.(store := Applied(w.store, j.id, a, now, saved), pc := w.pc.(i := w.pc.i + 1, slots := SlotsAfter(w.pc.phase, w.pc.slots, a), act := None))
  }

  function NextPc(cfg: Config, jobs: Jobs, p: Phase, snap: seq<Job>, slots: int): Pc {
    match p
    case Stops => At(Polls, snap, 0, |RunningIds(jobs)|, None)
    case Polls => At(Launches, snap, 0, cfg.maxConcurrent - slots, None)
    case Launches => Reaping
  }

  function DoCreate(w: World, e: Event): World
    requires e.Create? && Enabled(w, e)
  {
    var t := CreateStep(w.store.jobs, e.req, e.tenant, e.cn, e.now, e.hit, e.rid, e.saved).0;
    w.(store := Store(t, if e.saved && Writes(w.store.jobs, e.req, e.hit, e.rid) then t else w.store.disk),
       used := if e.rid.Some? then w.used + {e.rid.value} else w.used,
       reopens := if e.hit.Some? && Reopens(w.store.jobs[e.hit.value], e.req) then w.reopens + multiset{e.hit.value} else w.reopens)
  }

  function DoDelete(w: World, id: string, saved: bool): World {
    if id !in w.store.jobs then w.(deletes := w.deletes - {id})
    else
      var t := w.store.jobs[id := StopAsked(w.store.jobs[id])];
      w.(store := Store(t, if saved then t else w.store.disk), deletes := w.deletes - {id})
  }

  function Do(cfg: Config, w: World, e: Event): World
    requires Enabled(w, e)
  {
    match e
    case Tick(list) => w.(pc := At(Stops, list, 0, 0, None))
    case Ask(env) => DoAsk(cfg, w, env)
    case Write(now, saved) => DoWrite(w, now, saved)
    case Skip => w.(pc := w.pc.(i := w.pc.i + 1))
    case Next => w.(pc := NextPc(cfg, w.store.jobs, w.pc.phase, w.pc.snap, w.pc.slots))
    case Reap(now, saved) => w.(store := ReapStore(w.store, cfg.retention, now, saved), pc := Idle)
    case Create(_, _, _, _, _, _, _, _) => DoCreate(w, e)
    case LookDelete(id, tenant) => if Deletable(w.store.jobs, id, tenant) then w.(deletes := w.deletes + {id}) else w
    case Delete(id, saved) => DoDelete(w, id, saved)
    case Restart => World(Store(w.store.disk, w.store.disk), Idle, {}, w.used, multiset{}, multiset{})
  }

  // ---- the invariant ----

  /** The stored job is the snapshot's, but for a stop asked for since. */
  predicate Stale(stored: Job, snap: Job) {
    stored == snap.(stop := stored.stop) && (snap.stop ==> stored.stop)
  }

  /** Whether the tick may still act on snap[k]. */
  predicate DueLater(p: Phase, i: nat, k: nat, j: Job) {
    match p
    case Stops => (k >= i && Due(Stops, j)) || Due(Polls, j) || Due(Launches, j)
    case Polls => (k >= i && Due(Polls, j)) || Due(Launches, j)
    case Launches => k >= i && Due(Launches, j)
  }

  ghost predicate Distinct(snap: seq<Job>) {
    forall i, k :: 0 <= i < k < |snap| ==> snap[i].id != snap[k].id
  }

  ghost predicate Current(jobs: Jobs, p: Phase, snap: seq<Job>, i: nat) {
    forall k :: 0 <= k < |snap| && DueLater(p, i, k, snap[k]) ==> snap[k].id in jobs && Stale(jobs[snap[k].id], snap[k])
  }

  predicate Fits(p: Phase, a: Action) {
    match p
    case Stops => a == MarkStopped
    case Polls => !a.MarkRunning?
    case Launches => a.MarkRunning? || a.MarkFailed?
  }

  ghost predicate SnapOk(jobs: Jobs, pc: Pc) {
    pc.At? ==>
      && pc.i <= |pc.snap| && Distinct(pc.snap) && Current(jobs, pc.phase, pc.snap, pc.i)
      && (pc.act.Some? ==> pc.i < |pc.snap| && Acts(pc.phase, pc.slots, pc.snap[pc.i]) && Fits(pc.phase, pc.act.value))
  }

  ghost predicate SlotsOk(cfg: Config, running: nat, pc: Pc) {
    && (pc.At? && pc.phase == Polls ==> running <= pc.slots)
    && (pc.At? && pc.phase == Launches && pc.slots > 0 ==> running + pc.slots <= cfg.maxConcurrent)
  }

  predicate InFlight(pc: Pc, id: string) {
    pc.At? && pc.phase == Launches && pc.act.Some? && pc.i < |pc.snap| && pc.snap[pc.i].id == id
  }

  /** Whether a launch of this job is still to come. */
  predicate Open(jobs: Jobs, pc: Pc, id: string) {
    id in jobs && jobs[id].state == Pending && !InFlight(pc, id)
  }

  ghost predicate LaunchesOk(w: World) {
    && (forall id :: id in w.launches ==> id in w.used)
    && (forall id :: w.launches[id] + (if Open(w.store.jobs, w.pc, id) then 1 else 0) <= 1 + w.reopens[id])
  }

  ghost predicate StoreOk(jobs: Jobs, used: set<string>, bound: int) {
    JobsOk(jobs) && jobs.Keys <= used && |RunningIds(jobs)| <= bound
  }

  ghost predicate Inv(cfg: Config, bound: int, w: World) {
    && StoreOk(w.store.jobs, w.used, bound) && StoreOk(w.store.disk, w.used, bound)
    && SnapOk(w.store.jobs, w.pc) && SlotsOk(cfg, |RunningIds(w.store.jobs)|, w.pc) && LaunchesOk(w)
  }

  ghost predicate Init(w: World) {
    && JobsOk(w.store.jobs) && w.store.disk == w.store.jobs && w.pc == Idle && w.deletes == {}
    && w.used == w.store.jobs.Keys && w.launches == multiset{} && w.reopens == multiset{}
  }

  // ---- what the steps do to the registry ----

  /** Handlers add pending jobs, ask for stops and reopen failed jobs; they change nothing else. */
  ghost predicate HandlerMove(jobs: Jobs, t: Jobs) {
    && (forall id :: id in jobs ==> id in t && JobMove(jobs[id], t[id]))
    && (forall id :: id in t && id !in jobs ==> t[id].state == Pending)
  }

  predicate JobMove(j: Job, k: Job) {
    k == j || k == StopAsked(j) || (FailedState(j.state) && k.state == Pending)
  }

  lemma HandlerKeepsSnap(jobs: Jobs, t: Jobs, pc: Pc)
    requires SnapOk(jobs, pc) && HandlerMove(jobs, t)
    ensures SnapOk(t, pc) && RunningIds(t) == RunningIds(jobs)
  {
    forall id ensures id in RunningIds(t) <==> id in RunningIds(jobs) {
      if id in jobs { assert JobMove(jobs[id], t[id]); }
    }
    if pc.At? {
      forall k | 0 <= k < |pc.snap| && DueLater(pc.phase, pc.i, k, pc.snap[k])
        ensures pc.snap[k].id in t && Stale(t[pc.snap[k].id], pc.snap[k])
      {
        assert JobMove(jobs[pc.snap[k].id], t[pc.snap[k].id]);
      }
    }
  }

  /** A move that opens no job keeps the launch count. */
  lemma LaunchesKept(w: World, v: World)
    requires LaunchesOk(w) && v.launches == w.launches && v.reopens == w.reopens && w.used <= v.used
    requires forall id :: Open(v.store.jobs, v.pc, id) ==> Open(w.store.jobs, w.pc, id) || id !in w.used
    ensures LaunchesOk(v)
  {
    hide Open;
    forall id ensures v.launches[id] + (if Open(v.store.jobs, v.pc, id) then 1 else 0) <= 1 + v.reopens[id] {
      if id !in w.used { assert id !in w.launches; }
    }
  }

  lemma TickKeeps(cfg: Config, bound: int, w: World, e: Event)
    requires Inv(cfg, bound, w) && e.Tick? && Enabled(w, e)
    ensures Inv(cfg, bound, Do(cfg, w, e))
  {
    hide StoreOk, LaunchesOk, DueLater;
    LaunchesKept(w, Do(cfg, w, e));
  }

  lemma SkipKeeps(cfg: Config, bound: int, w: World, e: Event)
    requires Inv(cfg, bound, w) && e.Skip? && Enabled(w, e)
    ensures Inv(cfg, bound, Do(cfg, w, e))
  {
    hide StoreOk, LaunchesOk, RunningIds;
    LaunchesKept(w, Do(cfg, w, e));
  }

  lemma NextKeeps(cfg: Config, bound: int, w: World, e: Event)
    requires Inv(cfg, bound, w) && e.Next? && Enabled(w, e)
    ensures Inv(cfg, bound, Do(cfg, w, e))
  {
    hide StoreOk, LaunchesOk, RunningIds;
    LaunchesKept(w, Do(cfg, w, e));
  }

  lemma AskKeeps(cfg: Config, bound: int, w: World, e: Event)
    requires Inv(cfg, bound, w) && e.Ask? && Enabled(w, e)
    ensures Inv(cfg, bound, Do(cfg, w, e))
  {
    var v, j := Do(cfg, w, e), w.pc.snap[w.pc.i];
    assert w.store.jobs.Keys <= w.used;
    hide StoreOk, RunningIds;
    ActedOn(w.store.jobs, w.pc);
    if w.pc.phase == Launches {
      assert Open(w.store.jobs, w.pc, j.id) && j.id in w.used;
      assert !Open(v.store.jobs, v.pc, j.id);
    }
  }

  /** What a write does to the running jobs: only a launch adds one. */
  lemma WriteRunning(jobs: Jobs, id: string, a: Action, now: nat)
    requires id in jobs && jobs[id].id == id
    ensures var t := jobs[id := Mutate(a, jobs[id], now)];
      && (a.MarkRunning? ==> |RunningIds(t)| <= |RunningIds(jobs)| + 1)
      && (!a.MarkRunning? ==> |RunningIds(t)| <= |RunningIds(jobs)|)
  {
    var t := jobs[id := Mutate(a, jobs[id], now)];
    if a.MarkRunning? {
      assert RunningIds(t) == RunningIds(jobs) + {id};
    } else {
      Within(RunningIds(t), RunningIds(jobs));
    }
  }

  lemma {:induction false} Within<T>(a: set<T>, b: set<T>)
    requires a <= b
    ensures |a| <= |b|
    decreases |a|
  {
    if a != {} {
      var x :| x in a;
      Within(a - {x}, b - {x});
    }
  }

  /** The write lands on the job the bridge was asked about, and no job still to come is touched. */
  lemma WriteCurrent(jobs: Jobs, pc: Pc, t: Jobs, now: nat)
    requires SnapOk(jobs, pc) && pc.At? && pc.act.Some?
    requires pc.snap[pc.i].id in jobs && t == jobs[pc.snap[pc.i].id := Mutate(pc.act.value, jobs[pc.snap[pc.i].id], now)]
    ensures SnapOk(t, pc.(i := pc.i + 1, slots := SlotsAfter(pc.phase, pc.slots, pc.act.value), act := None))
  {
    var p, i := pc.phase, pc.i;
    forall k | 0 <= k < |pc.snap| && DueLater(p, i + 1, k, pc.snap[k])
      ensures pc.snap[k].id in t && Stale(t[pc.snap[k].id], pc.snap[k])
    {
      assert k != i && DueLater(p, i, k, pc.snap[k]);
      assert pc.snap[k].id != pc.snap[i].id;
    }
  }

  lemma WriteStoreOk(jobs: Jobs, used: set<string>, bound: int, id: string, a: Action, now: nat)
    requires StoreOk(jobs, used, bound) && id in jobs && (a.MarkRunning? ==> |RunningIds(jobs)| < bound)
    ensures StoreOk(jobs[id := Mutate(a, jobs[id], now)], used, bound)
  {
    hide RunningIds;
    WriteRunning(jobs, id, a, now);
    var k := Mutate(a, jobs[id], now);
    assert k.id == jobs[id].id && k.history == jobs[id].history;
    hide Mutate;
  }

  lemma WriteCloses(jobs: Jobs, pc: Pc, id: string, now: nat)
    requires SnapOk(jobs, pc) && pc.At? && pc.act.Some? && id == pc.snap[pc.i].id && id in jobs && Stale(jobs[id], pc.snap[pc.i])
    ensures Mutate(pc.act.value, jobs[id], now).state != Pending
  {
    hide Current, Distinct;
  }

  lemma WritesT(s: Store, id: string, a: Action, now: nat, saved: bool)
    requires id in s.jobs
    ensures Applied(s, id, a, now, saved).jobs == s.jobs[id := Mutate(a, s.jobs[id], now)]
    ensures Applied(s, id, a, now, saved).disk in {s.disk, s.jobs[id := Mutate(a, s.jobs[id], now)]}
  {
    assert s.jobs[id := s.jobs[id]] == s.jobs;
  }

  /** A pending write is for a job the phase acts on, still stored as the snapshot has it. */
  lemma PendingWrite(jobs: Jobs, pc: Pc)
    requires SnapOk(jobs, pc) && pc.At? && pc.act.Some?
    ensures pc.i < |pc.snap| && Due(pc.phase, pc.snap[pc.i])
    ensures pc.snap[pc.i].id in jobs && Stale(jobs[pc.snap[pc.i].id], pc.snap[pc.i])
    ensures pc.act.value.MarkRunning? ==> pc.phase == Launches && pc.slots > 0
  {
    ActedOn(jobs, pc);
  }

  lemma WriteKeeps(cfg: Config, bound: int, w: World, e: Event)
    requires Inv(cfg, bound, w) && e.Write? && Enabled(w, e) && cfg.maxConcurrent <= bound
    ensures Inv(cfg, bound, Do(cfg, w, e))
  {
    hide RunningIds, LaunchesOk, Current, Distinct, Mutate, JobsOk, StoreOk, SnapOk;
    var v, j, a := Do(cfg, w, e), w.pc.snap[w.pc.i], w.pc.act.value;
    var jobs := w.store.jobs;
    PendingWrite(jobs, w.pc);
    var t := jobs[j.id := Mutate(a, jobs[j.id], e.now)];
    WritesT(w.store, j.id, a, e.now, e.saved);
    WriteStoreOk(jobs, w.used, bound, j.id, a, e.now);
    WriteCurrent(jobs, w.pc, t, e.now);
    WriteRunning(jobs, j.id, a, e.now);
    WriteCloses(jobs, w.pc, j.id, e.now);
    LaunchesKept(w, v);
  }

  lemma ActedOn(jobs: Jobs, pc: Pc)
    requires SnapOk(jobs, pc) && pc.At? && pc.i < |pc.snap| && Due(pc.phase, pc.snap[pc.i])
    ensures pc.snap[pc.i].id in jobs && Stale(jobs[pc.snap[pc.i].id], pc.snap[pc.i])
  {
    assert DueLater(pc.phase, pc.i, pc.i, pc.snap[pc.i]);
  }

  lemma ReapKeeps(cfg: Config, bound: int, w: World, e: Event)
    requires Inv(cfg, bound, w) && e.Reap? && Enabled(w, e)
    ensures Inv(cfg, bound, Do(cfg, w, e))
  {
    hide LaunchesOk, Reapable;
    var v := Do(cfg, w, e);
    Within(RunningIds(v.store.jobs), RunningIds(w.store.jobs));
    LaunchesKept(w, v);
  }

  lemma DeleteMoves(w: World, id: string, saved: bool)
    requires JobsOk(w.store.jobs)
    ensures var t := DoDelete(w, id, saved).store.jobs; HandlerMove(w.store.jobs, t) && JobsOk(t) && t.Keys == w.store.jobs.Keys
  {
  }

  lemma DeleteKeeps(cfg: Config, bound: int, w: World, e: Event)
    requires Inv(cfg, bound, w) && e.Delete? && Enabled(w, e)
    ensures Inv(cfg, bound, Do(cfg, w, e))
  {
    hide LaunchesOk, RunningIds, SnapOk, SlotsOk, HandlerMove, JobsOk;
    var v := Do(cfg, w, e);
    DeleteMoves(w, e.id, e.saved);
    HandlerKeepsSnap(w.store.jobs, v.store.jobs, w.pc);
    LaunchesKept(w, v);
  }

  lemma LookDeleteKeeps(cfg: Config, bound: int, w: World, e: Event)
    requires Inv(cfg, bound, w) && e.LookDelete?
    ensures Inv(cfg, bound, Do(cfg, w, e))
  {
    hide StoreOk, SnapOk, SlotsOk;
  }

  lemma CreateMoves(w: World, e: Event)
    requires e.Create? && Enabled(w, e) && w.store.jobs.Keys <= w.used
    ensures HandlerMove(w.store.jobs, DoCreate(w, e).store.jobs)
    ensures DoCreate(w, e).store.jobs.Keys <= DoCreate(w, e).used
  {
    assert e.hit.Some? ==> e.hit.value in w.store.jobs;
    hide Hit;
  }

  lemma CreateLaunches(w: World, e: Event)
    requires e.Create? && Enabled(w, e) && LaunchesOk(w) && w.store.jobs.Keys <= w.used
    ensures LaunchesOk(DoCreate(w, e))
  {
    var v := DoCreate(w, e);
    assert e.hit.Some? ==> e.hit.value in w.store.jobs;
    hide Hit;
    forall id ensures v.launches[id] + (if Open(v.store.jobs, v.pc, id) then 1 else 0) <= 1 + v.reopens[id] {
      if id !in w.used {
        assert id !in w.launches;
      } else {
        assert w.launches[id] + (if Open(w.store.jobs, w.pc, id) then 1 else 0) <= 1 + w.reopens[id];
        if e.hit == Some(id) && Reopens(w.store.jobs[id], e.req) {
          assert v.reopens[id] == w.reopens[id] + 1;
        } else {
          assert v.reopens[id] >= w.reopens[id] && (id in v.store.jobs ==> id in w.store.jobs && v.store.jobs[id] == w.store.jobs[id]);
        }
      }
    }
  }

  lemma CreateKeeps(cfg: Config, bound: int, w: World, e: Event)
    requires Inv(cfg, bound, w) && e.Create? && Enabled(w, e)
    ensures Inv(cfg, bound, Do(cfg, w, e))
  {
    hide LaunchesOk, RunningIds, SnapOk, Hit, CreateStep, HandlerMove, JobsOk;
    var v := Do(cfg, w, e);
    CreateMoves(w, e);
    HandlerKeepsSnap(w.store.jobs, v.store.jobs, w.pc);
    CreateLaunches(w, e);
    CreateKeepsUnique(w.store.jobs, e.req, e.tenant, e.cn, e.cooldown, e.now, e.hit, e.rid, e.saved);
  }

  lemma RestartKeeps(cfg: Config, bound: int, w: World, e: Event)
    requires Inv(cfg, bound, w) && e.Restart? && Enabled(w, e)
    ensures Inv(cfg, bound, Do(cfg, w, e))
  {
    hide StoreOk;
  }

  lemma StepKeeps(cfg: Config, bound: int, w: World, e: Event)
    requires Inv(cfg, bound, w) && Enabled(w, e) && cfg.maxConcurrent <= bound
    ensures Inv(cfg, bound, Do(cfg, w, e))
  {
    hide Inv, Enabled, Do;
    match e
    case Tick(_) => TickKeeps(cfg, bound, w, e);
    case Ask(_) => AskKeeps(cfg, bound, w, e);
    case Write(_, _) => WriteKeeps(cfg, bound, w, e);
    case Skip => SkipKeeps(cfg, bound, w, e);
    case Next => NextKeeps(cfg, bound, w, e);
    case Reap(_, _) => ReapKeeps(cfg, bound, w, e);
    case Create(_, _, _, _, _, _, _, _) => CreateKeeps(cfg, bound, w, e);
    case LookDelete(_, _) => LookDeleteKeeps(cfg, bound, w, e);
    case Delete(_, _) => DeleteKeeps(cfg, bound, w, e);
    case Restart => RestartKeeps(cfg, bound, w, e);
  }

  // ---- runs ----

  ghost predicate IsRun(cfg: Config, ws: seq<World>, es: seq<Event>) {
    && |ws| == |es| + 1 && Init(ws[0])
    && forall i {:trigger es[i]} :: 0 <= i < |es| ==> Enabled(ws[i], es[i]) && ws[i + 1] == Do(cfg, ws[i], es[i])
  }

  /** The configured limit, or the number of jobs already running in the loaded file if that is more. */
  function Bound(cfg: Config, w: World): int {
    var n := |RunningIds(w.store.jobs)|;
    if n > cfg.maxConcurrent then n else cfg.maxConcurrent
  }

  lemma {:induction false} RunsKeepInvariant(cfg: Config, ws: seq<World>, es: seq<Event>, n: nat)
    requires IsRun(cfg, ws, es) && n < |ws|
    ensures Inv(cfg, Bound(cfg, ws[0]), ws[n])
    decreases n
  {
    hide Do, Enabled;
    if n > 0 {
      RunsKeepInvariant(cfg, ws, es, n - 1);
      StepKeeps(cfg, Bound(cfg, ws[0]), ws[n - 1], es[n - 1]);
    }
  }

  /** Whenever the reconciler asks the bridge about a job, and again when it writes what it learned, the
      stored job is still the one in its snapshot, but for a stop asked for in between. */
  lemma ActsOnCurrentJobs(cfg: Config, ws: seq<World>, es: seq<Event>, n: nat)
    requires IsRun(cfg, ws, es) && n < |es| && (es[n].Ask? || es[n].Write?)
    ensures var jobs, j := ws[n].store.jobs, ws[n].pc.snap[ws[n].pc.i];
      j.id in jobs && jobs[j.id].state == j.state && jobs[j.id] == j.(stop := jobs[j.id].stop)
  {
    RunsKeepInvariant(cfg, ws, es, n);
    ActedOn(ws[n].store.jobs, ws[n].pc);
  }

  /** The jobs running, in memory and in the file, never exceed the limit or those loaded running. */
  lemma RunningIsBounded(cfg: Config, ws: seq<World>, es: seq<Event>, n: nat)
    requires IsRun(cfg, ws, es) && n < |ws|
    ensures |RunningIds(ws[n].store.jobs)| <= Bound(cfg, ws[0]) && |RunningIds(ws[n].store.disk)| <= Bound(cfg, ws[0])
  {
    RunsKeepInvariant(cfg, ws, es, n);
  }

  /** One scan history has one request id, in memory and in the file. */
  lemma OneRequestPerHistory(cfg: Config, ws: seq<World>, es: seq<Event>, n: nat, a: string, b: string)
    requires IsRun(cfg, ws, es) && n < |ws|
    ensures var m := ws[n].store.jobs; a in m && b in m && m[a].history == m[b].history ==> a == b
    ensures var m := ws[n].store.disk; a in m && b in m && m[a].history == m[b].history ==> a == b
  {
    RunsKeepInvariant(cfg, ws, es, n);
  }

  /** Within one process a job is handed to the scanner at most once for its submission and once more
      for each time it was reopened. */
  lemma LaunchesAreBounded(cfg: Config, ws: seq<World>, es: seq<Event>, n: nat, id: string)
    requires IsRun(cfg, ws, es) && n < |ws|
    ensures ws[n].launches[id] <= 1 + ws[n].reopens[id]
  {
    RunsKeepInvariant(cfg, ws, es, n);
  }

  /** A completed job stays completed until it is reaped, and only an old one is; apart from a restart
      from a file that missed the save. */
  lemma CompletedIsFinal(cfg: Config, ws: seq<World>, es: seq<Event>, n: nat, id: string)
    requires IsRun(cfg, ws, es) && n < |es| && !es[n].Restart?
    requires id in ws[n].store.jobs && ws[n].store.jobs[id].state == Completed
    ensures id in ws[n + 1].store.jobs ==> ws[n + 1].store.jobs[id].state == Completed
    ensures id !in ws[n + 1].store.jobs ==> es[n].Reap? && Reapable(ws[n].store.jobs[id], cfg.retention, es[n].now)
  {
    RunsKeepInvariant(cfg, ws, es, n);
    FinalStep(cfg, Bound(cfg, ws[0]), ws[n], es[n], id);
  }

  lemma CreateMovesOne(w: World, e: Event, id: string)
    requires e.Create? && Enabled(w, e) && w.store.jobs.Keys <= w.used && id in w.store.jobs
    ensures id in DoCreate(w, e).store.jobs && JobMove(w.store.jobs[id], DoCreate(w, e).store.jobs[id])
  {
    hide Hit, CreateStep;
    CreateMoves(w, e);
  }

  lemma FinalStep(cfg: Config, bound: int, w: World, e: Event, id: string)
    requires Inv(cfg, bound, w) && Enabled(w, e) && !e.Restart?
    requires id in w.store.jobs && w.store.jobs[id].state == Completed
    ensures var t := Do(cfg, w, e).store.jobs;
      && (id in t ==> t[id].state == Completed)
      && (id !in t ==> e.Reap? && Reapable(w.store.jobs[id], cfg.retention, e.now))
  {
    hide Hit, RunningIds, LaunchesOk, Current, Distinct, Reapable, SlotsOk, JobsOk, Mutate, CreateStep, HandlerMove, IsListing;
    if e.Write? { ActedOn(w.store.jobs, w.pc); }
    if e.Create? {
      CreateMovesOne(w, e, id);
    }
  }

  // ---- a stop is for good ----

  /** The job's stop flag is set, in the registry and in the tick's snapshot. */
  ghost predicate Barred(w: World, id: string) {
    && id in w.used && (id in w.store.jobs ==> w.store.jobs[id].stop)
    && (w.pc.At? ==> forall k :: 0 <= k < |w.pc.snap| && w.pc.snap[k].id == id ==> w.pc.snap[k].stop)
  }

  lemma BarredStays(cfg: Config, bound: int, w: World, e: Event, id: string)
    requires Inv(cfg, bound, w) && Enabled(w, e) && !e.Restart? && Barred(w, id)
    ensures Barred(Do(cfg, w, e), id)
  {
    hide LaunchesOk, Current, SlotsOk, RunningIds, Reapable;
    if e.Create? { assert e.hit.Some? ==> e.hit.value in w.store.jobs; }
    hide Hit;
  }

  /** Once a tick has seen a stop asked for, the process never polls or launches that job again, not even
      when it is reopened: reopening leaves the request standing, so each later tick only stops it. */
  lemma {:induction false} StoppedJobsNeverLaunch(cfg: Config, ws: seq<World>, es: seq<Event>, m: nat, n: nat, id: string)
    requires IsRun(cfg, ws, es) && m < n < |es| && es[m].Tick? && id in ws[m].store.jobs && ws[m].store.jobs[id].stop
    requires forall k :: m < k < n ==> !es[k].Restart?
    ensures Barred(ws[n], id)
    ensures es[n].Ask? && ws[n].pc.snap[ws[n].pc.i].id == id ==> ws[n].pc.phase == Stops
    decreases n
  {
    if m + 1 == n {
      RunsKeepInvariant(cfg, ws, es, m);
      assert Enabled(ws[m], es[m]) && ws[n] == Do(cfg, ws[m], es[m]);
    } else {
      hide Do, Inv, Enabled;
      StoppedJobsNeverLaunch(cfg, ws, es, m, n - 1, id);
      RunsKeepInvariant(cfg, ws, es, n - 1);
      BarredStays(cfg, Bound(cfg, ws[0]), ws[n - 1], es[n - 1], id);
    }
    assert Enabled(ws[n], es[n]);
  }

  // ---- a tick without interference is one of these runs ----

  ghost function RunAll(cfg: Config, w: World, es: seq<Event>): Option<World>
    decreases |es|
  {
    if es == [] then Some(w)
    else
      var p := RunAll(cfg, w, es[..|es| - 1]);
      if p.Some? && Enabled(p.value, es[|es| - 1]) then Some(Do(cfg, p.value, es[|es| - 1])) else None
  }

  lemma OneMore(cfg: Config, w: World, es: seq<Event>, e: Event)
    requires RunAll(cfg, w, es).Some? && Enabled(RunAll(cfg, w, es).value, e)
    ensures RunAll(cfg, w, es + [e]) == Some(Do(cfg, RunAll(cfg, w, es).value, e))
  {
    assert (es + [e])[..|es|] == es;
  }

  lemma TurnIsARun(cfg: Config, w: World, es: seq<Event>, g: Progress, env: Env) returns (fs: seq<Event>)
    requires RunAll(cfg, w, es).Some?
    requires var v := RunAll(cfg, w, es).value; v.store == g.store && v.pc.At? && v.pc.act == None && v.pc.slots == g.slots && v.pc.i < |v.pc.snap|
    ensures es <= fs
    ensures var v := RunAll(cfg, w, es).value; var h := Turn(v.pc.phase, g, v.pc.snap[v.pc.i], env, cfg);
      RunAll(cfg, w, fs).Some? && var u := RunAll(cfg, w, fs).value;
      u.store == h.store && u.pc == At(v.pc.phase, v.pc.snap, v.pc.i + 1, h.slots, None)
  {
    hide RunAll, ActionFor, Applied, Due, CallsFor;
    var v := RunAll(cfg, w, es).value;
    var j := v.pc.snap[v.pc.i];
    if Acts(v.pc.phase, v.pc.slots, j) {
      OneMore(cfg, w, es, Ask(env));
      var asked := es + [Ask(env)];
      OneMore(cfg, w, asked, Write(env.now("update", j), env.saved(j)));
      fs := asked + [Write(env.now("update", j), env.saved(j))];
    } else {
      OneMore(cfg, w, es, Skip);
      fs := es + [Skip];
    }
  }

  lemma {:induction false} TurnsAreARun(cfg: Config, w: World, es: seq<Event>, g: Progress, n: nat, env: Env) returns (fs: seq<Event>)
    requires RunAll(cfg, w, es).Some?
    requires var v := RunAll(cfg, w, es).value; v.store == g.store && v.pc.At? && v.pc.act == None && v.pc.slots == g.slots && v.pc.i == 0 && n <= |v.pc.snap|
    ensures es <= fs
    ensures var v := RunAll(cfg, w, es).value; var h := Turns(v.pc.phase, g, v.pc.snap[..n], env, cfg);
      RunAll(cfg, w, fs).Some? && var u := RunAll(cfg, w, fs).value;
      u.store == h.store && u.pc == At(v.pc.phase, v.pc.snap, n, h.slots, None)
    decreases n
  {
    hide RunAll, Turn, Turns;
    var v := RunAll(cfg, w, es).value;
    if n == 0 {
      NoTurns(v.pc.phase, g, v.pc.snap, env, cfg);
      fs := es;
    } else {
      var mid := TurnsAreARun(cfg, w, es, g, n - 1, env);
      NextTurn(v.pc.phase, g, v.pc.snap, n - 1, env, cfg);
      fs := TurnIsARun(cfg, w, mid, Turns(v.pc.phase, g, v.pc.snap[..n - 1], env, cfg), env);
    }
  }

  lemma PhaseIsARun(cfg: Config, w: World, es: seq<Event>, p: Phase, list: seq<Job>, g: Progress, env: Env) returns (fs: seq<Event>)
    requires RunAll(cfg, w, es).Some?
    requires var v := RunAll(cfg, w, es).value; v.store == g.store && v.pc == At(p, list, 0, g.slots, None)
    ensures es <= fs && RunAll(cfg, w, fs).Some?
    ensures var h, u := Turns(p, g, list, env, cfg), RunAll(cfg, w, fs).value;
      u.store == h.store && u.pc == NextPc(cfg, h.store.jobs, p, list, h.slots)
  {
    hide RunAll, Turns, NextPc;
    assert list[..|list|] == list;
    var mid := TurnsAreARun(cfg, w, es, g, |list|, env);
    OneMore(cfg, w, mid, Next);
    fs := mid + [Next];
  }

  lemma StartTick(cfg: Config, w: World, es: seq<Event>, list: seq<Job>)
    requires RunAll(cfg, w, es).Some?
    requires var v := RunAll(cfg, w, es).value; v.pc == Idle && IsListing(v.store.jobs, list)
    ensures RunAll(cfg, w, es + [Tick(list)]) == Some(RunAll(cfg, w, es).value.(pc := At(Stops, list, 0, 0, None)))
  {
    hide RunAll, IsListing;
    OneMore(cfg, w, es, Tick(list));
  }

  lemma EndTick(cfg: Config, w: World, es: seq<Event>, now: nat, saved: bool)
    requires RunAll(cfg, w, es).Some? && RunAll(cfg, w, es).value.pc == Reaping
    ensures var v := RunAll(cfg, w, es).value;
      RunAll(cfg, w, es + [Reap(now, saved)]) == Some(v.(store := ReapStore(v.store, cfg.retention, now, saved), pc := Idle))
  {
    hide RunAll, ReapStore;
    OneMore(cfg, w, es, Reap(now, saved));
  }

  /** What Reconciler.Tick does when nothing interferes continues any of the runs above that left the
      reconciler idle. */
  lemma TickIsARun(cfg: Config, w: World, es: seq<Event>, list: seq<Job>, env: Env, reapAt: nat, reapSaved: bool) returns (fs: seq<Event>)
    requires RunAll(cfg, w, es).Some?
    requires var v := RunAll(cfg, w, es).value; v.pc == Idle && IsListing(v.store.jobs, list)
    ensures es <= fs && RunAll(cfg, w, fs).Some?
    ensures RunAll(cfg, w, fs).value.store == TickAlone(RunAll(cfg, w, es).value.store, list, env, cfg, reapAt, reapSaved).store
    ensures RunAll(cfg, w, fs).value.pc == Idle
  {
    hide RunAll, IsListing, Turns, ReapStore, RunningIds, Do, Enabled;
    StartTick(cfg, w, es, list);
    var g := Progress(RunAll(cfg, w, es).value.store, 0, []);
    fs := PhaseIsARun(cfg, w, es + [Tick(list)], Stops, list, g, env);
    g := Turns(Stops, g, list, env, cfg);
    g := g.(slots := |RunningIds(g.store.jobs)|);
    fs := PhaseIsARun(cfg, w, fs, Polls, list, g, env);
    g := Turns(Polls, g, list, env, cfg);
    g := g.(slots := cfg.maxConcurrent - g.slots);
    fs := PhaseIsARun(cfg, w, fs, Launches, list, g, env);
    EndTick(cfg, w, fs, reapAt, reapSaved);
    fs := fs + [Reap(reapAt, reapSaved)];
  }

  lemma LastStep(cfg: Config, w: World, es: seq<Event>)
    requires es != [] && RunAll(cfg, w, es).Some?
    ensures var n := |es| - 1;
      && RunAll(cfg, w, es[..n]).Some? && Enabled(RunAll(cfg, w, es[..n]).value, es[n])
      && RunAll(cfg, w, es) == Some(Do(cfg, RunAll(cfg, w, es[..n]).value, es[n]))
  {
    hide Do, Enabled;
  }

  lemma {:induction false} AllWorlds(cfg: Config, w: World, es: seq<Event>, n: nat)
    requires n <= |es| && RunAll(cfg, w, es).Some?
    ensures RunAll(cfg, w, es[..n]).Some?
    decreases |es| - n
  {
    hide RunAll;
    if n == |es| {
      assert es[..n] == es;
    } else {
      AllWorlds(cfg, w, es, n + 1);
      LastStep(cfg, w, es[..n + 1]);
      assert es[..n + 1][..n] == es[..n];
    }
  }

  /** From a fresh start such a chain of events is a run. */
  lemma RunAllIsRun(cfg: Config, w: World, es: seq<Event>) returns (ws: seq<World>)
    requires Init(w) && RunAll(cfg, w, es).Some?
    ensures IsRun(cfg, ws, es)
    ensures forall k :: 0 <= k <= |es| ==> RunAll(cfg, w, es[..k]) == Some(ws[k])
  {
    hide RunAll, Do, Enabled, Init;
    forall k | 0 <= k <= |es| ensures RunAll(cfg, w, es[..k]).Some? { AllWorlds(cfg, w, es, k); }
    ws := seq(|es| + 1, k requires 0 <= k <= |es| && RunAll(cfg, w, es[..k]).Some? => RunAll(cfg, w, es[..k]).value);
    assert ws[0] == w by { EmptyRun(cfg, w, es[..0]); }
    forall i {:trigger es[i]} | 0 <= i < |es| ensures Enabled(ws[i], es[i]) && ws[i + 1] == Do(cfg, ws[i], es[i]) {
      LastStep(cfg, w, es[..i + 1]);
      assert es[..i + 1][..i] == es[..i];
    }
  }

  lemma EmptyRun(cfg: Config, w: World, es: seq<Event>)
    requires es == []
    ensures RunAll(cfg, w, es) == Some(w)
  {
  }

  // ---- the retry of a stopped job ----

  lemma StoppedTick(cfg: Config, w: World, es: seq<Event>, id: string, list: seq<Job>, env: Env, reapAt: nat) returns (fs: seq<Event>)
    requires RunAll(cfg, w, es).Some?
    requires var v := RunAll(cfg, w, es).value;
      v.pc == Idle && IsListing(v.store.jobs, list) && id in v.store.jobs && !Terminal(v.store.jobs[id].state) && v.store.jobs[id].stop
    ensures es <= fs && RunAll(cfg, w, fs).Some? && RunAll(cfg, w, fs).value.pc == Idle
    ensures var j, t := RunAll(cfg, w, es).value.store.jobs[id], RunAll(cfg, w, fs).value.store.jobs;
      && (id in t ==> t[id] == j.(state := Stopped, completedAt := env.now("update", j)))
      && (reapAt <= cfg.retention ==> id in t) && t.Keys <= RunAll(cfg, w, es).value.store.jobs.Keys
  {
    hide RunAll, TickAlone, Do, Enabled;
    var v := RunAll(cfg, w, es).value;
    assert Lists(list, id);
    var k :| 0 <= k < |list| && list[k].id == id;
    TickStops(v.store, list, k, env, cfg, reapAt, true);
    TickAddsNothing(v.store, list, env, cfg, reapAt, true);
    fs := TickIsARun(cfg, w, es, list, env, reapAt, true);
  }

  /** From any point of any run: asking again for a stopped scan reopens its job, and the tick that follows
      leaves it stopped once more. */
  lemma RetryEndsStopped(cfg: Config, w: World, es: seq<Event>, e: Event, id: string, list: seq<Job>, env: Env, reapAt: nat) returns (fs: seq<Event>)
    requires RunAll(cfg, w, es).Some? && e.Create?
    requires var v := RunAll(cfg, w, es).value;
      && v.pc == Idle && JobsOk(v.store.jobs) && Enabled(v, e)
      && id in v.store.jobs && v.store.jobs[id].history == e.req.history && v.store.jobs[id].state == Stopped && v.store.jobs[id].stop
      && IsListing(Do(cfg, v, e).store.jobs, list)
    ensures es + [e] <= fs && RunAll(cfg, w, fs).Some? && RunAll(cfg, w, es + [e]).Some?
    ensures var u := RunAll(cfg, w, es + [e]).value.store.jobs; id in u && u[id].state == Pending && u[id].stop
    ensures var t := RunAll(cfg, w, fs).value.store.jobs;
      (id in t ==> t[id].state == Stopped && t[id].stop) && (reapAt <= cfg.retention ==> id in t)
  {
    hide RunAll, CreateStep;
    var v := RunAll(cfg, w, es).value;
    OneMore(cfg, w, es, e);
    ReopenKeepsTheStop(v.store.jobs, e.req, e.tenant, e.cn, e.cooldown, e.now, e.hit, e.rid, e.saved, id);
    fs := StoppedTick(cfg, w, es + [e], id, list, env, reapAt);
  }

  /** The world of a new installation. */
  const EMPTY: World := World(Store(map[], map[]), Idle, {}, {}, multiset{}, multiset{})

  lemma OneListed(j: Job)
    ensures IsListing(map[j.id := j], [j])
  {
    assert [j][0].id == j.id;
    assert Lists([j], j.id);
  }

  /** Submitting a scan and asking for its stop before a tick saw it. */
  lemma SubmitAndStop(cfg: Config, req: Request, tenant: string, cn: string, rid: string, now: nat) returns (es: seq<Event>)
    ensures |es| == 3 && RunAll(cfg, EMPTY, es).Some?
    ensures var v := RunAll(cfg, EMPTY, es).value;
      v.pc == Idle && v.store.jobs == map[rid := StopAsked(NewJob(rid, req, tenant, cn, now))]
  {
    hide RunAll;
    var j := NewJob(rid, req, tenant, cn, now);
    assert RunAll(cfg, EMPTY, []) == Some(EMPTY) by { EmptyRun(cfg, EMPTY, []); }
    OneMore(cfg, EMPTY, [], Create(req, tenant, cn, 0, now, None, Some(rid), true));
    es := [] + [Create(req, tenant, cn, 0, now, None, Some(rid), true)];
    OneMore(cfg, EMPTY, es, LookDelete(rid, tenant));
    es := es + [LookDelete(rid, tenant)];
    OneMore(cfg, EMPTY, es, Delete(rid, true));
    es := es + [Delete(rid, true)];
  }

  lemma ReopenAlone(cfg: Config, v: World, e: Event, j: Job)
    requires v.store.jobs == map[j.id := j] && FailedState(j.state)
    requires e.Create? && e.req.history == j.history && e.hit == Some(j.id) && e.rid == None
    ensures JobsOk(v.store.jobs) && Enabled(v, e) && Do(cfg, v, e).store.jobs == map[j.id := Reopened(j, e.now)]
  {
    assert j.id in v.store.jobs && v.store.jobs[j.id].history == e.req.history;
  }

  /** A whole run of it: a scan is submitted, stopped by its owner and left stopped by a tick; asked for again
      it is pending with the stop still set, and the next tick leaves it stopped again. */
  lemma StoppedScanIsNeverRetried(cfg: Config, req: Request, tenant: string, cn: string, rid: string, now: nat, env: Env)
    returns (ws: seq<World>, es: seq<Event>, a: nat)
    requires cfg.retention >= 0
    ensures IsRun(cfg, ws, es) && ws[0] == EMPTY && a < |es|
    ensures rid in ws[a].store.jobs && ws[a].store.jobs[rid].state == Stopped
    ensures es[a] == Create(req, tenant, cn, 0, now, Some(rid), None, true)
    ensures rid in ws[a + 1].store.jobs && ws[a + 1].store.jobs[rid].state == Pending && ws[a + 1].store.jobs[rid].stop
    ensures rid in ws[|es|].store.jobs && ws[|es|].store.jobs[rid].state == Stopped
  {
    hide RunAll, Do, Enabled, IsListing, CreateStep;
    es := SubmitAndStop(cfg, req, tenant, cn, rid, now);
    OneListed(StopAsked(NewJob(rid, req, tenant, cn, now)));
    es := StoppedTick(cfg, EMPTY, es, rid, [StopAsked(NewJob(rid, req, tenant, cn, now))], env, 0);
    a := |es|;
    ghost var done := es;
    var e := Create(req, tenant, cn, 0, now, Some(rid), None, true);
    var v := RunAll(cfg, EMPTY, es).value;
    var j := v.store.jobs[rid];
    assert v.store.jobs == map[rid := j];
    ReopenAlone(cfg, v, e, j);
    OneListed(Reopened(j, now));
    es := RetryEndsStopped(cfg, EMPTY, es, e, rid, [Reopened(j, now)], env, 0);
    assert es[..a] == done && es[..a + 1] == done + [e] && es[..|es|] == es;
    assert es[..0] == [];
    EmptyRun(cfg, EMPTY, []);
    ws := RunAllIsRun(cfg, EMPTY, es);
  }
}
