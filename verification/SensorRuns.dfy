/** The dispatch queue and any number of sensors over a network that loses, delays and duplicates
    messages, with failed scans and pushes, sensor crashes, failed saves and server restarts. */
module SensorRuns {
  import opened Prelude
  import ScopeGates
  import opened SensorDispatch

  /** What does not change: how addresses are read, each tenant's scope, and the queue's settings. */
  datatype Setup = Setup(lib: ScopeGates.Library, scopeOf: string -> seq<ScopeGates.Net>, cfg: Config)

  datatype Activity = Idle | Scanning(id: string, corr: string) | Pushing(id: string, corr: string) | Acking(id: string)

  datatype Sensor = Sensor(tenant: string, doing: Activity)

  /** replies, reports and acks are the messages ever sent; each may arrive any number of times. issued is
      the history of jobs created; accepted, of reports the cloud took, by tenant and correlation id. */
  datatype World = World(
    jobs: Jobs, disk: Jobs, sensors: map<nat, Sensor>, replies: set<Job>, reports: set<(string, string)>,
    acks: set<(string, string)>, issued: map<string, Job>, accepted: set<(string, string)>)

  datatype Event =
    | Enqueue(req: Request, hit: Option<string>, ids: Option<(string, string)>, now: nat, saved: bool)
    | PollArrives(tenant: string, now: nat, pick: Option<string>, saved: bool)
    | Receive(k: nat, job: Job)
    | ScanDone(k: nat)
    | ReportArrives(tenant: string, corr: string)
    | PushDone(k: nat)
    | AckArrives(id: string, tenant: string, now: nat, saved: bool)
    | GiveUp(k: nat)          // a failed scan or call, the end of a turn, or a crash
    | Restart

  function Kept(u: Setup, req: Request): seq<string> {
    SortStrings(ScopeGates.CloudKept(u.lib, u.scopeOf(req.tenant), req.targets))
  }

  ghost predicate Enabled(u: Setup, w: World, e: Event) {
    match e
    case Enqueue(req, hit, ids, now, _) =>
      && req.tenant != "" && Kept(u, req) != [] && Hit(w.jobs, req, Kept(u, req), u.cfg.cooldown, now, hit)
      && (ids.Some? ==> ids.value.0 !in w.issued)
    case PollArrives(tenant, now, pick, _) => Pick(w.jobs, tenant, now, u.cfg.redeliver, pick)
    case Receive(k, job) => k in w.sensors && w.sensors[k].doing == Idle && job in w.replies && job.tenant == w.sensors[k].tenant
    case ScanDone(k) => k in w.sensors && w.sensors[k].doing.Scanning?
    case ReportArrives(tenant, corr) => (tenant, corr) in w.reports
    case PushDone(k) =>
      // the client reports success only if the cloud took the report
      k in w.sensors && w.sensors[k].doing.Pushing? && (w.sensors[k].tenant, w.sensors[k].doing.corr) in w.accepted
    case AckArrives(id, tenant, _, _) => (id, tenant) in w.acks
    case GiveUp(k) => k in w.sensors
    case Restart => true
  }

  function Now(w: World, k: nat, doing: Activity): World
    requires k in w.sensors
  {
    w.(sensors := w.sensors[k := w.sensors[k].(doing := doing)])
  }

  function DoEnqueue(u: Setup, w: World, e: Event): World
    requires e.Enqueue? && Enabled(u, w, e)
  {
    var (t, r) := EnqueueStep(w.jobs, e.req, Kept(u, e.req), [], e.hit, e.ids, e.now, u.cfg, e.saved);
    var made := e.hit == None && e.ids.Some? && e.saved;
    w.(jobs := t, disk := if made then t else w.disk, issued := if made then w.issued[e.ids.value.0 := t[e.ids.value.0]] else w.issued)
  }

  function DoPoll(w: World, e: Event): World
    requires e.PollArrives? && (e.pick.Some? ==> e.pick.value in w.jobs)
  {
    var t := PollStep(w.jobs, e.tenant, e.now, e.pick);
    w.(jobs := t, disk := if e.saved then t else w.disk, replies := if e.pick.Some? then w.replies + {t[e.pick.value]} else w.replies)
  }

  function Do(u: Setup, w: World, e: Event): World
    requires Enabled(u, w, e)
  {
    match e
    case Enqueue(_, _, _, _, _) => DoEnqueue(u, w, e)
    case PollArrives(_, _, _, _) => DoPoll(w, e)
    case Receive(k, job) => Now(w, k, Scanning(job.id, job.corr))
    case ScanDone(k) =>
      var d := w.sensors[k].doing;
      Now(w, k, Pushing(d.id, d.corr)).(reports := w.reports + {(w.sensors[k].tenant, d.corr)})
    case ReportArrives(tenant, corr) => w.(accepted := w.accepted + {(tenant, corr)})
    case PushDone(k) =>
      var d := w.sensors[k].doing;
      Now(w, k, Acking(d.id)).(acks := w.acks + {(d.id, w.sensors[k].tenant)})
    case AckArrives(id, tenant, now, saved) =>
      var t := AckStep(w.jobs, id, tenant, now).0;
      w.(jobs := t, disk := if saved && t != w.jobs then t else w.disk)
    case GiveUp(k) => Now(w, k, Idle)
    case Restart => w.(jobs := w.disk)
  }

  // ---- the invariant ----

  /** The job is the one issued under its id, whatever its dispatch state. */
  ghost predicate Genuine(issued: map<string, Job>, j: Job) {
    j.id in issued && j.corr == issued[j.id].corr && j.tenant == issued[j.id].tenant && j.targets == issued[j.id].targets
  }

  ghost predicate JobsOk(w: World, jobs: Jobs) {
    forall id :: id in jobs ==>
      && jobs[id].id == id && Genuine(w.issued, jobs[id])
      && (jobs[id].state == Acked ==> (jobs[id].tenant, jobs[id].corr) in w.accepted)
  }

  /** A sensor works only on a job issued to its tenant. */
  ghost predicate Assigned(w: World, tenant: string, id: string, corr: string) {
    id in w.issued && w.issued[id].tenant == tenant && w.issued[id].corr == corr
  }

  ghost predicate SensorsOk(w: World) {
    forall k :: k in w.sensors ==>
      match w.sensors[k].doing
      case Scanning(id, corr) => Assigned(w, w.sensors[k].tenant, id, corr)
      case Pushing(id, corr) => Assigned(w, w.sensors[k].tenant, id, corr)
      case _ => true
  }

  ghost predicate MessagesOk(w: World) {
    && (forall j :: j in w.replies ==> Genuine(w.issued, j))
    && (forall a :: a in w.acks ==> a.0 in w.issued && w.issued[a.0].tenant == a.1 && (a.1, w.issued[a.0].corr) in w.accepted)
  }

  ghost predicate InScope(u: Setup, tenant: string, target: string) {
    ScopeGates.CloudContains(u.lib, u.scopeOf(tenant), target)
  }

  ghost predicate IssuedOk(u: Setup, issued: map<string, Job>) {
    forall id :: id in issued ==> issued[id].id == id && forall t :: t in issued[id].targets ==> InScope(u, issued[id].tenant, t)
  }

  ghost predicate Inv(u: Setup, w: World) {
    JobsOk(w, w.jobs) && JobsOk(w, w.disk) && SensorsOk(w) && MessagesOk(w) && IssuedOk(u, w.issued)
  }

  ghost predicate Init(w: World) {
    && w.jobs == map[] && w.disk == map[] && w.replies == {} && w.reports == {} && w.acks == {} && w.issued == map[] && w.accepted == {}
    && forall k :: k in w.sensors ==> w.sensors[k].doing == Idle
  }

  // ---- preservation ----

  lemma {:induction false} KeptAreInScope(u: Setup, tenant: string, targets: seq<string>)
    ensures forall t :: t in ScopeGates.CloudKept(u.lib, u.scopeOf(tenant), targets) ==> InScope(u, tenant, t)
    decreases |targets|
  {
    hide TrimSpace;
    if targets != [] {
      KeptAreInScope(u, tenant, targets[..|targets| - 1]);
      TrimTight(targets[|targets| - 1]);
      TrimTight(TrimSpace(targets[|targets| - 1]));
    }
  }

  lemma SortedHasSame(list: seq<string>)
    ensures forall t :: t in SortStrings(list) ==> t in list
  {
    forall t | t in SortStrings(list) ensures t in list {
      assert t in multiset(SortStrings(list));
    }
  }

  /** Adding an issued, pending job in scope to the queue and the file. */
  lemma AddKeeps(u: Setup, w: World, v: World, nj: Job)
    requires Inv(u, w) && nj.id !in w.issued && nj.state == Pending && forall t :: t in nj.targets ==> InScope(u, nj.tenant, t)
    requires v == w.(jobs := w.jobs[nj.id := nj], disk := w.jobs[nj.id := nj], issued := w.issued[nj.id := nj])
    ensures Inv(u, v)
  {
    hide InScope;
  }

  lemma KeepJobsFewer(u: Setup, w: World, v: World, gone: string)
    requires Inv(u, w) && v == w.(jobs := w.jobs - {gone})
    ensures Inv(u, v)
  {
    hide IssuedOk;
  }

  lemma EnqueueKeeps(u: Setup, w: World, e: Event)
    requires Inv(u, w) && e.Enqueue? && Enabled(u, w, e)
    ensures Inv(u, Do(u, w, e))
  {
    hide InScope, Hit, SortStrings, Inv, ScopeGates.CloudKept;
    var v := Do(u, w, e);
    if e.hit == None && e.ids.Some? {
      if e.saved {
        var nj := NewJob(e.ids.value.0, e.ids.value.1, e.req, Kept(u, e.req), e.now, u.cfg.defaultTtl);
        KeptAreInScope(u, e.req.tenant, e.req.targets);
        SortedHasSame(ScopeGates.CloudKept(u.lib, u.scopeOf(e.req.tenant), e.req.targets));
        AddKeeps(u, w, v, nj);
      } else {
        KeepJobsFewer(u, w, v, e.ids.value.0);
      }
    } else {
      assert v == w;
    }
  }

  lemma PollKeeps(u: Setup, w: World, e: Event)
    requires Inv(u, w) && e.PollArrives? && Enabled(u, w, e)
    ensures Inv(u, Do(u, w, e))
  {
    hide InScope;
  }

  lemma AckKeeps(u: Setup, w: World, e: Event)
    requires Inv(u, w) && e.AckArrives? && Enabled(u, w, e)
    ensures Inv(u, Do(u, w, e))
  {
    hide InScope;
    assert (e.id, e.tenant) in w.acks;
  }

  lemma SensorKeeps(u: Setup, w: World, e: Event)
    requires Inv(u, w) && (e.Receive? || e.ScanDone? || e.PushDone? || e.GiveUp?) && Enabled(u, w, e)
    ensures Inv(u, Do(u, w, e))
  {
    hide IssuedOk;
  }

  lemma CloudKeeps(u: Setup, w: World, e: Event)
    requires Inv(u, w) && (e.ReportArrives? || e.Restart?) && Enabled(u, w, e)
    ensures Inv(u, Do(u, w, e))
  {
    hide IssuedOk;
  }

  lemma StepKeeps(u: Setup, w: World, e: Event)
    requires Inv(u, w) && Enabled(u, w, e)
    ensures Inv(u, Do(u, w, e))
  {
    hide Inv, Do, Enabled;
    match e
    case Enqueue(_, _, _, _, _) => EnqueueKeeps(u, w, e);
    case PollArrives(_, _, _, _) => PollKeeps(u, w, e);
    case Receive(_, _) => SensorKeeps(u, w, e);
    case ScanDone(_) => SensorKeeps(u, w, e);
    case ReportArrives(_, _) => CloudKeeps(u, w, e);
    case PushDone(_) => SensorKeeps(u, w, e);
    case AckArrives(_, _, _, _) => AckKeeps(u, w, e);
    case GiveUp(_) => SensorKeeps(u, w, e);
    case Restart => CloudKeeps(u, w, e);
  }

  // ---- runs ----

  ghost predicate IsRun(u: Setup, ws: seq<World>, es: seq<Event>) {
    && |ws| == |es| + 1 && Init(ws[0])
    && forall i {:trigger es[i]} :: 0 <= i < |es| ==> Enabled(u, ws[i], es[i]) && ws[i + 1] == Do(u, ws[i], es[i])
  }

  lemma {:induction false} RunsKeepInvariant(u: Setup, ws: seq<World>, es: seq<Event>, n: nat)
    requires IsRun(u, ws, es) && n < |ws|
    ensures Inv(u, ws[n])
    decreases n
  {
    hide Do, Enabled;
    if n > 0 {
      RunsKeepInvariant(u, ws, es, n - 1);
      StepKeeps(u, ws[n - 1], es[n - 1]);
    }
  }

  /** An acked job, in memory or in the file, has had a report with its correlation id accepted from its
      tenant. */
  lemma AckedMeansReported(u: Setup, ws: seq<World>, es: seq<Event>, n: nat, id: string)
    requires IsRun(u, ws, es) && n < |ws|
    ensures var j := ws[n].jobs; id in j && j[id].state == Acked ==> (j[id].tenant, j[id].corr) in ws[n].accepted
    ensures var j := ws[n].disk; id in j && j[id].state == Acked ==> (j[id].tenant, j[id].corr) in ws[n].accepted
  {
    RunsKeepInvariant(u, ws, es, n);
  }

  /** Whatever a sensor is ever handed lies, target by target, within one block of its tenant's scope. */
  lemma DispatchedIsInScope(u: Setup, ws: seq<World>, es: seq<Event>, n: nat, job: Job, t: string)
    requires IsRun(u, ws, es) && n < |ws| && job in ws[n].replies && t in job.targets
    ensures !ScopeGates.Read(u.lib, t).Neither? && ScopeGates.Authorized(u.scopeOf(job.tenant), ScopeGates.Read(u.lib, t))
  {
    hide ScopeGates.CloudContains, ScopeGates.Authorized, ScopeGates.Read;
    RunsKeepInvariant(u, ws, es, n);
    assert InScope(u, job.tenant, t);
    ScopeGates.CloudMeaning(u.lib, u.scopeOf(job.tenant), t);
  }

  // ---- a turn of the sensor's loop is part of these runs ----

  ghost function After(u: Setup, w: World, es: seq<Event>): Option<World>
    decreases |es|
  {
    if es == [] then Some(w)
    else
      var p := After(u, w, es[..|es| - 1]);
      if p.Some? && Enabled(u, p.value, es[|es| - 1]) then Some(Do(u, p.value, es[|es| - 1])) else None
  }

  lemma OneMore(u: Setup, w: World, es: seq<Event>, e: Event, v: World)
    requires After(u, w, es) == Some(v) && Enabled(u, v, e)
    ensures After(u, w, es + [e]) == Some(Do(u, v, e))
  {
    assert (es + [e])[..|es|] == es;
  }

  function PushesOf(calls: seq<Call>, tenant: string): set<(string, string)> {
    set c | c in calls && c.CallPush? :: (tenant, c.corr)
  }

  function AcksOf(calls: seq<Call>, tenant: string): set<(string, string)> {
    set c | c in calls && c.CallAck? :: (c.id, tenant)
  }

  /** What the sensor's part of a turn leaves behind: exactly the reports and acks its calls sent, and every
      ack for a report the cloud took. */
  ghost predicate TurnDone(w: World, v: World, k: nat, a: Answers)
    requires k in w.sensors
  {
    var calls, tenant := TurnCalls(a), w.sensors[k].tenant;
    && v.sensors == w.sensors && v.jobs == w.jobs && v.disk == w.disk
    && v.reports == w.reports + PushesOf(calls, tenant) && v.acks == w.acks + AcksOf(calls, tenant)
    && forall id :: CallAck(id) in calls ==> a.polled.Some? && (tenant, a.polled.value.corr) in v.accepted
  }

  /** Supervisor.PollOnce, from the poll's arrival to the end of the turn, is part of a run. The poll's answer
      may be lost; the push succeeds only if the cloud took the report, and may fail although it did. */
  lemma TurnIsARun(u: Setup, w: World, k: nat, a: Answers, now: nat, pick: Option<string>, saved: bool, taken: bool) returns (es: seq<Event>)
    requires k in w.sensors && w.sensors[k].doing == Idle && Pick(w.jobs, w.sensors[k].tenant, now, u.cfg.redeliver, pick)
    requires a.polled.Some? ==> pick.Some? && a.polled.value == PollStep(w.jobs, w.sensors[k].tenant, now, pick)[pick.value]
    requires a.pushed ==> taken
    ensures After(u, w, es).Some?
    ensures TurnDone(DoPoll(w, PollArrives(w.sensors[k].tenant, now, pick, saved)), After(u, w, es).value, k, a)
  {
    hide After, Pick;
    var poll := PollArrives(w.sensors[k].tenant, now, pick, saved);
    assert pick.Some? ==> pick.value in w.jobs by { PickIsKnown(w.jobs, w.sensors[k].tenant, now, u.cfg.redeliver, pick); }
    var v := DoPoll(w, poll);
    assert After(u, w, []) == Some(w) by { NoEvents(u, w); }
    OneMore(u, w, [], poll, w);
    es := [] + [poll];
    if a.polled.Some? {
      assert a.polled.value.tenant == w.sensors[k].tenant by { PickedIsOwn(w.jobs, w.sensors[k].tenant, now, u.cfg.redeliver, pick); }
      es := JobIsARun(u, w, es, v, k, a, taken);
    } else {
      assert TurnCalls(a) == [CallPoll];
    }
  }

  lemma NoEvents(u: Setup, w: World)
    ensures After(u, w, []) == Some(w)
  {
  }

  lemma PickIsKnown(jobs: Jobs, o: string, now: nat, redeliver: int, pick: Option<string>)
    requires Pick(jobs, o, now, redeliver, pick)
    ensures pick.Some? ==> pick.value in jobs
  {
  }

  lemma PickedIsOwn(jobs: Jobs, o: string, now: nat, redeliver: int, pick: Option<string>)
    requires Pick(jobs, o, now, redeliver, pick) && pick.Some?
    ensures PollStep(jobs, o, now, pick)[pick.value].tenant == o
  {
  }

  lemma JobIsARun(u: Setup, w: World, es: seq<Event>, v: World, k: nat, a: Answers, taken: bool) returns (fs: seq<Event>)
    requires After(u, w, es) == Some(v) && k in v.sensors && v.sensors[k].doing == Idle
    requires a.polled.Some? && a.polled.value in v.replies && a.polled.value.tenant == v.sensors[k].tenant && (a.pushed ==> taken)
    ensures After(u, w, fs).Some? && TurnDone(v, After(u, w, fs).value, k, a)
  {
    hide After, TurnCalls, PushesOf, AcksOf;
    var job, tenant := a.polled.value, v.sensors[k].tenant;
    OneMore(u, w, es, Receive(k, job), v);
    var x := Do(u, v, Receive(k, job));
    fs := es + [Receive(k, job)];
    if a.scanned {
      OneMore(u, w, fs, ScanDone(k), x);
      x, fs := Do(u, x, ScanDone(k)), fs + [ScanDone(k)];
      if taken {
        OneMore(u, w, fs, ReportArrives(tenant, job.corr), x);
        x, fs := Do(u, x, ReportArrives(tenant, job.corr)), fs + [ReportArrives(tenant, job.corr)];
      }
      if a.pushed {
        OneMore(u, w, fs, PushDone(k), x);
        x, fs := Do(u, x, PushDone(k)), fs + [PushDone(k)];
      }
    }
    OneMore(u, w, fs, GiveUp(k), x);
    x, fs := Do(u, x, GiveUp(k)), fs + [GiveUp(k)];
    assert x.sensors == v.sensors;
    CallsOf(a, tenant);
  }

  lemma CallsOf(a: Answers, tenant: string)
    requires a.polled.Some?
    ensures PushesOf(TurnCalls(a), tenant) == if a.scanned then {(tenant, a.polled.value.corr)} else {}
    ensures AcksOf(TurnCalls(a), tenant) == if a.scanned && a.pushed then {(a.polled.value.id, tenant)} else {}
    ensures forall id :: CallAck(id) in TurnCalls(a) ==> a.scanned && a.pushed
  {
    if a.scanned {
      assert TurnCalls(a)[2] == CallPush(a.polled.value.corr);
      if a.pushed { assert TurnCalls(a)[3] == CallAck(a.polled.value.id); }
    }
  }
}
