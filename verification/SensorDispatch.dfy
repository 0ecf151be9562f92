/** Dispatch of scan jobs to sensors: the tenant-partitioned queue of control-plane/sensorjobs/registry.go
    and the sensor's loop in sensor/internal/supervisor/supervisor.go.

    Clocks, random ids and save outcomes are parameters; 0 is the unset time. The dedup hash is a free
    symbol. */
module SensorDispatch {
  import opened Prelude
  import Lex
  import ScopeGates

  datatype State = Pending | Delivered | Acked | Done | Expired

  predicate Terminal(s: State) {
    s == Done || s == Expired
  }

  datatype Job = Job(
    id: string, corr: string, tenant: string, targets: seq<string>, ports: string, config: string, state: State,
    notBefore: nat, expiresAt: nat, createdAt: nat, deliveredAt: nat, ackedAt: nat)

  type Jobs = map<string, Job>

  datatype Request = Request(tenant: string, targets: seq<string>, ports: string, config: string, ttl: int)

  datatype Config = Config(cooldown: int, redeliver: int, defaultTtl: nat)

  datatype Reply = Accepted(job: Job, dropped: seq<string>) | Rejected(dropped: seq<string>)

  // ---- sorting and the dedup key ----

  function Insert(list: seq<string>, x: string): (r: seq<string>)
    ensures multiset(r) == multiset(list) + multiset{x}
  {
    if list == [] || Lex.Below(x, list[0]) then [x] + list
    else
      assert list == [list[0]] + list[1..];
      [list[0]] + Insert(list[1..], x)
  }

  /** sort.Strings. */
  function SortStrings(list: seq<string>): (r: seq<string>)
    ensures multiset(r) == multiset(list)
  {
    if list == [] then []
    else
      assert list == list[..|list| - 1] + [list[|list| - 1]];
      Insert(SortStrings(list[..|list| - 1]), list[|list| - 1])
  }

  /** The SHA-256 of these three, as a free symbol. */
  datatype Key = Key(tenant: string, targets: seq<string>, config: string)

  function DedupKey(tenant: string, targets: seq<string>, config: string): Key {
    Key(tenant, SortStrings(targets), config)
  }

  // ---- enqueue ----

  predicate Collapses(j: Job, req: Request, kept: seq<string>, cooldown: int, now: int) {
    && !Terminal(j.state) && j.tenant == req.tenant && j.createdAt > now - cooldown
    && DedupKey(j.tenant, j.targets, j.config) == DedupKey(req.tenant, kept, req.config)
  }

  /** The job an identical recent request collapses into, if any; where several qualify, any of them. */
  predicate Hit(jobs: Jobs, req: Request, kept: seq<string>, cooldown: int, now: int, hit: Option<string>) {
    if exists id :: id in jobs && Collapses(jobs[id], req, kept, cooldown, now) then
      hit.Some? && hit.value in jobs && Collapses(jobs[hit.value], req, kept, cooldown, now)
    else hit == None
  }

  function NewJob(id: string, corr: string, req: Request, kept: seq<string>, now: nat, defaultTtl: nat): Job {
    Job(id, corr, req.tenant, kept, req.ports, req.config, Pending, 0, now + (if req.ttl <= 0 then defaultTtl else req.ttl), now, 0, 0)
  }

  /** Enqueue past the scope gate, which kept some targets. ids: the fresh job and correlation ids. */
  function EnqueueStep(
    jobs: Jobs, req: Request, kept: seq<string>, dropped: seq<string>, hit: Option<string>, ids: Option<(string, string)>, now: nat, cfg: Config, saved: bool)
    : (Jobs, Reply)
    requires hit.Some? ==> hit.value in jobs
  {
    if hit.Some? then (jobs, Accepted(jobs[hit.value], dropped))
    else if ids == None then (jobs, Rejected(dropped))
    else if !saved then (jobs - {ids.value.0}, Rejected(dropped))
    else
      var j := NewJob(ids.value.0, ids.value.1, req, kept, now, cfg.defaultTtl);
      (jobs[j.id := j], Accepted(j, dropped))
  }

  // ---- poll and ack ----

  predicate Lapsed(j: Job, now: nat) {
    j.expiresAt != 0 && now > j.expiresAt
  }

  function Sweep(j: Job, o: string, now: nat): Job {
    if j.tenant == o && !Terminal(j.state) && Lapsed(j, now) then j.(state := Expired) else j
  }

  function Swept(jobs: Jobs, o: string, now: nat): Jobs {
    map id | id in jobs :: Sweep(jobs[id], o, now)
  }

  predicate Eligible(j: Job, o: string, now: nat, redeliver: int) {
    && j.tenant == o && !Terminal(j.state) && !Lapsed(j, now) && (j.notBefore != 0 ==> now >= j.notBefore)
    && (j.state == Pending || (j.state == Delivered && now - j.deliveredAt > redeliver))
  }

  /** The job handed out: an eligible one submitted no later than any other, or none if none is eligible. */
  predicate Pick(jobs: Jobs, o: string, now: nat, redeliver: int, pick: Option<string>) {
    if pick.Some? then
      && pick.value in jobs && Eligible(jobs[pick.value], o, now, redeliver)
      && forall id :: id in jobs && Eligible(jobs[id], o, now, redeliver) ==> jobs[pick.value].createdAt <= jobs[id].createdAt
    else forall id :: id in jobs ==> !Eligible(jobs[id], o, now, redeliver)
  }

  function PollStep(jobs: Jobs, o: string, now: nat, pick: Option<string>): Jobs
    requires pick.Some? ==> pick.value in jobs
  {
    if pick.Some? then Swept(jobs, o, now)[pick.value := jobs[pick.value].(state := Delivered, deliveredAt := now)]
    else Swept(jobs, o, now)
  }

  function AckStep(jobs: Jobs, id: string, o: string, now: nat): (Jobs, bool) {
    if id !in jobs || jobs[id].tenant != o then (jobs, false)
    else if Terminal(jobs[id].state) then (jobs, true)
    else (jobs[id := jobs[id].(state := Acked, ackedAt := now)], true)
  }

  // ---- the registry ----

  class Registry {
    const cfg: Config
    const lib: ScopeGates.Library
    const scopeOf: string -> Option<seq<ScopeGates.Net>>
    var jobs: Jobs
    var disk: Jobs

    constructor (cfg: Config, lib: ScopeGates.Library, scopeOf: string -> Option<seq<ScopeGates.Net>>, file: Jobs)
      ensures this.cfg == cfg && this.lib == lib && this.scopeOf == scopeOf && jobs == disk == file
    {
      this.cfg, this.lib, this.scopeOf := cfg, lib, scopeOf;
      jobs, disk := file, file;
    }

    method SaveLocked(saved: bool)
      modifies this`disk
      ensures disk == if saved then jobs else old(disk)
    {
      if saved { disk := jobs; }
    }

    function ScopeFor(tenant: string): seq<ScopeGates.Net> {
      var s := scopeOf(tenant);
      if s.Some? then s.value else []
    }

    method Enqueue(req: Request, ids: Option<(string, string)>, now: nat, saved: bool) returns (r: Reply, ghost hit: Option<string>)
      modifies this
      ensures var nets := ScopeFor(req.tenant);
        var kept := SortStrings(ScopeGates.CloudKept(lib, nets, req.targets));
        var dropped := ScopeGates.CloudDropped(lib, nets, req.targets);
        if req.tenant == "" then jobs == old(jobs) && disk == old(disk) && r == Rejected([])
        else if kept == [] then jobs == old(jobs) && disk == old(disk) && r == Rejected(dropped)
        else
          && Hit(old(jobs), req, kept, cfg.cooldown, now, hit)
          && (jobs, r) == EnqueueStep(old(jobs), req, kept, dropped, hit, ids, now, cfg, saved)
          && disk == if saved && hit == None && ids.Some? then jobs else old(disk)
    {
      hide Collapses, SortStrings, ScopeGates.CloudKept, ScopeGates.CloudDropped;
      hit := None;
      if req.tenant == "" { r := Rejected([]); return; }
      var scope := new ScopeGates.CloudScope(lib, ScopeFor(req.tenant));
      var gated, dropped := scope.Gate(req.targets);
      var kept := SortStrings(gated);
      if |gated| == 0 {
        assert |multiset(kept)| == |kept| == 0;
        r := Rejected(dropped);
        return;
      }
      assert |multiset(kept)| == |kept| == |gated|;
      var rest := jobs.Keys;
      while rest != {}
        invariant rest <= jobs.Keys
        invariant forall id :: id in jobs && id !in rest ==> !Collapses(jobs[id], req, kept, cfg.cooldown, now)
        decreases rest
      {
        var id :| id in rest;
        if Collapses(jobs[id], req, kept, cfg.cooldown, now) {
          hit := Some(id);
          r := Accepted(jobs[id], dropped);
          return;
        }
        rest := rest - {id};
      }
      if ids == None { r := Rejected(dropped); return; }
      var nj := NewJob(ids.value.0, ids.value.1, req, kept, now, cfg.defaultTtl);
      jobs := jobs[nj.id := nj];
      SaveLocked(saved);
      if saved { r := Accepted(nj, dropped); return; }
      jobs := jobs - {nj.id};
      assert jobs == old(jobs) - {nj.id};
      r := Rejected(dropped);
    }

    /** Expires what is past its time and collects what may be handed out. */
    method SweepAndCollect(o: string, now: nat) returns (eligible: seq<string>, changed: bool)
      modifies this`jobs
      ensures jobs == Swept(old(jobs), o, now) && (changed <==> jobs != old(jobs))
      ensures forall id :: id in eligible <==> id in jobs && Eligible(old(jobs)[id], o, now, cfg.redeliver)
    {
      hide Lapsed;
      eligible, changed := [], false;
      var rest := jobs.Keys;
      while rest != {}
        invariant rest <= jobs.Keys == old(jobs).Keys && (changed <==> jobs != old(jobs))
        invariant forall id :: id in jobs ==> jobs[id] == if id in rest then old(jobs)[id] else Sweep(old(jobs)[id], o, now)
        invariant forall id :: id in eligible <==> id in jobs && id !in rest && Eligible(old(jobs)[id], o, now, cfg.redeliver)
        decreases rest
      {
        var id :| id in rest;
        var j := jobs[id];
        rest := rest - {id};
        if j.tenant == o && !Terminal(j.state) {
          if Lapsed(j, now) {
            assert jobs[id] == old(jobs)[id] != j.(state := Expired);
            jobs := jobs[id := j.(state := Expired)];
            changed := true;
          } else if j.notBefore == 0 || now >= j.notBefore {
            if j.state == Pending || (j.state == Delivered && now - j.deliveredAt > cfg.redeliver) {
              eligible := eligible + [id];
            }
          }
        }
      }
    }

    /** The first of the eligible jobs by submission time. */
    method Oldest(eligible: seq<string>) returns (id: string)
      requires eligible != [] && forall x :: x in eligible ==> x in jobs
      ensures id in eligible && forall x :: x in eligible ==> jobs[id].createdAt <= jobs[x].createdAt
    {
      id := eligible[0];
      for i := 1 to |eligible|
        invariant id in eligible && forall k :: 0 <= k < i ==> jobs[id].createdAt <= jobs[eligible[k]].createdAt
      {
        if jobs[eligible[i]].createdAt < jobs[id].createdAt { id := eligible[i]; }
      }
    }

    method Poll(o: string, now: nat, saved: bool) returns (r: Option<Job>)
      modifies this
      ensures var pick := if r.Some? then Some(r.value.id) else None;
        (forall id :: id in old(jobs) ==> old(jobs)[id].id == id) ==>
          && Pick(old(jobs), o, now, cfg.redeliver, pick) && jobs == PollStep(old(jobs), o, now, pick)
          && (r.Some? ==> r.value == jobs[r.value.id])
      ensures disk == if saved && (r.Some? || jobs != old(jobs)) then jobs else old(disk)
    {
      hide Eligible, Lapsed;
      var eligible, changed := SweepAndCollect(o, now);
      if eligible == [] {
        if changed { SaveLocked(saved); }
        assert forall id :: id in old(jobs) ==> id !in eligible;
        return None;
      }
      SweptSame(old(jobs), o, now, cfg.redeliver);
      assert forall x :: x in eligible ==> jobs[x] == old(jobs)[x];
      var id := Oldest(eligible);
      var next := jobs[id].(state := Delivered, deliveredAt := now);
      jobs := jobs[id := next];
      SaveLocked(saved);
      r := Some(next);
    }

    method Ack(id: string, o: string, now: nat, saved: bool) returns (ok: bool)
      modifies this
      ensures (jobs, ok) == AckStep(old(jobs), id, o, now)
      ensures disk == if saved && ok && !Terminal(old(jobs)[id].state) then jobs else old(disk)
    {
      if id !in jobs || jobs[id].tenant != o { return false; }
      if !Terminal(jobs[id].state) {
        jobs := jobs[id := jobs[id].(state := Acked, ackedAt := now)];
        SaveLocked(saved);
      }
      ok := true;
    }
  }

  lemma SweptSame(jobs: Jobs, o: string, now: nat, redeliver: int)
    ensures forall id :: id in jobs && Eligible(jobs[id], o, now, redeliver) ==> Swept(jobs, o, now)[id] == jobs[id]
  {
  }

  // ---- partition by tenant ----

  /** Whoever asks, a poll hands out and changes only the asking tenant's jobs, an ack only its own. */
  lemma TenantsAreApart(jobs: Jobs, o: string, now: nat, redeliver: int, pick: Option<string>, ackId: string, id: string)
    requires Pick(jobs, o, now, redeliver, pick) && id in jobs && jobs[id].tenant != o
    ensures pick != Some(id) && PollStep(jobs, o, now, pick).Keys == jobs.Keys && PollStep(jobs, o, now, pick)[id] == jobs[id]
    ensures var (t, ok) := AckStep(jobs, ackId, o, now);
      t.Keys == jobs.Keys && t[id] == jobs[id] && (ackId == id ==> !ok)
  {
  }

  /** A job neither finished nor acked is handed out again: once its window has passed and nothing older is
      waiting, the next poll of its tenant returns it. */
  lemma UnackedIsRedelivered(jobs: Jobs, o: string, now: nat, redeliver: int, pick: Option<string>, id: string)
    requires Pick(jobs, o, now, redeliver, pick) && id in jobs && jobs[id].tenant == o
    requires jobs[id].state == Pending || (jobs[id].state == Delivered && now - jobs[id].deliveredAt > redeliver)
    requires !Lapsed(jobs[id], now) && jobs[id].notBefore <= now
    requires forall x :: x in jobs && x != id && Eligible(jobs[x], o, now, redeliver) ==> jobs[x].createdAt > jobs[id].createdAt
    ensures pick == Some(id)
  {
    assert Eligible(jobs[id], o, now, redeliver);
  }

  // ---- the order of targets ----

  /** No later text below an earlier one. */
  ghost predicate Ordered(list: seq<string>) {
    forall i, k :: 0 <= i < k < |list| ==> !Lex.Below(list[k], list[i])
  }

  lemma NotBelow(a: string, b: string, c: string)
    requires !Lex.Below(b, a) && !Lex.Below(c, b)
    ensures !Lex.Below(c, a)
  {
    hide Lex.Below;
    Lex.Total(a, b);
    Lex.Total(b, c);
    if Lex.Below(c, a) {
      if a == b || b == c { assert false; } else { Lex.Transitive(a, b, c); Lex.Transitive(a, c, a); Lex.Irreflexive(a); }
    }
  }

  lemma {:induction false} InsertOrders(list: seq<string>, x: string)
    requires Ordered(list)
    ensures Ordered(Insert(list, x))
    decreases |list|
  {
    hide Lex.Below;
    var r := Insert(list, x);
    if list == [] {
    } else if Lex.Below(x, list[0]) {
      forall i, k | 0 <= i < k < |r| ensures !Lex.Below(r[k], r[i]) {
        if i == 0 {
          FirstIsLowest(list, list[k - 1]);
          BelowNot(x, list[0]);
          NotBelow(x, list[0], list[k - 1]);
        }
      }
    } else {
      var t := Insert(list[1..], x);
      InsertOrders(list[1..], x);
      forall i, k | 0 <= i < k < |r| ensures !Lex.Below(r[k], r[i]) {
        if i == 0 {
          assert r[k] == t[k - 1] && t[k - 1] in multiset(t);
          if r[k] != x {
            assert r[k] in list[1..];
            FirstIsLowest(list, r[k]);
          }
        } else {
          assert r[i] == t[i - 1] && r[k] == t[k - 1];
        }
      }
    }
  }

  lemma BelowNot(a: string, b: string)
    requires Lex.Below(a, b)
    ensures !Lex.Below(b, a)
  {
    hide Lex.Below;
    if Lex.Below(b, a) {
      Lex.Transitive(a, b, a);
      Lex.Irreflexive(a);
    }
  }

  lemma FirstIsLowest(list: seq<string>, x: string)
    requires Ordered(list) && x in list
    ensures !Lex.Below(x, list[0])
  {
    hide Lex.Below;
    Lex.Irreflexive(list[0]);
    var k :| 0 <= k < |list| && list[k] == x;
  }

  /** sort.Strings orders its list and keeps every element. */
  lemma {:induction false} SortOrders(list: seq<string>)
    ensures Ordered(SortStrings(list)) && multiset(SortStrings(list)) == multiset(list)
    decreases |list|
  {
    hide Insert, Lex.Below;
    if list != [] {
      var n := |list| - 1;
      SortOrders(list[..n]);
      InsertOrders(SortStrings(list[..n]), list[n]);
    }
  }

  lemma Tail(list: seq<string>)
    requires list != []
    ensures multiset(list[1..]) == multiset(list) - multiset{list[0]} && list[0] in multiset(list)
    ensures Ordered(list) ==> Ordered(list[1..])
  {
    assert list == [list[0]] + list[1..];
  }

  /** There is one ordered list of given elements. */
  lemma {:induction false} OneOrder(a: seq<string>, b: seq<string>)
    requires Ordered(a) && Ordered(b) && multiset(a) == multiset(b)
    ensures a == b
    decreases |a|
  {
    hide Lex.Below, Ordered;
    assert |multiset(a)| == |a| && |multiset(b)| == |b|;
    if a != [] {
      Tail(a);
      Tail(b);
      assert a[0] in multiset(b) && b[0] in multiset(a);
      FirstIsLowest(a, b[0]);
      FirstIsLowest(b, a[0]);
      Lex.Total(a[0], b[0]);
      OneOrder(a[1..], b[1..]);
      assert a == [a[0]] + a[1..] && b == [b[0]] + b[1..];
    }
  }

  // ---- what the operations answer and leave ----

  predicate Live(j: Job) {
    j.state.Pending? || j.state.Delivered? || j.state.Acked?
  }

  predicate Late(j: Job, now: nat) {
    0 < j.expiresAt < now
  }

  /** A live job of the same tenant for the same targets, in any order, and the same scan config, created within the cooldown. */
  predicate Same(j: Job, req: Request, kept: seq<string>, cooldown: int, now: int) {
    Live(j) && j.tenant == req.tenant && multiset(j.targets) == multiset(kept) && j.config == req.config && now < j.createdAt + cooldown
  }

  lemma CollapsesIff(j: Job, req: Request, kept: seq<string>, cooldown: int, now: int)
    ensures Collapses(j, req, kept, cooldown, now) <==> Same(j, req, kept, cooldown, now)
  {
    hide SortStrings;
    SortOrders(j.targets);
    SortOrders(kept);
    if multiset(j.targets) == multiset(kept) { OneOrder(SortStrings(j.targets), SortStrings(kept)); }
  }

  /** A gated request makes a new job exactly if no recent job is the same, an id was drawn and the file was
      saved: pending, for the kept targets, with the request's lifetime or the default. A same recent job is the
      answer otherwise; and no other job changes. */
  lemma EnqueueAnswers(jobs: Jobs, req: Request, kept: seq<string>, dropped: seq<string>, hit: Option<string>, ids: Option<(string, string)>, now: nat, cfg: Config, saved: bool)
    requires Hit(jobs, req, kept, cfg.cooldown, now, hit) && (ids.Some? ==> ids.value.0 !in jobs)
    ensures var (t, r) := EnqueueStep(jobs, req, kept, dropped, hit, ids, now, cfg, saved);
      var same := exists id :: id in jobs && Same(jobs[id], req, kept, cfg.cooldown, now);
      && r.dropped == dropped && (r.Accepted? <==> same || (ids.Some? && saved))
      && (same ==> t == jobs && hit.Some? && hit.value in jobs && r.job == jobs[hit.value] && Same(r.job, req, kept, cfg.cooldown, now))
      && (!same && r.Accepted? ==>
            && t == jobs[ids.value.0 := r.job] && r.job.id == ids.value.0 && r.job.corr == ids.value.1
            && r.job.tenant == req.tenant && r.job.targets == kept && r.job.ports == req.ports && r.job.config == req.config
            && r.job.state.Pending? && r.job.createdAt == now && r.job.deliveredAt == 0 && r.job.ackedAt == 0 && r.job.notBefore == 0
            && r.job.expiresAt == now + if req.ttl > 0 then req.ttl else cfg.defaultTtl)
      && (r.Rejected? ==> t == jobs)
  {
    forall id | id in jobs ensures Collapses(jobs[id], req, kept, cfg.cooldown, now) <==> Same(jobs[id], req, kept, cfg.cooldown, now) {
      CollapsesIff(jobs[id], req, kept, cfg.cooldown, now);
    }
    hide Collapses, Same;
    if hit == None && ids.Some? { assert jobs - {ids.value.0} == jobs; }
  }

  /** What a poll may hand out: the tenant's own job, pending or delivered longer ago than the redelivery window,
      not late and not held back. */
  predicate Waiting(j: Job, o: string, now: nat, redeliver: int) {
    j.tenant == o && !Late(j, now) && j.notBefore <= now && (j.state.Pending? || (j.state.Delivered? && j.deliveredAt + redeliver < now))
  }

  /** A poll hands out an oldest waiting job, delivered now, if there is one; the tenant's own live jobs that are
      late expire, and no other job changes. */
  lemma PollAnswers(jobs: Jobs, o: string, now: nat, redeliver: int, pick: Option<string>)
    requires Pick(jobs, o, now, redeliver, pick)
    ensures pick.Some? <==> exists id :: id in jobs && Waiting(jobs[id], o, now, redeliver)
    ensures pick.Some? ==> (
      && pick.value in jobs && Waiting(jobs[pick.value], o, now, redeliver)
      && forall id :: id in jobs && Waiting(jobs[id], o, now, redeliver) ==> jobs[pick.value].createdAt <= jobs[id].createdAt)
    ensures var t := PollStep(jobs, o, now, pick);
      && t.Keys == jobs.Keys
      && (pick.Some? ==> t[pick.value] == jobs[pick.value].(state := Delivered, deliveredAt := now))
      && forall id :: id in jobs && pick != Some(id) ==>
           t[id] == if jobs[id].tenant == o && Live(jobs[id]) && Late(jobs[id], now) then jobs[id].(state := Expired) else jobs[id]
  {
    forall id | id in jobs ensures Eligible(jobs[id], o, now, redeliver) <==> Waiting(jobs[id], o, now, redeliver) {}
    hide Eligible, Waiting;
  }

  /** An ack is believed from the job's own tenant, and leaves a live job ACKED, dated now; a finished one stays. */
  lemma AckAnswers(jobs: Jobs, id: string, o: string, now: nat)
    ensures var (t, ok) := AckStep(jobs, id, o, now);
      && (ok <==> id in jobs && jobs[id].tenant == o)
      && (ok && Live(jobs[id]) ==> t == jobs[id := jobs[id].(state := Acked, ackedAt := now)])
      && (!(ok && Live(jobs[id])) ==> t == jobs)
  {
  }

  // ---- the sensor's loop ----

  datatype Call = CallPoll | CallScan(corr: string) | CallPush(corr: string) | CallAck(id: string)

  /** The answers one turn of the loop gets: the polled job if any, and which of the calls succeed. */
  datatype Answers = Answers(polled: Option<Job>, scanned: bool, pushed: bool)

  class Supervisor {
    var calls: seq<Call>

    constructor ()
      ensures calls == []
    {
      calls := [];
    }

    method ProcessJob(job: Job, a: Answers) returns (ok: bool)
      modifies this
      ensures ok == (a.scanned && a.pushed)
      ensures calls == old(calls) + [CallScan(job.corr)] + if a.scanned then [CallPush(job.corr)] else []
    {
      calls := calls + [CallScan(job.corr)];
      if !a.scanned { return false; }
      calls := calls + [CallPush(job.corr)];
      ok := a.pushed;
    }

    /** pollOnce: the job is acked only once its scan ran and its report was accepted. */
    method PollOnce(a: Answers)
      modifies this
      ensures calls == old(calls) + TurnCalls(a)
    {
      calls := calls + [CallPoll];
      if a.polled == None { return; }
      var ok := ProcessJob(a.polled.value, a);
      if !ok { return; }
      calls := calls + [CallAck(a.polled.value.id)];
    }
  }

  function TurnCalls(a: Answers): seq<Call> {
    [CallPoll] +
    if a.polled == None then []
    else
      [CallScan(a.polled.value.corr)] +
      if !a.scanned then []
      else
        [CallPush(a.polled.value.corr)] + if a.pushed then [CallAck(a.polled.value.id)] else []
  }

  /** A turn acks exactly when its scan ran and its push was accepted, and the ack comes right after the push. */
  lemma AckComesAfterPush(a: Answers)
    ensures (exists id :: CallAck(id) in TurnCalls(a)) <==> a.polled.Some? && a.scanned && a.pushed
    ensures forall i :: 0 <= i < |TurnCalls(a)| && TurnCalls(a)[i].CallAck? ==>
      i > 0 && a.pushed && TurnCalls(a)[i - 1] == CallPush(a.polled.value.corr) && TurnCalls(a)[i].id == a.polled.value.id
  {
    if a.polled.Some? && a.scanned && a.pushed { assert TurnCalls(a)[3] == CallAck(a.polled.value.id); }
  }
}
