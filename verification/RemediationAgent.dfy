/** The agent side of remediation: agent/internal/remediate/journal.go, executor.go, runner.go
    and the verification inside client.go's PollJob.

    What a handler does to the operating system is an oracle (HandlerOutcome), as are the clock,
    the file writes and the replies of the control plane. */
module RemediationAgent {
  import opened Prelude
  import opened RemediationCanonical

  const APPLIED := "applied"
  const FAILED := "failed"

  // The details the agent reports, in its own words.
  const WINDOW_CLOSED := "janela de manuten\U{c3}\U{a7}\U{c3}\U{a3}o expirou antes da aplica\U{c3}\U{a7}\U{c3}\U{a3}o"
  const UNSUPPORTED := "tipo de remedia\U{c3}\U{a7}\U{c3}\U{a3}o n\U{c3}\U{a3}o suportado: "
  const ALREADY_APPLIED := "idempotente: job j\U{c3}\U{a1} aplicado anteriormente"
  const NO_RESULT := "resultado ausente do executor"

  datatype Entry = Entry(status: string, at: Time)

  /** The journal in memory and the last one written to disk. */
  datatype JournalState = JournalState(m: map<string, Entry>, disk: map<string, Entry>)

  datatype HandlerOutcome = HandlerOutcome(res: Option<Result>, err: Option<string>)

  datatype Outcome = OutcomeApplied | OutcomeFailed | OutcomeDeferred | OutcomeSkipped

  /** What one Apply call did: its return values, and whether (and how) the handler ran. */
  datatype Attempt = Attempt(outcome: Outcome, res: Option<Result>, err: bool, ran: bool)

  /** What one RunOnce sent back. */
  datatype Sends = Sends(ack: Option<string>, report: Option<(string, Result)>)

  predicate AppliedOk(m: map<string, Entry>, id: string) {
    id in m && m[id].status == APPLIED
  }

  function Recorded(js: JournalState, id: string, status: string, at: Time, writeOk: bool): JournalState {
    var m := js.m[id := Entry(status, at)];
    JournalState(m, if writeOk then m else js.disk)
  }

  /** loadJournal at process start: an unreadable or corrupt file is an empty journal. */
  function Loaded(js: JournalState, readOk: bool): JournalState {
    JournalState(if readOk then js.disk else map[], js.disk)
  }

  // ---- Executor.Apply ----

  predicate BeforeWindow(o: Order, now: Time) {
    o.notBefore != 0 && now < o.notBefore
  }

  predicate AfterWindow(o: Order, now: Time) {
    o.notAfter != 0 && now > o.notAfter
  }

  /** The gates an order passes to reach its handler. */
  predicate Runs(js: JournalState, handlers: set<string>, o: Order, now: Time) {
    && o.jobId != "" && !AppliedOk(js.m, o.jobId)
    && !BeforeWindow(o, now) && !AfterWindow(o, now) && o.typ in handlers
  }

  /** The type is quoted as it stands. */
  function Unsupported(typ: string): string {
    UNSUPPORTED + "\"" + typ + "\""
  }

  function Refusal(detail: string, now: Time): Attempt {
    Attempt(OutcomeFailed, Some(Result(FAILED, detail, "", now)), false, false)
  }

  /** The handler's result as reported: stamped, and its status fixed by whether the handler erred. */
  function Reported(h: HandlerOutcome, now: Time): Result {
    var r := if h.res.Some? then h.res.value else Result("", "", "", 0);
    var stamped := if r.reportedAt == 0 then r.(reportedAt := now) else r;
    match h.err
    case None => stamped.(status := APPLIED)
    case Some(e) => stamped.(status := FAILED, detail := if stamped.detail == "" then e else stamped.detail)
  }

  function ApplyStep(js: JournalState, handlers: set<string>, o: Option<Order>, now: Time, h: HandlerOutcome, writeOk: bool): (JournalState, Attempt) {
    if o == None || o.value.jobId == "" then (js, Attempt(OutcomeFailed, None, true, false))
    else if AppliedOk(js.m, o.value.jobId) then (js, Attempt(OutcomeSkipped, None, false, false))
    else if BeforeWindow(o.value, now) then (js, Attempt(OutcomeDeferred, None, false, false))
    else if AfterWindow(o.value, now) then (js, Refusal(WINDOW_CLOSED, now))
    else if o.value.typ !in handlers then (js, Refusal(Unsupported(o.value.typ), now))
    else
      var status := if h.err == None then APPLIED else FAILED;
      (Recorded(js, o.value.jobId, status, now, writeOk),
       Attempt(if h.err == None then OutcomeApplied else OutcomeFailed, Some(Reported(h, now)), false, true))
  }

  // ---- Runner.RunOnce ----

  /** PollJob's answer for a decoded response: nothing, a rejected order, or a verified one. */
  datatype Polled = Nothing | Unverified | Got(order: Order)

  function PollJob(response: Option<Order>, now: Time, skew: nat): Polled {
    if response == None || response.value.jobId == "" then Nothing
    else if !VerifyAt(response.value, now, skew) then Unverified
    else Got(response.value)
  }

  /** The message sent for an outcome; a skipped order is re-reported as applied. */
  function Answer(o: Order, a: Attempt, now: Time): Sends {
    if a.err || a.outcome == OutcomeDeferred then Sends(None, None)
    else
      var r :=
        if a.outcome == OutcomeSkipped then Result(APPLIED, ALREADY_APPLIED, "", now)
        else if a.res == None then Result(FAILED, NO_RESULT, "", now)
        else a.res.value;
      Sends(Some(o.jobId), Some((o.jobId, r)))
  }

  /** The moments one RunOnce reads the clock at. */
  datatype Clock = Clock(poll: Time, apply: Time, report: Time)

  function RunOnceStep(js: JournalState, handlers: set<string>, response: Option<Order>, clock: Clock, skew: nat, h: HandlerOutcome, writeOk: bool): (JournalState, Attempt, Sends) {
    match PollJob(response, clock.poll, skew)
    case Nothing => (js, Attempt(OutcomeDeferred, None, false, false), Sends(None, None))
    case Unverified => (js, Attempt(OutcomeDeferred, None, true, false), Sends(None, None))
    case Got(o) =>
      var (js1, a) := ApplyStep(js, handlers, Some(o), clock.apply, h, writeOk);
      (js1, a, Answer(o, a, clock.report))
  }

  /** Behind every applied entry and every applied report of one RunOnce there is an entry that was
      already there, or a handler run that just returned without error. */
  lemma EvidenceOfApplied(js: JournalState, handlers: set<string>, response: Option<Order>, clock: Clock, skew: nat, h: HandlerOutcome, writeOk: bool, id: string)
    ensures var (js1, a, sends) := RunOnceStep(js, handlers, response, clock, skew, h, writeOk);
      var succeeded := a.ran && a.outcome == OutcomeApplied && response.Some? && response.value.jobId == id;
      && (AppliedOk(js1.m, id) ==> AppliedOk(js.m, id) || succeeded)
      && (AppliedOk(js1.disk, id) ==> AppliedOk(js.disk, id) || AppliedOk(js1.m, id))
      && (sends.report.Some? && sends.report.value.0 == id && sends.report.value.1.status == APPLIED ==> AppliedOk(js.m, id) || succeeded)
      && (a.ran ==> response.Some? && VerifyAt(response.value, clock.poll, skew)
                    && !BeforeWindow(response.value, clock.apply) && !AfterWindow(response.value, clock.apply))
  {
  }

  // ---- the classes ----

  class Journal {
    var m: map<string, Entry>
    var disk: map<string, Entry>

    ghost function State(): JournalState
      reads this
    {
      JournalState(m, disk)
    }

    constructor (file: map<string, Entry>, readOk: bool)
      ensures State() == Loaded(JournalState(map[], file), readOk)
    {
      disk := file;
      m := if readOk then file else map[];
    }

    method Applied(id: string) returns (ok: bool)
      ensures ok == AppliedOk(m, id)
    {
      ok := id in m && m[id].status == APPLIED;
    }

    method Record(id: string, status: string, at: Time, writeOk: bool)
      modifies this
      ensures State() == Recorded(old(State()), id, status, at, writeOk)
    {
      m := m[id := Entry(status, at)];
      if writeOk { disk := m; }
    }
  }

  class Executor {
    const handlers: set<string>
    const journal: Journal

    constructor (file: map<string, Entry>, readOk: bool, handlers: set<string>)
      ensures this.handlers == handlers && fresh(journal)
      ensures journal.State() == Loaded(JournalState(map[], file), readOk)
    {
      this.handlers := handlers;
      journal := new Journal(file, readOk);
    }

    method Apply(o: Option<Order>, now: Time, h: HandlerOutcome, writeOk: bool) returns (a: Attempt)
      modifies journal
      ensures (journal.State(), a) == ApplyStep(old(journal.State()), handlers, o, now, h, writeOk)
    {
      if o == None || o.value.jobId == "" { return Attempt(OutcomeFailed, None, true, false); }
      var order := o.value;
      var done := journal.Applied(order.jobId);
      if done { return Attempt(OutcomeSkipped, None, false, false); }
      if order.notBefore != 0 && now < order.notBefore { return Attempt(OutcomeDeferred, None, false, false); }
      if order.notAfter != 0 && now > order.notAfter { return Refusal(WINDOW_CLOSED, now); }
      if order.typ !in handlers { return Refusal(Unsupported(order.typ), now); }
      var res := if h.res.Some? then h.res.value else Result("", "", "", 0);
      if res.reportedAt == 0 { res := res.(reportedAt := now); }
      if h.err.Some? {
        res := res.(status := FAILED);
        if res.detail == "" { res := res.(detail := h.err.value); }
        journal.Record(order.jobId, FAILED, now, writeOk);
        return Attempt(OutcomeFailed, Some(res), false, true);
      }
      res := res.(status := APPLIED);
      journal.Record(order.jobId, APPLIED, now, writeOk);
      a := Attempt(OutcomeApplied, Some(res), false, true);
    }
  }

  class Runner {
    const exec: Executor
    const skew: nat

    constructor (exec: Executor, skew: nat)
      ensures this.exec == exec && this.skew == skew
    {
      this.exec, this.skew := exec, skew;
    }

    method RunOnce(response: Option<Order>, clock: Clock, h: HandlerOutcome, writeOk: bool) returns (a: Attempt, sends: Sends)
      modifies exec.journal
      ensures (exec.journal.State(), a, sends)
           == RunOnceStep(old(exec.journal.State()), exec.handlers, response, clock, skew, h, writeOk)
    {
      var polled := PollJob(response, clock.poll, skew);
      sends := Sends(None, None);
      match polled {
        case Nothing => return Attempt(OutcomeDeferred, None, false, false), sends;
        case Unverified => return Attempt(OutcomeDeferred, None, true, false), sends;
        case Got(order) =>
          a := exec.Apply(Some(order), clock.apply, h, writeOk);
          if a.err { return; }
          var res := a.res;
          match a.outcome {
            case OutcomeDeferred => return;
            case OutcomeSkipped => res := Some(Result(APPLIED, ALREADY_APPLIED, "", clock.report));
            case _ =>
              if res == None { res := Some(Result(FAILED, NO_RESULT, "", clock.report)); }
          }
          sends := Sends(Some(order.jobId), Some((order.jobId, res.value)));
      }
    }
  }

  // ---- at most once, up to lost journals ----

  /** One event in the life of an agent's executor. A restart either reads the journal file or not. */
  datatype Event =
    | Call(order: Option<Order>, now: Time, h: HandlerOutcome, writeOk: bool)
    | Restart(readOk: bool)

  function After(js: JournalState, handlers: set<string>, e: Event): JournalState {
    match e
    case Call(o, now, h, w) => ApplyStep(js, handlers, o, now, h, w).0
    case Restart(readOk) => Loaded(js, readOk)
  }

  function AfterAll(js: JournalState, handlers: set<string>, es: seq<Event>): JournalState
    decreases |es|
  {
    if es == [] then js else AfterAll(After(js, handlers, es[0]), handlers, es[1..])
  }

  predicate SucceedsFor(js: JournalState, handlers: set<string>, e: Event, id: string) {
    && e.Call? && e.order.Some? && e.order.value.jobId == id && Runs(js, handlers, e.order.value, e.now) && e.h.err == None
  }

  predicate RestartMisses(js: JournalState, e: Event, id: string) {
    e.Restart? && !AppliedOk(Loaded(js, e.readOk).m, id)
  }

  /** Handler runs for id that returned no error. */
  function Successes(js: JournalState, handlers: set<string>, es: seq<Event>, id: string): nat
    decreases |es|
  {
    if es == [] then 0
    else (if SucceedsFor(js, handlers, es[0], id) then 1 else 0) + Successes(After(js, handlers, es[0]), handlers, es[1..], id)
  }

  /** Restarts that found no applied entry for id. */
  function Misses(js: JournalState, handlers: set<string>, es: seq<Event>, id: string): nat
    decreases |es|
  {
    if es == [] then 0
    else (if RestartMisses(js, es[0], id) then 1 else 0) + Misses(After(js, handlers, es[0]), handlers, es[1..], id)
  }

  /** What a restart remembers of a run: the order is run again inside its window unless the journal was read back
      and says applied, as that run's own write left it, or an earlier one where its write failed. */
  lemma RestartForgetsIff(js: JournalState, handlers: set<string>, o: Order, now: Time, h: HandlerOutcome, w: bool, readOk: bool, later: Time)
    requires Runs(js, handlers, o, now)
    ensures var back := After(After(js, handlers, Call(Some(o), now, h, w)), handlers, Restart(readOk));
      && (Runs(back, handlers, o, later) <==>
           && (o.notBefore != 0 ==> o.notBefore <= later) && (o.notAfter != 0 ==> later <= o.notAfter)
           && (readOk ==> if w then h.err.Some? else o.jobId !in js.disk || js.disk[o.jobId].status != "applied"))
      && forall id :: id != o.jobId ==>
           && (id in back.m <==> readOk && if w then id in js.m else id in js.disk)
           && (id in back.m ==> back.m[id] == if w then js.m[id] else js.disk[id])
  {
  }

  /** Over any redeliveries, failed attempts, failed journal writes and restarts, a job is applied
      at most once more than the number of restarts that had lost its entry. */
  lemma {:induction false} AtMostOncePerLostEntry(js: JournalState, handlers: set<string>, es: seq<Event>, id: string)
    ensures Successes(js, handlers, es, id) <= Misses(js, handlers, es, id) + (if AppliedOk(js.m, id) then 0 else 1)
    decreases |es|
  {
    if es != [] {
      AtMostOncePerLostEntry(After(js, handlers, es[0]), handlers, es[1..], id);
    }
  }

  /** n rounds of an application whose journal write fails, each followed by a restart. */
  function LossyRounds(o: Order, now: Time, n: nat): seq<Event> {
    if n == 0 then []
    else [Call(Some(o), now, HandlerOutcome(None, None), false), Restart(true)] + LossyRounds(o, now, n - 1)
  }

  /** The bound is met: with n lost entries the handler can succeed n + 1 times. */
  lemma {:induction false} BoundIsReached(handlers: set<string>, o: Order, now: Time, n: nat)
    requires Runs(JournalState(map[], map[]), handlers, o, now)
    ensures var es := LossyRounds(o, now, n) + [Call(Some(o), now, HandlerOutcome(None, None), false)];
      Successes(JournalState(map[], map[]), handlers, es, o.jobId) == n + 1 && Misses(JournalState(map[], map[]), handlers, es, o.jobId) == n
  {
    var js := JournalState(map[], map[]);
    var last := [Call(Some(o), now, HandlerOutcome(None, None), false)];
    if n == 0 {
      assert LossyRounds(o, now, 0) + last == last;
    } else {
      var es, rest := LossyRounds(o, now, n) + last, LossyRounds(o, now, n - 1) + last;
      BoundIsReached(handlers, o, now, n - 1);
      assert es[0] == last[0] && es[1] == Restart(true) && es[1..][1..] == rest;
      var js1 := After(js, handlers, es[0]);
      assert After(js1, handlers, es[1]) == js;
      assert es[1..][0] == es[1];
      assert Successes(js1, handlers, es[1..], o.jobId) == Successes(js, handlers, rest, o.jobId);
      assert Misses(js1, handlers, es[1..], o.jobId) == 1 + Misses(js, handlers, rest, o.jobId);
    }
  }

  /** An apply without a job, or with one that has no id, is an error and nothing else. */
  lemma NoJobNoApply(js: JournalState, handlers: set<string>, o: Option<Order>, now: Time, h: HandlerOutcome, writeOk: bool)
    ensures ApplyStep(js, handlers, o, now, h, writeOk).1.err <==> o == None || o.value.jobId == ""
    ensures o == None || o.value.jobId == "" ==> ApplyStep(js, handlers, o, now, h, writeOk) == (js, Attempt(OutcomeFailed, None, true, false))
  {
    hide AppliedOk, Reported;
  }

  /** The counted runs are the handler runs of Apply. */
  lemma RunsAreRuns(js: JournalState, handlers: set<string>, o: Order, now: Time, h: HandlerOutcome, writeOk: bool)
    ensures Runs(js, handlers, o, now) <==> ApplyStep(js, handlers, Some(o), now, h, writeOk).1.ran
  {
    hide AppliedOk, Reported;
  }

  /** An entry marked applied is never taken back while the process lives. */
  lemma {:induction false} AppliedIsFinal(js: JournalState, handlers: set<string>, es: seq<Event>, id: string)
    requires AppliedOk(js.m, id) && forall i :: 0 <= i < |es| ==> es[i].Call?
    ensures AppliedOk(AfterAll(js, handlers, es).m, id) && Successes(js, handlers, es, id) == 0
    decreases |es|
  {
    if es != [] {
      assert es[0].Call?;
      AppliedIsFinal(After(js, handlers, es[0]), handlers, es[1..], id);
    }
  }
}
