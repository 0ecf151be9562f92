/** A turn of the agent's loop and the life of a job, as parts of the runs of the whole protocol: what the
    world of RemediationProtocol allows is at least what server and agents do. */
module RemediationTurns {
  import opened Prelude
  import opened Utf8
  import opened RemediationCanonical
  import opened RemediationServer
  import opened RemediationAgent
  import opened RemediationProtocol
  import opened RemediationLaws

  // ---- a turn ----

  /** One poll of an agent and what follows from it; arrives says whether the answer reached the agent. */
  datatype Turn = Turn(
    who: Ident, polledAt: Time, pick: Option<string>, pollSaved: bool, arrives: bool, lay: Layout,
    clock: Clock, h: HandlerOutcome, journaled: bool, ackAt: Time, ackSaved: bool, reportAt: Time, reportSaved: bool)

  ghost predicate MayTurn(w: World, u: Turn) {
    && u.who in w.journals && u.who in w.handlers && w.clock <= u.polledAt <= u.ackAt <= u.reportAt
    && MayPick(w.server.jobs, u.who.cn, u.who.o, u.polledAt, w.redeliver, u.pick)
  }

  ghost function Brought(w: World, u: Turn): Option<Order>
    requires MayTurn(w, u)
  {
    var handed := PollStep(w.server, u.who.cn, u.who.o, u.polledAt, u.pick, u.pollSaved).1;
    if handed.Some? && u.arrives then Wire(u.lay, handed.value) else None
  }

  /** An order the server hands out is one the network may bring: its signature was released. */
  lemma HandedIsReleased(w: World, u: Turn)
    requires Inv(w) && MayTurn(w, u)
    ensures var o := Brought(w, u); o.Some? ==> Released(o.value.signature, w.approvals)
  {
    hide Message, JobFields, OrderFields, Sign, Digest, TextOk, ResponseText, Transcoded, HtmlEscape;
    if u.pick.Some? {
      assert JobOk(w, u.pick.value, w.server.jobs[u.pick.value], u.pick.value in w.reloaded);
    }
  }

  /** A poll and the run of what it brings are steps of the protocol; the run's report is then under way. */
  lemma PollAndRun(w: World, u: Turn)
    requires Inv(w) && MayTurn(w, u)
    ensures var poll, run := Poll(u.who, u.polledAt, u.pick, u.pollSaved), AgentRun(u.who, Brought(w, u), u.clock, u.h, u.journaled);
      && Enabled(w, poll) && Enabled(Do(w, poll), run)
      && var w2, sends := Do(Do(w, poll), run), RunOnceStep(w.journals[u.who], w.handlers[u.who], Brought(w, u), u.clock, w.skew, u.h, u.journaled).2;
         && w2.server == PollStep(w.server, u.who.cn, u.who.o, u.polledAt, u.pick, u.pollSaved).0 && w2.clock == u.polledAt
         && (sends.report.Some? ==> Sent(u.who, sends.report.value.0, sends.report.value.1) in w2.reports)
  {
    hide RunOnceStep, PollStep, Inv, MayPick, Brought, Released;
    HandedIsReleased(w, u);
    assert forall sig :: Released(sig, w.approvals) <==> Released(sig, Do(w, Poll(u.who, u.polledAt, u.pick, u.pollSaved)).approvals);
  }

  /** Both answers of a turn, or neither, follow. */
  lemma AnswersComeInPairs(js: JournalState, handlers: set<string>, response: Option<Order>, clock: Clock, skew: nat, h: HandlerOutcome, w: bool)
    ensures var sends := RunOnceStep(js, handlers, response, clock, skew, h, w).2;
      (sends.ack.Some? <==> sends.report.Some?) && (sends.ack.Some? ==> sends.report.value.0 == sends.ack.value)
  {
    hide VerifyAt, ApplyStep;
  }

  lemma AckAndReport(w: World, u: Turn, id: string, res: Result)
    requires Sent(u.who, id, res) in w.reports && w.clock <= u.ackAt <= u.reportAt
    ensures var ack, report := Ack(u.who, id, u.ackAt, u.ackSaved), Report(Sent(u.who, id, res), u.reportAt, u.reportSaved);
      && Enabled(w, ack) && Enabled(Do(w, ack), report)
      && Do(Do(w, ack), report).server == ReportStep(
           AckStep(w.server, id, u.who.cn, u.who.o, u.ackAt, u.ackSaved).0, id, u.who.cn, u.who.o, Some(res), u.reportAt, u.reportSaved).0
  {
    hide AckStep, ReportStep;
  }

  /** Whatever an agent's turn brings, its poll, run, ack and report in that order are steps of the protocol,
      and leave at the server what its operations leave on the agent's messages. */
  lemma TurnIsARun(w: World, u: Turn)
    requires Inv(w) && MayTurn(w, u)
    ensures var poll, run := Poll(u.who, u.polledAt, u.pick, u.pollSaved), AgentRun(u.who, Brought(w, u), u.clock, u.h, u.journaled);
      && Enabled(w, poll) && Enabled(Do(w, poll), run)
      && var w2, sends := Do(Do(w, poll), run), RunOnceStep(w.journals[u.who], w.handlers[u.who], Brought(w, u), u.clock, w.skew, u.h, u.journaled).2;
         && w2.server == PollStep(w.server, u.who.cn, u.who.o, u.polledAt, u.pick, u.pollSaved).0
         && (sends.ack.Some? <==> sends.report.Some?)
         && (sends.ack.Some? ==>
               var id, res := sends.ack.value, sends.report.value.1;
               var ack, report := Ack(u.who, id, u.ackAt, u.ackSaved), Report(Sent(u.who, id, res), u.reportAt, u.reportSaved);
               && sends.report.value.0 == id && Enabled(w2, ack) && Enabled(Do(w2, ack), report)
               && Do(Do(w2, ack), report).server == ReportStep(
                    AckStep(w2.server, id, u.who.cn, u.who.o, u.ackAt, u.ackSaved).0, id, u.who.cn, u.who.o, Some(res), u.reportAt, u.reportSaved).0)
  {
    PollAndRun(w, u);
    hide *;
    var w2 := Do(Do(w, Poll(u.who, u.polledAt, u.pick, u.pollSaved)), AgentRun(u.who, Brought(w, u), u.clock, u.h, u.journaled));
    var sends := RunOnceStep(w.journals[u.who], w.handlers[u.who], Brought(w, u), u.clock, w.skew, u.h, u.journaled).2;
    AnswersComeInPairs(w.journals[u.who], w.handlers[u.who], Brought(w, u), u.clock, w.skew, u.h, u.journaled);
    if sends.ack.Some? { AckAndReport(w2, u, sends.ack.value, sends.report.value.1); }
  }

  // ---- a life ----

  ghost function Reach(w: World, es: seq<RemediationProtocol.Event>): Option<World>
    decreases |es|
  {
    if es == [] then Some(w)
    else
      var p := Reach(w, es[..|es| - 1]);
      if p.Some? && Enabled(p.value, es[|es| - 1]) then Some(Do(p.value, es[|es| - 1])) else None
  }

  lemma OneMore(w: World, es: seq<RemediationProtocol.Event>, e: RemediationProtocol.Event, v: World)
    requires Reach(w, es) == Some(v) && Enabled(v, e)
    ensures Reach(w, es + [e]) == Some(Do(v, e))
  {
    hide Do, Enabled;
    assert (es + [e])[..|es|] == es;
  }

  lemma First(w: World)
    ensures Reach(w, []) == Some(w)
  {
  }

  lemma FreshIsNotJournaled(w: World, who: Ident, id: string)
    requires Inv(w) && who in w.journals && id !in w.used
    ensures !Journaled(w.journals[who], id)
  {
    hide Message, JobFields, OrderFields, Sign, Digest, VerifyAt, StoreOk, HandedOk, TextOk;
    if AppliedOk(w.journals[who].m, id) {
      assert JournalOk(w, who, w.journals[who].m);
      var r :| r in w.runs && r.who == who && r.order.jobId == id && r.ok;
      assert RunOk(w, r);
      var a :| a in w.approvals && OrderFields(r.order) == JobFields(a) && r.order.payload == a.payload;
      FieldsGiveId(a, r.order);
    }
  }

  /** What a request needs to go through: a world with a signer, fresh ids, the request complete, its text legible
      and every moment in time, and no older job of its agent waiting. */
  ghost predicate Favourable(w: World, req: Request, payload: string, ids: Ids, approver: string, at: Times, lay: Layout, ackAt: Time, reportAt: Time) {
    var r := Received(req);
    var who := Ident(r.agentId, r.tenant);
    && w.hasSigner && FreshIds(w, ids) && ids.job != "" && approver != ""
    && r.tenant != "" && r.agentId != "" && r.typ in {"package_patch", "config_hardening"}
    && who in w.journals && who in w.handlers && r.typ in w.handlers[who]
    && w.clock <= at.enqueued && at.polled <= ackAt <= reportAt && Timely(r, w.defaultTtl, at, w.skew)
    && Legible(lay, Issued(r, payload, ids, w.defaultTtl, approver, at))
    && MayPick(Queued(w.server, r, payload, ids, w.defaultTtl, approver, at).jobs, r.agentId, r.tenant, at.polled, w.redeliver, Some(ids.job))
  }

  /** The world once the request is enqueued and approved. */
  lemma QueuedIsARun(w: World, req: Request, payload: string, ids: Ids, approver: string, at: Times, lay: Layout, ackAt: Time, reportAt: Time)
    returns (es: seq<RemediationProtocol.Event>, v: World)
    requires Inv(w) && Favourable(w, req, payload, ids, approver, at, lay, ackAt, reportAt)
    ensures Reach(w, es) == Some(v) && Inv(v) && v.clock == at.approved
    ensures v.server == Queued(w.server, Received(req), payload, ids, w.defaultTtl, approver, at)
    ensures v.journals == w.journals && v.handlers == w.handlers && v.skew == w.skew && v.redeliver == w.redeliver
  {
    hide Inv, EnqueueStep, ApproveStep, Reaped, Acceptable, Legible, Received, MayPick, Reach;
    var e1 := Enqueue(req, Some(payload), Some(ids), at.enqueued, true);
    var e2 := Approve(ids.job, approver, at.approved, true);
    var w1 := Do(w, e1);
    v := Do(w1, e2);
    es := [] + [e1] + [e2];
    First(w);
    OneMore(w, [], e1, w);
    OneMore(w, [] + [e1], e2, w1);
    StepKeeps(w, e1);
    StepKeeps(w1, e2);
  }

  /** An answered turn continues a run. */
  lemma TurnReaches(w: World, before: seq<RemediationProtocol.Event>, v: World, u: Turn) returns (es: seq<RemediationProtocol.Event>, z: World)
    requires Reach(w, before) == Some(v) && Inv(v) && MayTurn(v, u)
    requires RunOnceStep(v.journals[u.who], v.handlers[u.who], Brought(v, u), u.clock, v.skew, u.h, u.journaled).2.ack.Some?
    ensures Reach(w, es) == Some(z)
    ensures var sends := RunOnceStep(v.journals[u.who], v.handlers[u.who], Brought(v, u), u.clock, v.skew, u.h, u.journaled).2;
      && sends.report.Some?
      && var s3 := PollStep(v.server, u.who.cn, u.who.o, u.polledAt, u.pick, u.pollSaved).0;
         var s4 := AckStep(s3, sends.ack.value, u.who.cn, u.who.o, u.ackAt, u.ackSaved).0;
         z.server == ReportStep(s4, sends.report.value.0, u.who.cn, u.who.o, Some(sends.report.value.1), u.reportAt, u.reportSaved).0
  {
    TurnIsARun(v, u);
    hide *;
    var poll, run := Poll(u.who, u.polledAt, u.pick, u.pollSaved), AgentRun(u.who, Brought(v, u), u.clock, u.h, u.journaled);
    var v1 := Do(v, poll);
    var v2 := Do(v1, run);
    var sends := RunOnceStep(v.journals[u.who], v.handlers[u.who], Brought(v, u), u.clock, v.skew, u.h, u.journaled).2;
    var id, res := sends.ack.value, sends.report.value.1;
    var ack, report := Ack(u.who, id, u.ackAt, u.ackSaved), Report(Sent(u.who, id, res), u.reportAt, u.reportSaved);
    z := Do(Do(v2, ack), report);
    OneMore(w, before, poll, v);
    OneMore(w, before + [poll], run, v1);
    OneMore(w, before + [poll] + [run], ack, v2);
    OneMore(w, before + [poll] + [run] + [ack], report, Do(v2, ack));
    es := before + [poll] + [run] + [ack] + [report];
  }

  lemma VerifyReaches(w: World, before: seq<RemediationProtocol.Event>, v: World, id: string) returns (es: seq<RemediationProtocol.Event>, z: World)
    requires Reach(w, before) == Some(v)
    ensures Reach(w, es) == Some(z) && z.server == VerifyStep(v.server, id, true).0
  {
    hide Reach, VerifyStep;
    z := Do(v, Verify(id, true));
    OneMore(w, before, Verify(id, true), v);
    es := before + [Verify(id, true)];
  }

  /** The turn of the agent the request is for. */
  ghost function OwnTurn(req: Request, ids: Ids, at: Times, lay: Layout, h: HandlerOutcome, journaled: bool, ackAt: Time, reportAt: Time): Turn {
    Turn(Ident(Received(req).agentId, Received(req).tenant), at.polled, Some(ids.job), true, true, lay, at.clock, h, journaled, ackAt, true, reportAt, true)
  }

  /** In that turn the order arrives, runs and is answered; and what the answers leave. */
  lemma OwnTurnAnswers(
    w: World, v: World, req: Request, payload: string, ids: Ids, approver: string, at: Times, lay: Layout, h: HandlerOutcome, journaled: bool, ackAt: Time, reportAt: Time)
    requires Inv(w) && Favourable(w, req, payload, ids, approver, at, lay, ackAt, reportAt)
    requires v.server == Queued(w.server, Received(req), payload, ids, w.defaultTtl, approver, at) && v.clock == at.approved
    requires v.journals == w.journals && v.handlers == w.handlers && v.skew == w.skew && v.redeliver == w.redeliver
    ensures var u := OwnTurn(req, ids, at, lay, h, journaled, ackAt, reportAt);
      && MayTurn(v, u)
      && var sends := RunOnceStep(v.journals[u.who], v.handlers[u.who], Brought(v, u), u.clock, v.skew, u.h, u.journaled).2;
         && sends.ack.Some? && sends.report.Some?
         && var s3 := PollStep(v.server, u.who.cn, u.who.o, u.polledAt, u.pick, u.pollSaved).0;
            var s4 := AckStep(s3, sends.ack.value, u.who.cn, u.who.o, u.ackAt, u.ackSaved).0;
            var s5 := ReportStep(s4, sends.report.value.0, u.who.cn, u.who.o, Some(sends.report.value.1), u.reportAt, u.reportSaved).0;
            var s6 := VerifyStep(s5, ids.job, true).0;
            ids.job in s6.jobs && s6.jobs[ids.job].state == if h.err == None then Verified else Failed
  {
    var r := Received(req);
    var u := OwnTurn(req, ids, at, lay, h, journaled, ackAt, reportAt);
    FreshIsNotJournaled(w, u.who, ids.job);
    hide Inv, Legible, Received, MayPick, Queued, PollStep, RunOnceStep, AckStep, ReportStep, VerifyStep, Wire, Journaled, FreshIds, Issued;
    JobGoesThrough(w.server, r, payload, ids, w.defaultTtl, approver, at, w.redeliver, lay,
      w.journals[u.who], w.handlers[u.who], w.skew, h, journaled, ackAt, reportAt);
  }

  /** From any world a run can reach, a favourable request can go through: there are steps of the protocol that
      take it from nothing to VERIFIED, or to FAILED if its handler errs. */
  lemma JobIsARun(
    w: World, req: Request, payload: string, ids: Ids, approver: string, at: Times, lay: Layout, h: HandlerOutcome, journaled: bool, ackAt: Time, reportAt: Time)
    returns (es: seq<RemediationProtocol.Event>)
    requires Inv(w) && Favourable(w, req, payload, ids, approver, at, lay, ackAt, reportAt)
    ensures Reach(w, es).Some?
    ensures var jobs := Reach(w, es).value.server.jobs;
      ids.job in jobs && jobs[ids.job].state == if h.err == None then Verified else Failed
  {
    hide *;
    var v, z;
    es, v := QueuedIsARun(w, req, payload, ids, approver, at, lay, ackAt, reportAt);
    OwnTurnAnswers(w, v, req, payload, ids, approver, at, lay, h, journaled, ackAt, reportAt);
    es, z := TurnReaches(w, es, v, OwnTurn(req, ids, at, lay, h, journaled, ackAt, reportAt));
    es, z := VerifyReaches(w, es, z, ids.job);
  }
}
