/** Whole lives of a self-updating agent: boots, crashes, update attempts and commits, in any order,
    with the loop discipline of agent/internal/agentd/agentd.go (BeginBoot first in every process,
    at most one Apply attempt per process, commits only while the process lives). */
module SelfUpdateRuns {
  import opened Prelude
  import opened Versions
  import opened SelfUpdate

  /** A live process: the binary it was started from, and whether it has attempted an update. */
  datatype Proc = Proc(image: Image, attempted: bool)

  /** failed, passed and faults are history: the versions whose rollback reached the quarantine file;
      and, for the stage in flight, how many boots went on past BeginBoot and how many boots had a
      marker write or a rollback fail. */
  datatype Host = Host(files: Files, proc: Option<Proc>, failed: set<string>, passed: nat, faults: nat)

  datatype Event =
    | Boot(bio: BootIo)
    | Update(target: string, incoming: Image, aio: ApplyIo, restartOk: bool)
    | Commit(policyOk: bool)

  /** Update is reached only through Check (strictly newer), Allowed and a passed smoke test. */
  predicate Enabled(h: Host, e: Event) {
    match e
    case Boot(_) => true
    case Update(target, incoming, io, _) =>
      && h.proc.Some? && !h.proc.value.attempted
      && IsNewer(target, h.proc.value.image.version) && Allowed(h.files, target)
      && (io.smokeOk ==> Normalize(incoming.version) == Normalize(target))
    case Commit(_) => h.proc.Some?
  }

  /** Did this boot count, and did the counting fail. */
  predicate BootFault(f: Files, running: string, io: BootIo) {
    && f.stage.Some? && BootStep(f, running, io).0.stage == f.stage
  }

  function Do(h: Host, e: Event): Host
    requires Enabled(h, e)
  {
    match e
    case Boot(io) =>
      var image := h.files.binary;
      var (f, rolledBack) := BootStep(h.files, image.version, io);
      var staged := h.files.stage.Some? && f.stage.Some?;
      Host(f, if rolledBack then None else Some(Proc(image, false)),
           if h.files.stage.Some? && f.stage == None && h.files.stage.value.target in f.quarantine then h.failed + {h.files.stage.value.target} else h.failed,
           if staged then h.passed + 1 else 0,
           if !staged then 0 else if BootFault(h.files, image.version, io) then h.faults + 1 else h.faults)
    case Update(target, incoming, io, restartOk) =>
      var (f, restarting) := ApplyStep(h.files, target, incoming, h.proc.value.image.version, io);
      Host(f, if restarting && restartOk then None else Some(h.proc.value.(attempted := true)), h.failed,
           if f.stage == h.files.stage then h.passed else 0, if f.stage == h.files.stage then h.faults else 0)
    case Commit(policyOk) =>
      var (f, done) := CommitStep(h.files, h.proc.value.image.version, policyOk);
      h.(files := f, passed := if done then 0 else h.passed, faults := if done then 0 else h.faults)
  }

  ghost predicate Init(h: Host) {
    && h.files.stage == None && h.files.backup == None && h.files.floor == "" && h.files.quarantine == []
    && h.proc == None && h.failed == {} && h.passed == 0 && h.faults == 0
  }

  ghost predicate IsRun(hs: seq<Host>, es: seq<Event>) {
    && |hs| == |es| + 1 && Init(hs[0])
    && forall i {:trigger es[i]} :: 0 <= i < |es| ==> Enabled(hs[i], es[i]) && hs[i + 1] == Do(hs[i], es[i])
  }

  // ---- the floor ----

  /** A version the floor does not exceed. */
  predicate AtOrAbove(floor: string, v: string) {
    !IsNewer(floor, v)
  }

  /** The floor exceeds neither the running version, nor the binary on disk, nor what a rollback would
      restore. */
  predicate FloorHolds(h: Host) {
    && (h.proc.Some? ==> AtOrAbove(h.files.floor, h.proc.value.image.version))
    && AtOrAbove(h.files.floor, h.files.binary.version)
    && (h.files.stage.Some? ==> AtOrAbove(h.files.floor, h.files.stage.value.prev))
    && (h.files.backup.Some? ==> AtOrAbove(h.files.floor, h.files.backup.value.version))
  }

  /** With it: while a stage exists the disk is not behind the process, and what was rolled back is still
      listed unless the floor has reached it. */
  ghost predicate FloorInv(h: Host) {
    && FloorHolds(h)
    && (h.proc.Some? && h.files.stage.Some? ==> !IsNewer(h.proc.value.image.version, h.files.binary.version))
    && (forall v :: v in h.failed ==> v in h.files.quarantine || !IsNewer(v, h.files.floor))
  }

  /** A commit that is carried out. */
  predicate Commits(h: Host, e: Event) {
    && e.Commit? && e.policyOk && h.proc.Some? && h.files.stage.Some?
    && Normalize(h.proc.value.image.version) == h.files.stage.value.target
  }

  /** A commit of a version whose stored, normalized form reads higher than the version itself. By
      Versions.NormalNeverLower: normalizing once left a v in front of a positive number. */
  predicate Overstated(h: Host, e: Event) {
    Commits(h, e) && IsNewer(Normalize(h.proc.value.image.version), h.proc.value.image.version)
  }

  /** What Check and the smoke test say about an update that is attempted. */
  lemma AttemptIsAhead(h: Host, e: Event)
    requires FloorInv(h) && e.Update? && Enabled(h, e) && e.aio.smokeOk
    ensures IsNewer(e.incoming.version, h.proc.value.image.version)
    ensures AtOrAbove(h.files.floor, e.incoming.version)
  {
    hide Versions.ParseVer, Versions.Normalize;
    NormalFormDecides(e.incoming.version, e.target);
  }

  lemma UpdateKeepsFloor(h: Host, e: Event)
    requires FloorInv(h) && e.Update? && Enabled(h, e)
    ensures FloorInv(Do(h, e))
  {
    hide Versions.ParseVer, Versions.Normalize;
    if e.aio.smokeOk {
      AttemptIsAhead(h, e);
      NormalNeverLower(h.proc.value.image.version);
    }
  }

  lemma BootKeepsFloor(h: Host, e: Event)
    requires FloorInv(h) && e.Boot? && Enabled(h, e)
    ensures FloorInv(Do(h, e))
  {
    hide Versions.ParseVer, Versions.Normalize;
  }

  lemma CommitKeepsFloor(h: Host, e: Event)
    requires FloorInv(h) && e.Commit? && Enabled(h, e) && !Overstated(h, e)
    ensures FloorInv(Do(h, e))
  {
    hide Versions.ParseVer, Versions.Normalize;
    NormalNeverLower(h.proc.value.image.version);
  }

  lemma {:induction false} RunKeepsFloor(hs: seq<Host>, es: seq<Event>, n: nat)
    requires IsRun(hs, es) && n < |hs|
    requires forall i :: 0 <= i < n ==> !Overstated(hs[i], es[i])
    ensures FloorInv(hs[n])
    decreases n
  {
    hide Versions.ParseVer, Versions.Normalize;
    if n == 0 {
      EmptyIsLowest(hs[0].files.binary.version);
    } else {
      hide FloorInv, Do;
      RunKeepsFloor(hs, es, n - 1);
      var h, e := hs[n - 1], es[n - 1];
      assert Enabled(h, e) && hs[n] == Do(h, e);
      match e
      case Boot(_) => BootKeepsFloor(h, e);
      case Update(_, _, _, _) => UpdateKeepsFloor(h, e);
      case Commit(_) => CommitKeepsFloor(h, e);
    }
  }

  lemma OverstatedBreaks(h: Host, e: Event)
    requires Enabled(h, e) && Overstated(h, e)
    ensures !FloorHolds(Do(h, e))
  {
    hide Versions.ParseVer, Versions.Normalize;
  }

  // ---- what the updater promises, in every run ----

  /** The committed floor exceeds neither the running version, nor the binary on disk, nor the version to
      roll back to, throughout a run, exactly when the run commits no version that reads higher once it is
      normalized. */
  lemma FloorNeverExceedsRunning(hs: seq<Host>, es: seq<Event>)
    requires IsRun(hs, es)
    ensures (forall n :: 0 <= n < |hs| ==> FloorHolds(hs[n])) <==> (forall i :: 0 <= i < |es| ==> !Overstated(hs[i], es[i]))
  {
    hide Versions.ParseVer, Versions.Normalize, Do, FloorHolds, Overstated;
    if i: nat :| i < |es| && Overstated(hs[i], es[i]) {
      assert Enabled(hs[i], es[i]) && hs[i + 1] == Do(hs[i], es[i]);
      OverstatedBreaks(hs[i], es[i]);
    } else {
      forall n: nat | n < |hs| ensures FloorHolds(hs[n]) { RunKeepsFloor(hs, es, n); }
    }
  }

  lemma FloorStepUp(h: Host, e: Event)
    requires Enabled(h, e)
    ensures !IsNewer(h.files.floor, Do(h, e).files.floor)
  {
    hide Versions.ParseVer, Versions.Normalize;
    EmptyIsLowest(Do(h, e).files.floor);
  }

  /** And it never decreases. */
  lemma {:induction false} FloorNeverDecreases(hs: seq<Host>, es: seq<Event>, m: nat, n: nat)
    requires IsRun(hs, es) && m <= n < |hs|
    ensures !IsNewer(hs[m].files.floor, hs[n].files.floor)
    decreases n
  {
    hide Versions.ParseVer, Versions.Normalize;
    if m < n {
      FloorNeverDecreases(hs, es, m, n - 1);
      FloorStepUp(hs[n - 1], es[n - 1]);
    }
  }

  lemma FailedStepGrows(h: Host, e: Event)
    requires Enabled(h, e)
    ensures h.failed <= Do(h, e).failed
  {
    hide Versions.ParseVer, Versions.Normalize;
  }

  lemma {:induction false} FailedGrows(hs: seq<Host>, es: seq<Event>, m: nat, n: nat)
    requires IsRun(hs, es) && m <= n < |hs|
    ensures hs[m].failed <= hs[n].failed
    decreases n
  {
    hide Versions.ParseVer, Versions.Normalize;
    if m < n {
      FailedGrows(hs, es, m, n - 1);
      FailedStepGrows(hs[n - 1], es[n - 1]);
    }
  }

  /** A version that crash-looped, was rolled back and reached the quarantine is never applied again: not
      while it is quarantined, and not after a commit prunes it. */
  lemma RolledBackVersionNeverReturns(hs: seq<Host>, es: seq<Event>, m: nat, n: nat, v: string)
    requires IsRun(hs, es) && m <= n < |es| && v in hs[m].failed && es[n].Update?
    requires forall i :: 0 <= i < n ==> !Overstated(hs[i], es[i])
    ensures Normalize(es[n].target) != v
  {
    hide Versions.ParseVer, Versions.Normalize, Do;
    RunKeepsFloor(hs, es, n);
    FailedGrows(hs, es, m, n);
    NormalNeverLower(es[n].target);
    assert Enabled(hs[n], es[n]);
  }

  lemma CommittedFloorReads(h: Host)
    requires FloorInv(h) && Commits(h, Commit(true))
    ensures ParseVer(Do(h, Commit(true)).files.floor) == ParseVer(Normalize(h.proc.value.image.version))
  {
    hide Versions.ParseVer, Versions.Normalize;
    NormalNeverLower(h.proc.value.image.version);
  }

  /** The commit that loses a quarantined version: the process that commits is offered it again exactly when
      it is newer than the running version yet its stored form reads the same as the committed one. Such a
      commit is overstated. */
  lemma LosesQuarantinedIff(h: Host, t: string)
    requires FloorInv(h) && Commits(h, Commit(true)) && Normalize(t) in h.files.quarantine
    ensures var r := h.proc.value.image.version;
      && (IsNewer(t, r) && Allowed(Do(h, Commit(true)).files, t)
          <==> IsNewer(t, r) && ParseVer(Normalize(t)) == ParseVer(Normalize(r)))
      && (IsNewer(t, r) && Allowed(Do(h, Commit(true)).files, t) ==> Overstated(h, Commit(true)))
  {
    hide Versions.ParseVer, Versions.Normalize;
    var r, f := h.proc.value.image.version, h.files;
    NormalNeverLower(r);
    NormalNeverLower(t);
    EmptyIsLowest(Normalize(t));
    CommittedFloorReads(h);
    var g := Do(h, Commit(true)).files;
    assert g.quarantine == NewerThan(Without(f.quarantine, Normalize(r)), g.floor);
    assert Normalize(t) in g.quarantine <==> Normalize(t) != Normalize(r) && IsNewer(Normalize(t), g.floor);
  }

  /** The quarantine compares texts. Once v has been rolled back, an update to a target with v's numbers is
      attempted exactly when its own text is not listed, the floor does not exceed it and it is newer than
      the running version. */
  lemma OtherSpellingIff(hs: seq<Host>, es: seq<Event>, n: nat, v: string, e: Event)
    requires IsRun(hs, es) && n < |hs| && v in hs[n].failed && hs[n].proc.Some? && !hs[n].proc.value.attempted
    requires e.Update? && ParseVer(Normalize(e.target)) == ParseVer(v)
    requires e.aio.smokeOk ==> Normalize(e.incoming.version) == Normalize(e.target)
    ensures var h := hs[n];
      && (Enabled(h, e) <==> (Normalize(e.target) !in h.files.quarantine && !IsNewer(h.files.floor, Normalize(e.target))
                              && IsNewer(e.target, h.proc.value.image.version)))
      && ((forall i :: 0 <= i < n ==> !Overstated(hs[i], es[i])) ==>
          && (Enabled(h, e) <==> Normalize(e.target) !in h.files.quarantine && IsNewer(e.target, h.proc.value.image.version))
          && (Enabled(h, e) ==> v in h.files.quarantine && Normalize(e.target) != v))
  {
    hide Versions.ParseVer, Versions.Normalize, Do, Overstated;
    EmptyIsLowest(Normalize(e.target));
    NormalNeverLower(e.target);
    if forall i :: 0 <= i < n ==> !Overstated(hs[i], es[i]) {
      RunKeepsFloor(hs, es, n);
    }
  }

  /** Which versions a rollback adds to that history. */
  lemma RollbackIsRemembered(h: Host, io: BootIo)
    requires h.files.stage.Some? && h.files.backup.Some? && h.files.stage.value.attempts + 1 > MAX_BOOT_ATTEMPTS
    requires io.copyOk && io.policyOk
    requires !StageIsOver(h.files)
    ensures h.files.stage.value.target in Do(h, Boot(io)).failed
    ensures Do(h, Boot(io)).files.binary == h.files.backup.value
  {
    hide Versions.ParseVer, Versions.Normalize;
  }

  // ---- two runs in which a rolled-back release comes back ----

  lemma Extend(hs: seq<Host>, es: seq<Event>, e: Event)
    requires IsRun(hs, es) && Enabled(hs[|es|], e)
    ensures IsRun(hs + [Do(hs[|es|], e)], es + [e])
  {
    hide Do, Enabled;
    var hs1, es1 := hs + [Do(hs[|es|], e)], es + [e];
    forall i {:trigger es1[i]} | 0 <= i < |es1| ensures Enabled(hs1[i], es1[i]) && hs1[i + 1] == Do(hs1[i], es1[i]) {
      if i < |es| { assert es1[i] == es[i]; }
    }
  }

  const BOOTS: Event := Boot(BootIo(true, true, true, true))
  const COMMITS: Event := Commit(true)

  /** An update in which everything works. */
  function Installs(v: string): Event {
    Update(v, Image(v, ""), ApplyIo(true, true, true, true), true)
  }

  /** The files of an agent on version v with nothing in flight. */
  function Settled(v: string, quarantine: seq<string>): Files {
    Files(Image(v, ""), None, None, "", quarantine)
  }

  /** The files of an agent that has version w in flight over v. */
  function InFlight(v: string, w: string, attempts: nat, quarantine: seq<string>): Files {
    Files(Image(w, ""), Some(Image(v, "")), Some(Stage(Normalize(v), Normalize(w), attempts)), "", quarantine)
  }

  /** From a settled v, installing w and booting it once more than the budget allows. */
  lemma CrashLoop(v: string, w: string) returns (hs: seq<Host>, es: seq<Event>)
    requires IsNewer(w, v) && Normalize(w) != Normalize(v)
    ensures IsRun(hs, es) && |es| == 7
    ensures hs[7] == Host(Settled(v, [Normalize(w)]), Some(Proc(Image(v, ""), false)), {Normalize(w)}, 0, 0)
  {
    hide Versions.ParseVer, Versions.Normalize, Do, Enabled;
    var n := Normalize(w);
    hs, es := [Host(Settled(v, []), None, {}, 0, 0)], [];
    var steps := [BOOTS, Installs(w), BOOTS, BOOTS, BOOTS, BOOTS, BOOTS];
    var last := [Host(Settled(v, []), Some(Proc(Image(v, ""), false)), {}, 0, 0),
                 Host(InFlight(v, w, 0, []), None, {}, 0, 0),
                 Host(InFlight(v, w, 1, []), Some(Proc(Image(w, ""), false)), {}, 1, 0),
                 Host(InFlight(v, w, 2, []), Some(Proc(Image(w, ""), false)), {}, 2, 0),
                 Host(InFlight(v, w, 3, []), Some(Proc(Image(w, ""), false)), {}, 3, 0),
                 Host(Settled(v, [n]), None, {n}, 0, 0),
                 Host(Settled(v, [n]), Some(Proc(Image(v, ""), false)), {n}, 0, 0)];
    CrashLoopSteps(v, w);
    for i := 0 to 7
      invariant IsRun(hs, es) && |es| == i
      invariant i > 0 ==> hs[i] == last[i - 1]
      invariant i == 0 ==> hs[0] == Host(Settled(v, []), None, {}, 0, 0)
    {
      Extend(hs, es, steps[i]);
      hs, es := hs + [last[i]], es + [steps[i]];
    }
  }

  lemma CrashLoopSteps(v: string, w: string)
    requires IsNewer(w, v) && Normalize(w) != Normalize(v)
    ensures var n := Normalize(w);
      var p, q := Some(Proc(Image(v, ""), false)), Some(Proc(Image(w, ""), false));
      && Leads(Host(Settled(v, []), None, {}, 0, 0), BOOTS, Host(Settled(v, []), p, {}, 0, 0))
      && Leads(Host(Settled(v, []), p, {}, 0, 0), Installs(w), Host(InFlight(v, w, 0, []), None, {}, 0, 0))
      && Leads(Host(InFlight(v, w, 0, []), None, {}, 0, 0), BOOTS, Host(InFlight(v, w, 1, []), q, {}, 1, 0))
      && Leads(Host(InFlight(v, w, 1, []), q, {}, 1, 0), BOOTS, Host(InFlight(v, w, 2, []), q, {}, 2, 0))
      && Leads(Host(InFlight(v, w, 2, []), q, {}, 2, 0), BOOTS, Host(InFlight(v, w, 3, []), q, {}, 3, 0))
      && Leads(Host(InFlight(v, w, 3, []), q, {}, 3, 0), BOOTS, Host(Settled(v, [n]), None, {n}, 0, 0))
      && Leads(Host(Settled(v, [n]), None, {n}, 0, 0), BOOTS, Host(Settled(v, [n]), p, {n}, 0, 0))
  {
    hide Versions.ParseVer, Versions.Normalize;
  }

  predicate Leads(h: Host, e: Event, g: Host) {
    Enabled(h, e) && Do(h, e) == g
  }

  /** After w crash-looped, any other text above v is applied, whatever numbers it reads. */
  lemma OtherTextIsApplied(v: string, w: string, x: string) returns (hs: seq<Host>, es: seq<Event>)
    requires IsNewer(w, v) && Normalize(w) != Normalize(v)
    requires IsNewer(x, v) && Normalize(x) != Normalize(w)
    ensures IsRun(hs, es) && |es| == 8 && Normalize(w) in hs[7].failed && es[7] == Installs(x)
    ensures hs[8] == Host(InFlight(v, x, 0, [Normalize(w)]), None, {Normalize(w)}, 0, 0)
  {
    hide Versions.ParseVer, Versions.Normalize;
    hs, es := CrashLoop(v, w);
    Extend(hs, es, Installs(x));
    hs, es := hs + [Do(hs[7], Installs(x))], es + [Installs(x)];
  }

  /** "1.2" is rolled back and quarantined; then "1.2.0", the same version, is applied. */
  lemma SameNumbersReturn() returns (hs: seq<Host>, es: seq<Event>)
    ensures IsRun(hs, es) && |es| == 8 && "1.2" in hs[7].failed && es[7] == Installs("1.2.0")
    ensures ParseVer("1.2.0") == ParseVer("1.2") && hs[8].files.binary.version == "1.2.0"
  {
    hide Versions.ParseVer, Versions.Normalize, Do, Enabled;
    SampleVersions();
    hs, es := OtherTextIsApplied("0.1", "1.2", "1.2.0");
  }

  /** After w crash-looped, x is applied and committed and then w is applied again. */
  lemma PrunedTextReturns(v: string, w: string, x: string) returns (hs: seq<Host>, es: seq<Event>)
    requires IsNewer(w, v) && Normalize(w) != Normalize(v)
    requires IsNewer(x, v) && Normalize(x) != Normalize(v) && Normalize(x) != Normalize(w)
    requires IsNewer(w, x) && ParseVer(Normalize(x)) == ParseVer(Normalize(w)) == ParseVer(w)
    ensures IsRun(hs, es) && |es| == 11 && Overstated(hs[9], es[9])
    ensures Normalize(w) in hs[10].failed && es[10] == Installs(w)
    ensures hs[10].proc == Some(Proc(Image(x, ""), false)) && hs[10].files.floor == Normalize(x)
  {
    hide Versions.ParseVer, Versions.Normalize, Do, Enabled;
    var n := Normalize(w);
    hs, es := OtherTextIsApplied(v, w, x);
    var p := Some(Proc(Image(x, ""), false));
    var h8 := Host(InFlight(v, x, 0, [n]), None, {n}, 0, 0);
    var h9 := Host(InFlight(v, x, 1, [n]), p, {n}, 1, 0);
    var h10 := Host(Files(Image(x, ""), None, None, Normalize(x), []), p, {n}, 0, 0);
    PrunedTextSteps(v, w, x);
    Extend(hs, es, BOOTS);
    hs, es := hs + [h9], es + [BOOTS];
    Extend(hs, es, COMMITS);
    hs, es := hs + [h10], es + [COMMITS];
    Extend(hs, es, Installs(w));
    hs, es := hs + [Do(h10, Installs(w))], es + [Installs(w)];
  }

  lemma PrunedTextSteps(v: string, w: string, x: string)
    requires IsNewer(w, v) && Normalize(w) != Normalize(v)
    requires IsNewer(x, v) && Normalize(x) != Normalize(v) && Normalize(x) != Normalize(w)
    requires IsNewer(w, x) && ParseVer(Normalize(x)) == ParseVer(Normalize(w)) == ParseVer(w)
    ensures var n, p := Normalize(w), Some(Proc(Image(x, ""), false));
      && Leads(Host(InFlight(v, x, 0, [n]), None, {n}, 0, 0), BOOTS, Host(InFlight(v, x, 1, [n]), p, {n}, 1, 0))
      && Leads(Host(InFlight(v, x, 1, [n]), p, {n}, 1, 0), COMMITS, Host(Files(Image(x, ""), None, None, Normalize(x), []), p, {n}, 0, 0))
      && Enabled(Host(Files(Image(x, ""), None, None, Normalize(x), []), p, {n}, 0, 0), Installs(w))
  {
    hide Versions.ParseVer, Versions.Normalize;
    assert NewerThan([], Normalize(x)) == [] && Without([], Normalize(x)) == [];
    assert Without([Normalize(w)], Normalize(x)) == [Normalize(w)];
    assert NewerThan([Normalize(w)], Normalize(x)) == [];
  }

  /** "1.2" is rolled back and quarantined, "vv1.2" is applied and committed, which drops "1.2" from the list
      and puts the floor above the running version, and "1.2" is applied again. */
  lemma RolledBackReturns() returns (hs: seq<Host>, es: seq<Event>)
    ensures IsRun(hs, es) && |es| == 11 && Overstated(hs[9], es[9])
    ensures "1.2" in hs[10].failed && es[10] == Installs("1.2")
    ensures !FloorHolds(hs[10])
  {
    hide Versions.ParseVer, Versions.Normalize, Do, Enabled;
    SampleVersions();
    hs, es := PrunedTextReturns("0.1", "1.2", "vv1.2");
  }

  // ---- versions that normalize to something else ----

  /** A commit keeps the floor at or below the running version exactly when the stored, normalized
      form of that version does not read as newer than the version itself. */
  lemma CommitFloorExact(h: Host)
    requires h.proc.Some? && h.files.stage.Some? && Normalize(h.proc.value.image.version) == h.files.stage.value.target
    requires AtOrAbove(h.files.floor, h.proc.value.image.version)
    ensures AtOrAbove(Do(h, Commit(true)).files.floor, h.proc.value.image.version)
       <==> !IsNewer(Normalize(h.proc.value.image.version), h.proc.value.image.version)
  {
    hide Versions.ParseVer, Versions.Normalize;
  }

  /** It can fail: the version text "vv1.2" normalizes to "v1.2", which reads as 1.2 while "vv1.2"
      itself reads as 0.2. */
  lemma DoubledPrefixIsUnfaithful()
    ensures IsNewer(Normalize("vv1.2"), "vv1.2") && !Faithful("vv1.2")
  {
    hide Versions.ParseVer, Versions.Normalize;
    SampleVersions();
  }

  // ---- the backup and the boot budget ----

  /** While a stage exists the backup holds the version it names, and a process that may still
      update runs the binary on disk, which is not the one to roll back to. */
  ghost predicate BackupInv(h: Host) {
    && (h.files.stage.Some? ==> h.files.stage.value.prev != h.files.stage.value.target)
    && (h.files.stage.Some? ==> h.files.backup.Some? && Normalize(h.files.backup.value.version) == h.files.stage.value.prev)
    && (h.proc.Some? && !h.proc.value.attempted ==> h.proc.value.image == h.files.binary)
    && (h.proc.Some? && !h.proc.value.attempted && h.files.stage.Some? ==> Normalize(h.proc.value.image.version) != h.files.stage.value.prev)
  }

  /** An Apply that starts over a pending stage for another version and stops after the backup copy. */
  predicate Interrupted(f: Files, target: string, io: ApplyIo) {
    && io.smokeOk && f.stage.Some? && f.stage.value.target != Normalize(target)
    && io.copyOk && !(io.swapOk && io.markOk)
  }

  /** Exactly that Apply leaves a stage whose backup is not the version it names. */
  lemma BackupSurvivesApply(h: Host, e: Event)
    requires BackupInv(h) && e.Update? && Enabled(h, e)
    ensures BackupInv(Do(h, e)) <==> !Interrupted(h.files, e.target, e.aio)
  {
    hide Versions.ParseVer, Versions.Normalize;
    if Normalize(e.target) == Normalize(h.proc.value.image.version) {
      NormalFormDecides(e.target, h.proc.value.image.version);
    }
  }

  /** Re-applying the version already staged never touches the backup, the binary or the stage. */
  lemma ReapplyKeepsBackup(h: Host, e: Event)
    requires BackupInv(h) && e.Update? && Enabled(h, e)
    requires h.files.stage.Some? && h.files.stage.value.target == Normalize(e.target)
    ensures Do(h, e).files == h.files
  {
    hide Versions.ParseVer, Versions.Normalize;
  }

  /** The previous version is running again. */
  predicate StageIsOver(f: Files)
    requires f.stage.Some?
  {
    var n := Normalize(f.binary.version);
    n == f.stage.value.prev && n != f.stage.value.target
  }

  /** A rollback that replaces the binary and whose restart request fails: the process goes on running a
      binary that is no longer the one on disk. */
  predicate Stranded(h: Host, e: Event) {
    && e.Boot? && h.files.stage.Some? && h.files.stage.value.attempts + 1 > MAX_BOOT_ATTEMPTS
    && !StageIsOver(h.files)
    && h.files.backup.Some? && h.files.backup.value != h.files.binary && e.bio.copyOk && !e.bio.restartOk
  }

  /** Boots and commits keep it exactly when they are not such a rollback. */
  lemma BackupSurvivesBoot(h: Host, e: Event)
    requires BackupInv(h) && Enabled(h, e) && !e.Update?
    ensures BackupInv(Do(h, e)) <==> !Stranded(h, e)
  {
    hide Versions.ParseVer, Versions.Normalize;
  }

  /** In every run without those two failures the backup holds the version to roll back to while a stage
      exists. */
  lemma {:induction false} BackupHoldsPrevious(hs: seq<Host>, es: seq<Event>, n: nat)
    requires IsRun(hs, es) && n < |hs|
    requires forall i :: 0 <= i < n ==> !Stranded(hs[i], es[i]) && !(es[i].Update? && Interrupted(hs[i].files, es[i].target, es[i].aio))
    ensures BackupInv(hs[n])
    decreases n
  {
    hide Versions.ParseVer, Versions.Normalize;
    if n > 0 {
      hide Do, Interrupted, Stranded, BackupInv;
      BackupHoldsPrevious(hs, es, n - 1);
      var h, e := hs[n - 1], es[n - 1];
      assert Enabled(h, e) && hs[n] == Do(h, e);
      if e.Update? { BackupSurvivesApply(h, e); } else { BackupSurvivesBoot(h, e); }
    }
  }

  ghost predicate BudgetInv(h: Host) {
    h.files.stage.Some? ==> h.files.stage.value.attempts <= MAX_BOOT_ATTEMPTS && h.passed <= h.files.stage.value.attempts + h.faults
  }

  lemma StepKeepsBudget(h: Host, e: Event)
    requires BudgetInv(h) && Enabled(h, e)
    ensures BudgetInv(Do(h, e))
  {
    hide Versions.ParseVer, Versions.Normalize;
  }

  lemma {:induction false} RunKeepsBudget(hs: seq<Host>, es: seq<Event>, n: nat)
    requires IsRun(hs, es) && n < |hs|
    ensures BudgetInv(hs[n])
    decreases n
  {
    hide Versions.ParseVer, Versions.Normalize;
    if n > 0 {
      RunKeepsBudget(hs, es, n - 1);
      StepKeepsBudget(hs[n - 1], es[n - 1]);
    }
  }

  /** A staged version that never commits is started past BeginBoot at most three times, plus the
      boots whose marker write or rollback failed. */
  lemma BootsAreBudgeted(hs: seq<Host>, es: seq<Event>, n: nat)
    requires IsRun(hs, es) && n < |hs| && hs[n].files.stage.Some?
    ensures hs[n].passed <= MAX_BOOT_ATTEMPTS + hs[n].faults
  {
    RunKeepsBudget(hs, es, n);
  }

  /** Once the budget is spent the next boot of the new binary puts the previous version back. */
  lemma SpentBudgetRestores(h: Host, io: BootIo)
    requires BudgetInv(h) && BackupInv(h) && h.files.stage.Some? && h.faults == 0
    requires h.passed == MAX_BOOT_ATTEMPTS && io.copyOk && io.writeOk
    requires Normalize(h.files.binary.version) != h.files.stage.value.prev
    ensures var f := Do(h, Boot(io)).files;
      f.binary == h.files.backup.value && Normalize(f.binary.version) == h.files.stage.value.prev && f.stage == None
  {
    hide Versions.ParseVer, Versions.Normalize;
  }
}
