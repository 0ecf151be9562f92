/** The self-updater's files and operations: agent/internal/update/apply.go and state.go.

    A copy, rename or write either happens or fails leaving the old content; each such result is a
    parameter. Deletions succeed. Downloading, hashing and the manifest signature happen before Apply
    and are not modelled. */
module SelfUpdate {
  import opened Prelude
  import opened Versions

  const MAX_BOOT_ATTEMPTS: nat := 3

  /** A binary: the version compiled into it, and its bytes. */
  datatype Image = Image(version: string, body: string)

  /** The marker of an update in flight; both versions are stored normalized. */
  datatype Stage = Stage(prev: string, target: string, attempts: nat)

  datatype Files = Files(binary: Image, backup: Option<Image>, stage: Option<Stage>, floor: string, quarantine: seq<string>)

  /** Which effects of one Apply succeed. */
  datatype ApplyIo = ApplyIo(smokeOk: bool, copyOk: bool, swapOk: bool, markOk: bool)

  /** Which effects of one boot succeed. */
  datatype BootIo = BootIo(writeOk: bool, copyOk: bool, policyOk: bool, restartOk: bool)

  // ---- the policy: floor and quarantine ----

  predicate Allowed(f: Files, target: string) {
    !(f.floor != "" && IsNewer(f.floor, Normalize(target))) && Normalize(target) !in f.quarantine
  }

  function Without(s: seq<string>, v: string): (r: seq<string>)
    ensures forall x :: x in r <==> x in s && x != v
  {
    if s == [] then [] else (if s[0] == v then [] else [s[0]]) + Without(s[1..], v)
  }

  function NewerThan(s: seq<string>, floor: string): (r: seq<string>)
    ensures forall x :: x in r <==> x in s && IsNewer(x, floor)
  {
    if s == [] then [] else (if IsNewer(s[0], floor) then [s[0]] else []) + NewerThan(s[1..], floor)
  }

  lemma NoneNewer(floor: string)
    ensures NewerThan([], floor) == []
  {
  }

  lemma FirstNewer(s: seq<string>, floor: string)
    requires s != []
    ensures NewerThan(s, floor) == (if IsNewer(s[0], floor) then [s[0]] else []) + NewerThan(s[1..], floor)
  {
    hide IsNewer;
  }

  function Committed(f: Files, v: string, policyOk: bool): Files {
    if !policyOk then f
    else
      var floor := if f.floor == "" || IsNewer(v, f.floor) then v else f.floor;
      f.(floor := floor, quarantine := NewerThan(Without(f.quarantine, v), floor))
  }

  function Quarantined(f: Files, v: string, policyOk: bool): Files {
    if v in f.quarantine || !policyOk then f else f.(quarantine := f.quarantine + [v])
  }

  // ---- apply, boot, commit ----

  function Cleared(f: Files): Files {
    f.(backup := None, stage := None)
  }

  /** Apply, and whether it got as far as asking for the restart. */
  function ApplyStep(f: Files, target: string, incoming: Image, running: string, io: ApplyIo): (Files, bool) {
    if !io.smokeOk then (f, false)
    else if f.stage.Some? && f.stage.value.target == Normalize(target) && f.backup.Some? then (f, true)
    else if !io.copyOk then (f, false)
    else if !io.swapOk then (f.(backup := Some(f.binary)), false)
    else
      var g := f.(backup := Some(f.binary), binary := incoming);
      if !io.markOk then (g, false) else (g.(stage := Some(Stage(Normalize(running), Normalize(target), 0))), true)
  }

  /** rollback, and whether it reached the restart. */
  function RollbackStep(f: Files, io: BootIo): (Files, bool)
    requires f.stage.Some?
  {
    if f.backup == None || !io.copyOk then (f, false)
    else (Cleared(Quarantined(f.(binary := f.backup.value), f.stage.value.target, io.policyOk)), io.restartOk)
  }

  /** BeginBoot, and whether it rolled back. */
  function BootStep(f: Files, running: string, io: BootIo): (Files, bool) {
    if f.stage == None then (f, false)
    else
      var s := f.stage.value;
      if Normalize(running) != s.target && Normalize(running) == s.prev then (Cleared(f), false)
      else if s.attempts + 1 > MAX_BOOT_ATTEMPTS then RollbackStep(f, io)
      else (if io.writeOk then f.(stage := Some(s.(attempts := s.attempts + 1))) else f, false)
  }

  /** CommitIfHealthy, and whether it committed. */
  function CommitStep(f: Files, running: string, policyOk: bool): (Files, bool) {
    if f.stage == None || Normalize(running) != f.stage.value.target then (f, false)
    else (Cleared(Committed(f, f.stage.value.target, policyOk)), true)
  }

  // ---- the updater ----

  class Updater {
    var binary: Image
    var backup: Option<Image>
    var stage: Option<Stage>
    var floor: string
    var quarantine: seq<string>

    ghost function State(): Files
      reads this
    {
      Files(binary, backup, stage, floor, quarantine)
    }

    constructor (binary: Image)
      ensures State() == Files(binary, None, None, "", [])
    {
      this.binary, backup, stage, floor, quarantine := binary, None, None, "", [];
    }

    method CheckAllowed(target: string) returns (ok: bool)
      ensures ok == Allowed(State(), target)
    {
      var norm := Normalize(target);
      if floor != "" && IsNewer(floor, norm) { return false; }
      for i := 0 to |quarantine|
        invariant norm !in quarantine[..i]
      {
        if quarantine[i] == norm { return false; }
      }
      assert quarantine[..|quarantine|] == quarantine;
      ok := true;
    }

    method RecordCommitted(v: string, policyOk: bool)
      modifies this`floor, this`quarantine
      ensures State() == Committed(old(State()), v, policyOk)
    {
      hide IsNewer;
      var newFloor := if floor == "" || IsNewer(v, floor) then v else floor;
      var rest := Remove(quarantine, v);
      var kept := Prune(rest, newFloor);
      if policyOk { floor, quarantine := newFloor, kept; }
    }

    /** The loop that drops entries at or below the floor. */
    static method Prune(s: seq<string>, floor: string) returns (out: seq<string>)
      ensures out == NewerThan(s, floor)
    {
      hide IsNewer, NewerThan;
      out := [];
      NoneNewer(floor);
      for i := 0 to |s|
        invariant out + NewerThan(s[i..], floor) == NewerThan(s, floor)
      {
        FirstNewer(s[i..], floor);
        if IsNewer(s[i], floor) { out := out + [s[i]]; }
      }
    }

    static method Remove(s: seq<string>, v: string) returns (out: seq<string>)
      ensures out == Without(s, v)
    {
      out := [];
      for i := 0 to |s|
        invariant out + Without(s[i..], v) == Without(s, v)
      {
        if s[i] != v { out := out + [s[i]]; }
      }
    }

    method RecordFailed(v: string, policyOk: bool)
      modifies this`quarantine
      ensures State() == Quarantined(old(State()), v, policyOk)
    {
      for i := 0 to |quarantine|
        invariant v !in quarantine[..i]
      {
        if quarantine[i] == v { return; }
      }
      assert quarantine[..|quarantine|] == quarantine;
      if policyOk { quarantine := quarantine + [v]; }
    }

    method ClearStage()
      modifies this`backup, this`stage
      ensures State() == Cleared(old(State()))
    {
      backup, stage := None, None;
    }

    method Apply(target: string, incoming: Image, running: string, io: ApplyIo) returns (restarting: bool)
      modifies this
      ensures (State(), restarting) == ApplyStep(old(State()), target, incoming, running, io)
    {
      if !io.smokeOk { return false; }
      var targetNorm, prevNorm := Normalize(target), Normalize(running);
      if stage.Some? && stage.value.target == targetNorm {
        if backup.Some? { return true; }
      }
      if !io.copyOk { return false; }
      backup := Some(binary);
      if !io.swapOk { return false; }
      binary := incoming;
      if !io.markOk { return false; }
      stage := Some(Stage(prevNorm, targetNorm, 0));
      restarting := true;
    }

    method Rollback(io: BootIo) returns (restarted: bool)
      requires stage.Some?
      modifies this
      ensures (State(), restarted) == RollbackStep(old(State()), io)
    {
      if backup == None || !io.copyOk { return false; }
      binary := backup.value;
      RecordFailed(stage.value.target, io.policyOk);
      ClearStage();
      restarted := io.restartOk;
    }

    method BeginBoot(running: string, io: BootIo) returns (rolledBack: bool)
      modifies this
      ensures (State(), rolledBack) == BootStep(old(State()), running, io)
    {
      if stage == None { return false; }
      var cur := Normalize(running);
      if cur != stage.value.target && cur == stage.value.prev {
        ClearStage();
        return false;
      }
      if stage.value.attempts + 1 > MAX_BOOT_ATTEMPTS {
        rolledBack := Rollback(io);
        return;
      }
      if io.writeOk { stage := Some(stage.value.(attempts := stage.value.attempts + 1)); }
      rolledBack := false;
    }

    method CommitIfHealthy(running: string, policyOk: bool) returns (committed: bool)
      modifies this
      ensures (State(), committed) == CommitStep(old(State()), running, policyOk)
    {
      if stage == None { return false; }
      if Normalize(running) != stage.value.target { return false; }
      RecordCommitted(stage.value.target, policyOk);
      ClearStage();
      committed := true;
    }
  }

  // ---- what the operations leave ----

  /** An update is refused exactly below the floor, if there is one, or by its text on the list. */
  lemma AllowedIff(f: Files, target: string)
    ensures !Allowed(f, target) <==> (f.floor != "" && IsNewer(f.floor, Normalize(target))) || exists i :: 0 <= i < |f.quarantine| && f.quarantine[i] == Normalize(target)
  {
    hide IsNewer, Normalize;
  }

  /** An apply asks for the restart exactly if the new binary starts and either the same version is staged with a
      backup or backup, swap and marker all succeed. Each effect that happened is seen: the backup is the old
      binary, the binary the new one, the marker names both versions with no boot counted. */
  lemma ApplyLeaves(f: Files, target: string, incoming: Image, running: string, io: ApplyIo)
    ensures var (g, restarting) := ApplyStep(f, target, incoming, running, io);
      var again := f.stage.Some? && f.backup.Some? && f.stage.value.target == Normalize(target);
      var copied := io.smokeOk && !again && io.copyOk;
      && (restarting <==> io.smokeOk && (again || (io.copyOk && io.swapOk && io.markOk)))
      && g.floor == f.floor && g.quarantine == f.quarantine
      && g.backup == (if copied then Some(f.binary) else f.backup)
      && g.binary == (if copied && io.swapOk then incoming else f.binary)
      && g.stage == (if copied && io.swapOk && io.markOk then Some(Stage(Normalize(running), Normalize(target), 0)) else f.stage)
  {
    hide Normalize;
  }

  /** A boot with nothing staged changes nothing. If the previous version runs, the stage is over and cleared. Up to
      three boots are counted, where the count can be written. After that a rollback puts the backup in place,
      lists the target and clears the stage, if there is a backup and it can be copied. */
  lemma BootLeaves(f: Files, running: string, io: BootIo)
    ensures var (g, rolledBack) := BootStep(f, running, io);
      if f.stage == None then g == f && !rolledBack
      else
        var s, n := f.stage.value, Normalize(running);
        var over := n == s.prev && n != s.target;
        var back := !over && s.attempts >= 3 && f.backup.Some? && io.copyOk;
        && (rolledBack <==> back && io.restartOk)
        && g.binary == (if back then f.backup.value else f.binary)
        && g.stage == (if over || back then None else if s.attempts < 3 && io.writeOk then Some(Stage(s.prev, s.target, s.attempts + 1)) else f.stage)
        && g.backup == (if over || back then None else f.backup) && g.floor == f.floor
        && g.quarantine == (if back && io.policyOk && s.target !in f.quarantine then f.quarantine + [s.target] else f.quarantine)
  {
    hide Normalize;
  }

  /** A commit happens exactly if the staged target runs. It clears the stage; and if the policy can be written,
      the floor becomes the target unless it is as high already, and the list keeps what is above the floor. */
  lemma CommitLeaves(f: Files, running: string, policyOk: bool)
    ensures var (g, done) := CommitStep(f, running, policyOk);
      && (done <==> f.stage.Some? && f.stage.value.target == Normalize(running))
      && (!done ==> g == f)
      && (done ==>
            var t := f.stage.value.target;
            && g.stage == None && g.backup == None && g.binary == f.binary
            && (!policyOk ==> g.floor == f.floor && g.quarantine == f.quarantine)
            && (policyOk ==>
                  && g.floor == (if f.floor != "" && !IsNewer(t, f.floor) then f.floor else t)
                  && forall x :: x in g.quarantine <==> x in f.quarantine && x != t && IsNewer(x, g.floor)))
  {
    hide Normalize, IsNewer;
  }
}
