/** The watchdog of frozen scans, hardening/openvas-watchdog/openvas-watchdog.py: one pass of main, and what
    a kill says about the passes before it.

    The clock, gvmd's list of running reports, what /proc shows, whether a kill succeeds and whether the state
    file can be read and replaced are the input of a pass. */
module Watchdog {
  import opened Prelude
  import Lex

  const KILL_S: int := 3600
  const MIN_OBS: nat := 3
  const MAX_KILLS_PER_PASS: nat := 1

  /** The entry kept for a scan; all fields empty stands for no entry. */
  datatype Entry = Entry(pid: Option<int>, ticks: Option<int>, obs: nat, since: Option<real>)

  const EMPTY := Entry(None, None, 0, None)

  type Entries = map<string, Entry>

  /** What a pass sees of one scan: its process, the children (-1 if unreadable) and CPU ticks, the process
      found again before a kill, and whether the signal could be sent. */
  datatype Sight = Sight(pid: Option<int>, kids: int, ticks: Option<int>, again: Option<int>, sent: bool)

  /** running is None when gvmd could not be asked; loaded is false when the state file was unreadable, saved
      when it could not be replaced. */
  datatype Input = Input(now: real, loaded: bool, running: Option<set<string>>, sight: string -> Sight, saved: bool)

  /** Python's int(): toward zero. */
  function Truncate(x: real): int {
    if x >= 0.0 then x.Floor else -((-x).Floor)
  }

  // ---- one scan in one pass ----

  predicate Readable(o: Sight) {
    o.pid.Some? && o.kids >= 0 && o.ticks.Some?
  }

  predicate Frozen(prev: Entry, o: Sight) {
    Readable(o) && o.kids == 0 && prev.ticks == o.ticks
  }

  /** "desde or now": an unset or zero clock starts now. */
  function Since(prev: Entry, now: real): real {
    if prev.since.Some? && prev.since.value != 0.0 then prev.since.value else now
  }

  predicate Eligible(prev: Entry, o: Sight, now: real) {
    Frozen(prev, o) && prev.obs + 1 >= MIN_OBS && Truncate(now - Since(prev, now)) >= KILL_S
  }

  predicate Kills(prev: Entry, o: Sight, now: real, kills: nat) {
    Eligible(prev, o, now) && kills < MAX_KILLS_PER_PASS && o.again == o.pid && o.sent
  }

  /** The entry after a pass in which gvmd reports the scan running. */
  function Next(prev: Entry, o: Sight, now: real, kills: nat): Option<Entry> {
    if o.pid == None then None
    else if !Readable(o) then Some(prev)
    else if !Frozen(prev, o) then Some(Entry(o.pid, o.ticks, 0, None))
    else if Eligible(prev, o, now) && kills < MAX_KILLS_PER_PASS && o.again != o.pid then Some(EMPTY)
    else if Kills(prev, o, now, kills) then Some(Entry(o.pid, o.ticks, 0, None))
    else Some(Entry(o.pid, o.ticks, prev.obs + 1, Some(Since(prev, now))))
  }

  function Kept(e: Option<Entry>): Entry {
    if e.Some? then e.value else EMPTY
  }

  function Get(state: Entries, uuid: string): Entry {
    if uuid in state then state[uuid] else EMPTY
  }

  // ---- a pass ----

  datatype Pass = Pass(state: Entries, killed: seq<string>)

  function PassOver(state: Entries, list: seq<string>, input: Input): Pass
    decreases |list|
  {
    if list == [] then Pass(map[], [])
    else
      var p, uuid := PassOver(state, list[..|list| - 1], input), list[|list| - 1];
      var prev, o := Get(state, uuid), input.sight(uuid);
      var e := Next(prev, o, input.now, |p.killed|);
      Pass(if e.Some? then p.state[uuid := e.value] else p.state,
           if Kills(prev, o, input.now, |p.killed|) then p.killed + [uuid] else p.killed)
  }

  function Loaded(state: Entries, input: Input): Entries {
    if input.loaded then state else map[]
  }

  /** state is the content of the state file. */
  class Watchdog {
    var state: Entries

    constructor ()
      ensures state == map[]
    {
      state := map[];
    }

    /** The loop's body for a scan gvmd reports running: the entry to keep, if any, and whether the process
        was killed. */
    static method Examine(prev: Entry, o: Sight, now: real, kills: nat) returns (entry: Option<Entry>, killed: bool)
      ensures entry == Next(prev, o, now, kills) && killed == Kills(prev, o, now, kills)
    {
      hide Truncate;
      killed := false;
      if o.pid == None { return None, false; }
      if o.kids < 0 || o.ticks == None { return Some(prev), false; }
      if !(o.kids == 0 && prev.ticks == o.ticks) { return Some(Entry(o.pid, o.ticks, 0, None)), false; }
      var obs := prev.obs + 1;
      var since := if prev.since.Some? && prev.since.value != 0.0 then prev.since.value else now;
      var idle := Truncate(now - since);
      entry := Some(Entry(o.pid, o.ticks, obs, Some(since)));
      if obs >= MIN_OBS && idle >= KILL_S && kills < MAX_KILLS_PER_PASS {
        if o.again != o.pid {
          entry := Some(EMPTY);
        } else if o.sent {
          killed := true;
          entry := Some(Entry(o.pid, o.ticks, 0, None));
        }
      }
    }

    /** save_state: a new file renamed over the old one, or the old one left by an exception. */
    method SaveState(newState: Entries, saved: bool)
      modifies this
      ensures state == if saved then newState else old(state)
    {
      if saved { state := newState; }
    }

    /** main, one run of the script: returns the processes killed, as pairs of scan and pid. */
    method RunPass(input: Input) returns (signalled: seq<(string, int)>, ghost list: seq<string>)
      modifies this
      ensures IsPass(old(state), input, list, state)
      ensures input.running == None ==> signalled == []
      ensures input.running.Some? ==> Signals(signalled, PassOver(Loaded(old(state), input), list, input).killed, input)
    {
      hide Next, Kills, Get, Lex.Lists;
      list, signalled := [], [];
      if input.running == None { return; }
      var before := if input.loaded then state else map[];
      var uuids := Lex.Sort(input.running.value);
      list := uuids;
      var newState: Entries := map[];
      for i := 0 to |uuids|
        invariant state == old(state) && newState == PassOver(before, list[..i], input).state
        invariant Signals(signalled, PassOver(before, list[..i], input).killed, input)
      {
        assert list[..i + 1][..i] == list[..i];
        var uuid := uuids[i];
        var entry, killed := Examine(Get(before, uuid), input.sight(uuid), input.now, |signalled|);
        if entry.Some? { newState := newState[uuid := entry.value]; }
        if killed {
          KilledHasPid(Get(before, uuid), input.sight(uuid), input.now, |signalled|);
          signalled := signalled + [(uuid, input.sight(uuid).pid.value)];
        }
      }
      assert list[..|list|] == list;
      SaveState(newState, input.saved);
    }
  }

  /** The processes signalled are those of the scans killed, in the same order. */
  predicate Signals(signalled: seq<(string, int)>, killed: seq<string>, input: Input) {
    && |signalled| == |killed|
    && forall i :: 0 <= i < |signalled| ==> signalled[i].0 == killed[i] && Some(signalled[i].1) == input.sight(signalled[i].0).pid
  }

  lemma KilledHasPid(prev: Entry, o: Sight, now: real, kills: nat)
    requires Kills(prev, o, now, kills)
    ensures o.pid.Some?
  {
  }

  // ---- one pass ----

  lemma Members(list: seq<string>, s: set<string>)
    requires Lex.Lists(list, s)
    ensures forall i, k :: 0 <= i < k < |list| ==> list[i] != list[k]
  {
    hide Lex.Below;
    forall i, k | 0 <= i < k < |list| ensures list[i] != list[k] {
      assert Lex.Below(list[i], list[k]);
      Lex.Irreflexive(list[i]);
    }
  }

  ghost predicate Distinct(list: seq<string>) {
    forall i, k :: 0 <= i < k < |list| ==> list[i] != list[k]
  }

  /** A scan listed once leaves the pass with the entry Next gives it, and is killed as Kills says. */
  lemma {:induction false} PassEntry(state: Entries, list: seq<string>, input: Input, uuid: string) returns (kills: nat)
    requires Distinct(list)
    ensures var p := PassOver(state, list, input);
      && (uuid !in list ==> uuid !in p.state && uuid !in p.killed)
      && (uuid in list ==>
            && Get(p.state, uuid) == Kept(Next(Get(state, uuid), input.sight(uuid), input.now, kills))
            && (uuid in p.killed <==> Kills(Get(state, uuid), input.sight(uuid), input.now, kills)))
    decreases |list|
  {
    hide Next, Kills;
    kills := 0;
    if list != [] {
      var n := |list| - 1;
      kills := PassEntry(state, list[..n], input, uuid);
      assert uuid in list <==> uuid in list[..n] || uuid == list[n];
      if uuid == list[n] { kills := |PassOver(state, list[..n], input).killed|; }
    }
  }

  /** The pass kills exactly the first scan, in uuid order, that it can: eligible, still the same process
      when looked up again, and reachable by the signal. So it kills at most one. */
  lemma {:induction false} FirstIsKilled(state: Entries, list: seq<string>, input: Input, i: nat)
    requires i < |list| && Distinct(list)
    ensures |PassOver(state, list, input).killed| <= MAX_KILLS_PER_PASS
    ensures list[i] in PassOver(state, list, input).killed <==>
      CanKill(state, input, list[i]) && forall k :: 0 <= k < i ==> !CanKill(state, input, list[k])
    ensures PassOver(state, list, input).killed == [] <==> forall k :: 0 <= k < |list| ==> !CanKill(state, input, list[k])
    decreases |list|
  {
    hide Next, Eligible, Get;
    var n := |list| - 1;
    var front := list[..n];
    assert forall k :: 0 <= k < n ==> front[k] == list[k];
    if n == 0 {
      assert front == [];
    } else {
      FirstIsKilled(state, front, input, if i < n then i else 0);
      KilledListed(state, front, input);
    }
  }

  lemma {:induction false} KilledListed(state: Entries, list: seq<string>, input: Input)
    ensures forall x :: x in PassOver(state, list, input).killed ==> x in list
    decreases |list|
  {
    hide Next, Kills, Get;
    if list != [] { KilledListed(state, list[..|list| - 1], input); }
  }

  predicate CanKill(state: Entries, input: Input, uuid: string) {
    Kills(Get(state, uuid), input.sight(uuid), input.now, 0)
  }

  // ---- the history behind a kill ----

  /** The pass read the scan, running, with no children and these ticks. */
  predicate FrozenSight(input: Input, uuid: string, ticks: int) {
    Seen(input, uuid, ticks) && input.sight(uuid).kids == 0
  }

  predicate Seen(input: Input, uuid: string, ticks: int) {
    input.running.Some? && uuid in input.running.value && Readable(input.sight(uuid)) && input.sight(uuid).ticks == Some(ticks)
  }

  /** The pass learnt nothing of the scan: gvmd did not answer, or /proc could not be read. */
  predicate Unread(input: Input, uuid: string) {
    input.running == None || (uuid in input.running.value && input.sight(uuid).pid.Some? && !Readable(input.sight(uuid)))
  }

  /** The pass found the scan gone, with children, or at other ticks. */
  predicate Stirs(input: Input, uuid: string, ticks: int) {
    input.running.Some? && (uuid in input.running.value && input.sight(uuid).pid.Some? ==>
      Readable(input.sight(uuid)) && (input.sight(uuid).kids > 0 || input.sight(uuid).ticks != Some(ticks)))
  }

  /** The pass left no trace: nothing was learnt, or the save failed. */
  predicate Blind(input: Input, uuid: string) {
    !input.saved || Unread(input, uuid)
  }

  predicate Noted(input: Input, uuid: string, ticks: int) {
    input.saved && FrozenSight(input, uuid, ticks)
  }

  function FrozenCount(ins: seq<Input>, uuid: string, ticks: int, from: nat, end: nat): nat
    requires from <= end <= |ins|
    decreases end
  {
    if from == end then 0
    else FrozenCount(ins, uuid, ticks, from, end - 1) + if Noted(ins[end - 1], uuid, ticks) then 1 else 0
  }

  /** base: the pass the ticks were first read in; first: where the frozen run begins; clock: the pass
      whose time the clock holds. */
  datatype Trail = Trail(ticks: int, base: nat, first: nat, clock: nat)

  ghost predicate Streak(ins: seq<Input>, uuid: string, t: Trail, end: nat) {
    && t.base < t.first <= t.clock < end <= |ins|
    && ins[t.base].saved && Seen(ins[t.base], uuid, t.ticks) && (forall i :: t.base < i < t.first ==> Blind(ins[i], uuid))
    && Noted(ins[t.first], uuid, t.ticks) && Noted(ins[t.clock], uuid, t.ticks)
    && (forall i :: t.first <= i < end ==> Noted(ins[i], uuid, t.ticks) || Blind(ins[i], uuid))
    && (ins[t.first].now != 0.0 ==> t.clock == t.first)
  }

  /** The trail an entry with observations stands for. */
  ghost predicate Tells(ins: seq<Input>, uuid: string, e: Entry, t: Trail, end: nat) {
    && Streak(ins, uuid, t, end) && e.ticks == Some(t.ticks)
    && FrozenCount(ins, uuid, t.ticks, t.first, end) == e.obs && e.since == Some(ins[t.clock].now)
  }

  /** What an entry remembers of the passes before end. */
  ghost predicate EntryOk(ins: seq<Input>, uuid: string, e: Entry, end: nat)
    requires end <= |ins|
  {
    && (e.ticks == None ==> e == EMPTY)
    && (e.obs == 0 ==> e.since == None)
    && (e.obs == 0 && e.ticks.Some? ==>
          exists b :: 0 <= b < end && ins[b].saved && Seen(ins[b], uuid, e.ticks.value) && forall i :: b < i < end ==> Blind(ins[i], uuid))
    && (e.obs > 0 ==> exists t: Trail :: Tells(ins, uuid, e, t, end))
  }

  ghost predicate IsRun(states: seq<Entries>, ins: seq<Input>, lists: seq<seq<string>>) {
    && |states| == |ins| + 1 && |lists| == |ins| && states[0] == map[]
    && forall i {:trigger ins[i]} :: 0 <= i < |ins| ==> IsPass(states[i], ins[i], lists[i], states[i + 1])
  }

  /** What RunPass promises of one pass. */
  ghost predicate IsPass(state: Entries, input: Input, list: seq<string>, after: Entries) {
    if input.running == None then after == state
    else
      && Lex.Lists(list, input.running.value)
      && after == if input.saved then PassOver(Loaded(state, input), list, input).state else state
  }

  lemma BlindKeeps(ins: seq<Input>, uuid: string, e: Entry, n: nat)
    requires n < |ins| && EntryOk(ins, uuid, e, n) && Blind(ins[n], uuid)
    ensures EntryOk(ins, uuid, e, n + 1)
  {
    if e.obs > 0 {
      var t: Trail :| Tells(ins, uuid, e, t, n);
      assert !Noted(ins[n], uuid, t.ticks);
      assert Tells(ins, uuid, e, t, n + 1);
    }
  }

  /** A frozen pass extends the streak the entry remembers, or begins one. */
  lemma FrozenExtends(ins: seq<Input>, uuid: string, prev: Entry, n: nat) returns (t: Trail)
    requires n < |ins| && EntryOk(ins, uuid, prev, n)
    requires ins[n].saved && ins[n].running.Some? && uuid in ins[n].running.value && Frozen(prev, ins[n].sight(uuid))
    ensures Some(t.ticks) == ins[n].sight(uuid).ticks && Streak(ins, uuid, t, n + 1)
    ensures FrozenCount(ins, uuid, t.ticks, t.first, n + 1) == prev.obs + 1
    ensures Since(prev, ins[n].now) == ins[t.clock].now
  {
    var ticks := prev.ticks.value;
    if prev.obs == 0 {
      var b :| 0 <= b < n && ins[b].saved && Seen(ins[b], uuid, ticks) && forall i :: b < i < n ==> Blind(ins[i], uuid);
      t := Trail(ticks, b, n, n);
      assert FrozenCount(ins, uuid, ticks, n, n) == 0;
    } else {
      t :| Tells(ins, uuid, prev, t, n);
      if prev.since == Some(0.0) { t := t.(clock := n); }
    }
  }

  lemma NextOk(ins: seq<Input>, uuid: string, prev: Entry, n: nat, kills: nat)
    requires n < |ins| && EntryOk(ins, uuid, prev, n) && ins[n].saved && ins[n].running.Some? && uuid in ins[n].running.value
    ensures EntryOk(ins, uuid, Kept(Next(prev, ins[n].sight(uuid), ins[n].now, kills)), n + 1)
  {
    hide Eligible, Kills, Since;
    var o := ins[n].sight(uuid);
    if o.pid.Some? && !Readable(o) {
      hide EntryOk;
      BlindKeeps(ins, uuid, prev, n);
    } else if o.pid.Some? {
      assert Seen(ins[n], uuid, o.ticks.value);
      if Frozen(prev, o) {
        var t := FrozenExtends(ins, uuid, prev, n);
        assert Tells(ins, uuid, Entry(o.pid, o.ticks, prev.obs + 1, Some(Since(prev, ins[n].now))), t, n + 1);
      }
    }
  }

  /** In every run each entry is backed by the passes it stands for; a pass that could not save left none. */
  lemma {:induction false} EntriesRemember(states: seq<Entries>, ins: seq<Input>, lists: seq<seq<string>>, n: nat, uuid: string)
    requires IsRun(states, ins, lists) && n < |states|
    ensures EntryOk(ins, uuid, Get(states[n], uuid), n)
    decreases n
  {
    hide PassOver, Next, Streak;
    if n > 0 {
      EntriesRemember(states, ins, lists, n - 1, uuid);
      var input := ins[n - 1];
      assert IsPass(states[n - 1], input, lists[n - 1], states[n]);
      if input.running == None || !input.saved {
        BlindKeeps(ins, uuid, Get(states[n], uuid), n - 1);
      } else {
        Members(lists[n - 1], input.running.value);
        var kills := PassEntry(Loaded(states[n - 1], input), lists[n - 1], input, uuid);
        if uuid in lists[n - 1] { NextOk(ins, uuid, Get(Loaded(states[n - 1], input), uuid), n - 1, kills); }
      }
    }
  }

  ghost predicate Justifies(ins: seq<Input>, uuid: string, t: Trail, n: nat)
    requires n < |ins|
  {
    && Streak(ins, uuid, t, n) && FrozenSight(ins[n], uuid, t.ticks)
    && FrozenCount(ins, uuid, t.ticks, t.first, n) + 1 >= MIN_OBS
    && ins[n].now - ins[t.clock].now >= KILL_S as real
  }

  /** No pass since the base found the scan doing anything. */
  ghost predicate Unbroken(ins: seq<Input>, uuid: string, t: Trail, n: nat)
    requires n <= |ins|
  {
    forall i :: t.base < i < n ==> FrozenSight(ins[i], uuid, t.ticks) || Unread(ins[i], uuid)
  }

  /** Behind every kill stands a run of passes ending with it, in each of which the scan was read running with
      no child and one same tick value, or which left no trace of it; with the kill at least MIN_OBS read it
      so, an earlier pass had read that tick value too, and the clock was set KILL_S before. The clock was set
      when the run began, unless that pass read the time as zero. The run is unbroken exactly when no pass
      in it found the scan stirring and then failed to save. */
  lemma KillNeedsFrozenRun(states: seq<Entries>, ins: seq<Input>, lists: seq<seq<string>>, n: nat, uuid: string)
    requires IsRun(states, ins, lists) && n < |ins| && ins[n].running.Some?
    requires uuid in PassOver(Loaded(states[n], ins[n]), lists[n], ins[n]).killed
    ensures exists t: Trail ::
      && Justifies(ins, uuid, t, n)
      && (Unbroken(ins, uuid, t, n) <==> forall i :: t.base < i < n && !ins[i].saved ==> !Stirs(ins[i], uuid, t.ticks))
  {
    hide PassOver, Next, FrozenCount;
    EntriesRemember(states, ins, lists, n, uuid);
    var state := Loaded(states[n], ins[n]);
    assert IsPass(states[n], ins[n], lists[n], states[n + 1]);
    Members(lists[n], ins[n].running.value);
    var kills := PassEntry(state, lists[n], ins[n], uuid);
    var prev := Get(state, uuid);
    assert EntryOk(ins, uuid, prev, n);
    assert uuid in lists[n] && Eligible(prev, ins[n].sight(uuid), ins[n].now);
    var t: Trail :| Tells(ins, uuid, prev, t, n);
    assert Justifies(ins, uuid, t, n);
    StirringIff(ins, uuid, t, n);
  }

  lemma StirringIff(ins: seq<Input>, uuid: string, t: Trail, n: nat)
    requires n <= |ins| && Streak(ins, uuid, t, n)
    ensures Unbroken(ins, uuid, t, n) <==> forall i :: t.base < i < n && !ins[i].saved ==> !Stirs(ins[i], uuid, t.ticks)
  {
    forall i | t.base < i < n ensures (FrozenSight(ins[i], uuid, t.ticks) || Unread(ins[i], uuid)) <==> (!ins[i].saved ==> !Stirs(ins[i], uuid, t.ticks)) {
      assert i >= t.first ==> Noted(ins[i], uuid, t.ticks) || Blind(ins[i], uuid);
    }
  }

  // ---- a scan killed although it was seen working ----

  /** A pass in which gvmd reports one scan, at c ticks. */
  function Looks(u: string, now: real, pid: int, kids: nat, c: int, saved: bool): Input {
    Input(now, true, Some({u}), _ => Sight(Some(pid), kids, Some(c), Some(pid), true), saved)
  }

  lemma OnePass(u: string, state: Entries, input: Input)
    requires input.running == Some({u}) && input.sight(u).pid.Some?
    ensures Lex.Lists([u], {u})
    ensures var prev, o := Get(state, u), input.sight(u);
      && PassOver(state, [u], input).killed == (if Kills(prev, o, input.now, 0) then [u] else [])
      && PassOver(state, [u], input).state == map[u := Next(prev, o, input.now, 0).value]
  {
    hide Kills;
    assert PassOver(state, [], input) == Pass(map[], []);
    assert [u][..0] == [];
  }

  /** Five passes over one scan. The fourth finds two children and cannot save; the fifth kills. The processes
      of the first passes and of the last need not be the same: the stored pid is never compared. */
  lemma WorkingScanIsKilled(u: string, p: int, q: int, c: int) returns (states: seq<Entries>, ins: seq<Input>, lists: seq<seq<string>>)
    ensures IsRun(states, ins, lists) && |ins| == 5
    ensures Stirs(ins[3], u, c) && ins[3].sight(u).kids == 2 && !ins[3].saved
    ensures forall i :: 0 <= i < 4 ==> ins[i].sight(u).pid == Some(p)
    ensures ins[4].sight(u).pid == Some(q) && PassOver(Loaded(states[4], ins[4]), lists[4], ins[4]).killed == [u]
  {
    ins := [Looks(u, 300.0, p, 0, c, true), Looks(u, 600.0, p, 0, c, true), Looks(u, 900.0, p, 0, c, true),
            Looks(u, 1200.0, p, 2, c, false), Looks(u, 4500.0, q, 0, c, true)];
    states := [map[], map[u := Entry(Some(p), Some(c), 0, None)], map[u := Entry(Some(p), Some(c), 1, Some(600.0))],
               map[u := Entry(Some(p), Some(c), 2, Some(600.0))], map[u := Entry(Some(p), Some(c), 2, Some(600.0))],
               map[u := Entry(Some(q), Some(c), 0, None)]];
    lists := [[u], [u], [u], [u], [u]];
    forall i {:trigger ins[i]} | 0 <= i < 5 ensures IsPass(states[i], ins[i], lists[i], states[i + 1]) {
      OnePass(u, states[i], ins[i]);
    }
    OnePass(u, states[4], ins[4]);
  }

  // ---- what one pass does to one scan ----

  /** The scan is read alive, childless and at the ticks of its entry. */
  predicate Idle(prev: Entry, o: Sight) {
    o.pid.Some? && o.kids == 0 && o.ticks.Some? && prev.ticks == o.ticks
  }

  /** The clock's start, or now if it has none or starts at zero. */
  function Start(prev: Entry, now: real): real {
    if prev.since == None || prev.since.value == 0.0 then now else prev.since.value
  }

  /** A pass may kill a scan exactly if it is idle for the third pass at least and for an hour at least, the same
      process is found again, and the signal can be sent. */
  lemma CanKillIff(state: Entries, input: Input, uuid: string)
    ensures CanKill(state, input, uuid) <==> (
      var prev, o := if uuid in state then state[uuid] else EMPTY, input.sight(uuid);
      Idle(prev, o) && prev.obs >= 2 && input.now - Start(prev, input.now) >= 3600.0 && o.again == o.pid && o.sent)
  {
    var prev := if uuid in state then state[uuid] else EMPTY;
    WholeSeconds(input.now - Start(prev, input.now));
  }

  lemma WholeSeconds(x: real)
    ensures Truncate(x) >= 3600 <==> x >= 3600.0
  {
  }

  /** The entry a scan leaves a pass with: none without a process, its old one if unread, a fresh one if it
      stirred or was killed, an empty one if its process could not be found again, and otherwise one
      observation more on the same clock. */
  lemma EntryLeaves(prev: Entry, o: Sight, now: real, kills: nat)
    ensures var e := Next(prev, o, now, kills);
      var due := prev.obs >= 2 && now - Start(prev, now) >= 3600.0 && kills == 0;
      && (e == None <==> o.pid == None)
      && (o.pid.Some? && (o.kids < 0 || o.ticks == None) ==> e == Some(prev))
      && (o.pid.Some? && o.kids >= 0 && o.ticks.Some? && !Idle(prev, o) ==> e == Some(Entry(o.pid, o.ticks, 0, None)))
      && (Idle(prev, o) && due && o.again != o.pid ==> e == Some(Entry(None, None, 0, None)))
      && (Idle(prev, o) && due && o.again == o.pid && o.sent ==> e == Some(Entry(o.pid, o.ticks, 0, None)))
      && (Idle(prev, o) && !(due && (o.again != o.pid || o.sent)) ==> e == Some(Entry(o.pid, o.ticks, prev.obs + 1, Some(Start(prev, now)))))
      && (Kills(prev, o, now, kills) <==> Idle(prev, o) && due && o.again == o.pid && o.sent)
  {
    WholeSeconds(now - Start(prev, now));
  }
}
