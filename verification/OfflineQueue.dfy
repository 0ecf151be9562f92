/** The agent's store-and-forward queue, agent/internal/transport/queue.go, driven by the locked tick of
    agent/internal/agentd/agentd.go.

    The directory is a map from file names to contents. A write may fail and then leaves nothing; listing,
    reading and removing files do not fail. */
module OfflineQueue {
  import opened Prelude
  import Lex

  type Payload = string

  const MAX_SEQ: nat := 0xffff_ffff_ffff_ffff
  const WIDTH: nat := 20
  const SUFFIX: string := ".json"

  // ---- file names ----

  function Pow10(w: nat): (p: nat)
    ensures p > 0
  {
    if w == 0 then 1 else 10 * Pow10(w - 1)
  }

  /** n in decimal, padded with zeros to w digits. */
  function Padded(n: nat, w: nat): (s: string)
    ensures |s| == w && forall c :: c in s ==> IsDigit(c)
    decreases w
  {
    if w == 0 then "" else Padded(n / 10, w - 1) + [Digit(n % 10)]
  }

  function Name(n: nat): string {
    Padded(n, WIDTH) + SUFFIX
  }

  predicate HasSuffix(name: string) {
    |name| >= |SUFFIX| && name[|name| - |SUFFIX|..] == SUFFIX
  }

  /** seqOf: an unreadable number counts as 0, one too large as the largest. */
  function SeqOf(name: string): nat {
    var stem := if HasSuffix(name) then name[..|name| - |SUFFIX|] else name;
    if stem == "" || exists c :: c in stem && !IsDigit(c) then 0
    else if DigitsValue(stem) > MAX_SEQ then MAX_SEQ
    else DigitsValue(stem)
  }

  lemma {:induction false} PaddedValue(n: nat, w: nat)
    requires n < Pow10(w)
    ensures DigitsValue(Padded(n, w)) == n
    decreases w
  {
    if w > 0 {
      PaddedValue(n / 10, w - 1);
      assert Padded(n, w)[..w - 1] == Padded(n / 10, w - 1);
    }
  }

  lemma {:induction false} BelowByPrefix(a: string, b: string, x: string, y: string)
    requires |a| == |b|
    ensures Lex.Below(a, b) ==> Lex.Below(a + x, b + y)
    ensures a == b ==> (Lex.Below(a + x, b + y) <==> Lex.Below(x, y))
    decreases |a|
  {
    if a == [] {
      assert a + x == x && b + y == y;
    } else {
      BelowByPrefix(a[1..], b[1..], x, y);
      assert (a + x)[1..] == a[1..] + x && (b + y)[1..] == b[1..] + y;
      assert a == b ==> a[1..] == b[1..];
    }
  }

  /** Padded numbers sort as strings exactly as they do as numbers. */
  lemma {:induction false} PaddedOrder(m: nat, n: nat, w: nat)
    requires m < Pow10(w) && n < Pow10(w)
    ensures Lex.Below(Padded(m, w), Padded(n, w)) <==> m < n
    decreases w
  {
    if w > 0 {
      var a, b := Padded(m / 10, w - 1), Padded(n / 10, w - 1);
      var x, y := [Digit(m % 10)], [Digit(n % 10)];
      PaddedOrder(m / 10, n / 10, w - 1);
      PaddedOrder(n / 10, m / 10, w - 1);
      BelowByPrefix(a, b, x, y);
      BelowByPrefix(b, a, y, x);
      if m / 10 < n / 10 {
      } else if n / 10 < m / 10 {
        if Lex.Below(a + x, b + y) { Lex.Transitive(a + x, b + y, a + x); Lex.Irreflexive(a + x); }
      } else {
        assert a == b && (Lex.Below(x, y) <==> m % 10 < n % 10) by { assert x[1..] == y[1..] == []; }
      }
    }
  }

  lemma NamesFit()
    ensures MAX_SEQ < Pow10(WIDTH)
  {
    assert Pow10(4) == 10000;
    assert Pow10(8) == 100000000;
    assert Pow10(12) == 1000000000000;
    assert Pow10(16) == 10000000000000000;
    assert Pow10(20) == 100000000000000000000;
  }

  /** File names sort as their numbers, and the number reads back. */
  lemma NameOrder(m: nat, n: nat)
    requires m <= MAX_SEQ && n <= MAX_SEQ
    ensures Lex.Below(Name(m), Name(n)) <==> m < n
    ensures SeqOf(Name(n)) == n && HasSuffix(Name(n))
  {
    hide Pow10, Lex.Below, DigitsValue, Padded;
    NamesFit();
    PaddedOrder(m, n, WIDTH);
    PaddedOrder(n, m, WIDTH);
    PaddedValue(n, WIDTH);
    var a, b := Padded(m, WIDTH), Padded(n, WIDTH);
    BelowByPrefix(a, b, SUFFIX, SUFFIX);
    BelowByPrefix(b, a, SUFFIX, SUFFIX);
    assert Name(n)[WIDTH..] == SUFFIX && Name(n)[..WIDTH] == b;
    Lex.Irreflexive(SUFFIX);
    if n < m && Lex.Below(Name(m), Name(n)) {
      Lex.Transitive(Name(m), Name(n), Name(m));
      Lex.Irreflexive(Name(m));
    }
  }

  // ---- the directory ----

  type Directory = map<string, Payload>

  /** The names list() keeps. */
  function Items(dir: Directory): set<string> {
    set n | n in dir && HasSuffix(n)
  }

  /** Every item was written by Enqueue, with a number up to seq. */
  ghost predicate Owned(dir: Directory, seqNo: nat) {
    forall name :: name in Items(dir) ==> Numbered(name, seqNo)
  }

  ghost predicate Numbered(name: string, seqNo: nat) {
    exists n :: 1 <= n <= seqNo && name == Name(n)
  }

  /** The payloads in the order list() gives their names. */
  ghost function Pending(dir: Directory): (p: seq<Payload>)
    ensures |p| == |Lex.Listing(Items(dir))|
    ensures forall i :: 0 <= i < |p| ==> Lex.Listing(Items(dir))[i] in dir && p[i] == dir[Lex.Listing(Items(dir))[i]]
  {
    var list := Lex.Listing(Items(dir));
    assert forall i :: 0 <= i < |list| ==> list[i] in Items(dir);
    seq(|list|, i requires 0 <= i < |list| => dir[list[i]])
  }

  /** A new item goes last: its number is above the others', so its name is. */
  lemma NewestLast(dir: Directory, seqNo: nat, p: Payload)
    requires Owned(dir, seqNo) && seqNo < MAX_SEQ
    ensures Pending(dir[Name(seqNo + 1) := p]) == Pending(dir) + [p]
    ensures Owned(dir[Name(seqNo + 1) := p], seqNo + 1)
  {
    hide Lex.Below, Name, SeqOf, HasSuffix;
    var name := Name(seqNo + 1);
    NameOrder(seqNo + 1, seqNo + 1);
    forall y | y in Items(dir) ensures Lex.Below(y, name) && y != name {
      var n :| 1 <= n <= seqNo && y == Name(n);
      NameOrder(n, seqNo + 1);
      Lex.Irreflexive(name);
    }
    assert Items(dir[name := p]) == Items(dir) + {name};
    Lex.AppendLast(Items(dir), name);
    assert forall y :: y in Lex.Listing(Items(dir)) ==> y in Items(dir);
  }

  lemma OldestGoes(dir: Directory)
    requires Lex.Listing(Items(dir)) != []
    ensures var list := Lex.Listing(Items(dir));
      && list[0] in dir && Lex.Listing(Items(dir - {list[0]})) == list[1..]
      && Pending(dir - {list[0]}) == Pending(dir)[1..]
  {
    hide HasSuffix;
    var list := Lex.Listing(Items(dir));
    assert list[0] in Items(dir);
    Lex.RemoveFirst(Items(dir));
    assert Items(dir - {list[0]}) == Items(dir) - {list[0]};
    assert forall k :: 0 < k < |list| ==> list[k] != list[0] by {
      assert forall k :: 0 < k < |list| ==> Lex.Below(list[0], list[k]);
      Lex.Irreflexive(list[0]);
    }
  }

  /** The last listed name carries the largest number. */
  lemma LastIsNewest(dir: Directory)
    requires Owned(dir, MAX_SEQ) && Items(dir) != {}
    ensures var list := Lex.Listing(Items(dir)); list != [] && 1 <= SeqOf(list[|list| - 1]) <= MAX_SEQ && Owned(dir, SeqOf(list[|list| - 1]))
  {
    hide Lex.Below, Name, SeqOf, HasSuffix;
    var list := Lex.Listing(Items(dir));
    var x :| x in Items(dir);
    assert x in list;
    var last := list[|list| - 1];
    assert last in Items(dir);
    var top :| 1 <= top <= MAX_SEQ && last == Name(top);
    NameOrder(top, top);
    forall name | name in Items(dir) ensures Numbered(name, top) {
      var n :| 1 <= n <= MAX_SEQ && name == Name(n);
      var i :| 0 <= i < |list| && list[i] == name;
      if i < |list| - 1 { NameOrder(n, top); }
      NameOrder(top, n);
      if n > top { Lex.Transitive(last, name, last); Lex.Irreflexive(last); }
    }
  }

  // ---- what a flush does ----

  /** Of one item: sent, refused for good, failed for now; or the context was cancelled before it. */
  datatype Outcome = Sent | Permanent | Transient | Cancelled

  predicate Stops(o: Outcome) {
    o == Transient || o == Cancelled
  }

  /** How many of the n items a flush gets through. */
  function Reached(out: nat -> Outcome, n: nat, i: nat): (k: nat)
    requires i <= n
    ensures i <= k <= n && (forall j :: i <= j < k ==> !Stops(out(j))) && (k < n ==> Stops(out(k)))
    decreases n - i
  {
    if i == n || Stops(out(i)) then i else Reached(out, n, i + 1)
  }

  /** The items sent among the first k, in order. */
  function SentOf(items: seq<Payload>, out: nat -> Outcome, k: nat): seq<Payload>
    requires k <= |items|
  {
    if k == 0 then [] else SentOf(items, out, k - 1) + if out(k - 1) == Sent then [items[k - 1]] else []
  }

  function RefusedOf(out: nat -> Outcome, k: nat): nat {
    if k == 0 then 0 else RefusedOf(out, k - 1) + if out(k - 1) == Permanent then 1 else 0
  }

  /** The newest n of s. */
  function Newest(s: seq<Payload>, n: nat): (r: seq<Payload>)
    ensures |r| <= n
  {
    if |s| > n then s[|s| - n..] else s
  }

  // ---- the class ----

  class Queue {
    const maxItems: nat
    var dir: Directory
    var seqNo: nat
    var dropped: nat

    ghost predicate Valid()
      reads this
    {
      seqNo <= MAX_SEQ && Owned(dir, seqNo)
    }

    /** NewQueue: numbering goes on from the last item found. */
    static method NewQueue(dir: Directory, maxItems: int) returns (q: Queue?)
      ensures q == null <==> maxItems < 1
      ensures q != null ==> fresh(q) && q.dir == dir && q.maxItems == maxItems && q.dropped == 0
      ensures q != null && Owned(dir, MAX_SEQ) ==> q.Valid()
    {
      hide SeqOf, Name, HasSuffix;
      if maxItems < 1 { return null; }
      q := new Queue(dir, maxItems);
      var items := q.List();
      if |items| > 0 {
        assert items[0] in Items(dir);
        if Owned(dir, MAX_SEQ) { LastIsNewest(dir); }
        q.seqNo := SeqOf(items[|items| - 1]);
        SeqOfFits(items[|items| - 1]);
      } else {
        assert Items(dir) == {};
      }
    }

    constructor (dir: Directory, maxItems: nat)
      ensures this.dir == dir && this.maxItems == maxItems && seqNo == 0 && dropped == 0
    {
      this.dir, this.maxItems, seqNo, dropped := dir, maxItems, 0, 0;
    }

    method List() returns (items: seq<string>)
      ensures items == Lex.Listing(Items(dir))
    {
      items := Lex.Sort(Items(dir));
    }

    /** Stores the payload as the newest item, then evicts the oldest over the cap. A failed write leaves the
        items alone. */
    method Enqueue(payload: Payload, saved: bool) returns (ok: bool)
      requires Valid()
      modifies this
      ensures old(seqNo) < MAX_SEQ ==>
        && Valid() && ok == saved
        && Pending(dir) == (if saved then Newest(old(Pending(dir)) + [payload], maxItems) else old(Pending(dir)))
        && dropped + |Pending(dir)| == old(dropped) + old(|Pending(dir)|) + if saved then 1 else 0
    {
      hide Name, HasSuffix, Pending, Owned, Newest;
      var next := if seqNo == MAX_SEQ then 0 else seqNo + 1;
      if old(seqNo) < MAX_SEQ {
        NewestLast(dir, seqNo, payload);
        OwnedMore(dir, seqNo);
      }
      seqNo := next;
      if !saved { return false; }
      dir := dir[Name(seqNo) := payload];
      ghost var stored := dir;
      Evict();
      if old(seqNo) < MAX_SEQ { OwnedLess(stored, dir, seqNo); }
      ok := true;
    }

    method Evict()
      modifies this`dir, this`dropped
      ensures Pending(dir) == Newest(old(Pending(dir)), maxItems)
      ensures dropped + |Pending(dir)| == old(dropped) + old(|Pending(dir)|)
      ensures forall n :: n in dir ==> n in old(dir)
    {
      hide Pending, Items, Lex.Lists;
      var items := List();
      ghost var names, was, i := items, Pending(dir), 0;
      while |items| > maxItems
        invariant i <= |names| == |was| && items == names[i..] && dropped == old(dropped) + i
        invariant Lex.Listing(Items(dir)) == names[i..] && Pending(dir) == was[i..]
        invariant i == 0 || |items| >= maxItems
        invariant forall n :: n in dir ==> n in old(dir)
        decreases |items|
      {
        RemoveHead(dir, names, was, i);
        dir := dir - {items[0]};
        dropped := dropped + 1;
        items := items[1..];
        i := i + 1;
      }
    }

    /** Delivers in order. A refused item is dropped, a transient failure or a cancelled context ends the
        cycle with the rest still queued. */
    method Flush(out: nat -> Outcome) returns (sent: nat, delivered: seq<Payload>)
      modifies this`dir, this`dropped
      ensures old(Valid()) ==> Valid()
      ensures var was := old(Pending(dir));
        var k := Reached(out, |was|, 0);
        && Pending(dir) == was[k..] && delivered == SentOf(was, out, k) && sent == |delivered|
        && dropped == old(dropped) + RefusedOf(out, k)
    {
      hide Lex.Below, HasSuffix, Owned, Reached, Pending, SentOf, RefusedOf, Lex.Lists, Items;
      var items := List();
      ghost var was, owned := Pending(dir), Owned(dir, seqNo);
      NothingSent(was, out);
      sent, delivered := 0, [];
      var i := 0;
      while i < |items|
        invariant i <= |items| == |was| && Lex.Listing(Items(dir)) == items[i..] && Pending(dir) == was[i..]
        invariant delivered == SentOf(was, out, i) && sent == |delivered| && dropped == old(dropped) + RefusedOf(out, i)
        invariant Reached(out, |was|, i) == Reached(out, |was|, 0)
        invariant owned ==> Owned(dir, seqNo)
      {
        ReachedStep(out, |was|, i);
        if out(i) == Cancelled { return; }
        RemoveHead(dir, items, was, i);
        var payload := dir[items[i]];
        if out(i) == Transient { return; }
        if owned { OwnedLess(dir, dir - {items[i]}, seqNo); }
        SentStep(was, out, i);
        dir := dir - {items[i]};
        if out(i) == Permanent {
          dropped := dropped + 1;
        } else {
          sent := sent + 1;
          delivered := delivered + [payload];
        }
        i := i + 1;
      }
      ReachedStep(out, |was|, i);
    }
  }

  lemma ReachedStep(out: nat -> Outcome, n: nat, i: nat)
    requires i <= n
    ensures Reached(out, n, i) == if i == n || Stops(out(i)) then i else Reached(out, n, i + 1)
  {
  }

  lemma NothingSent(items: seq<Payload>, out: nat -> Outcome)
    ensures SentOf(items, out, 0) == [] && RefusedOf(out, 0) == 0
  {
  }

  lemma SentStep(items: seq<Payload>, out: nat -> Outcome, i: nat)
    requires i < |items|
    ensures SentOf(items, out, i + 1) == if out(i) == Sent then SentOf(items, out, i) + [items[i]] else SentOf(items, out, i)
    ensures RefusedOf(out, i + 1) == RefusedOf(out, i) + if out(i) == Permanent then 1 else 0
  {
  }

  /** With the first i items gone, the next in the listing is the oldest left. */
  lemma RemoveHead(dir: Directory, items: seq<string>, was: seq<Payload>, i: nat)
    requires i < |items| == |was| && Lex.Listing(Items(dir)) == items[i..] && Pending(dir) == was[i..]
    ensures items[i] in dir && dir[items[i]] == was[i]
    ensures Lex.Listing(Items(dir - {items[i]})) == items[i + 1..] && Pending(dir - {items[i]}) == was[i + 1..]
  {
    hide Lex.Below, HasSuffix;
    assert items[i..][0] == items[i] && items[i] in Items(dir) && was[i..][0] == was[i];
    OldestGoes(dir);
    assert items[i..][1..] == items[i + 1..] && was[i..][1..] == was[i + 1..];
  }

  lemma SeqOfFits(name: string)
    ensures SeqOf(name) <= MAX_SEQ
  {
  }

  lemma OwnedMore(dir: Directory, seqNo: nat)
    requires Owned(dir, seqNo)
    ensures Owned(dir, seqNo + 1)
  {
    hide Name, HasSuffix;
    forall name | name in Items(dir) ensures Numbered(name, seqNo + 1) {
      var n :| 1 <= n <= seqNo && name == Name(n);
    }
  }

  lemma OwnedLess(dir: Directory, less: Directory, seqNo: nat)
    requires Owned(dir, seqNo) && forall n :: n in less ==> n in dir
    ensures Owned(less, seqNo)
  {
    hide Numbered, HasSuffix;
  }

  // ---- the agent's tick ----

  /** What is queued once a tick has stored what it collected. */
  function Stored(was: seq<Payload>, collected: Option<Payload>, saved: bool, maxItems: nat): seq<Payload> {
    if collected.Some? && saved then Newest(was + [collected.value], maxItems) else was
  }

  class Agent {
    const queue: Queue

    constructor (queue: Queue)
      ensures this.queue == queue
    {
      this.queue := queue;
    }

    /** tick, under tickMu: store this cycle's inventory if there is one, then flush the backlog. */
    method Tick(collected: Option<Payload>, saved: bool, out: nat -> Outcome) returns (sent: nat, delivered: seq<Payload>)
      requires queue.Valid()
      modifies queue
      ensures old(queue.seqNo) < MAX_SEQ ==>
        var was := Stored(old(Pending(queue.dir)), collected, saved, queue.maxItems);
        var k := Reached(out, |was|, 0);
        && queue.Valid() && Pending(queue.dir) == was[k..] && delivered == SentOf(was, out, k) && sent == |delivered|
        && |old(Pending(queue.dir))| + (if collected.Some? && saved then 1 else 0)
           == |delivered| + (queue.dropped - old(queue.dropped)) + |Pending(queue.dir)|
    {
      hide Pending, Owned, Newest, Reached;
      if collected.Some? {
        var ok := queue.Enqueue(collected.value, saved);
      }
      ghost var was := Pending(queue.dir);
      sent, delivered := queue.Flush(out);
      ghost var k := Reached(out, |was|, 0);
      Settles(was, out, k);
    }
  }

  /** Every item a flush gets through is sent or refused. */
  lemma {:induction false} Settles(items: seq<Payload>, out: nat -> Outcome, k: nat)
    requires k <= |items| && forall j :: 0 <= j < k ==> !Stops(out(j))
    ensures |SentOf(items, out, k)| + RefusedOf(out, k) == k
    decreases k
  {
    if k > 0 { Settles(items, out, k - 1); }
  }

  // ---- runs ----

  datatype Fate = Delivered | Dropped

  /** A queue with its history: everything ever stored, and what became of the items no longer pending.
      dropped and delivered are what the counter and the sender saw, over all processes. */
  datatype World = World(pending: seq<Payload>, dropped: nat, delivered: seq<Payload>, stored: seq<Payload>, settled: seq<Fate>)

  datatype Event = Tick(collected: Option<Payload>, saved: bool, out: nat -> Outcome) | Reopen

  function Evicted(n: nat): (r: seq<Fate>)
    ensures |r| == n
  {
    seq(n, _ => Dropped)
  }

  function FatesOf(out: nat -> Outcome, k: nat): (r: seq<Fate>)
    ensures |r| == k
  {
    seq(k, i requires 0 <= i < k => if out(i) == Sent then Delivered else Dropped)
  }

  function DoStore(w: World, p: Payload, maxItems: nat): World {
    var now := Newest(w.pending + [p], maxItems);
    var gone := |w.pending| + 1 - |now|;
    World(now, w.dropped + gone, w.delivered, w.stored + [p], w.settled + Evicted(gone))
  }

  function DoFlush(w: World, out: nat -> Outcome): World {
    var k := Reached(out, |w.pending|, 0);
    World(w.pending[k..], w.dropped + RefusedOf(out, k), w.delivered + SentOf(w.pending, out, k), w.stored, w.settled + FatesOf(out, k))
  }

  /** Reopening finds the same files; only the process's counter starts anew. */
  function Do(w: World, e: Event, maxItems: nat): World {
    match e
    case Tick(collected, saved, out) => DoFlush(if collected.Some? && saved then DoStore(w, collected.value, maxItems) else w, out)
    case Reopen => w
  }

  /** The stored items with fate Delivered, in the order they were stored. */
  function Chosen(stored: seq<Payload>, fates: seq<Fate>): seq<Payload>
    requires |fates| <= |stored|
    decreases |fates|
  {
    if fates == [] then []
    else
      var n := |fates| - 1;
      Chosen(stored, fates[..n]) + if fates[n] == Delivered then [stored[n]] else []
  }

  function Count(fates: seq<Fate>, f: Fate): nat {
    if fates == [] then 0 else Count(fates[..|fates| - 1], f) + if fates[|fates| - 1] == f then 1 else 0
  }

  ghost predicate Inv(w: World) {
    && |w.settled| <= |w.stored| && w.pending == w.stored[|w.settled|..]
    && w.delivered == Chosen(w.stored, w.settled) && w.dropped == Count(w.settled, Dropped)
  }

  lemma {:induction false} ChosenMore(stored: seq<Payload>, more: seq<Payload>, fates: seq<Fate>)
    requires |fates| <= |stored|
    ensures Chosen(stored + more, fates) == Chosen(stored, fates)
    decreases |fates|
  {
    if fates != [] { ChosenMore(stored, more, fates[..|fates| - 1]); }
  }

  lemma {:induction false} Evictions(stored: seq<Payload>, fates: seq<Fate>, n: nat)
    requires |fates| + n <= |stored|
    ensures Chosen(stored, fates + Evicted(n)) == Chosen(stored, fates)
    ensures Count(fates + Evicted(n), Dropped) == Count(fates, Dropped) + n
    decreases n
  {
    var all := fates + Evicted(n);
    if n > 0 {
      Evictions(stored, fates, n - 1);
      assert all[..|all| - 1] == fates + Evicted(n - 1);
    } else {
      assert all == fates;
    }
  }

  lemma {:induction false} Deliveries(stored: seq<Payload>, fates: seq<Fate>, out: nat -> Outcome, k: nat)
    requires |fates| + k <= |stored| && forall j :: 0 <= j < k ==> !Stops(out(j))
    ensures Chosen(stored, fates + FatesOf(out, k)) == Chosen(stored, fates) + SentOf(stored[|fates|..], out, k)
    decreases k
  {
    var all := fates + FatesOf(out, k);
    if k > 0 {
      Deliveries(stored, fates, out, k - 1);
      assert all[..|all| - 1] == fates + FatesOf(out, k - 1);
      assert stored[|fates|..][k - 1] == stored[|all| - 1];
    } else {
      assert all == fates;
    }
  }

  lemma {:induction false} Refusals(fates: seq<Fate>, out: nat -> Outcome, k: nat)
    requires forall j :: 0 <= j < k ==> !Stops(out(j))
    ensures Count(fates + FatesOf(out, k), Dropped) == Count(fates, Dropped) + RefusedOf(out, k)
    decreases k
  {
    var all := fates + FatesOf(out, k);
    if k > 0 {
      Refusals(fates, out, k - 1);
      assert all[..|all| - 1] == fates + FatesOf(out, k - 1);
    } else {
      assert all == fates;
    }
  }

  lemma StoreKeeps(w: World, p: Payload, maxItems: nat)
    requires Inv(w)
    ensures Inv(DoStore(w, p, maxItems)) && |DoStore(w, p, maxItems).pending| <= maxItems
  {
    var v := DoStore(w, p, maxItems);
    var gone := |w.pending| + 1 - |v.pending|;
    ChosenMore(w.stored, [p], w.settled);
    Evictions(v.stored, w.settled, gone);
    assert w.pending + [p] == v.stored[|w.settled|..];
  }

  lemma FlushKeeps(w: World, out: nat -> Outcome)
    requires Inv(w)
    ensures Inv(DoFlush(w, out))
  {
    hide Chosen, Count;
    var k := Reached(out, |w.pending|, 0);
    Deliveries(w.stored, w.settled, out, k);
    Refusals(w.settled, out, k);
  }

  ghost predicate IsRun(ws: seq<World>, es: seq<Event>, maxItems: nat) {
    && |ws| == |es| + 1 && ws[0] == World([], 0, [], [], [])
    && forall i {:trigger es[i]} :: 0 <= i < |es| ==> ws[i + 1] == Do(ws[i], es[i], maxItems)
  }

  lemma {:induction false} RunsKeepInvariant(ws: seq<World>, es: seq<Event>, maxItems: nat, n: nat)
    requires IsRun(ws, es, maxItems) && n < |ws|
    ensures Inv(ws[n]) && |ws[n].pending| <= maxItems
    decreases n
  {
    if n > 0 {
      hide DoStore, DoFlush, Inv;
      RunsKeepInvariant(ws, es, maxItems, n - 1);
      var w, e := ws[n - 1], es[n - 1];
      if e.Tick? {
        var v := if e.collected.Some? && e.saved then DoStore(w, e.collected.value, maxItems) else w;
        if e.collected.Some? && e.saved { StoreKeeps(w, e.collected.value, maxItems); }
        FlushKeeps(v, e.out);
        FlushShrinks(v, e.out);
      }
    }
  }

  lemma FlushShrinks(w: World, out: nat -> Outcome)
    ensures |DoFlush(w, out).pending| <= |w.pending|
  {
  }

  lemma {:induction false} Tally(stored: seq<Payload>, fates: seq<Fate>)
    requires |fates| <= |stored|
    ensures |Chosen(stored, fates)| + Count(fates, Dropped) == |fates|
    decreases |fates|
  {
    if fates != [] { Tally(stored, fates[..|fates| - 1]); }
  }

  /** In every run of ticks and reopenings, everything stored is delivered, dropped or pending; deliveries are
      stored items in the order they were stored, each at most once; the pending ones are the newest, in
      order; and no more than maxItems are pending. */
  lemma NothingIsLost(ws: seq<World>, es: seq<Event>, maxItems: nat, n: nat)
    requires IsRun(ws, es, maxItems) && n < |ws|
    ensures var w := ws[n];
      && |w.stored| == |w.delivered| + w.dropped + |w.pending| && |w.pending| <= maxItems
      && |w.settled| <= |w.stored| && w.pending == w.stored[|w.settled|..] && w.delivered == Chosen(w.stored, w.settled)
  {
    RunsKeepInvariant(ws, es, maxItems, n);
    Tally(ws[n].stored, ws[n].settled);
  }

  // ---- one flush, item by item ----

  /** A flush goes through the items up to the first transient failure or cancellation, or all of them. */
  lemma ReachedIff(out: nat -> Outcome, n: nat, k: nat)
    ensures Reached(out, n, 0) == k <==> (
      && k <= n && (forall j :: 0 <= j < k ==> out(j).Sent? || out(j).Permanent?)
      && (k < n ==> out(k).Transient? || out(k).Cancelled?))
  {
    var r := Reached(out, n, 0);
    if k != r { assert k < r ==> !Stops(out(k)); }
  }

  /** What a flush sends of the items it goes through: exactly those whose sending succeeds, in order. */
  lemma {:induction false} SentAre(items: seq<Payload>, out: nat -> Outcome, k: nat) returns (at: seq<nat>)
    requires k <= |items|
    ensures forall i: nat :: i in at <==> i < k && out(i).Sent?
    ensures forall i, j :: 0 <= i < j < |at| ==> at[i] < at[j]
    ensures |SentOf(items, out, k)| == |at| && forall j :: 0 <= j < |at| ==> at[j] < k && SentOf(items, out, k)[j] == items[at[j]]
    decreases k
  {
    at := [];
    if k > 0 {
      at := SentAre(items, out, k - 1);
      if out(k - 1).Sent? { at := OneMore(at, k - 1); }
    }
  }

  lemma OneMore(before: seq<nat>, k: nat) returns (at: seq<nat>)
    requires forall j :: 0 <= j < |before| ==> before[j] < k
    requires forall i, j :: 0 <= i < j < |before| ==> before[i] < before[j]
    ensures |at| == |before| + 1 && at[|before|] == k && forall j :: 0 <= j < |before| ==> at[j] == before[j]
    ensures forall i: nat :: i in at <==> i in before || i == k
    ensures forall i, j :: 0 <= i < j < |at| ==> at[i] < at[j]
  {
    at := before + [k];
  }

  /** And what it drops: the refused ones, counted. */
  lemma {:induction false} RefusedAre(out: nat -> Outcome, k: nat)
    ensures RefusedOf(out, k) == |set i: nat | i < k && out(i).Permanent?|
    decreases k
  {
    if k == 0 {
      assert (set i: nat | i < 0 && out(i).Permanent?) == {};
    } else {
      RefusedAre(out, k - 1);
      var few, all := set i: nat | i < k - 1 && out(i).Permanent?, set i: nat | i < k && out(i).Permanent?;
      assert all == if out(k - 1).Permanent? then few + {k - 1} else few;
    }
  }

  /** The backlog is cut to the newest items, as many as the cap allows. */
  lemma NewestAre(s: seq<Payload>, n: nat)
    ensures |Newest(s, n)| == if |s| <= n then |s| else n
    ensures forall i :: 0 <= i < |Newest(s, n)| ==> Newest(s, n)[i] == s[|s| - |Newest(s, n)| + i]
  {
  }

  /** An item's file: its number in twenty digits, and ".json". */
  lemma NameText(n: nat)
    requires n <= 0xffff_ffff_ffff_ffff
    ensures var name := Name(n);
      && |name| == 25 && name[20..] == ".json" && (forall c :: c in name[..20] ==> IsDigit(c)) && DigitsValue(name[..20]) == n
  {
    NamesFit();
    PaddedValue(n, WIDTH);
    assert Name(n)[..20] == Padded(n, WIDTH);
  }

  lemma StemOf(stem: string)
    ensures HasSuffix(stem + ".json") && (stem + ".json")[..|stem + ".json"| - |SUFFIX|] == stem
  {
  }

  /** The items are the files whose names end in ".json"; anything else in the directory is left alone. */
  lemma ItemsAre(dir: Directory, name: string)
    ensures name in Items(dir) <==> name in dir && exists stem :: name == stem + ".json"
  {
    if HasSuffix(name) { assert name == name[..|name| - |SUFFIX|] + ".json"; }
    if stem :| name == stem + ".json" { StemOf(stem); }
  }

  /** A file's number is its stem's value, the largest number if that is too large, and 0 if the stem is no numeral. */
  lemma SeqOfText(stem: string)
    ensures var numeral := stem != "" && forall c :: c in stem ==> IsDigit(c);
      && (!numeral ==> SeqOf(stem + ".json") == 0)
      && (numeral ==> SeqOf(stem + ".json") == if DigitsValue(stem) <= 0xffff_ffff_ffff_ffff then DigitsValue(stem) else 0xffff_ffff_ffff_ffff)
  {
    hide HasSuffix;
    StemOf(stem);
  }

  /** A tick's inventory joins the backlog exactly if there is one and it could be written. */
  lemma StoredAre(was: seq<Payload>, collected: Option<Payload>, saved: bool, maxItems: nat)
    requires maxItems > 0
    ensures var now := Stored(was, collected, saved, maxItems);
      && (collected == None || !saved ==> now == was)
      && (collected.Some? && saved ==> now != [] && now[|now| - 1] == collected.value && |now| == if |was| < maxItems then |was| + 1 else maxItems)
  {
  }

  /** A tick of the whole history is the agent's tick: it leaves, sends and drops what Agent.Tick does. */
  lemma TickIsAStep(w: World, collected: Option<Payload>, saved: bool, out: nat -> Outcome, maxItems: nat)
    ensures var v, was := Do(w, Event.Tick(collected, saved, out), maxItems), Stored(w.pending, collected, saved, maxItems);
      var k := Reached(out, |was|, 0);
      && v.pending == was[k..] && v.delivered == w.delivered + SentOf(was, out, k)
      && v.stored == w.stored + (if collected.Some? && saved then [collected.value] else [])
      && |w.pending| + |v.stored| - |w.stored| == |v.delivered| - |w.delivered| + (v.dropped - w.dropped) + |v.pending|
  {
    hide Newest;
    var was := Stored(w.pending, collected, saved, maxItems);
    SentOrRefused(was, out, Reached(out, |was|, 0));
  }

  lemma {:induction false} SentOrRefused(items: seq<Payload>, out: nat -> Outcome, k: nat)
    requires k <= |items| && forall j :: 0 <= j < k ==> !Stops(out(j))
    ensures |SentOf(items, out, k)| + RefusedOf(out, k) == k
    decreases k
  {
    if k > 0 { SentOrRefused(items, out, k - 1); }
  }
}
