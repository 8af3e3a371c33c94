/**
 One reservation of the running-server budget, run under its lock: whom it evicts, when it
 refuses and with which blockers, and when it ends with neither a start nor a refusal.
 */
module Eviction {
  import opened Options
  import opened Idle
  import opened Lifecycle

  /** A registered project; the table is in name order, so an index stands for a name. */
  datatype Project = Project(phase: Phase, startedAt: int, alwaysOn: bool, act: Activity, entry: Option<nat>)
  {
    predicate HoldsSlot() {
      phase == Running || phase == Starting
    }

    /** The completion of the last request, or the start when nothing has completed since. */
    function LastActive(): int {
      if act.lastActivity > startedAt then act.lastActivity else startedAt
    }
  }

  datatype Block =
    | AlwaysOn
    | StillStarting
    | InFlight(requests: int)
    | WebSockets(open: int)
    | LeasedUntil(until: int)
    | BeingIdleStopped

  datatype Blocker = Blocker(name: nat, reason: Block)

  datatype Outcome = Started | Refused(blockers: seq<Blocker>) | Neither

  const EVICTION_ATTEMPTS: nat := 3

  // ---- What the code decides, as functions of one state ----

  function BlockReason(p: Project, now: int): Option<Block> {
    if p.alwaysOn then Some(AlwaysOn)
    else if p.phase == Starting then Some(StillStarting)
    else if p.act.inflight > 0 then Some(InFlight(p.act.inflight))
    else if p.act.persistent > 0 then Some(WebSockets(p.act.persistent))
    else if p.act.Leased(now) then Some(LeasedUntil(p.act.leaseUntil))
    else None
  }

  /** Why a project that was not evicted keeps its slot. */
  function WhyHeld(p: Project, now: int): Block {
    if BlockReason(p, now).Some? then BlockReason(p, now).value else BeingIdleStopped
  }

  /** Running, not always on, not parked, and no other stop has armed the gate. */
  predicate Evictable(p: Project, now: int) {
    p.phase == Running && !p.alwaysOn && !p.act.IsParked(now) && p.act.gate == None
  }

  function Evicted(p: Project): Project {
    p.(phase := Stopping, act := p.act.(gate := Some(0)))
  }

  /** The projects an eviction may choose from: everything, or one entry's own. */
  predicate InPool(p: Project, entry: Option<nat>) {
    entry.Some? ==> p.entry == entry
  }

  /** How many of the projects satisfy a condition. */
  function Tally(ps: seq<Project>, f: Project -> bool): nat {
    if ps == [] then 0 else Tally(ps[..|ps| - 1], f) + if f(ps[|ps| - 1]) then 1 else 0
  }

  function Holding(entry: Option<nat>): Project -> bool {
    (p: Project) => p.HoldsSlot() && InPool(p, entry)
  }

  function EvictableIn(entry: Option<nat>, now: int): Project -> bool {
    (p: Project) => Evictable(p, now) && InPool(p, entry)
  }

  /** a comes before b in eviction order: longer inactive, or as long and first by name. */
  predicate Sooner(ps: seq<Project>, a: nat, b: nat)
    requires a < |ps| && b < |ps|
  {
    ps[a].LastActive() < ps[b].LastActive() || (ps[a].LastActive() == ps[b].LastActive() && a < b)
  }

  /** The whole pool's slot holders, each once, least recently active first. */
  ghost predicate IsEvictionOrder(ps: seq<Project>, entry: Option<nat>, order: seq<nat>) {
    && (forall k :: 0 <= k < |order| ==> order[k] < |ps|)
    && (forall i :: 0 <= i < |ps| ==> (i in order <==> ps[i].HoldsSlot() && InPool(ps[i], entry)))
    && (forall j, k :: 0 <= j < k < |order| ==> Sooner(ps, order[j], order[k]))
  }

  /** v is the least recently active project of the pool that can be evicted. */
  ghost predicate IsVictim(ps: seq<Project>, entry: Option<nat>, now: int, v: nat) {
    && v < |ps| && Evictable(ps[v], now) && InPool(ps[v], entry)
    && forall i: nat :: i < |ps| && i != v && Evictable(ps[i], now) && InPool(ps[i], entry) ==> Sooner(ps, v, i)
  }

  /** Every slot holder of the pool is listed, in eviction order, with a reason it cannot be evicted. */
  ghost predicate AreBlockers(ps: seq<Project>, entry: Option<nat>, now: int, bs: seq<Blocker>) {
    && (forall k :: 0 <= k < |bs| ==> bs[k].name < |ps| && bs[k].reason == WhyHeld(ps[bs[k].name], now))
    && (forall i :: 0 <= i < |ps| && ps[i].HoldsSlot() && InPool(ps[i], entry) ==> exists k :: 0 <= k < |bs| && bs[k].name == i)
    && (forall j, k :: 0 <= j < k < |bs| ==> Sooner(ps, bs[j].name, bs[k].name))
    && (forall i :: 0 <= i < |ps| && InPool(ps[i], entry) ==> !Evictable(ps[i], now))
  }

  // ---- How much room a start needs, and how much can be made ----

  /** needed: evictions before both caps have room; fromEntry: those that must come from the start's own entry. */
  datatype Room = Room(needed: nat, fromEntry: nat, evictable: nat, evictableInEntry: nat)

  function Over(count: int, cap: nat): nat {
    if cap > 0 && count >= cap then count - cap + 1 else 0
  }

  function RoomFor(ps: seq<Project>, entry: Option<nat>, maxRunning: nat, entryCap: nat, now: int): Room {
    var fromEntry := if entry.Some? then Over(Tally(ps, Holding(entry)), entryCap) else 0;
    Room(fromEntry + Over(Tally(ps, Holding(None)) - fromEntry, maxRunning), fromEntry,
         Tally(ps, EvictableIn(None, now)), Tally(ps, EvictableIn(entry, now)))
  }

  /** After so many evictions that many fewer are needed, the entry's own first. */
  predicate Progress(r: Room, cur: Room, evictions: nat) {
    && cur.needed == r.needed - evictions && cur.evictable == r.evictable - evictions
    && (evictions < r.fromEntry ==> cur.fromEntry == r.fromEntry - evictions
                                    && cur.evictableInEntry == r.evictableInEntry - evictions)
    && (evictions >= r.fromEntry ==> cur.fromEntry == 0 && r.evictableInEntry >= r.fromEntry)
  }

  /** Two evictions or fewer make the room, and there are projects to evict. */
  predicate CanStart(r: Room) {
    r.needed < EVICTION_ATTEMPTS && r.fromEntry <= r.evictableInEntry && r.needed <= r.evictable
  }

  /** Three evictions succeed and are not enough. */
  predicate RunsOut(r: Room) {
    && r.needed >= EVICTION_ATTEMPTS && r.evictable >= EVICTION_ATTEMPTS
    && (r.fromEntry <= r.evictableInEntry || r.evictableInEntry >= EVICTION_ATTEMPTS)
  }

  lemma Verdict(r: Room, cur: Room, k: nat)
    requires Progress(r, cur, k) && k <= EVICTION_ATTEMPTS && cur.fromEntry <= cur.needed
    ensures cur.needed == 0 && k < EVICTION_ATTEMPTS ==> CanStart(r) && !RunsOut(r) && k == r.needed
    ensures k < EVICTION_ATTEMPTS && cur.needed > 0 && (if cur.fromEntry > 0 then cur.evictableInEntry == 0 else cur.evictable == 0)
      ==> !CanStart(r) && !RunsOut(r)
    ensures k == EVICTION_ATTEMPTS ==> !CanStart(r) && RunsOut(r)
  {
  }

  lemma {:induction false} TallyUpdate(ps: seq<Project>, v: nat, p: Project, f: Project -> bool)
    requires v < |ps|
    ensures Tally(ps[v := p], f) == Tally(ps, f) - (if f(ps[v]) then 1 else 0) + (if f(p) then 1 else 0)
  {
    var n := |ps| - 1;
    if v == n {
      assert ps[v := p][..n] == ps[..n];
    } else {
      TallyUpdate(ps[..n], v, p, f);
      assert ps[v := p][..n] == ps[..n][v := p];
    }
  }

  lemma {:induction false} TallyZero(ps: seq<Project>, f: Project -> bool)
    requires forall i :: 0 <= i < |ps| ==> !f(ps[i])
    ensures Tally(ps, f) == 0
  {
    if ps != [] {
      TallyZero(ps[..|ps| - 1], f);
    }
  }

  lemma {:induction false} TallyPositive(ps: seq<Project>, f: Project -> bool) returns (i: nat)
    requires Tally(ps, f) > 0
    ensures i < |ps| && f(ps[i])
  {
    if f(ps[|ps| - 1]) {
      return |ps| - 1;
    }
    i := TallyPositive(ps[..|ps| - 1], f);
  }

  /** An eviction frees one slot and uses up one evictable project, in every pool the victim belongs to. */
  lemma EvictionCounts(ps: seq<Project>, v: nat, entry: Option<nat>, now: int)
    requires v < |ps| && Evictable(ps[v], now)
    ensures var q, n := ps[v := Evicted(ps[v])], if InPool(ps[v], entry) then 1 else 0;
      Tally(q, Holding(entry)) == Tally(ps, Holding(entry)) - n
      && Tally(q, EvictableIn(entry, now)) == Tally(ps, EvictableIn(entry, now)) - n
  {
    TallyUpdate(ps, v, Evicted(ps[v]), Holding(entry));
    TallyUpdate(ps, v, Evicted(ps[v]), EvictableIn(entry, now));
  }

  lemma EvictionProgress(ps: seq<Project>, v: nat, entry: Option<nat>, maxRunning: nat, entryCap: nat, now: int,
                         r: Room, k: nat)
    requires v < |ps| && Evictable(ps[v], now)
    requires var cur := RoomFor(ps, entry, maxRunning, entryCap, now);
      Progress(r, cur, k) && cur.needed > 0 && (cur.fromEntry > 0 ==> InPool(ps[v], entry))
    ensures Progress(r, RoomFor(ps[v := Evicted(ps[v])], entry, maxRunning, entryCap, now), k + 1)
  {
    EvictionCounts(ps, v, None, now);
    EvictionCounts(ps, v, entry, now);
  }

  lemma ClaimCounts(ps: seq<Project>, st: nat, p: Project, entry: Option<nat>)
    requires st < |ps| && !ps[st].HoldsSlot()
    ensures Tally(ps[st := p], Holding(None)) <= Tally(ps, Holding(None)) + 1
    ensures Tally(ps[st := p], Holding(entry)) <= Tally(ps, Holding(entry)) + 1
  {
    TallyUpdate(ps, st, p, Holding(None));
    TallyUpdate(ps, st, p, Holding(entry));
  }

  lemma {:induction false} TallyAll(ps: seq<Project>, f: Project -> bool)
    requires forall i :: 0 <= i < |ps| ==> f(ps[i])
    ensures Tally(ps, f) == |ps|
  {
    if ps != [] {
      TallyAll(ps[..|ps| - 1], f);
    }
  }

  /** A cap lowered under the running servers: with three or more to go, the three attempts are used up and nothing starts. */
  lemma LoweredCapRunsOut(running: nat, now: int)
    requires running >= 3 && now >= 0
    ensures var p := Project(Running, 0, false, QUIET, None);
      var ps := seq(running, _ => p) + [p.(phase := Stopped)];
      RunsOut(RoomFor(ps, None, 1, 0, now))
  {
    var p := Project(Running, 0, false, QUIET, None);
    var up := seq(running, _ => p);
    var ps := up + [p.(phase := Stopped)];
    assert ps[..|ps| - 1] == up;
    TallyAll(up, Holding(None));
    TallyAll(up, EvictableIn(None, now));
  }

  /** qs is ps after so many evictions under one clock, each of them for a start in entry that is still short of room. */
  ghost predicate MadeRoom(ps: seq<Project>, qs: seq<Project>, entry: Option<nat>, maxRunning: nat, entryCap: nat, now: int,
                           evictions: nat)
    decreases evictions
  {
    if evictions == 0 then qs == ps
    else exists mid, v | MadeRoom(ps, mid, entry, maxRunning, entryCap, now, evictions - 1) ::
      && RoomFor(mid, entry, maxRunning, entryCap, now).needed > 0
      && IsVictim(mid, if RoomFor(mid, entry, maxRunning, entryCap, now).fromEntry > 0 then entry else None, now, v)
      && qs == mid[v := Evicted(mid[v])]
  }

  /** As if no stop had armed a gate: what status goes by. */
  function Ungated(ps: seq<Project>): seq<Project> {
    seq(|ps|, i requires 0 <= i < |ps| => ps[i].(act := ps[i].act.(gate := None)))
  }

  // ---- What that comes to, field by field ----

  lemma SoonerIsByUse(ps: seq<Project>, a: nat, b: nat)
    requires a < |ps| && b < |ps| && a != b
    ensures Sooner(ps, a, b) <==>
      exists t | t in [ps[b].startedAt, ps[b].act.lastActivity] ::
        && t >= ps[a].startedAt && t >= ps[a].act.lastActivity
        && ((t > ps[a].startedAt && t > ps[a].act.lastActivity) || a < b)
  {
    assert ps[b].LastActive() in [ps[b].startedAt, ps[b].act.lastActivity];
  }

  /**
   An eviction takes v exactly if v is one of the pool that runs, is not always on, has nothing in flight or open, no
   lease and no stop of its own, and each other such project was used at some time no earlier than v was ever, and
   later or with a later name.
   */
  lemma VictimExactly(ps: seq<Project>, entry: Option<nat>, now: int, v: nat)
    requires v < |ps|
    ensures IsVictim(ps, entry, now, v) <==>
      && ps[v].phase == Running && !ps[v].alwaysOn && ps[v].act.inflight <= 0 && ps[v].act.persistent <= 0
      && ps[v].act.leaseUntil <= now && ps[v].act.gate == None && (entry == None || ps[v].entry == entry)
      && forall i: nat ::
           (&& i < |ps| && i != v && ps[i].phase == Running && !ps[i].alwaysOn && ps[i].act.inflight <= 0
            && ps[i].act.persistent <= 0 && ps[i].act.leaseUntil <= now && ps[i].act.gate == None
            && (entry == None || ps[i].entry == entry)) ==>
             exists t | t in [ps[i].startedAt, ps[i].act.lastActivity] ::
               && t >= ps[v].startedAt && t >= ps[v].act.lastActivity
               && ((t > ps[v].startedAt && t > ps[v].act.lastActivity) || v < i)
  {
    forall i: nat | i < |ps| && i != v
      ensures Sooner(ps, v, i) <==>
        exists t | t in [ps[i].startedAt, ps[i].act.lastActivity] ::
          && t >= ps[v].startedAt && t >= ps[v].act.lastActivity
          && ((t > ps[v].startedAt && t > ps[v].act.lastActivity) || v < i)
    {
      SoonerIsByUse(ps, v, i);
    }
  }

  /** The order of eviction lists exactly the starting and running projects of the pool, in the order of their last use. */
  lemma OrderIsByUse(ps: seq<Project>, entry: Option<nat>, order: seq<nat>)
    requires IsEvictionOrder(ps, entry, order)
    ensures forall i: nat :: i < |ps| ==>
      (i in order <==> (ps[i].phase == Running || ps[i].phase == Starting) && (entry == None || ps[i].entry == entry))
    ensures forall j, k :: 0 <= j < k < |order| ==>
      var a, b := order[j], order[k];
      && a < |ps| && b < |ps|
      && exists t | t in [ps[b].startedAt, ps[b].act.lastActivity] ::
           && t >= ps[a].startedAt && t >= ps[a].act.lastActivity
           && ((t > ps[a].startedAt && t > ps[a].act.lastActivity) || a < b)
  {
    forall j, k | 0 <= j < k < |order|
      ensures var a, b := order[j], order[k];
        exists t | t in [ps[b].startedAt, ps[b].act.lastActivity] ::
          && t >= ps[a].startedAt && t >= ps[a].act.lastActivity
          && ((t > ps[a].startedAt && t > ps[a].act.lastActivity) || a < b)
    {
      SoonerIsByUse(ps, order[j], order[k]);
    }
  }

  lemma MadeNone(ps: seq<Project>, entry: Option<nat>, maxRunning: nat, entryCap: nat, now: int)
    ensures var r := RoomFor(ps, entry, maxRunning, entryCap, now);
      MadeRoom(ps, ps, entry, maxRunning, entryCap, now, 0) && Progress(r, r, 0)
  {
  }

  lemma MakesRoom(ps: seq<Project>, mid: seq<Project>, entry: Option<nat>, maxRunning: nat, entryCap: nat, now: int,
                  r: Room, n: nat, v: nat)
    requires MadeRoom(ps, mid, entry, maxRunning, entryCap, now, n)
    requires var cur := RoomFor(mid, entry, maxRunning, entryCap, now);
      Progress(r, cur, n) && cur.needed > 0 && IsVictim(mid, if cur.fromEntry > 0 then entry else None, now, v)
    ensures v < |mid| && mid[v].phase == Running
    ensures MadeRoom(ps, mid[v := Evicted(mid[v])], entry, maxRunning, entryCap, now, n + 1)
    ensures Progress(r, RoomFor(mid[v := Evicted(mid[v])], entry, maxRunning, entryCap, now), n + 1)
  {
    EvictionProgress(mid, v, entry, maxRunning, entryCap, now, r, n);
  }

  lemma NothingToEvict(ps: seq<Project>, entry: Option<nat>, now: int, bs: seq<Blocker>)
    requires AreBlockers(ps, entry, now, bs)
    ensures Tally(ps, EvictableIn(entry, now)) == 0
    ensures Tally(ps, Holding(entry)) > 0 ==> bs != []
  {
    TallyZero(ps, EvictableIn(entry, now));
    if Tally(ps, Holding(entry)) > 0 {
      var i := TallyPositive(ps, Holding(entry));
    }
  }

  /** A refusal names every starting and running project of the pool, and each for what keeps it: the first of these that holds. */
  lemma BlockersSayWhy(ps: seq<Project>, entry: Option<nat>, now: int, bs: seq<Blocker>)
    requires AreBlockers(ps, entry, now, bs)
    ensures forall i: nat :: i < |ps| && (ps[i].phase == Running || ps[i].phase == Starting) && (entry == None || ps[i].entry == entry) ==>
      exists k :: 0 <= k < |bs| && bs[k].name == i
    ensures forall k :: 0 <= k < |bs| && bs[k].name < |ps| && ps[bs[k].name].phase == Running && (entry == None || ps[bs[k].name].entry == entry) ==>
      var p := ps[bs[k].name];
      if p.alwaysOn then bs[k].reason == AlwaysOn
      else if p.act.inflight > 0 then bs[k].reason == InFlight(p.act.inflight)
      else if p.act.persistent > 0 then bs[k].reason == WebSockets(p.act.persistent)
      else if p.act.leaseUntil > now then bs[k].reason == LeasedUntil(p.act.leaseUntil)
      else bs[k].reason == BeingIdleStopped && p.act.gate.Some?
    ensures forall k :: 0 <= k < |bs| && bs[k].name < |ps| && ps[bs[k].name].phase == Starting ==>
      bs[k].reason == if ps[bs[k].name].alwaysOn then AlwaysOn else StillStarting
  {
  }

  function Those(ps: seq<Project>, f: Project -> bool): set<nat> {
    set i: nat | i < |ps| && f(ps[i])
  }

  lemma ThoseInFront(ps: seq<Project>, f: Project -> bool)
    requires ps != []
    ensures var last := |ps| - 1; Those(ps, f) == if f(ps[last]) then Those(ps[..last], f) + {last} else Those(ps[..last], f)
  {
  }

  lemma {:induction false} TallyIsCount(ps: seq<Project>, f: Project -> bool)
    ensures Tally(ps, f) == |Those(ps, f)|
  {
    if ps == [] {
      assert Those(ps, f) == {};
    } else {
      var front, last := ps[..|ps| - 1], |ps| - 1;
      TallyIsCount(front, f);
      ThoseInFront(ps, f);
      assert last !in Those(front, f);
      hide Those;
    }
  }

  function Slots(ps: seq<Project>, entry: Option<nat>): set<nat> {
    set i: nat | i < |ps| && (ps[i].phase == Running || ps[i].phase == Starting) && (entry == None || ps[i].entry == entry)
  }

  lemma SlotsCount(ps: seq<Project>, entry: Option<nat>)
    ensures Tally(ps, Holding(entry)) == |Slots(ps, entry)|
  {
    TallyIsCount(ps, Holding(entry));
    assert Those(ps, Holding(entry)) == Slots(ps, entry);
  }

  /**
   The room a start needs: none while the slots taken, of all and of its entry, are fewer than the caps that are set;
   else as many evictions as it takes to get below both, of the entry's own projects as many as its cap needs.
   */
  lemma RoomIsCounted(ps: seq<Project>, entry: Option<nat>, maxRunning: nat, entryCap: nat, now: int)
    ensures var r, taken, own := RoomFor(ps, entry, maxRunning, entryCap, now), |Slots(ps, None)|, |Slots(ps, entry)|;
      && (r.fromEntry > 0 <==> entry.Some? && entryCap > 0 && own >= entryCap)
      && (r.fromEntry > 0 ==> own - r.fromEntry == entryCap - 1)
      && (r.needed > r.fromEntry <==> maxRunning > 0 && taken - r.fromEntry >= maxRunning)
      && (r.needed > r.fromEntry ==> taken - r.needed == maxRunning - 1)
      && r.needed >= r.fromEntry
      && r.evictable == |set i: nat | i < |ps| && Evictable(ps[i], now)|
      && r.evictableInEntry == |set i: nat | i < |ps| && Evictable(ps[i], now) && (entry == None || ps[i].entry == entry)|
  {
    SlotsCount(ps, None);
    SlotsCount(ps, entry);
    TallyIsCount(ps, EvictableIn(None, now));
    TallyIsCount(ps, EvictableIn(entry, now));
    assert Those(ps, EvictableIn(None, now)) == set i: nat | i < |ps| && Evictable(ps[i], now);
    assert Those(ps, EvictableIn(entry, now))
        == set i: nat | i < |ps| && Evictable(ps[i], now) && (entry == None || ps[i].entry == entry);
  }

  // ---- The code ----

  class Table {
    // The registered projects in name order.
    var projects: seq<Project>

    method CountRunning(entry: Option<nat>) returns (ofAll: nat, ofEntry: nat)
      ensures ofAll == Tally(projects, Holding(None))
      ensures entry.Some? ==> ofEntry == Tally(projects, Holding(entry))
      ensures entry == None ==> ofEntry == 0
    {
      ofAll, ofEntry := 0, 0;
      for i := 0 to |projects|
        invariant ofAll == Tally(projects[..i], Holding(None))
        invariant entry.Some? ==> ofEntry == Tally(projects[..i], Holding(entry))
        invariant entry == None ==> ofEntry == 0
      {
        assert projects[..i + 1][..i] == projects[..i];
        if projects[i].HoldsSlot() {
          ofAll := ofAll + 1;
          if entry.Some? && projects[i].entry == entry {
            ofEntry := ofEntry + 1;
          }
        }
      }
      assert projects[..|projects|] == projects;
    }

    /** Collects the pool's slot holders, keeping the list stably sorted by last activity. */
    method EvictionOrder(entry: Option<nat>) returns (order: seq<nat>)
      ensures IsEvictionOrder(projects, entry, order)
    {
      order := [];
      for i := 0 to |projects|
        invariant forall k :: 0 <= k < |order| ==> order[k] < i
        invariant forall n :: 0 <= n < i ==> (n in order <==> projects[n].HoldsSlot() && InPool(projects[n], entry))
        invariant forall j, k :: 0 <= j < k < |order| ==> Sooner(projects, order[j], order[k])
      {
        if projects[i].HoldsSlot() && InPool(projects[i], entry) {
          order := InsertSorted(order, i);
        }
      }
    }

    method InsertSorted(order: seq<nat>, i: nat) returns (out: seq<nat>)
      requires i < |projects| && forall k :: 0 <= k < |order| ==> order[k] < i
      requires forall j, k :: 0 <= j < k < |order| ==> Sooner(projects, order[j], order[k])
      ensures forall k :: 0 <= k < |out| ==> out[k] <= i
      ensures forall n :: n in out <==> n == i || n in order
      ensures forall j, k :: 0 <= j < k < |out| ==> Sooner(projects, out[j], out[k])
    {
      var at := |order|;
      while at > 0 && projects[i].LastActive() < projects[order[at - 1]].LastActive()
        invariant 0 <= at <= |order|
        invariant forall k :: at <= k < |order| ==> projects[i].LastActive() < projects[order[k]].LastActive()
      {
        at := at - 1;
      }
      out := order[..at] + [i] + order[at..];
    }

    /** Stops the least recently active evictable project of the pool, or says what holds each slot. */
    method Evict(entry: Option<nat>, now: int) returns (victim: Option<nat>, blockers: seq<Blocker>)
      modifies this
      ensures victim.Some? ==> IsVictim(old(projects), entry, now, victim.value)
      ensures victim.Some? ==> projects == old(projects)[victim.value := Evicted(old(projects)[victim.value])] && blockers == []
      ensures victim.Some? ==>
        victim.value < |projects| && projects[victim.value].phase == Stopping && projects[victim.value].act.gate.Some?
      ensures victim == None ==> projects == old(projects) && AreBlockers(projects, entry, now, blockers)
    {
      var order := EvictionOrder(entry);
      blockers := [];
      for n := 0 to |order|
        invariant projects == old(projects) && |blockers| == n
        invariant forall k :: 0 <= k < n ==> blockers[k].name == order[k] && !Evictable(projects[order[k]], now)
        invariant forall k :: 0 <= k < n ==> blockers[k].reason == WhyHeld(projects[order[k]], now)
      {
        var c := order[n];
        assert c in order;
        var reason := BlockReason(projects[c], now);
        if reason.Some? {
          blockers := blockers + [Blocker(c, reason.value)];
        } else if projects[c].act.gate.Some? {
          blockers := blockers + [Blocker(c, BeingIdleStopped)];
        } else {
          projects := projects[c := Evicted(projects[c])];
          return Some(c), [];
        }
      }
      victim := None;
      forall i | 0 <= i < |projects| && projects[i].HoldsSlot() && InPool(projects[i], entry)
        ensures exists k :: 0 <= k < |blockers| && blockers[k].name == i
      {
        var k :| 0 <= k < |order| && order[k] == i;
        assert blockers[k].name == i;
      }
    }

    /**
     One reservation attempt with the lock held. It starts the project exactly when two
     evictions or fewer make the room it needs, and is refused exactly when some eviction it
     needs, among the first three, finds nothing to evict. When three or more are needed and
     three succeed, it ends with neither: no start, and no refusal to report.
     */
    method TryReserve(st: nat, maxRunning: nat, entryCap: nat, now: int) returns (o: Outcome)
      requires st < |projects| && (entryCap > 0 ==> projects[st].entry.Some?)
      modifies this
      ensures old(projects[st].phase == Running || projects[st].phase == Starting || projects[st].phase == Stopping) ==>
        o == Started && projects == old(projects)
      ensures old(projects[st].phase == Stopped || projects[st].phase == Failed) ==>
        var r := old(RoomFor(projects, projects[st].entry, maxRunning, entryCap, now));
        (o == Started <==> CanStart(r)) && (o == Neither <==> RunsOut(r))
      ensures o.Refused? ==>
        var entry := old(projects)[st].entry;
        var pool := if RoomFor(projects, entry, maxRunning, entryCap, now).fromEntry > 0 then entry else None;
        o.blockers != [] && AreBlockers(projects, pool, now, o.blockers)
      ensures var entry := old(projects)[st].entry;
        && (o.Refused? ==> exists n: nat ::
              n < EVICTION_ATTEMPTS && MadeRoom(old(projects), projects, entry, maxRunning, entryCap, now, n))
        && (o == Neither ==> MadeRoom(old(projects), projects, entry, maxRunning, entryCap, now, EVICTION_ATTEMPTS))
        && (o == Started && old(projects[st].phase == Stopped || projects[st].phase == Failed) ==>
              && st < |projects|
              && MadeRoom(old(projects), projects[st := old(projects)[st]], entry, maxRunning, entryCap, now,
                          old(RoomFor(projects, projects[st].entry, maxRunning, entryCap, now).needed)))
      ensures o == Started && old(projects[st].phase == Stopped || projects[st].phase == Failed) ==>
        && st < |projects| && projects[st] == old(projects)[st].(phase := Starting)
        && (maxRunning > 0 ==> Tally(projects, Holding(None)) <= maxRunning)
        && (entryCap > 0 ==> Tally(projects, Holding(projects[st].entry)) <= entryCap)
    {
      if projects[st].phase == Running || projects[st].phase == Starting || projects[st].phase == Stopping {
        return Started;
      }
      if maxRunning == 0 && entryCap == 0 {
        projects := projects[st := projects[st].(phase := Starting)];
        return Started;
      }
      o := ReserveUnderCaps(st, maxRunning, entryCap, now);
    }

    /** The counting and evicting loop of TryReserve. */
    method ReserveUnderCaps(st: nat, maxRunning: nat, entryCap: nat, now: int) returns (o: Outcome)
      requires st < |projects| && !projects[st].HoldsSlot() && !projects[st].phase.Stopping?
      requires entryCap > 0 ==> projects[st].entry.Some?
      modifies this
      ensures var r := old(RoomFor(projects, projects[st].entry, maxRunning, entryCap, now));
        (o == Started <==> CanStart(r)) && (o == Neither <==> RunsOut(r))
      ensures o.Refused? ==>
        var entry := old(projects)[st].entry;
        var pool := if RoomFor(projects, entry, maxRunning, entryCap, now).fromEntry > 0 then entry else None;
        o.blockers != [] && AreBlockers(projects, pool, now, o.blockers)
      ensures var entry := old(projects)[st].entry;
        && (o.Refused? ==> exists n: nat ::
              n < EVICTION_ATTEMPTS && MadeRoom(old(projects), projects, entry, maxRunning, entryCap, now, n))
        && (o == Neither ==> MadeRoom(old(projects), projects, entry, maxRunning, entryCap, now, EVICTION_ATTEMPTS))
        && (o == Started ==>
              && st < |projects|
              && MadeRoom(old(projects), projects[st := old(projects)[st]], entry, maxRunning, entryCap, now,
                          old(RoomFor(projects, projects[st].entry, maxRunning, entryCap, now).needed)))
      ensures o == Started ==>
        && st < |projects| && projects[st] == old(projects)[st].(phase := Starting)
        && (maxRunning > 0 ==> Tally(projects, Holding(None)) <= maxRunning)
        && (entryCap > 0 ==> Tally(projects, Holding(projects[st].entry)) <= entryCap)
    {
      hide MadeRoom, IsVictim, AreBlockers, Progress, CanStart, RunsOut;
      var entry := projects[st].entry;
      MadeNone(projects, entry, maxRunning, entryCap, now);
      ghost var r := RoomFor(projects, entry, maxRunning, entryCap, now);
      for attempt := 0 to EVICTION_ATTEMPTS
        invariant st < |projects| && projects[st] == old(projects)[st]
        invariant Progress(r, RoomFor(projects, entry, maxRunning, entryCap, now), attempt)
        invariant MadeRoom(old(projects), projects, entry, maxRunning, entryCap, now, attempt)
      {
        ghost var before := projects;
        ghost var cur := RoomFor(projects, entry, maxRunning, entryCap, now);
        Verdict(r, cur, attempt);
        var ofAll, ofEntry := CountRunning(entry);
        var needAll, needEntry := maxRunning > 0 && ofAll >= maxRunning, entryCap > 0 && ofEntry >= entryCap;
        if !needAll && !needEntry {
          ClaimCounts(projects, st, projects[st].(phase := Starting), entry);
          projects := projects[st := projects[st].(phase := Starting)];
          assert projects[st := before[st]] == before;
          return Started;
        }
        assert cur.needed > 0 && (needEntry <==> cur.fromEntry > 0);
        var pool := if needEntry then entry else None;
        var victim, blockers := Evict(pool, now);
        if victim == None {
          NothingToEvict(projects, pool, now, blockers);
          return Refused(blockers);
        }
        MakesRoom(old(projects), before, entry, maxRunning, entryCap, now, r, attempt, victim.value);
      }
      Verdict(r, RoomFor(projects, entry, maxRunning, entryCap, now), EVICTION_ATTEMPTS);
      return Neither;
    }

    /** What status reports: the first project in eviction order that nothing blocks. */
    method NextEviction(now: int) returns (next: Option<nat>)
      ensures next.Some? ==> IsVictim(Ungated(projects), None, now, next.value)
      ensures next == None ==> forall i: nat :: i < |projects| ==> !IsVictim(Ungated(projects), None, now, i)
      ensures (forall i :: 0 <= i < |projects| ==> projects[i].act.gate == None) ==> Ungated(projects) == projects
    {
      var order := EvictionOrder(None);
      for n := 0 to |order|
        invariant forall k :: 0 <= k < n ==> BlockReason(projects[order[k]], now).Some?
      {
        assert order[n] in order;
        if BlockReason(projects[order[n]], now) == None {
          return Some(order[n]);
        }
      }
      return None;
    }
  }

  /** Eviction order has one head, so what status names is what an eviction takes. */
  lemma VictimIsUnique(ps: seq<Project>, entry: Option<nat>, now: int, v: nat, w: nat)
    requires IsVictim(ps, entry, now, v) && IsVictim(ps, entry, now, w)
    ensures v == w
  {
  }
}
