/**
 Everything that reloads, restarts, drops and requests do to listeners, table and records, one operation
 at a time and in any order: memberships are counted right, and no room is asked for that the code
 does not look for.
 */
module Conservation {
  import opened Options
  import opened Config
  import opened Routing
  import opened Rest
  import opened Teardown
  import opened Rebuild
  import opened Linking
  import opened Dynamic

  /** The daemon; the records that whoever holds the reload lock is replacing in place; and those a reload has taken off the table. */
  datatype Sys = Sys(world: World, swapping: set<nat>, leaving: set<nat>)

  datatype Op =
    // A reload, or a restart, which exclude each other.
    | Put(project: Project, tracker: nat)
    | Claim(name: string)
    | Swap(project: Project, tracker: nat, id: nat)
    | Collect(name: string)
    | Bind(listed: Entry)
    | Unbind(name: string)
    // They and drops retire; the end of a drop deletes the row.
    | Retire(id: nat, keep: bool)
    | Forget(id: nat)
    // A request, whose resolver knows its entry by itself.
    | Ask(es: EntryState, project: Project, tracker: nat)

  const IDLE: Sys := Sys(EMPTY, {}, {})

  predicate IsReplacement(s: Sys, p: Project, id: nat) {
    && id in s.swapping && id in s.world.objects && s.world.objects[id].retired
    && p.name == s.world.objects[id].project.name && SameRoute(s.world.objects[id].project, p)
  }

  /** The name is free, and the entry is in the table, or was. */
  predicate MayAsk(w: World, es: EntryState, p: Project) {
    p.name !in w.states && IsWorktree(es.entry, p) && (IsBound(w, es) || IsFormer(w, es))
  }

  /** A reload replaces static projects in place; a restart would replace an entry's. */
  ghost predicate StaticSwaps(s: Sys) {
    forall id :: id in s.swapping && id in s.world.objects ==> !s.world.objects[id].dynamic
  }

  /**
   A replacement in place begins with the record the table holds, whose switch is suspended; it ends
   once that record is retired, whoever retired it and however. Only such a record is retired with
   its route kept. Any record may be retired at any time, however often. A reload takes any row off
   the table, and closes the listener of any entry, whoever is on it; no restart is under way then. A
   drop deletes its row, if it is still its own, once it has retired the record.
   */
  ghost predicate Enabled(s: Sys, op: Op) {
    var w := s.world;
    match op
    case Put(p, tracker) => Joins(w, p, None)
    case Claim(n) => n in w.states && w.states[n] in w.objects
    case Swap(p, tracker, id) => IsReplacement(s, p, id)
    case Collect(n) => n in w.states
    case Bind(e) => EntryAddr(e) !in w.listeners && e.name !in w.entries
    case Unbind(m) => m in w.entries && StaticSwaps(s)
    case Retire(id, keep) => id in w.objects && (keep ==> id in s.swapping)
    case Forget(id) => id in w.objects && w.objects[id].retired
    case Ask(es, p, tracker) => MayAsk(w, es, p)
  }

  function Replaced(w: World, p: Project, tracker: nat, id: nat): World
    requires id in w.objects
  {
    Commissioned(w, p, tracker, w.objects[id].entry, Some(id))
  }

  ghost function Apply(s: Sys, op: Op): Sys
    requires Enabled(s, op)
  {
    var w := s.world;
    match op
    case Put(p, tracker) => s.(world := Commissioned(w, p, tracker, None, None))
    case Claim(n) => s.(world := Suspended(w, w.states[n]), swapping := s.swapping + {w.states[n]})
    case Swap(p, tracker, id) => s.(world := Replaced(w, p, tracker, id), swapping := s.swapping - {id})
    case Collect(n) => s.(world := w.(states := w.states - {n}), leaving := s.leaving + {w.states[n]})
    case Bind(e) => s.(world := EntryBound(w, e))
    case Unbind(m) => s.(world := EntryUnbound(w, m))
    case Retire(id, keep) => s.(world := Retired(w, id, keep))
    case Forget(id) => s.(world := Unlisted(w, w.objects[id].project.name, id))
    case Ask(es, p, tracker) => s.(world := RegisteredFor(w, es, p, tracker))
  }

  ghost predicate Feasible(s: Sys, ops: seq<Op>)
    decreases |ops|
  {
    ops == [] || (Enabled(s, ops[0]) && Feasible(Apply(s, ops[0]), ops[1..]))
  }

  ghost function Exec(s: Sys, ops: seq<Op>): Sys
    requires Feasible(s, ops)
    decreases |ops|
  {
    if ops == [] then s else Exec(Apply(s, ops[0]), ops[1..])
  }

  // ---- The invariant ----

  /** The record holds its membership, or has none and can never release one. */
  predicate Owning(w: World, id: nat) {
    HoldsRoute(w, id) || OffRoute(w, id)
  }

  /** Still to be retired, or still to be replaced. */
  predicate InUse(s: Sys, id: nat) {
    id in s.world.objects && (!s.world.objects[id].retired || id in s.swapping)
  }

  ghost predicate UsedOwn(s: Sys) {
    forall id :: InUse(s, id) ==> Owning(s.world, id)
  }

  ghost predicate RowsOwn(w: World) {
    forall n :: n in w.states ==>
      w.states[n] in w.objects && w.objects[w.states[n]].project.name == n && Owning(w, w.states[n])
  }

  ghost predicate HeldAreUsed(s: Sys) {
    forall sw :: sw in s.world.serving ==> InUse(s, s.world.serving[sw].id)
  }

  ghost predicate Numbered(s: Sys) {
    && (forall id :: id in s.world.objects ==>
          var st := s.world.objects[id]; id < s.world.nextId && st.sw < s.world.nextId && (st.dynamic <==> st.entry.Some?))
    && (forall id :: id in s.swapping ==> id in s.world.objects)
    && (forall sw :: sw in s.world.switches && s.world.switches[sw].Some? ==> s.world.switches[sw].value < s.world.nextId)
  }

  /** A switch that is routed serves the record that holds the route, or nobody while that is being replaced. */
  ghost predicate Switched(s: Sys) {
    forall sw :: sw in s.world.serving ==>
      sw in s.world.switches
      && s.world.switches[sw] == if s.world.serving[sw].id in s.swapping then None else Some(s.world.serving[sw].id)
  }

  /** What a reload has taken off the table stays off. */
  ghost predicate Gone(s: Sys) {
    forall id :: id in s.leaving ==> id in s.world.objects && !Listed(s.world, id)
  }

  ghost predicate Conserved(s: Sys) {
    Linked(s.world) && UsedOwn(s) && RowsOwn(s.world) && HeldAreUsed(s) && Numbered(s) && Switched(s) && Gone(s)
  }

  // ---- A new record ----

  /** Whoever owned its route still does, when a new record is installed on an unused switch, or on that of a record replaced. */
  lemma OwningAfter(w: World, v: World, st: State, id: nat)
    requires ServingOk(w) && Installed(w, v, st) && Owning(w, id) && id != w.nextId && w.objects[id].sw < w.nextId
    requires st.sw in w.serving ==> w.serving[st.sw].id != id
    ensures Owning(v, id)
  {
  }

  lemma InstalledOwns(w: World, v: World, st: State)
    requires Installed(w, v, st)
    ensures Owning(v, w.nextId)
  {
  }

  /** from is the record being replaced, if any: the one whose switch the new record takes over. */
  function Without(s: Sys, v: World, from: Option<nat>): Sys {
    s.(world := v, swapping := if from.Some? then s.swapping - {from.value} else s.swapping)
  }

  /** The record replaced is retired, and has the new one's name. */
  predicate MayFollow(w: World, st: State, from: Option<nat>) {
    from.Some? ==> from.value in w.objects && w.objects[from.value].retired && w.objects[from.value].project.name == st.project.name
  }

  lemma InstalledOwn(s: Sys, v: World, st: State, from: Option<nat>)
    requires ServingOk(s.world) && UsedOwn(s) && RowsOwn(s.world) && Numbered(s) && Installed(s.world, v, st)
    requires st.sw <= s.world.nextId && MayFollow(s.world, st, from)
    requires forall sw :: sw in s.world.serving && sw == st.sw ==> from == Some(s.world.serving[sw].id)
    ensures UsedOwn(Without(s, v, from)) && RowsOwn(v)
  {
    hide Owning;
    var w, t := s.world, Without(s, v, from);
    InstalledOwns(w, v, st);
    forall id | InUse(t, id)
      ensures Owning(v, id)
    {
      if id != w.nextId {
        assert InUse(s, id);
        OwningAfter(w, v, st, id);
      }
    }
    forall n | n in v.states && n != st.project.name
      ensures v.states[n] in v.objects && v.objects[v.states[n]].project.name == n && Owning(v, v.states[n])
    {
      OwningAfter(w, v, st, w.states[n]);
    }
  }

  lemma InstalledHeld(s: Sys, v: World, st: State, from: Option<nat>)
    requires HeldAreUsed(s) && Numbered(s) && Installed(s.world, v, st)
    requires forall sw :: sw in s.world.serving && from == Some(s.world.serving[sw].id) ==> sw == st.sw
    ensures HeldAreUsed(Without(s, v, from))
  {
    forall sw | sw in v.serving
      ensures InUse(Without(s, v, from), v.serving[sw].id)
    {
      assert sw in s.world.serving ==> InUse(s, s.world.serving[sw].id);
    }
  }

  lemma InstalledNumbers(s: Sys, v: World, st: State, from: Option<nat>)
    requires Numbered(s) && Installed(s.world, v, st) && st.sw <= s.world.nextId && (st.dynamic <==> st.entry.Some?)
    ensures Numbered(Without(s, v, from))
  {
  }

  lemma InstalledSwitches(s: Sys, v: World, st: State, from: Option<nat>)
    requires Switched(s) && Numbered(s) && Installed(s.world, v, st) && s.world.nextId !in s.world.serving
    requires s.world.nextId !in s.world.objects
    requires forall sw :: sw in s.world.serving && from == Some(s.world.serving[sw].id) ==> sw == st.sw
    ensures Switched(Without(s, v, from))
  {
  }

  /** A new row for a fresh record brings nobody back to the table. */
  lemma NewRowGone(s: Sys, v: World, st: State, from: Option<nat>)
    requires Gone(s) && Numbered(s) && v.objects == s.world.objects[s.world.nextId := st]
    requires v.states == s.world.states[st.project.name := s.world.nextId]
    ensures Gone(Without(s, v, from))
  {
    forall id | id in s.leaving
      ensures !Listed(v, id)
    {
      assert !Listed(s.world, id) && id < s.world.nextId;
    }
  }

  /** A project joining a listener, whether or not its hostname is free there. */
  lemma JoinConserves(s: Sys, p: Project, tracker: nat, entry: Option<nat>)
    requires Conserved(s) && Joins(s.world, p, entry)
    ensures Conserved(s.(world := Commissioned(s.world, p, tracker, entry, None)))
  {
    var w, v := s.world, Commissioned(s.world, p, tracker, entry, None);
    var st := State(p, tracker, w.nextId, Some(ListenAddr(p)), entry.Some?, entry, false);
    JoinKeeps(w, p, tracker, entry);
    AttachInstalls(w, p, tracker, entry);
    UnusedSwitch(w);
    hide Commissioned, ServingOk, EntriesOk, LinksOk, UsedOwn, RowsOwn, HeldAreUsed, Numbered, Switched, Gone, Joins;
    InstalledOwn(s, v, st, None);
    InstalledHeld(s, v, st, None);
    InstalledNumbers(s, v, st, None);
    InstalledSwitches(s, v, st, None);
    NewRowGone(s, v, st, None);
    assert Without(s, v, None) == s.(world := v);
  }

  lemma HoldingSwap(s: Sys, p: Project, tracker: nat, id: nat)
    requires Conserved(s) && IsReplacement(s, p, id) && HoldsRoute(s.world, id)
    ensures Conserved(Without(s, Replaced(s.world, p, tracker, id), Some(id)))
  {
    var w, v := s.world, Replaced(s.world, p, tracker, id);
    var prev := w.objects[id];
    var st := State(p, tracker, prev.sw, prev.bind, prev.entry.Some?, prev.entry, false);
    assert ServedOk(w, prev.sw);
    OneSwitchEach(w, prev.sw);
    UnusedSwitch(w);
    hide Commissioned, ServingOk, EntriesOk, LinksOk, UsedOwn, RowsOwn, HeldAreUsed, Numbered, Switched, Gone;
    InheritLinks(w, p, tracker, prev.sw);
    InheritInstalls(w, p, tracker, prev.entry, id);
    InstalledOwn(s, v, st, Some(id));
    InstalledHeld(s, v, st, Some(id));
    InstalledNumbers(s, v, st, Some(id));
    InstalledSwitches(s, v, st, Some(id));
    NewRowGone(s, v, st, Some(id));
  }

  // ---- A new record off every listener ----

  /** With no route to hand over, nothing but the table, the records and the switches changes. */
  lemma OffReplaced(w: World, p: Project, tracker: nat, id: nat)
    requires ServingOk(w) && OffRoute(w, id)
    ensures var v, prev, next := Replaced(w, p, tracker, id), w.objects[id], w.nextId;
      && id != next && next !in w.objects
      && v == w.(states := w.states[p.name := next], switches := v.switches, nextId := next + 1,
                 objects := w.objects[next := State(p, tracker, prev.sw, None, prev.entry.Some?, prev.entry, false)])
      && v.switches == w.switches[next := Some(next)][prev.sw := Some(next)]
  {
  }

  lemma SameOwning(w: World, v: World, id: nat)
    requires Owning(w, id) && v.serving == w.serving && id in v.objects && v.objects[id].(retired := false) == w.objects[id].(retired := false)
    ensures Owning(v, id)
  {
  }

  lemma OffOwns(w: World, id: nat)
    requires OffRoute(w, id)
    ensures Owning(w, id)
  {
  }

  /** v is w with a record more, which is off every listener, and its switches. */
  ghost predicate OneMoreOff(w: World, v: World, st: State) {
    && st.bind == None && st.sw !in w.serving && st.sw <= w.nextId && !st.retired && (st.dynamic <==> st.entry.Some?)
    && v == w.(states := w.states[st.project.name := w.nextId], objects := w.objects[w.nextId := st],
               switches := w.switches[w.nextId := Some(w.nextId)][st.sw := Some(w.nextId)], nextId := w.nextId + 1)
  }

  lemma OffOwn(s: Sys, v: World, st: State, from: Option<nat>)
    requires UsedOwn(s) && HeldAreUsed(s) && Numbered(s) && OneMoreOff(s.world, v, st)
    requires from.Some? ==> from.value in s.world.objects && s.world.objects[from.value].retired
    requires forall sw :: sw in s.world.serving ==> from != Some(s.world.serving[sw].id)
    ensures UsedOwn(Without(s, v, from)) && HeldAreUsed(Without(s, v, from))
  {
    hide Owning;
    var w, t := s.world, Without(s, v, from);
    OffOwns(v, w.nextId);
    forall m | InUse(t, m)
      ensures Owning(v, m)
    {
      if m != w.nextId {
        assert InUse(s, m);
        SameOwning(w, v, m);
      }
    }
    forall sw | sw in v.serving
      ensures InUse(t, v.serving[sw].id)
    {
      assert InUse(s, w.serving[sw].id);
    }
  }

  lemma OffRows(s: Sys, v: World, st: State)
    requires RowsOwn(s.world) && Numbered(s) && OneMoreOff(s.world, v, st)
    ensures RowsOwn(v)
  {
    hide Owning;
    OffOwns(v, s.world.nextId);
    forall n | n in v.states && n != st.project.name
      ensures v.states[n] in v.objects && v.objects[v.states[n]].project.name == n && Owning(v, v.states[n])
    {
      SameOwning(s.world, v, s.world.states[n]);
    }
  }

  lemma OffNumbers(s: Sys, v: World, st: State, from: Option<nat>)
    requires Numbered(s) && Switched(s) && OneMoreOff(s.world, v, st) && s.world.nextId !in s.world.serving
    requires forall sw :: sw in s.world.serving ==> from != Some(s.world.serving[sw].id)
    ensures Numbered(Without(s, v, from)) && Switched(Without(s, v, from))
  {
  }

  lemma OffLinked(w: World, v: World, st: State)
    requires Linked(w) && OneMoreOff(w, v, st)
    ensures Linked(v) && w.nextId !in w.serving && w.nextId !in w.objects
  {
    UnusedSwitch(w);
    hide EntriesOk, LinksOk;
    FrameLinks(w, v);
  }

  lemma OffGone(s: Sys, v: World, st: State, from: Option<nat>)
    requires Gone(s) && Numbered(s) && OneMoreOff(s.world, v, st)
    ensures Gone(Without(s, v, from))
  {
    NewRowGone(s, v, st, from);
  }

  lemma OffConserves(s: Sys, v: World, st: State, from: Option<nat>)
    requires Conserved(s) && OneMoreOff(s.world, v, st) && MayFollow(s.world, st, from)
    requires forall sw :: sw in s.world.serving ==> from != Some(s.world.serving[sw].id)
    ensures Conserved(Without(s, v, from))
  {
    hide ServingOk, EntriesOk, LinksOk, UsedOwn, RowsOwn, HeldAreUsed, Numbered, Switched, Gone, OneMoreOff;
    OffLinked(s.world, v, st);
    OffOwn(s, v, st, from);
    OffRows(s, v, st);
    OffNumbers(s, v, st, from);
    OffGone(s, v, st, from);
  }

  lemma OffSwap(s: Sys, p: Project, tracker: nat, id: nat)
    requires Conserved(s) && IsReplacement(s, p, id) && OffRoute(s.world, id)
    ensures Conserved(Without(s, Replaced(s.world, p, tracker, id), Some(id)))
  {
    var w, v := s.world, Replaced(s.world, p, tracker, id);
    var st := State(p, tracker, w.objects[id].sw, None, w.objects[id].entry.Some?, w.objects[id].entry, false);
    OffReplaced(w, p, tracker, id);
    NobodyServedAs(w, id);
    assert OneMoreOff(w, v, st);
    hide Conserved, Replaced, ServingOk;
    OffConserves(s, v, st, Some(id));
  }

  /** A replacement in place, whether or not there is still a route to take over. */
  lemma SwapKeeps(s: Sys, p: Project, tracker: nat, id: nat)
    requires Conserved(s) && IsReplacement(s, p, id)
    ensures Conserved(s.(world := Replaced(s.world, p, tracker, id), swapping := s.swapping - {id}))
  {
    assert InUse(s, id) && Owning(s.world, id);
    hide Conserved, Replaced;
    if HoldsRoute(s.world, id) {
      HoldingSwap(s, p, tracker, id);
    } else {
      OffSwap(s, p, tracker, id);
    }
  }

  /** A worktree, in time or late. */
  lemma AskKeeps(s: Sys, es: EntryState, p: Project, tracker: nat)
    requires Conserved(s) && MayAsk(s.world, es, p)
    ensures Conserved(s.(world := RegisteredFor(s.world, es, p, tracker)))
  {
    var w := s.world;
    if IsBound(w, es) {
      assert EntryOk(w, es.entry.name);
      assert RegisteredFor(w, es, p, tracker) == Commissioned(w, p, tracker, Some(es.id), None);
      hide Conserved, RegisteredFor, Commissioned;
      JoinConserves(s, p, tracker, Some(es.id));
    } else {
      var v := RegisteredFor(w, es, p, tracker);
      var st := State(p, tracker, w.nextId, None, true, Some(es.id), false);
      UnusedSwitch(w);
      assert v.switches == w.switches[w.nextId := Some(w.nextId)][w.nextId := Some(w.nextId)];
      assert OneMoreOff(w, v, st) && Without(s, v, None) == s.(world := v);
      hide Conserved, RegisteredFor;
      OffConserves(s, v, st, None);
    }
  }

  // ---- Retiring, and the rest ----

  lemma HolderHolds(s: Sys, sw: nat)
    requires Conserved(s) && sw in s.world.serving
    ensures InUse(s, s.world.serving[sw].id) && HoldsRoute(s.world, s.world.serving[sw].id)
  {
    assert ServedOk(s.world, sw);
  }

  /** Routes, rows and records are as they were, or rows are missing, or records marked; nobody on a listener has gone out of use. */
  ghost predicate Flagged(s: Sys, t: Sys) {
    && t.world.serving == s.world.serving && t.world.nextId >= s.world.nextId
    && (forall n :: n in t.world.states ==> n in s.world.states && t.world.states[n] == s.world.states[n])
    && (forall id :: id in t.world.objects <==> id in s.world.objects)
    && (forall id :: id in t.world.objects ==> t.world.objects[id].(retired := false) == s.world.objects[id].(retired := false))
    && (forall id :: id in t.swapping ==> id in t.world.objects)
    && (forall sw :: sw in t.world.switches && t.world.switches[sw].Some? ==>
          sw in s.world.switches && t.world.switches[sw] == s.world.switches[sw])
  }

  /** Whoever comes into use owns its route, and whoever is on a listener stays in use. */
  ghost predicate UseKept(s: Sys, t: Sys) {
    && (forall id :: InUse(t, id) ==> Owning(s.world, id))
    && (forall id :: InUse(s, id) && HoldsRoute(s.world, id) ==> InUse(t, id))
  }

  lemma SameUse(s: Sys, t: Sys)
    requires UsedOwn(s) && t.world.objects == s.world.objects && t.swapping == s.swapping
    ensures UseKept(s, t)
  {
    hide Owning, HoldsRoute;
    forall id | InUse(t, id)
      ensures Owning(s.world, id)
    {
      assert InUse(s, id);
    }
  }

  lemma MarkUse(s: Sys, t: Sys, id: nat)
    requires UsedOwn(s) && id in s.world.objects && t.swapping == s.swapping
    requires t.world.objects == s.world.objects[id := s.world.objects[id].(retired := true)]
    requires HoldsRoute(s.world, id) ==> id in s.swapping
    ensures UseKept(s, t)
  {
    hide Owning, HoldsRoute;
    forall m | InUse(t, m)
      ensures Owning(s.world, m)
    {
      assert InUse(s, m);
    }
  }

  lemma ClaimUse(s: Sys, t: Sys, id: nat)
    requires UsedOwn(s) && Owning(s.world, id) && t.world.objects == s.world.objects && t.swapping == s.swapping + {id}
    ensures UseKept(s, t)
  {
    hide Owning, HoldsRoute;
    forall m | InUse(t, m)
      ensures Owning(s.world, m)
    {
      assert m == id || InUse(s, m);
    }
  }

  lemma FlaggedKeeps(s: Sys, t: Sys)
    requires Conserved(s) && Linked(t.world) && Flagged(s, t) && Switched(t) && Gone(t) && UseKept(s, t)
    ensures Conserved(t)
  {
    hide Owning, Linked, Switched, Gone;
    forall id | id in s.world.objects && Owning(s.world, id)
      ensures Owning(t.world, id)
    {
      SameOwning(s.world, t.world, id);
    }
    forall sw | sw in t.world.serving
      ensures InUse(t, t.world.serving[sw].id)
    {
      assert Linked(s.world);
      HolderHolds(s, sw);
    }
  }

  /** Whoever is listed owns its route, so nobody else is on its switch. */
  lemma OnlyHolder(s: Sys, id: nat, sw: nat)
    requires Owning(s.world, id) && sw in s.world.serving && s.world.objects[id].sw == sw
    ensures s.world.serving[sw].id == id
  {
  }

  lemma ClaimSwitches(s: Sys, id: nat)
    requires Switched(s) && id in s.world.objects && Owning(s.world, id)
    requires forall sw :: sw in s.world.serving && s.world.serving[sw].id == id ==> s.world.objects[id].sw == sw
    ensures Switched(s.(world := Suspended(s.world, id), swapping := s.swapping + {id}))
  {
  }

  lemma SuspendLinks(w: World, id: nat)
    requires Linked(w) && id in w.objects
    ensures Linked(Suspended(w, id))
  {
    hide EntriesOk, LinksOk;
    FrameLinks(w, Suspended(w, id));
  }

  lemma ItsOwnSwitch(w: World, id: nat)
    requires ServingOk(w) && id in w.objects
    ensures forall sw :: sw in w.serving && w.serving[sw].id == id ==> w.objects[id].sw == sw
  {
    forall sw | sw in w.serving && w.serving[sw].id == id
      ensures w.objects[id].sw == sw
    {
      assert ServedOk(w, sw);
    }
  }

  lemma ClaimFlags(s: Sys, id: nat)
    requires Gone(s) && Numbered(s) && id in s.world.objects
    ensures var t := s.(world := Suspended(s.world, id), swapping := s.swapping + {id}); Flagged(s, t) && Gone(t)
  {
  }

  lemma ClaimKeeps(s: Sys, n: string)
    requires Conserved(s) && n in s.world.states && s.world.states[n] in s.world.objects
    ensures Conserved(s.(world := Suspended(s.world, s.world.states[n]), swapping := s.swapping + {s.world.states[n]}))
  {
    var id := s.world.states[n];
    var t := s.(world := Suspended(s.world, id), swapping := s.swapping + {id});
    SuspendLinks(s.world, id);
    ItsOwnSwitch(s.world, id);
    ClaimSwitches(s, id);
    ClaimUse(s, t, id);
    ClaimFlags(s, id);
    hide Linked, Owning, Switched, Gone, UseKept, UsedOwn, HeldAreUsed, RowsOwn, Flagged, Numbered;
    FlaggedKeeps(s, t);
  }

  lemma HolderOwns(w: World, id: nat)
    requires HoldsRoute(w, id)
    ensures Owning(w, id)
  {
  }

  lemma StillOwning(w: World, v: World, id: nat, st: State, m: nat)
    requires HoldsRoute(w, id) && Owning(w, m) && st == w.objects[id].(bind := None, retired := true)
    requires v.objects == w.objects[id := st] && v.serving == w.serving - {st.sw}
    ensures Owning(v, m)
  {
  }

  /** v is w without the route of id, which is retired. */
  ghost predicate LeftRoute(w: World, v: World, id: nat) {
    && HoldsRoute(w, id)
    && var st := w.objects[id].(bind := None, retired := true);
      v == w.(objects := w.objects[id := st], serving := w.serving - {st.sw}, listeners := v.listeners)
  }

  lemma WithoutRoute(s: Sys, v: World, id: nat)
    requires ServingOk(s.world) && UsedOwn(s) && RowsOwn(s.world) && HeldAreUsed(s) && LeftRoute(s.world, v, id)
    ensures UsedOwn(s.(world := v)) && RowsOwn(v) && HeldAreUsed(s.(world := v))
  {
    hide Owning;
    var t, st := s.(world := v), s.world.objects[id].(bind := None, retired := true);
    OneSwitchEach(s.world, st.sw);
    forall m | m in v.objects && Owning(s.world, m)
      ensures Owning(v, m)
    {
      StillOwning(s.world, v, id, st, m);
    }
    forall m | InUse(t, m)
      ensures Owning(v, m)
    {
      if m == id {
        HolderOwns(s.world, id);
      } else {
        assert InUse(s, m);
      }
    }
    forall sw | sw in v.serving
      ensures InUse(t, v.serving[sw].id)
    {
      assert InUse(s, s.world.serving[sw].id);
    }
  }

  lemma WithoutRouteRest(s: Sys, v: World, id: nat)
    requires Numbered(s) && Switched(s) && Gone(s) && LeftRoute(s.world, v, id)
    ensures Numbered(s.(world := v)) && Switched(s.(world := v)) && Gone(s.(world := v))
  {
  }

  lemma ReleaseKeeps(s: Sys, id: nat)
    requires Conserved(s) && HoldsRoute(s.world, id) && !s.world.objects[id].retired
    ensures Conserved(s.(world := Retired(s.world, id, false)))
  {
    var w := s.world;
    var sw := w.objects[id].sw;
    assert ServedOk(w, sw);
    RetiredGone(w, sw);
    assert LeftRoute(w, Retired(w, id, false), id);
    hide Retired, ServingOk, EntriesOk, LinksOk, UsedOwn, RowsOwn, HeldAreUsed, Numbered, Switched, Gone, LeftRoute;
    ReleasedLinks(w, sw);
    WithoutRoute(s, Retired(w, id, false), id);
    WithoutRouteRest(s, Retired(w, id, false), id);
  }

  lemma MarkFlags(s: Sys, id: nat)
    requires Switched(s) && Gone(s) && Numbered(s) && id in s.world.objects
    ensures var t := s.(world := s.world.(objects := s.world.objects[id := s.world.objects[id].(retired := true)]));
      Flagged(s, t) && Switched(t) && Gone(t)
  {
  }

  lemma MarkOff(s: Sys, id: nat)
    requires Conserved(s) && OffRoute(s.world, id) && !s.world.objects[id].retired
    ensures Conserved(s.(world := Retired(s.world, id, false)))
  {
    OffMarked(s.world, id);
    MarkLinks(s.world, id);
    MarkFlags(s, id);
    NobodyServedAs(s.world, id);
    hide Retired, Conserved, Linked, Switched, Gone, Flagged, UseKept, UsedOwn, HeldAreUsed;
    MarkUse(s, s.(world := Retired(s.world, id, false)), id);
    FlaggedKeeps(s, s.(world := Retired(s.world, id, false)));
  }

  lemma UsedOwns(s: Sys)
    requires Conserved(s)
    ensures forall id :: InUse(s, id) ==> Owning(s.world, id)
  {
  }

  lemma KeptFlags(s: Sys, id: nat)
    requires Switched(s) && Gone(s) && Numbered(s) && id in s.swapping && id in s.world.objects && Owning(s.world, id)
    ensures var st := s.world.objects[id];
      var t := s.(world := s.world.(switches := s.world.switches[st.sw := None], objects := s.world.objects[id := st.(retired := true)]));
      Flagged(s, t) && Switched(t) && Gone(t)
  {
  }

  lemma KeepKeeps(s: Sys, id: nat)
    requires Conserved(s) && id in s.swapping && id in s.world.objects && !s.world.objects[id].retired
    ensures Conserved(s.(world := Retired(s.world, id, true)))
  {
    assert InUse(s, id) && Owning(s.world, id);
    RetiredKept(s.world, id);
    SuspendLinks(s.world, id);
    MarkLinks(Suspended(s.world, id), id);
    KeptFlags(s, id);
    hide Retired, Conserved, Linked, Switched, Gone, Flagged, UseKept, UsedOwn, HeldAreUsed;
    MarkUse(s, s.(world := Retired(s.world, id, true)), id);
    FlaggedKeeps(s, s.(world := Retired(s.world, id, true)));
  }

  /** Retiring any record, whether it is routed, being replaced, off its listener, or retired already. */
  lemma RetireKeeps(s: Sys, id: nat, keep: bool)
    requires Conserved(s) && id in s.world.objects && (keep ==> id in s.swapping)
    ensures Conserved(s.(world := Retired(s.world, id, keep)))
  {
    var w := s.world;
    if w.objects[id].retired {
      RetiredStays(w, id, keep);
    } else if keep {
      KeepKeeps(s, id);
    } else {
      assert InUse(s, id) && Owning(w, id);
      hide Conserved;
      if HoldsRoute(w, id) {
        ReleaseKeeps(s, id);
      } else {
        MarkOff(s, id);
      }
    }
  }

  lemma RowLinks(w: World, n: string)
    requires Linked(w)
    ensures Linked(w.(states := w.states - {n}))
  {
    hide EntriesOk, LinksOk;
    FrameLinks(w, w.(states := w.states - {n}));
  }

  lemma NotListed(w: World, n: string)
    requires RowsOwn(w) && n in w.states
    ensures !Listed(w.(states := w.states - {n}), w.states[n])
  {
  }

  lemma RowRest(s: Sys, n: string)
    requires Switched(s) && Gone(s) && Numbered(s) && RowsOwn(s.world) && n in s.world.states
    ensures var v := s.world.(states := s.world.states - {n}); var t := s.(world := v, leaving := s.leaving + {s.world.states[n]});
      Switched(t) && Gone(t) && Flagged(s, t) && Switched(s.(world := v)) && Gone(s.(world := v)) && Flagged(s, s.(world := v))
  {
    NotListed(s.world, n);
  }

  lemma RowGone(s: Sys, n: string)
    requires Conserved(s) && n in s.world.states
    ensures var v := s.world.(states := s.world.states - {n});
      Conserved(s.(world := v)) && Conserved(s.(world := v, leaving := s.leaving + {s.world.states[n]}))
  {
    var v := s.world.(states := s.world.states - {n});
    RowLinks(s.world, n);
    RowRest(s, n);
    hide Linked, UsedOwn, RowsOwn, HeldAreUsed, Numbered, Switched, Gone, UseKept, Flagged;
    SameUse(s, s.(world := v, leaving := s.leaving + {s.world.states[n]}));
    FlaggedKeeps(s, s.(world := v, leaving := s.leaving + {s.world.states[n]}));
    SameUse(s, s.(world := v));
    FlaggedKeeps(s, s.(world := v));
  }

  // ---- Listeners of entries ----

  lemma BoundRest(s: Sys, e: Entry)
    requires Switched(s) && Gone(s) && Numbered(s)
    ensures var t := s.(world := EntryBound(s.world, e)); Switched(t) && Gone(t) && Flagged(s, t)
  {
  }

  lemma BindKeeps(s: Sys, e: Entry)
    requires Conserved(s) && EntryAddr(e) !in s.world.listeners && e.name !in s.world.entries
    ensures Conserved(s.(world := EntryBound(s.world, e)))
  {
    var t := s.(world := EntryBound(s.world, e));
    EntryBoundLinks(s.world, e);
    BoundRest(s, e);
    SameUse(s, t);
    hide Linked, UsedOwn, RowsOwn, HeldAreUsed, Switched, Gone, UseKept, Flagged;
    FlaggedKeeps(s, t);
  }

  lemma OffStays(w: World, m: string, id: nat)
    requires OffRoute(w, id) && m in w.entries
    ensures Owning(EntryUnbound(w, m), id)
  {
  }

  lemma HolderLeaves(w: World, m: string, id: nat)
    requires HoldsRoute(w, id) && m in w.entries && IsOn(w.objects[id], EntryAddr(w.entries[m].entry), w.entries[m].id)
    requires ListenAddr(w.serving[w.objects[id].sw].project) == EntryAddr(w.entries[m].entry)
    ensures Owning(EntryUnbound(w, m), id)
  {
  }

  lemma HolderStays(w: World, m: string, id: nat)
    requires HoldsRoute(w, id) && m in w.entries
    requires ListenAddr(w.serving[w.objects[id].sw].project) != EntryAddr(w.entries[m].entry)
    ensures Owning(EntryUnbound(w, m), id)
  {
  }

  lemma MembersAreOfEntry(w: World, m: string, sw: nat)
    requires Linked(w) && m in w.entries && sw in w.serving && ListenAddr(w.serving[sw].project) == EntryAddr(w.entries[m].entry)
    ensures w.serving[sw].entry == Some(w.entries[m].id)
  {
    var a := EntryAddr(w.entries[m].entry);
    assert EntryOk(w, m) && sw in Members(w.serving, a);
    assert LinkOk(w.listeners[a], w.serving, Members(w.serving, a));
  }

  /** Whoever is on the listener is none's afterwards, everybody else where they were. */
  lemma UnboundOwns(s: Sys, m: string, id: nat)
    requires Conserved(s) && m in s.world.entries && StaticSwaps(s) && Owning(s.world, id)
    ensures Owning(EntryUnbound(s.world, m), id)
  {
    var w := s.world;
    if HoldsRoute(w, id) {
      var sw := w.objects[id].sw;
      assert ServedOk(w, sw) && InUse(s, id);
      hide ServingOk, EntriesOk, LinksOk, UsedOwn, RowsOwn, HeldAreUsed, Numbered, Switched, Gone, EntryUnbound;
      if ListenAddr(w.serving[sw].project) == EntryAddr(w.entries[m].entry) {
        MembersAreOfEntry(w, m, sw);
        HolderLeaves(w, m, id);
      } else {
        HolderStays(w, m, id);
      }
    } else {
      hide ServingOk, EntriesOk, LinksOk, UsedOwn, RowsOwn, HeldAreUsed, Numbered, Switched, Gone, EntryUnbound;
      OffStays(w, m, id);
    }
  }

  lemma UnboundRest(s: Sys, m: string)
    requires Numbered(s) && Switched(s) && Gone(s) && HeldAreUsed(s) && m in s.world.entries
    ensures var t := s.(world := EntryUnbound(s.world, m)); Numbered(t) && Switched(t) && Gone(t) && HeldAreUsed(t)
  {
    var t := s.(world := EntryUnbound(s.world, m));
    forall sw | sw in t.world.serving
      ensures InUse(t, t.world.serving[sw].id)
    {
      assert InUse(s, s.world.serving[sw].id);
    }
  }

  lemma UnboundNames(w: World, m: string)
    requires m in w.entries
    ensures var v := EntryUnbound(w, m);
      v.states == w.states && forall id :: id in w.objects ==> id in v.objects && v.objects[id].project == w.objects[id].project
  {
  }

  lemma RowsUnbound(s: Sys, m: string)
    requires Conserved(s) && m in s.world.entries && StaticSwaps(s)
    ensures RowsOwn(EntryUnbound(s.world, m))
  {
    var w, v := s.world, EntryUnbound(s.world, m);
    UnboundNames(w, m);
    hide Owning, Linked, UsedOwn, HeldAreUsed, Numbered, Switched, Gone, EntryUnbound, StaticSwaps;
    forall n | n in v.states
      ensures v.states[n] in v.objects && v.objects[v.states[n]].project.name == n && Owning(v, v.states[n])
    {
      UnboundOwns(s, m, w.states[n]);
    }
  }

  lemma ConservedParts(s: Sys)
    requires Linked(s.world) && UsedOwn(s) && RowsOwn(s.world) && HeldAreUsed(s) && Numbered(s) && Switched(s) && Gone(s)
    ensures Conserved(s)
  {
  }

  lemma UnbindKeeps(s: Sys, m: string)
    requires Conserved(s) && m in s.world.entries && StaticSwaps(s)
    ensures Conserved(s.(world := EntryUnbound(s.world, m)))
  {
    var w, t := s.world, s.(world := EntryUnbound(s.world, m));
    EntryUnboundLinks(w, m);
    UnboundRest(s, m);
    UsedOwns(s);
    hide Conserved, Linked, Owning, Numbered, Switched, Gone, HeldAreUsed;
    forall id | InUse(t, id)
      ensures Owning(t.world, id)
    {
      assert InUse(s, id);
      UnboundOwns(s, m, id);
    }
    RowsUnbound(s, m);
    assert Conserved(t) by { ConservedParts(t); }
  }

  // ---- All operations ----

  lemma StepKeeps(s: Sys, op: Op)
    requires Conserved(s) && Enabled(s, op)
    ensures Conserved(Apply(s, op))
  {
    hide Conserved, Commissioned, Retired, Replaced, RegisteredFor, EntryBound, EntryUnbound, Suspended, Joins, IsReplacement, MayAsk;
    match op
    case Put(p, tracker) => JoinConserves(s, p, tracker, None);
    case Claim(n) => ClaimKeeps(s, n);
    case Swap(p, tracker, id) => SwapKeeps(s, p, tracker, id);
    case Collect(n) => RowGone(s, n);
    case Bind(e) => BindKeeps(s, e);
    case Unbind(m) => UnbindKeeps(s, m);
    case Retire(id, keep) => RetireKeeps(s, id, keep);
    case Forget(id) =>
      var n := s.world.objects[id].project.name;
      if n in s.world.states && s.world.states[n] == id {
        RowGone(s, n);
      }
    case Ask(es, p, tracker) => AskKeeps(s, es, p, tracker);
  }

  lemma {:induction false} RunKeeps(s: Sys, ops: seq<Op>)
    requires Conserved(s) && Feasible(s, ops)
    ensures Conserved(Exec(s, ops))
    decreases |ops|
  {
    if ops != [] {
      StepKeeps(s, ops[0]);
      RunKeeps(Apply(s, ops[0]), ops[1..]);
    }
  }

  // ---- Memberships ----

  /** The records on the listener at an address: bound there, and not retired, or waiting to be replaced. */
  ghost function BoundTo(s: Sys, a: Address): set<nat> {
    set id | id in s.world.objects && InUse(s, id) && s.world.objects[id].bind == Some(a)
  }

  ghost function Ids(serving: map<nat, Served>, members: set<nat>): set<nat>
    requires members <= serving.Keys
  {
    set sw | sw in members :: serving[sw].id
  }

  lemma {:induction false} AsManyIds(serving: map<nat, Served>, members: set<nat>)
    requires members <= serving.Keys
    requires forall s, t :: s in members && t in members && serving[s].id == serving[t].id ==> s == t
    ensures |Ids(serving, members)| == |members|
  {
    if members != {} {
      var sw :| sw in members;
      AsManyIds(serving, members - {sw});
      assert Ids(serving, members) == Ids(serving, members - {sw}) + {serving[sw].id};
    }
  }

  lemma MemberIsBound(s: Sys, sw: nat)
    requires Conserved(s) && sw in s.world.serving
    ensures var v := s.world.serving[sw]; v.id in BoundTo(s, ListenAddr(v.project)) && s.world.objects[v.id].sw == sw
  {
    assert ServedOk(s.world, sw) && InUse(s, s.world.serving[sw].id);
  }

  lemma BoundIsMember(s: Sys, a: Address, id: nat)
    requires Conserved(s) && id in BoundTo(s, a)
    ensures HoldsRoute(s.world, id)
    ensures var st := s.world.objects[id];
      st.sw in Members(s.world.serving, a) && s.world.serving[st.sw].id == id && s.world.serving[st.sw].project == st.project
  {
    assert Owning(s.world, id);
    assert ServedOk(s.world, s.world.objects[id].sw);
  }

  lemma BoundAreMembers(s: Sys, a: Address)
    requires Conserved(s)
    ensures BoundTo(s, a) == Ids(s.world.serving, Members(s.world.serving, a))
    ensures |BoundTo(s, a)| == |Members(s.world.serving, a)|
  {
    var serving, members := s.world.serving, Members(s.world.serving, a);
    forall sw | sw in members
      ensures serving[sw].id in BoundTo(s, a)
    {
      MemberIsBound(s, sw);
    }
    forall id | id in BoundTo(s, a)
      ensures id in Ids(serving, members)
    {
      BoundIsMember(s, a, id);
    }
    forall x, y | x in members && y in members && serving[x].id == serving[y].id
      ensures x == y
    {
      MemberIsBound(s, x);
      MemberIsBound(s, y);
    }
    AsManyIds(serving, members);
  }

  lemma ConservedIsLinked(s: Sys)
    requires Conserved(s)
    ensures Linked(s.world) && ServingOk(s.world) && LinksOk(s.world)
  {
  }

  /**
   At every point of every run a listener's membership count is the number of records on it, and a
   listener that no entry owns is there exactly while that number is positive.
   */
  lemma MembershipIsConserved(ops: seq<Op>, a: Address)
    requires Feasible(IDLE, ops)
    ensures var s := Exec(IDLE, ops); var listeners := s.world.listeners;
      && (a in listeners ==> listeners[a].members == |BoundTo(s, a)|)
      && (a !in listeners ==> BoundTo(s, a) == {})
      && (a in listeners && listeners[a].entry == None ==> listeners[a].members > 0)
  {
    var s := Exec(IDLE, ops);
    RunKeeps(IDLE, ops);
    BoundAreMembers(s, a);
    ConservedIsLinked(s);
    if a !in s.world.listeners {
      assert Members(s.world.serving, a) == {};
    }
  }

  // ---- Routes, where every project finds room ----

  /** The hostname is free on the listener that is joined. */
  ghost predicate FindsRoom(s: Sys, op: Op) {
    match op
    case Put(p, tracker) => Room(s.world, p, None)
    case Ask(es, p, tracker) => IsBound(s.world, es) ==> Room(s.world, p, Some(es.id))
    case _ => true
  }

  ghost predicate Roomy(s: Sys, ops: seq<Op>)
    requires Feasible(s, ops)
    decreases |ops|
  {
    ops == [] || (FindsRoom(s, ops[0]) && Roomy(Apply(s, ops[0]), ops[1..]))
  }

  lemma TidyJoin(w: World, p: Project, tracker: nat, entry: Option<nat>)
    requires Wired(w) && Room(w, p, entry)
    ensures ListenersOk(Commissioned(w, p, tracker, entry, None))
  {
    AttachKeeps(w, p, tracker, entry);
  }

  lemma TidySwap(s: Sys, p: Project, tracker: nat, id: nat)
    requires Conserved(s) && Wired(s.world) && IsReplacement(s, p, id)
    ensures ListenersOk(Replaced(s.world, p, tracker, id))
  {
    var w := s.world;
    assert InUse(s, id) && Owning(w, id);
    if HoldsRoute(w, id) {
      assert ServedOk(w, w.objects[id].sw);
      InheritKeeps(w, p, tracker, w.objects[id].sw);
    } else {
      OffReplaced(w, p, tracker, id);
      SameListeners(w, Replaced(w, p, tracker, id));
    }
  }

  lemma TidyRetire(s: Sys, id: nat, keep: bool)
    requires Conserved(s) && Wired(s.world) && id in s.world.objects
    ensures ListenersOk(Retired(s.world, id, keep))
  {
    var w := s.world;
    if !w.objects[id].retired && !keep {
      assert InUse(s, id) && Owning(w, id);
      if HoldsRoute(w, id) {
        DetachedThenMarked(w, w.objects[id].sw);
      }
    }
  }

  lemma WiredParts(w: World)
    requires Linked(w) && ListenersOk(w)
    ensures Wired(w)
  {
  }

  lemma AskedInTime(w: World, es: EntryState, p: Project, tracker: nat)
    requires IsBound(w, es)
    ensures RegisteredFor(w, es, p, tracker) == Commissioned(w, p, tracker, Some(es.id), None)
  {
  }

  lemma TidyStep(s: Sys, op: Op)
    requires Conserved(s) && Wired(s.world) && Enabled(s, op) && FindsRoom(s, op)
    ensures Wired(Apply(s, op).world)
  {
    StepKeeps(s, op);
    ConservedIsLinked(Apply(s, op));
    WiringOf(s.world);
    hide Conserved, Wired, Commissioned, Retired, Replaced, EntryBound, EntryUnbound, Joins, Room, IsReplacement, MayAsk;
    match op
    case Put(p, tracker) => TidyJoin(s.world, p, tracker, None);
    case Swap(p, tracker, id) => TidySwap(s, p, tracker, id);
    case Retire(id, keep) => TidyRetire(s, id, keep);
    case Bind(e) => EntryBoundListeners(s.world, e);
    case Unbind(m) => EntryUnboundListeners(s.world, m);
    case Ask(es, p, tracker) =>
      if IsBound(s.world, es) {
        AskedInTime(s.world, es, p, tracker);
        TidyJoin(s.world, p, tracker, Some(es.id));
      } else {
        LateListeners(s.world, p, tracker, es.id);
      }
    case _ => SameListeners(s.world, Apply(s, op).world);
    assert Wired(Apply(s, op).world) by { WiredParts(Apply(s, op).world); }
  }

  lemma {:induction false} TidyRun(s: Sys, ops: seq<Op>)
    requires Conserved(s) && Wired(s.world) && Feasible(s, ops) && Roomy(s, ops)
    ensures Wired(Exec(s, ops).world)
    decreases |ops|
  {
    if ops != [] {
      TidyStep(s, ops[0]);
      StepKeeps(s, ops[0]);
      TidyRun(Apply(s, ops[0]), ops[1..]);
    }
  }

  /** A router's table, in terms of its members. */
  lemma TableIs(l: Listener, serving: map<nat, Served>, members: set<nat>, h: string, sw: nat)
    requires members <= serving.Keys && TableOk(l, serving, members)
    ensures h in l.hosts && l.hosts[h] == sw <==> h != "" && sw in members && serving[sw].project.host == h
    ensures l.catchAll == Some(sw) <==> sw in members && serving[sw].project.host == ""
    ensures l.catchAll.Some? ==> |members| == 1
  {
  }

  lemma BoundWithHost(s: Sys, a: Address, h: string, sw: nat)
    requires Conserved(s)
    ensures sw in Members(s.world.serving, a) && s.world.serving[sw].project.host == h <==>
      exists id :: id in BoundTo(s, a) && s.world.objects[id].project.host == h && s.world.objects[id].sw == sw
  {
    hide Conserved;
    if sw in Members(s.world.serving, a) && s.world.serving[sw].project.host == h {
      MemberIsBound(s, sw);
      BoundIsMember(s, a, s.world.serving[sw].id);
    }
    if id :| id in BoundTo(s, a) && s.world.objects[id].project.host == h && s.world.objects[id].sw == sw {
      BoundIsMember(s, a, id);
    }
  }

  /**
   Where every project has found room, a router sends each hostname to the switch of the one record on
   it that has it, and everything to one without. In any case it sends nothing to anybody else.
   */
  lemma RoutesAreMembers(ops: seq<Op>, a: Address, h: string, sw: nat)
    requires Feasible(IDLE, ops) && a in Exec(IDLE, ops).world.listeners
    ensures var s := Exec(IDLE, ops); var l, objects := s.world.listeners[a], s.world.objects;
      var isHost := h != "" && exists id :: id in BoundTo(s, a) && objects[id].project.host == h && objects[id].sw == sw;
      var takesAll := exists id :: id in BoundTo(s, a) && objects[id].project.host == "" && objects[id].sw == sw;
      && (h in l.hosts && l.hosts[h] == sw ==> isHost)
      && (l.catchAll == Some(sw) ==> takesAll)
      && (Roomy(IDLE, ops) ==>
            && (isHost ==> h in l.hosts && l.hosts[h] == sw)
            && (takesAll ==> l.catchAll == Some(sw))
            && (l.catchAll.Some? ==> |BoundTo(s, a)| == 1))
  {
    var s := Exec(IDLE, ops);
    RunKeeps(IDLE, ops);
    ConservedIsLinked(s);
    assert LinkOk(s.world.listeners[a], s.world.serving, Members(s.world.serving, a));
    if Roomy(IDLE, ops) {
      TidyRun(IDLE, ops);
      assert ListenerOk(s.world.listeners[a], s.world.serving, Members(s.world.serving, a));
      TableIs(s.world.listeners[a], s.world.serving, Members(s.world.serving, a), h, sw);
    }
    hide Conserved, Wired, Feasible, Exec, Roomy, ServingOk, LinksOk, Linked, ListenerOk;
    BoundWithHost(s, a, h, sw);
    BoundWithHost(s, a, "", sw);
    BoundAreMembers(s, a);
  }

  // ---- Replacements ----

  /** The switch a request for a hostname is sent to. */
  function SwitchFor(w: World, a: Address, h: string): Option<nat> {
    if a !in w.listeners then None
    else if w.listeners[a].catchAll.Some? then w.listeners[a].catchAll
    else if h in w.listeners[a].hosts then Some(w.listeners[a].hosts[h])
    else None
  }

  lemma RoutedSwitchIsServed(w: World, a: Address, h: string)
    requires LinksOk(w) && SwitchFor(w, a, h).Some?
    ensures SwitchFor(w, a, h).value in w.serving && ListenAddr(w.serving[SwitchFor(w, a, h).value].project) == a
  {
    assert LinkOk(w.listeners[a], w.serving, Members(w.serving, a));
  }

  lemma ThroughSwitch(w: World, a: Address, h: string)
    ensures SwitchFor(w, a, h).Some? ==> Route(w, a, h) == Through(w, SwitchFor(w, a, h).value)
    ensures SwitchFor(w, a, h) == None ==> !Route(w, a, h).ToState?
  {
  }

  lemma ReplacedRoute(w: World, p: Project, tracker: nat, id: nat)
    requires id in w.objects && w.nextId !in w.objects
    ensures var v := Replaced(w, p, tracker, id);
      && v.listeners == w.listeners && v.switches == w.switches[w.nextId := Some(w.nextId)][w.objects[id].sw := Some(w.nextId)]
      && (HoldsRoute(w, id) ==> HoldsRoute(v, w.nextId))
      && (OffRoute(w, id) && w.nextId !in w.serving ==> !HoldsRoute(v, w.nextId))
  {
  }

  lemma ReplacedSwitches(s: Sys, p: Project, tracker: nat, id: nat)
    requires Conserved(s) && IsReplacement(s, p, id)
    ensures var w, v := s.world, Replaced(s.world, p, tracker, id);
      && v.listeners == w.listeners && v.switches == w.switches[w.nextId := Some(w.nextId)][w.objects[id].sw := Some(w.nextId)]
      && (HoldsRoute(v, w.nextId) <==> w.objects[id].bind.Some?)
  {
    var w := s.world;
    assert InUse(s, id) && Owning(w, id);
    UnusedSwitch(w);
    if HoldsRoute(w, id) {
      assert ServedOk(w, w.objects[id].sw);
    }
    hide Conserved, Linked, ServingOk, Owning;
    ReplacedRoute(w, p, tracker, id);
  }

  lemma SwitchTakenOver(s: Sys, v: World, a: Address, h: string, sw: nat)
    requires Numbered(s) && LinksOk(s.world) && s.world.nextId !in s.world.serving && v.listeners == s.world.listeners
    requires v.switches == s.world.switches[s.world.nextId := Some(s.world.nextId)][sw := Some(s.world.nextId)]
    ensures Route(v, a, h) == ToState(s.world.nextId) <==> SwitchFor(s.world, a, h) == Some(sw)
  {
    if SwitchFor(s.world, a, h).Some? {
      RoutedSwitchIsServed(s.world, a, h);
    }
    ThroughSwitch(v, a, h);
    hide LinksOk, Route;
  }

  lemma RoomyRoute(s: Sys, id: nat, host: string)
    requires Conserved(s) && Wired(s.world) && id in s.swapping && id in s.world.objects && s.world.objects[id].bind.Some?
    ensures var p := s.world.objects[id].project; p.host == "" || p.host == host ==>
      SwitchFor(s.world, ListenAddr(p), host) == Some(s.world.objects[id].sw)
  {
    var w, sw := s.world, s.world.objects[id].sw;
    assert InUse(s, id) && Owning(w, id);
    assert ServedOk(w, sw);
    var a := ListenAddr(w.serving[sw].project);
    assert sw in Members(w.serving, a);
    hide Conserved, Linked, ServingOk, Owning;
    RoutedTo(w.listeners[a], w.serving, Members(w.serving, a), sw, host);
  }

  /**
   A replacement in place takes over the membership if and only if the record it replaces still has a
   listener, whatever came between claiming that record and now; and it is sent the requests of its
   hostname if and only if the router still sends them to the switch it takes over, as it does, where
   every project has found room, while there is a listener.
   */
  lemma ReplacementIsRouted(ops: seq<Op>, p: Project, tracker: nat, id: nat, host: string)
    requires Feasible(IDLE, ops) && IsReplacement(Exec(IDLE, ops), p, id)
    ensures var w := Exec(IDLE, ops).world; var v := Replaced(w, p, tracker, id);
      && (HoldsRoute(v, w.nextId) <==> w.objects[id].bind.Some?)
      && (Route(v, ListenAddr(p), host) == ToState(w.nextId) <==> SwitchFor(w, ListenAddr(p), host) == Some(w.objects[id].sw))
      && (Roomy(IDLE, ops) && w.objects[id].bind.Some? && (p.host == "" || p.host == host) ==>
            SwitchFor(w, ListenAddr(p), host) == Some(w.objects[id].sw))
  {
    var s := Exec(IDLE, ops);
    var w, v := s.world, Replaced(s.world, p, tracker, id);
    RunKeeps(IDLE, ops);
    ReplacedSwitches(s, p, tracker, id);
    ConservedIsLinked(s);
    UnusedSwitch(w);
    assert Numbered(s);
    if Roomy(IDLE, ops) && w.objects[id].bind.Some? {
      TidyRun(IDLE, ops);
      RoomyRoute(s, id, host);
    }
    hide Conserved, Linked, Wired, LinksOk, ServingOk, Numbered, Feasible, Exec, Roomy, Replaced, HoldsRoute, Route, SwitchFor;
    SwitchTakenOver(s, v, ListenAddr(p), host, w.objects[id].sw);
  }
}
