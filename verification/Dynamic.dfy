/**
 Projects that wildcard entries register at run time: they come, are swapped for one on another
 application port, and go, and each time the daemon is at rest again.
 */
module Dynamic {
  import opened Options
  import opened Config
  import opened Routing
  import opened Rest
  import opened Teardown
  import opened Rebuild
  import opened Carryover

  /** The hostname an entry serves a worktree at. */
  function HostOf(e: Entry, worktree: string): string {
    worktree + "." + e.baseDomain
  }

  lemma HostsDiffer(e: Entry, a: string, b: string)
    requires HostOf(e, a) == HostOf(e, b)
    ensures a == b
  {
    assert a == HostOf(e, a)[..|HostOf(e, a)| - |e.baseDomain| - 1];
    assert b == HostOf(e, b)[..|HostOf(e, b)| - |e.baseDomain| - 1];
  }

  /** Every project of an entry is served at its own worktree's hostname. */
  ghost predicate HostsNamed(w: World) {
    forall sw, m :: sw in w.serving && m in w.entries && w.serving[sw].entry == Some(w.entries[m].id) ==>
      w.serving[sw].project.host == HostOf(w.entries[m].entry, w.serving[sw].project.name)
  }

  lemma EntryWasThere(w: World, sw: nat)
    requires EntriesOk(w) && ListenersOk(w) && sw in w.serving && w.serving[sw].entry.Some?
    ensures w.serving[sw].entry.value < w.nextId
  {
    var a := ListenAddr(w.serving[sw].project);
    assert ListenerOk(w.listeners[a], w.serving, Members(w.serving, a)) && sw in Members(w.serving, a);
    var m :| Owns(w, m, a);
    assert EntryOk(w, m);
  }

  /** A project of an entry is, after a reload, one that was there before, of an entry that was there before. */
  lemma DynamicWasThere(w0: World, w: World, c: Config, sw: nat, m: string)
    requires Matched(w0) && Matched(w) && EntriesOk(w0) && ListenersOk(w0) && Carried(w, w0, c) && EntriesCarried(w, w0, c)
    requires sw in w.serving && m in w.entries && w.serving[sw].entry == Some(w.entries[m].id)
    ensures sw in w0.serving && w0.serving[sw] == w.serving[sw]
    ensures m in w0.entries && w.entries[m] == w0.entries[m]
  {
    var n := w.serving[sw].project.name;
    assert ServedOk(w, sw) && Placed(w, n) && IsDynamic(w, n);
    assert n in c.projects ==> Rebuilt(w, w0, c, n);
    assert Kept(w, w0, n) && Placed(w0, n);
    assert ServedOk(w0, sw);
    EntryWasThere(w0, sw);
  }

  lemma NoDynamicsNamed(w: World, c: Config)
    requires Matched(w) && Serves(w, c) && w.states.Keys == c.projects.Keys
    ensures HostsNamed(w)
  {
    forall sw | sw in w.serving
      ensures w.serving[sw].entry == None
    {
      assert ServedOk(w, sw) && IsStatic(w, w.serving[sw].project.name);
    }
  }

  lemma HostsStayNamed(w0: World, w: World, c: Config)
    requires AtRest(w0) && AtRest(w) && Carried(w, w0, c) && EntriesCarried(w, w0, c) && HostsNamed(w0)
    ensures HostsNamed(w)
  {
    hide Carried, EntriesCarried, Matched, Wired;
    AtRestIs(w0);
    AtRestIs(w);
    forall sw, m | sw in w.serving && m in w.entries && w.serving[sw].entry == Some(w.entries[m].id)
      ensures w.serving[sw].project.host == HostOf(w.entries[m].entry, w.serving[sw].project.name)
    {
      DynamicWasThere(w0, w, c, sw, m);
    }
  }

  /** What the entry builds for one of its worktrees. */
  predicate IsWorktree(e: Entry, p: Project) {
    ListenAddr(p) == EntryAddr(e) && p.host == HostOf(e, p.name)
  }

  /** The hostname is free: only the project of the same name could have it, and that name is not registered. */
  lemma WorktreeHasRoom(w: World, m: string, p: Project)
    requires EntriesOk(w) && ListenersOk(w) && Registered(w) && HostsNamed(w)
    requires m in w.entries && IsWorktree(w.entries[m].entry, p) && p.name !in w.states
    ensures Room(w, p, Some(w.entries[m].id))
  {
    assert EntryOk(w, m);
    var a := ListenAddr(p);
    var l := w.listeners[a];
    assert ListenerOk(l, w.serving, Members(w.serving, a));
    forall sw | sw in Members(w.serving, a)
      ensures w.serving[sw].project.host != p.host && w.serving[sw].project.host != ""
    {
      MembersAreItsOwn(w, m, sw);
      if w.serving[sw].project.host == p.host {
        HostsDiffer(w.entries[m].entry, w.serving[sw].project.name, p.name);
      }
    }
  }

  /** A new or swapped project in service next to all others. */
  lemma InstalledAtRest(w: World, v: World, st: State)
    requires ServingOk(w) && Registered(w) && (forall n :: n in w.states && n != st.project.name ==> Placed(w, n))
    requires Installed(w, v, st) && Slot(w, st.project.name, st.sw) && ServingOk(v)
    ensures Matched(v)
  {
    InstalledRegistered(w, v, st);
    forall n | n in v.states
      ensures Placed(v, n)
    {
      if n == st.project.name {
        InstalledNew(w, v, st);
      } else {
        InstalledOther(w, v, st, n);
      }
    }
  }

  lemma Unserved(w: World, n: string)
    requires Registered(w) && n !in w.states
    ensures NobodyServes(w, n)
  {
  }

  lemma MaterialisedNamed(w: World, m: string, p: Project, tracker: nat)
    requires EntriesOk(w) && HostsNamed(w) && m in w.entries && IsWorktree(w.entries[m].entry, p)
    ensures HostsNamed(Materialised(w, m, p, tracker))
  {
  }

  /** A worktree's first request registers its project. */
  lemma MaterialisedAtRest(w: World, m: string, p: Project, tracker: nat)
    requires AtRest(w) && HostsNamed(w) && m in w.entries && IsWorktree(w.entries[m].entry, p) && p.name !in w.states
    ensures var v := Materialised(w, m, p, tracker); AtRest(v) && HostsNamed(v)
  {
    var entry := Some(w.entries[m].id);
    WorktreeHasRoom(w, m, p);
    MaterialisedNamed(w, m, p, tracker);
    AttachKeeps(w, p, tracker, entry);
    AttachInstalls(w, p, tracker, entry);
    Unserved(w, p.name);
    NobodyServesSlot(w, p.name);
    var v, st := Materialised(w, m, p, tracker), State(p, tracker, w.nextId, Some(ListenAddr(p)), true, entry, false);
    InstalledAccounted(w, v, st, {});
    assert {} - {p.name} == {};
    hide Accounted, Installed, HostsNamed, Materialised, Slot;
    InstalledAtRest(w, v, st);
  }

  lemma PlacedAt(w: World, m: string)
    requires AllPlaced(w) && m in w.states
    ensures Placed(w, m)
  {
  }

  lemma MaterialisedOthers(w: World, m: string, p: Project, tracker: nat)
    requires AtRest(w) && m in w.entries && p.name !in w.states
    ensures var v := Materialised(w, m, p, tracker);
      Live(v, p.name) && IsDynamic(v, p.name) && forall n :: n in w.states ==> Kept(v, w, n)
  {
    var entry := Some(w.entries[m].id);
    var v, st := Materialised(w, m, p, tracker), State(p, tracker, w.nextId, Some(ListenAddr(p)), true, entry, false);
    AttachInstalls(w, p, tracker, entry);
    Unserved(w, p.name);
    NobodyServesSlot(w, p.name);
    InstalledNew(w, v, st);
    hide Materialised, Installed, Slot, Kept;
    forall n | n in w.states
      ensures Kept(v, w, n)
    {
      PlacedAt(w, n);
      InstalledOther(w, v, st, n);
    }
  }

  // ---- Coming too late ----

  /** An entry that is no longer in the table, and none that is has its identity. */
  predicate IsFormer(w: World, es: EntryState) {
    es.id < w.nextId && forall m :: m in w.entries ==> w.entries[m].id != es.id
  }

  lemma LateOther(w: World, p: Project, tracker: nat, entry: nat, n: string)
    requires ServingOk(w) && Placed(w, n) && n != p.name
    ensures Kept(RegisteredLate(w, p, tracker, entry), w, n)
  {
    assert Live(w, n) ==> ServedOk(w, w.objects[w.states[n]].sw);
  }

  lemma LateIsOff(w: World, p: Project, tracker: nat, entry: nat)
    requires w.nextId !in w.serving
    ensures Off(RegisteredLate(w, p, tracker, entry), p.name)
  {
  }

  lemma LateOthers(w: World, p: Project, tracker: nat, entry: nat)
    requires AtRest(w) && p.name !in w.states
    ensures var v := RegisteredLate(w, p, tracker, entry);
      Off(v, p.name) && forall n :: n in w.states ==> Kept(v, w, n)
  {
    var v := RegisteredLate(w, p, tracker, entry);
    UnusedSwitch(w);
    hide RegisteredLate, Kept;
    forall n | n in w.states
      ensures Kept(v, w, n)
    {
      PlacedAt(w, n);
      LateOther(w, p, tracker, entry, n);
    }
    LateIsOff(w, p, tracker, entry);
  }

  lemma SameListeners(w: World, v: World)
    requires ListenersOk(w) && v.listeners == w.listeners && v.serving == w.serving
    ensures ListenersOk(v)
  {
  }

  lemma LateListeners(w: World, p: Project, tracker: nat, entry: nat)
    requires ListenersOk(w)
    ensures ListenersOk(RegisteredLate(w, p, tracker, entry))
  {
    SameListeners(w, RegisteredLate(w, p, tracker, entry));
  }

  lemma LateRows(w: World, p: Project, tracker: nat, entry: nat)
    requires ServingOk(w) && Registered(w) && NoneLost(w) && HostsNamed(w) && p.name !in w.states
    ensures var v := RegisteredLate(w, p, tracker, entry); Registered(v) && NoneLost(v) && HostsNamed(v)
  {
  }

  lemma LateWired(w: World, p: Project, tracker: nat, entry: nat)
    requires Wired(w)
    ensures Wired(RegisteredLate(w, p, tracker, entry))
  {
    var v := RegisteredLate(w, p, tracker, entry);
    LateListeners(w, p, tracker, entry);
    forall sw | sw in v.serving
      ensures ServedOk(v, sw)
    {
      assert ServedOk(w, sw);
    }
    EntriesFrame(w, v);
  }

  lemma LateKeys(w: World, p: Project, tracker: nat, entry: nat)
    ensures forall m :: m in RegisteredLate(w, p, tracker, entry).states && m != p.name ==> m in w.states
  {
  }

  lemma WiringOf(w: World)
    requires Wired(w)
    ensures ServingOk(w) && ListenersOk(w)
  {
  }

  lemma KeptButOne(v: World, w: World, n: string)
    requires Placed(v, n) && forall m :: m in v.states && m != n ==> Kept(v, w, m)
    ensures AllPlaced(v)
  {
  }

  /** A worktree whose entry is gone is registered all the same, off every listener. */
  lemma LateAtRest(w: World, p: Project, tracker: nat, entry: nat)
    requires AtRest(w) && HostsNamed(w) && p.name !in w.states
    ensures var v := RegisteredLate(w, p, tracker, entry); AtRest(v) && HostsNamed(v)
  {
    var v := RegisteredLate(w, p, tracker, entry);
    LateWired(w, p, tracker, entry);
    LateRows(w, p, tracker, entry);
    LateOthers(w, p, tracker, entry);
    LateKeys(w, p, tracker, entry);
    WiringOf(v);
    hide RegisteredLate, Wired, Registered, NoneLost, HostsNamed, Kept, Off;
    KeptButOne(v, w, p.name);
  }

  // ---- Leaving ----

  lemma RowsKeep(w: World, states: map<string, nat>)
    requires Wired(w)
    ensures Wired(w.(states := states))
  {
    FlagsKeep(w, w.(states := states));
  }

  lemma SwitchesDiffer(w: World, n: string, m: string)
    requires ServingOk(w) && Live(w, n) && Placed(w, m) && m != n
    ensures w.objects[w.states[n]].sw != w.objects[w.states[m]].sw && w.states[n] != w.states[m]
  {
    assert ServedOk(w, w.objects[w.states[n]].sw);
    assert Live(w, m) ==> ServedOk(w, w.objects[w.states[m]].sw);
  }

  /** Whatever became of n's row, record, switch and route, m's are the same. */
  lemma Untouched(w: World, v: World, n: string, m: string, st: State)
    requires n in w.states && w.states[n] in w.objects && Placed(w, m) && m != n && w.states[n] != w.states[m]
    requires var sw := w.objects[w.states[n]].sw;
      && (sw != w.objects[w.states[m]].sw || (v.serving == w.serving && Off(w, m)))
      && (v.states == w.states || v.states == w.states - {n})
      && (v.objects == w.objects || v.objects == w.objects[w.states[n] := st])
      && (v.serving == w.serving || v.serving == w.serving - {sw})
      && (v.switches == w.switches || v.switches == w.switches[sw := None])
      && v.nextId == w.nextId
    ensures Kept(v, w, m)
  {
  }

  lemma Differ(w: World, n: string, m: string)
    requires Placed(w, n) && Placed(w, m) && m != n
    ensures w.states[n] != w.states[m]
  {
  }

  lemma KeptArePlaced(v: World, w: World)
    requires forall m :: m in v.states ==> Kept(v, w, m)
    ensures AllPlaced(v)
  {
  }

  lemma RetiredLosesNone(w: World, id: nat, keep: bool)
    requires NoneLost(w) && id in w.objects
    ensures NoneLost(Retired(w, id, keep))
  {
  }

  lemma OffMarkedOther(w: World, n: string, m: string)
    requires AllPlaced(w) && Off(w, n) && m in w.states && m != n
    ensures Kept(Retired(w, w.states[n], false), w, m)
  {
    OffMarked(w, w.states[n]);
    PlacedAt(w, m);
    Differ(w, n, m);
    if w.objects[w.states[m]].sw == w.objects[w.states[n]].sw {
      assert Off(w, m);
    }
    Untouched(w, Retired(w, w.states[n], false), n, m, w.objects[w.states[n]].(retired := true));
  }

  lemma LeavesOff(w: World, n: string)
    requires Wired(w) && Registered(w) && AllPlaced(w) && HostsNamed(w) && Off(w, n)
    ensures var u := Retired(w, w.states[n], false);
      && Wired(u) && Registered(u) && HostsNamed(u) && u.states == w.states && Off(u, n) && u.objects[w.states[n]].retired
      && forall m :: m in u.states && m != n ==> Kept(u, w, m)
  {
    var id := w.states[n];
    OffMarked(w, id);
    MarkKeeps(w, id);
    forall m | m in w.states && m != n
      ensures Kept(Retired(w, id, false), w, m)
    {
      OffMarkedOther(w, n, m);
    }
  }

  /** What the first half of a drop does to a project in service, outside the listeners. */
  lemma LeftIs(w: World, n: string)
    requires ServingOk(w) && ListenersOk(w) && Live(w, n)
    ensures var id, u := w.states[n], Retired(w, w.states[n], false);
      u == w.(serving := w.serving - {w.objects[id].sw}, listeners := u.listeners,
              objects := w.objects[id := w.objects[id].(bind := None, retired := true)])
  {
    RetiredGone(w, w.objects[w.states[n]].sw);
  }

  lemma LeftOther(w: World, n: string, m: string)
    requires ServingOk(w) && ListenersOk(w) && Live(w, n) && Placed(w, m) && m != n
    ensures Kept(Retired(w, w.states[n], false), w, m)
  {
    LeftIs(w, n);
    SwitchesDiffer(w, n, m);
    Untouched(w, Retired(w, w.states[n], false), n, m, w.objects[w.states[n]].(bind := None, retired := true));
  }

  lemma LeftRegistered(w: World, n: string)
    requires ServingOk(w) && ListenersOk(w) && Registered(w) && Live(w, n) && HostsNamed(w)
    ensures var u := Retired(w, w.states[n], false); Registered(u) && HostsNamed(u)
  {
    LeftIs(w, n);
  }

  lemma LeftOff(w: World, n: string)
    requires ServingOk(w) && ListenersOk(w) && Live(w, n) && IsDynamic(w, n)
    ensures Off(Retired(w, w.states[n], false), n) && Retired(w, w.states[n], false).objects[w.states[n]].retired
  {
    LeftIs(w, n);
    assert ServedOk(w, w.objects[w.states[n]].sw);
  }

  lemma LeavesLive(w: World, n: string)
    requires Wired(w) && Registered(w) && AllPlaced(w) && HostsNamed(w) && Live(w, n) && IsDynamic(w, n)
    ensures var u := Retired(w, w.states[n], false);
      && Wired(u) && Registered(u) && HostsNamed(u) && u.states == w.states && Off(u, n) && u.objects[w.states[n]].retired
      && forall m :: m in u.states && m != n ==> Kept(u, w, m)
  {
    WiringOf(w);
    LeftIs(w, n);
    LeftOff(w, n);
    LeftRegistered(w, n);
    hide Wired, Retired, ServingOk, ListenersOk, Registered, HostsNamed, Off, Kept;
    DetachedThenMarked(w, w.objects[w.states[n]].sw);
    forall m | m in w.states && m != n
      ensures Kept(Retired(w, w.states[n], false), w, m)
    {
      PlacedAt(w, m);
      LeftOther(w, n, m);
    }
  }

  /** The first half of a drop: off the listener and retired, while the table row stays until the process is gone. */
  lemma DropBegun(w: World, n: string)
    requires AtRest(w) && HostsNamed(w) && IsDynamic(w, n)
    ensures var u := Retired(w, w.states[n], false);
      && AtRest(u) && HostsNamed(u) && u.states == w.states && Off(u, n) && u.objects[w.states[n]].retired
      && forall m :: m in u.states && m != n ==> Kept(u, w, m)
  {
    PlacedAt(w, n);
    if Live(w, n) {
      LeavesLive(w, n);
    } else {
      LeavesOff(w, n);
    }
    var u := Retired(w, w.states[n], false);
    RetiredLosesNone(w, w.states[n], false);
    hide Retired, Wired, Off, Kept, Registered, HostsNamed, NoneLost;
    KeptButOne(u, w, n);
  }

  lemma UnlistedLosesNone(w: World, n: string)
    requires NoneLost(w) && n in w.states && w.states[n] in w.objects && w.objects[w.states[n]].retired
    ensures NoneLost(w.(states := w.states - {n}))
  {
  }

  lemma OffIsNotServed(w: World, n: string)
    requires ServingOk(w) && Registered(w) && Off(w, n)
    ensures Registered(w.(states := w.states - {n}))
  {
    NobodyServedAs(w, w.states[n]);
  }

  lemma OtherRowsKept(w: World, n: string)
    requires AllPlaced(w)
    ensures var v := w.(states := w.states - {n}); forall m :: m in v.states ==> Kept(v, w, m)
  {
    var v := w.(states := w.states - {n});
    forall m | m in v.states
      ensures Kept(v, w, m)
    {
      PlacedAt(w, m);
    }
  }

  /** The second half: the row is deleted, and nothing else changes. */
  lemma DropEnded(w: World, n: string)
    requires AtRest(w) && HostsNamed(w) && Off(w, n) && w.objects[w.states[n]].retired
    ensures var v := w.(states := w.states - {n});
      AtRest(v) && HostsNamed(v) && forall m :: m in v.states ==> Kept(v, w, m)
  {
    var v := w.(states := w.states - {n});
    RowsKeep(w, v.states);
    OtherRowsKept(w, n);
    OffIsNotServed(w, n);
    UnlistedLosesNone(w, n);
    hide Wired, Kept, ServingOk, Registered, NoneLost, HostsNamed;
    KeptArePlaced(v, w);
  }

  /** A whole drop leaves no trace in the table or the routes; everybody else is untouched. */
  lemma DroppedAtRest(w: World, n: string)
    requires AtRest(w) && HostsNamed(w) && IsDynamic(w, n)
    ensures var v := Dropped(w, w.states[n]);
      && AtRest(v) && HostsNamed(v) && v.states == w.states - {n} && w.states[n] in v.objects && v.objects[w.states[n]].retired
      && forall m :: m in v.states ==> Kept(v, w, m)
  {
    DropBegun(w, n);
    var u := Retired(w, w.states[n], false);
    assert w.objects[w.states[n]].project.name == n by { PlacedAt(w, n); }
    hide Retired, AtRest, HostsNamed;
    DropEnded(u, n);
  }

  lemma RetiredMarks(w: World, id: nat, keep: bool)
    requires id in w.objects
    ensures var v := Retired(w, id, keep); id in v.objects && v.objects[id].retired
    ensures Retired(w, id, keep).objects[id].project == w.objects[id].project
  {
  }

  lemma RetiredStays(w: World, id: nat, keep: bool)
    requires id in w.objects && w.objects[id].retired
    ensures Retired(w, id, keep) == w
  {
  }

  /** However often a project is retired, by a reload and a drop at once say, it is released once. */
  lemma RetiredOnce(w: World, id: nat, keep: bool, again: bool)
    requires id in w.objects
    ensures Retired(Retired(w, id, keep), id, again) == Retired(w, id, keep)
    ensures Dropped(Dropped(w, id), id) == Dropped(w, id)
    ensures Retired(Dropped(w, id), id, again) == Dropped(w, id)
  {
    RetiredMarks(w, id, keep);
    RetiredMarks(w, id, false);
    RetiredStays(Retired(w, id, keep), id, again);
    RetiredStays(Dropped(w, id), id, again);
    RetiredStays(Dropped(w, id), id, false);
    hide Retired;
  }

  // ---- A new application port ----

  /** Suspended, retired with its route kept, and replaced. */
  function Restarted(w: World, id: nat, p: Project): World
    requires id in w.objects
  {
    Commissioned(Retired(Suspended(w, id), id, true), p, w.objects[id].tracker, w.objects[id].entry, Some(id))
  }

  /** After suspending and retiring in place, whether or not it had been retired before. */
  function InPlace(w: World, id: nat): World
    requires id in w.objects
  {
    w.(switches := w.switches[w.objects[id].sw := None], objects := w.objects[id := w.objects[id].(retired := true)])
  }

  lemma InPlaceIs(w: World, id: nat)
    requires id in w.objects
    ensures Retired(Suspended(w, id), id, true) == InPlace(w, id)
  {
    if w.objects[id].retired {
      assert w.objects[id := w.objects[id]] == w.objects;
    } else {
      RetiredKept(Suspended(w, id), id);
      assert w.switches[w.objects[id].sw := None][w.objects[id].sw := None] == w.switches[w.objects[id].sw := None];
    }
  }

  lemma SuspendKeeps(w: World, id: nat)
    requires Wired(w) && id in w.objects
    ensures Wired(Suspended(w, id))
  {
    FlagsKeep(w, Suspended(w, id));
  }

  lemma InPlaceWired(w: World, id: nat)
    requires Wired(w) && id in w.objects
    ensures Wired(InPlace(w, id))
  {
    SuspendKeeps(w, id);
    MarkKeeps(Suspended(w, id), id);
  }

  lemma InPlaceOther(w: World, n: string, m: string)
    requires ServingOk(w) && Placed(w, n) && Placed(w, m) && m != n
    ensures Kept(InPlace(w, w.states[n]), w, m)
  {
    Differ(w, n, m);
    if Live(w, n) {
      SwitchesDiffer(w, n, m);
    } else if Live(w, m) {
      SwitchesDiffer(w, m, n);
    }
    Untouched(w, InPlace(w, w.states[n]), n, m, w.objects[w.states[n]].(retired := true));
  }

  /** The swap as one step: as if the old record had been retired where it is, and the new one installed on its switch. */
  lemma RestartInstalls(w: World, n: string, p: Project)
    requires Wired(w) && Registered(w) && Live(w, n) && p.name == n && SameRoute(w.objects[w.states[n]].project, p)
    ensures var u, v, st := InPlace(w, w.states[n]), Restarted(w, w.states[n], p), w.objects[w.states[n]];
      Installed(u, v, st.(project := p)) && Wired(v) && Slot(u, n, st.sw)
  {
    var id := w.states[n];
    InPlaceIs(w, id);
    InPlaceWired(w, id);
    var u, st := InPlace(w, id), w.objects[id];
    assert ServedOk(w, st.sw);
    InheritKeeps(u, p, st.tracker, st.sw);
    InheritInstalls(u, p, st.tracker, st.entry, id);
    OneSwitchEach(w, st.sw);
  }

  lemma KeptTwice(w: World, u: World, v: World, m: string)
    requires Kept(u, w, m) && Kept(v, u, m)
    ensures Kept(v, w, m)
  {
  }

  lemma RestartOther(w: World, n: string, p: Project, m: string)
    requires Wired(w) && Registered(w) && Live(w, n) && p.name == n && SameRoute(w.objects[w.states[n]].project, p)
    requires Placed(w, m) && m != n
    ensures Kept(Restarted(w, w.states[n], p), w, m)
  {
    RestartInstalls(w, n, p);
    InPlaceWired(w, w.states[n]);
    WiredIs(w);
    WiredIs(InPlace(w, w.states[n]));
    hide Restarted, Wired, ServingOk, Registered, Installed;
    InPlaceOther(w, n, m);
    InstalledOther(InPlace(w, w.states[n]), Restarted(w, w.states[n], p), w.objects[w.states[n]].(project := p), m);
    KeptTwice(w, InPlace(w, w.states[n]), Restarted(w, w.states[n], p), m);
  }

  lemma RestartedOthers(w: World, n: string, p: Project)
    requires Wired(w) && Registered(w) && AllPlaced(w) && Live(w, n)
    requires p.name == n && SameRoute(w.objects[w.states[n]].project, p)
    ensures forall m :: m in w.states && m != n ==> Kept(Restarted(w, w.states[n], p), w, m)
  {
    hide Restarted, Wired, Registered, Kept;
    forall m | m in w.states && m != n
      ensures Kept(Restarted(w, w.states[n], p), w, m)
    {
      PlacedAt(w, m);
      RestartOther(w, n, p, m);
    }
  }

  lemma RestartRegistered(w: World, u: World, v: World, st: State)
    requires Registered(w) && u.serving == w.serving && u.states == w.states
    requires Installed(u, v, st) && Slot(u, st.project.name, st.sw)
    ensures Registered(v)
  {
    InstalledRegistered(u, v, st);
  }

  /** Of the swapped project: a new record in the table, with the old one retired. */
  ghost predicate Swapped(w: World, v: World, n: string, p: Project) {
    && At(w, n).Some? && At(v, n) == Some(At(w, n).value.(project := p, retired := false))
    && v.states[n] != w.states[n] && w.states[n] in v.objects && v.objects[w.states[n]].retired
    && forall m :: m in v.states <==> m in w.states
  }

  lemma InstalledIsSwapped(w: World, v: World, n: string, p: Project)
    requires ServingOk(w) && Live(w, n) && p.name == n && Installed(InPlace(w, w.states[n]), v, w.objects[w.states[n]].(project := p))
    ensures Swapped(w, v, n, p) && Live(v, n)
  {
    InstalledNew(InPlace(w, w.states[n]), v, w.objects[w.states[n]].(project := p));
  }

  lemma RestartedItself(w: World, n: string, p: Project)
    requires Wired(w) && Registered(w) && Live(w, n) && p.name == n && SameRoute(w.objects[w.states[n]].project, p)
    ensures var v := Restarted(w, w.states[n], p); Wired(v) && ServingOk(v) && Registered(v) && Live(v, n) && Swapped(w, v, n, p)
  {
    var u, v := InPlace(w, w.states[n]), Restarted(w, w.states[n], p);
    var st := w.objects[w.states[n]].(project := p);
    RestartInstalls(w, n, p);
    WiredIs(v);
    WiredIs(w);
    hide Restarted, Wired, Registered, ServingOk, Slot, Swapped, Installed, Live;
    InstalledIsSwapped(w, v, n, p);
    RestartRegistered(w, u, v, st);
  }

  lemma RestartNamed(w: World, u: World, v: World, st: State)
    requires HostsNamed(w) && u.serving == w.serving && u.entries == w.entries && Installed(u, v, st)
    requires st.sw in w.serving && w.serving[st.sw].entry == st.entry
    requires st.project.host == w.serving[st.sw].project.host && st.project.name == w.serving[st.sw].project.name
    ensures HostsNamed(v)
  {
  }

  lemma RestartedNames(w: World, n: string, p: Project)
    requires Wired(w) && Registered(w) && Live(w, n) && p.name == n && SameRoute(w.objects[w.states[n]].project, p)
    requires HostsNamed(w)
    ensures HostsNamed(Restarted(w, w.states[n], p))
  {
    var u, v := InPlace(w, w.states[n]), Restarted(w, w.states[n], p);
    var st := w.objects[w.states[n]].(project := p);
    assert ServedOk(w, st.sw);
    RestartInstalls(w, n, p);
    hide Restarted, Wired, HostsNamed;
    RestartNamed(w, u, v, st);
  }

  lemma RestartedLosesNone(w: World, n: string, p: Project)
    requires ServingOk(w) && NoneLost(w) && Placed(w, n) && p.name == n
    ensures NoneLost(Restarted(w, w.states[n], p))
  {
    InPlaceIs(w, w.states[n]);
  }

  // ---- Restarting what a drop has taken off its listener ----

  /** What a restart does when the old record has no route to hand over: everything but routing. */
  lemma StrandedIs(w: World, n: string, p: Project)
    requires Off(w, n) && p.name == n && w.states[n] != w.nextId
    ensures var id, v := w.states[n], Restarted(w, w.states[n], p);
      v == w.(states := w.states[n := w.nextId],
              objects := w.objects[id := w.objects[id].(retired := true)][w.nextId := w.objects[id].(project := p, retired := false)],
              switches := v.switches, nextId := w.nextId + 1)
      && v.switches == w.switches[w.objects[id].sw := None][w.nextId := Some(w.nextId)][w.objects[id].sw := Some(w.nextId)]
  {
    InPlaceIs(w, w.states[n]);
  }

  lemma StrandedServing(w: World, n: string, p: Project)
    requires ServingOk(w) && EntriesOk(w) && Off(w, n) && p.name == n
    ensures w.states[n] != w.nextId
    ensures var v := Restarted(w, w.states[n], p); ServingOk(v) && EntriesOk(v)
  {
    StrandedIs(w, n, p);
    NobodyServedAs(w, w.states[n]);
    NobodyIs(w, w.nextId);
    var v := Restarted(w, w.states[n], p);
    EntriesFrame(w, v);
    forall sw | sw in v.serving
      ensures ServedOk(v, sw)
    {
      assert ServedOk(w, sw);
    }
  }

  lemma StrandedOther(w: World, n: string, p: Project, m: string)
    requires ServingOk(w) && Off(w, n) && p.name == n && Placed(w, m) && m != n && w.states[n] != w.nextId
    ensures Kept(Restarted(w, w.states[n], p), w, m)
  {
    StrandedIs(w, n, p);
    Differ(w, n, m);
    if Live(w, m) {
      SwitchesDiffer(w, m, n);
      assert ServedOk(w, w.objects[w.states[m]].sw);
    }
  }

  lemma StrandedSwapped(w: World, n: string, p: Project)
    requires Off(w, n) && p.name == n && w.states[n] != w.nextId
    ensures var v := Restarted(w, w.states[n], p); Swapped(w, v, n, p) && Off(v, n)
  {
    StrandedIs(w, n, p);
  }

  lemma SameHosts(w: World, v: World)
    requires HostsNamed(w) && v.entries == w.entries && v.serving == w.serving
    ensures HostsNamed(v)
  {
  }

  lemma RowMoved(w: World, v: World, n: string)
    requires Registered(w) && n in w.states && v.serving == w.serving && v.states == w.states[n := w.nextId]
    requires forall sw :: sw in w.serving ==> w.serving[sw].id != w.states[n]
    ensures Registered(v)
  {
  }

  lemma StrandedRoutes(w: World, n: string, p: Project)
    requires ServingOk(w) && ListenersOk(w) && Registered(w) && HostsNamed(w) && Off(w, n) && p.name == n && w.states[n] != w.nextId
    ensures var v := Restarted(w, w.states[n], p); ListenersOk(v) && Registered(v) && HostsNamed(v)
  {
    StrandedIs(w, n, p);
    NobodyServedAs(w, w.states[n]);
    var v := Restarted(w, w.states[n], p);
    hide ListenersOk, ServingOk, Restarted, Registered, HostsNamed;
    SameListeners(w, v);
    SameHosts(w, v);
    RowMoved(w, v, n);
  }

  lemma StrandedOthers(w: World, n: string, p: Project)
    requires ServingOk(w) && AllPlaced(w) && Off(w, n) && p.name == n && w.states[n] != w.nextId
    ensures forall m :: m in w.states && m != n ==> Kept(Restarted(w, w.states[n], p), w, m)
  {
    hide Restarted, ServingOk, Kept;
    forall m | m in w.states && m != n
      ensures Kept(Restarted(w, w.states[n], p), w, m)
    {
      PlacedAt(w, m);
      StrandedOther(w, n, p, m);
    }
  }

  lemma SwappedRows(w: World, n: string, p: Project)
    requires Off(w, n) && Swapped(w, Restarted(w, w.states[n], p), n, p)
    ensures forall m :: m in Restarted(w, w.states[n], p).states ==> m in w.states
  {
    hide Restarted;
  }

  lemma StrandedAtRest(w: World, n: string, p: Project)
    requires AtRest(w) && HostsNamed(w) && Off(w, n) && p.name == n
    ensures w.states[n] != w.nextId
    ensures var v := Restarted(w, w.states[n], p);
      && AtRest(v) && HostsNamed(v) && Swapped(w, v, n, p) && Off(v, n)
      && forall m :: m in v.states && m != n ==> Kept(v, w, m)
  {
    StrandedServing(w, n, p);
    StrandedSwapped(w, n, p);
    StrandedRoutes(w, n, p);
    var v := Restarted(w, w.states[n], p);
    RestartedLosesNone(w, n, p);
    StrandedOthers(w, n, p);
    SwappedRows(w, n, p);
    hide Restarted, ServingOk, EntriesOk, ListenersOk, Registered, HostsNamed, Kept, Swapped, Off, NoneLost;
    KeptButOne(v, w, n);
  }

  // ---- Restarting whatever the table holds ----

  /**
   A restart swaps the record the table holds, and leaves everybody else alone; the new project is in
   service if and only if the old one was. What a drop had already taken off its listener stays off.
   */
  lemma RestartedAtRest(w: World, n: string, p: Project)
    requires AtRest(w) && HostsNamed(w) && IsDynamic(w, n) && p.name == n && SameRoute(At(w, n).value.project, p)
    ensures var v := Restarted(w, w.states[n], p);
      && AtRest(v) && HostsNamed(v) && Swapped(w, v, n, p) && (Live(v, n) <==> Live(w, n))
      && forall m :: m in v.states && m != n ==> Kept(v, w, m)
  {
    PlacedAt(w, n);
    var v := Restarted(w, w.states[n], p);
    if Live(w, n) {
      RestartedItself(w, n, p);
      RestartedNames(w, n, p);
      RestartedOthers(w, n, p);
      RestartedLosesNone(w, n, p);
      hide Restarted, Wired, ServingOk, Registered, HostsNamed, Kept, NoneLost;
      KeptButOne(v, w, n);
    } else {
      StrandedAtRest(w, n, p);
    }
  }

  /** A request for the registered project's own host reaches it. */
  ghost predicate IsRouted(w: World, n: string) {
    At(w, n).Some? && var p := At(w, n).value.project; Route(w, ListenAddr(p), p.host) == ToState(w.states[n])
  }

  lemma RoutedIsLive(w: World, n: string)
    requires AtRest(w)
    ensures IsRouted(w, n) <==> Live(w, n)
  {
    if Live(w, n) {
      LiveIsRouted(w, n, w.objects[w.states[n]].project.host);
    }
    if IsRouted(w, n) {
      var p := At(w, n).value.project;
      PlacedAt(w, n);
      var m := RoutedFrom(w, ListenAddr(p), p.host);
    }
  }

  /** After a restart the project is routed if and only if its old record still had its listener. */
  lemma RestartedIsRouted(w: World, n: string, p: Project)
    requires AtRest(w) && HostsNamed(w) && IsDynamic(w, n) && p.name == n && SameRoute(At(w, n).value.project, p)
    ensures IsRouted(Restarted(w, w.states[n], p), n) <==> At(w, n).value.bind.Some?
  {
    RestartedAtRest(w, n, p);
    PlacedAt(w, n);
    if Live(w, n) {
      assert ServedOk(w, w.objects[w.states[n]].sw);
    }
    hide Restarted, AtRest, HostsNamed;
    RoutedIsLive(Restarted(w, w.states[n], p), n);
  }

  /** A request for a project that is off its listener is handed to its entry's resolver, which finds the name taken. */
  lemma OffMeetsResolver(w: World, n: string, m: string)
    requires AtRest(w) && HostsNamed(w) && Off(w, n) && m in w.entries && IsWorktree(w.entries[m].entry, At(w, n).value.project)
    ensures var p := At(w, n).value.project; Route(w, ListenAddr(p), p.host) == Resolver(w.entries[m].id)
  {
    var p, e := At(w, n).value.project, w.entries[m];
    var a := ListenAddr(p);
    assert EntryOk(w, m);
    if w.listeners[a].catchAll.Some? || p.host in w.listeners[a].hosts {
      var k := RoutedFrom(w, a, p.host);
      var sw := w.objects[w.states[k]].sw;
      assert ServedOk(w, sw) && sw in Members(w.serving, a);
      MembersAreItsOwn(w, m, sw);
      HostsDiffer(e.entry, k, n);
      assert false;
    }
  }

  /** A project in service that a drop has begun to take away, and a restart has replaced before the row was deleted. */
  function Stranded(w: World, n: string, p: Project): World
    requires n in w.states && w.states[n] in w.objects
  {
    RetiredMarks(w, w.states[n], false);
    Restarted(Retired(w, w.states[n], false), w.states[n], p)
  }

  lemma LeftAlone(w: World, n: string)
    requires ServingOk(w) && ListenersOk(w) && Live(w, n)
    ensures var u, id := Retired(w, w.states[n], false), w.states[n];
      At(u, n) == Some(w.objects[id].(bind := None, retired := true)) && u.entries == w.entries
    ensures IsDynamic(w, n) <==> w.objects[w.states[n]].entry.Some?
  {
    hide Retired, Detached, ListenersOk;
    LeftIs(w, n);
    assert ServedOk(w, w.objects[w.states[n]].sw);
  }

  lemma StrandedEntries(w: World, n: string, p: Project)
    requires n in w.states && w.states[n] in w.objects
    ensures Stranded(w, n, p).entries == w.entries
  {
  }

  lemma ItsOwnAddress(w: World, n: string, m: string)
    requires EntriesOk(w) && ListenersOk(w) && ServingOk(w) && HostsNamed(w)
    requires Live(w, n) && m in w.entries && At(w, n).value.entry == Some(w.entries[m].id)
    ensures IsWorktree(w.entries[m].entry, At(w, n).value.project)
  {
    var sw := w.objects[w.states[n]].sw;
    assert ServedOk(w, sw);
    var a := ListenAddr(w.serving[sw].project);
    assert ListenerOk(w.listeners[a], w.serving, Members(w.serving, a)) && sw in Members(w.serving, a);
    var k :| Owns(w, k, a);
  }

  lemma StrandedIsOff(w: World, n: string, m: string, p: Project)
    requires AtRest(w) && HostsNamed(w) && Live(w, n) && m in w.entries && At(w, n).value.entry == Some(w.entries[m].id)
    requires p.name == n && SameRoute(At(w, n).value.project, p)
    ensures var v := Stranded(w, n, p);
      && AtRest(v) && HostsNamed(v) && Off(v, n) && !Live(v, n) && At(v, n) == Some(At(w, n).value.(project := p, retired := false, bind := None))
      && v.entries == w.entries && IsWorktree(w.entries[m].entry, p)
  {
    ItsOwnAddress(w, n, m);
    LeftAlone(w, n);
    DropBegun(w, n);
    StrandedEntries(w, n, p);
    hide AtRest, HostsNamed, Restarted, Retired;
    StrandedAtRest(Retired(w, w.states[n], false), n, p);
  }

  /**
   So "a registered project that is not retired is routed" fails of the code whenever the two meet:
   the project is in the table for good, its requests go to the resolver, and the resolver may not
   register the name again.
   */
  lemma DropThenRestartStrands(w: World, n: string, m: string, p: Project)
    requires AtRest(w) && HostsNamed(w) && Live(w, n) && m in w.entries && At(w, n).value.entry == Some(w.entries[m].id)
    requires p.name == n && SameRoute(At(w, n).value.project, p)
    ensures var v := Stranded(w, n, p);
      && AtRest(v) && HostsNamed(v) && At(v, n).Some? && !At(v, n).value.retired && At(v, n).value.project == p && !IsRouted(v, n)
      && Route(v, ListenAddr(p), p.host) == Resolver(w.entries[m].id)
  {
    var v := Stranded(w, n, p);
    StrandedIsOff(w, n, m, p);
    hide AtRest, HostsNamed, Stranded;
    RoutedIsLive(v, n);
    OffMeetsResolver(v, n, m);
  }

  /** The smallest such input: a daemon with one entry, and one worktree that has been asked for once. */
  lemma StrandedOnce(e: Entry, p: Project, q: Project)
    requires IsWorktree(e, p) && q.name == p.name && SameRoute(p, q)
    ensures var w := Materialised(EntryBound(EMPTY, e), e.name, p, 1);
      && AtRest(w) && IsRouted(w, p.name)
      && var v := Stranded(w, p.name, q);
        AtRest(v) && At(v, p.name).Some? && !At(v, p.name).value.retired && !IsRouted(v, p.name)
  {
    var b := EntryBound(EMPTY, e);
    EntryBoundKeeps(EMPTY, e);
    MaterialisedAtRest(b, e.name, p, 1);
    var w := Materialised(b, e.name, p, 1);
    assert Live(w, p.name) && w.entries == b.entries;
    hide Materialised;
    RoutedIsLive(w, p.name);
    DropThenRestartStrands(w, p.name, e.name, q);
  }
}
