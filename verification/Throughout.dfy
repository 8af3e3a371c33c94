/**
 What requests meet while a reload is under way, at every point from the first suspended switch to the
 last entry bound: whoever stays answers as before, and a kept route is never lost.
 */
module Throughout {
  import opened Options
  import opened Config
  import opened Routing
  import opened Rest
  import opened Teardown
  import opened Rebuild
  import opened Carryover

  /** Where a reload may be; the methods of the daemon keep these facts through each of their loops. */
  datatype Phase =
    // Suspending and taking rows off; held are the changed projects dealt with.
    | Detaching(changed: set<string>, held: set<string>)
    // Waiting for processes; of all that goes, done has been retired.
    | Retiring(detached: World, goes: map<nat, bool>, done: map<nat, bool>)
    // Closing the listeners of entries that go.
    | Unbinding(gone: map<nat, bool>)
    // todo is still to be commissioned.
    | Building(base: map<nat, State>, todo: set<string>)

  ghost predicate Changes(w0: World, c: Config, names: set<string>) {
    forall n :: n in names <==> n in c.projects && n in w0.states && !Unchanged(w0, c, n)
  }

  /** Every changed project that keeps its route is suspended, and nobody else. */
  ghost predicate Suspends(w0: World, wA: World, c: Config, changed: set<string>) {
    SwitchesOutside(w0, wA.switches, changed) && RoutesHeld(w0, c, wA.switches, changed)
  }

  ghost predicate Midway(w: World, w0: World, c: Config, phase: Phase) {
    match phase
    case Detaching(changed, held) =>
      && w == w0.(states := w.states, switches := w.switches) && Changes(w0, c, changed)
      && SwitchesOutside(w0, w.switches, changed) && RoutesHeld(w0, c, w.switches, held)
    case Retiring(wA, goes, done) =>
      && wA == w0.(states := wA.states, switches := wA.switches) && Recorded(w0, c, Goes(w0, c), goes)
      && (exists changed :: Changes(w0, c, changed) && Suspends(w0, wA, c, changed))
      && RetiredSome(wA, w, done) && (forall id :: id in done ==> id in goes && done[id] == goes[id])
      && Wired(w)
    case Unbinding(gone) => TornDown(w0, w, c, gone) && Wired(w)
    case Building(base, todo) => Rebuilding(w, w0, c, base, todo)
  }

  /** The very switch of project n is routed where it was, under the same configuration. */
  predicate StillRouted(w: World, w0: World, n: string) {
    && At(w0, n).Some?
    && var sw := At(w0, n).value.sw;
      && sw in w.serving && w.serving[sw].project.host == At(w0, n).value.project.host
      && ListenAddr(w.serving[sw].project) == ListenAddr(At(w0, n).value.project)
  }

  predicate Asks(w0: World, n: string, host: string) {
    At(w0, n).Some? && (At(w0, n).value.project.host == "" || At(w0, n).value.project.host == host)
  }

  lemma ThroughItsSwitch(w: World, w0: World, n: string, host: string)
    requires Wired(w) && StillRouted(w, w0, n) && Asks(w0, n, host)
    ensures Route(w, ListenAddr(At(w0, n).value.project), host) == Through(w, At(w0, n).value.sw)
  {
    var sw := At(w0, n).value.sw;
    var a := ListenAddr(w.serving[sw].project);
    assert sw in Members(w.serving, a);
    RoutedTo(w.listeners[a], w.serving, Members(w.serving, a), sw, host);
  }

  /** The switch of a project that stays serves the same record as ever. */
  predicate SameAnswer(w: World, w0: World, n: string) {
    StillRouted(w, w0, n) && n in w0.states && Through(w, At(w0, n).value.sw) == ToState(w0.states[n])
  }

  // ---- Detaching ----

  lemma DetachingIs(w: World, w0: World, c: Config, changed: set<string>, n: string)
    requires Matched(w0) && Live(w0, n) && w.serving == w0.serving && Changes(w0, c, changed) && SwitchesOutside(w0, w.switches, changed)
    ensures StillRouted(w, w0, n) && Through(w, At(w0, n).value.sw) in {ToState(w0.states[n]), Parked}
    ensures Stays(w0, c, n) ==> SameAnswer(w, w0, n)
  {
    assert ServedOk(w0, w0.objects[w0.states[n]].sw);
  }

  lemma SuspendedNow(w: World, w0: World, c: Config, held: set<string>, n: string)
    requires RoutesHeld(w0, c, w.switches, held) && n in held && KeepsRoute(w0, c, n)
    ensures Through(w, At(w0, n).value.sw) == Parked
  {
  }

  // ---- Retiring ----

  lemma StaysThroughRetiring(w: World, wA: World, w0: World, c: Config, goes: map<nat, bool>, done: map<nat, bool>, n: string)
    requires Recorded(w0, c, Goes(w0, c), goes) && RetiredSome(wA, w, done) && wA.serving == w0.serving
    requires forall id :: id in done ==> id in goes
    requires SameAnswer(wA, w0, n) && Stays(w0, c, n) && Live(w0, n)
    ensures SameAnswer(w, w0, n)
  {
    assert w0.states[n] !in done;
  }

  lemma KeptThroughRetiring(w: World, wA: World, w0: World, c: Config, goes: map<nat, bool>, done: map<nat, bool>, n: string)
    requires Recorded(w0, c, Goes(w0, c), goes) && RetiredSome(wA, w, done) && wA.serving == w0.serving && wA.objects == w0.objects
    requires forall id :: id in done ==> id in goes && done[id] == goes[id]
    requires StillRouted(wA, w0, n) && KeepsRoute(w0, c, n) && Live(w0, n) && Through(wA, At(w0, n).value.sw) == Parked
    ensures StillRouted(w, w0, n) && Through(w, At(w0, n).value.sw) == Parked
  {
    var id, sw := w0.states[n], At(w0, n).value.sw;
    assert id in done ==> done[id];
    assert IsSuspended(w.switches, sw) || sw !in wA.switches;
  }

  lemma KeptIsConfigured(w0: World, c: Config, n: string)
    requires KeepsRoute(w0, c, n)
    ensures n in c.projects && n in w0.states
  {
  }

  lemma DetachedAnswers(w: World, w0: World, c: Config, changed: set<string>, n: string)
    requires Matched(w0) && Live(w0, n) && w.serving == w0.serving && Changes(w0, c, changed) && Suspends(w0, w, c, changed)
    ensures Stays(w0, c, n) ==> SameAnswer(w, w0, n)
    ensures KeepsRoute(w0, c, n) && !Unchanged(w0, c, n) ==> StillRouted(w, w0, n) && Through(w, At(w0, n).value.sw) == Parked
  {
    hide Matched, Stays, StillRouted, SameAnswer, SwitchesOutside, RoutesHeld, Live;
    DetachingIs(w, w0, c, changed, n);
    if KeepsRoute(w0, c, n) && !Unchanged(w0, c, n) {
      KeptIsConfigured(w0, c, n);
      SuspendedNow(w, w0, c, changed, n);
    }
  }

  lemma RetiringIs(w: World, w0: World, c: Config, wA: World, goes: map<nat, bool>, done: map<nat, bool>, n: string)
    requires Matched(w0) && Live(w0, n) && Midway(w, w0, c, Retiring(wA, goes, done))
    ensures Stays(w0, c, n) ==> SameAnswer(w, w0, n)
    ensures KeepsRoute(w0, c, n) && !Unchanged(w0, c, n) ==> StillRouted(w, w0, n) && Through(w, At(w0, n).value.sw) == Parked
  {
    var changed :| Changes(w0, c, changed) && Suspends(w0, wA, c, changed);
    hide Matched, Recorded, RetiredSome, Stays, KeepsRoute, Unchanged, StillRouted, SameAnswer, Through, Wired, Live;
    DetachedAnswers(wA, w0, c, changed, n);
    if Stays(w0, c, n) {
      StaysThroughRetiring(w, wA, w0, c, goes, done, n);
    }
    if KeepsRoute(w0, c, n) && !Unchanged(w0, c, n) {
      KeptThroughRetiring(w, wA, w0, c, goes, done, n);
    }
  }

  lemma DetachedIsMidway(w: World, w0: World, c: Config, changed: set<string>, goes: map<nat, bool>)
    requires w == w0.(states := w.states, switches := w.switches) && Wired(w) && Changes(w0, c, changed)
    requires Recorded(w0, c, Goes(w0, c), goes) && Suspends(w0, w, c, changed)
    ensures Midway(w, w0, c, Retiring(w, goes, map[]))
  {
    NobodyRetired(w);
  }

  lemma RetiredIsMidway(w: World, v: World, w0: World, c: Config, wA: World, goes: map<nat, bool>, done: map<nat, bool>, id: nat)
    requires Midway(w, w0, c, Retiring(wA, goes, done)) && id in goes
    requires RetiredSome(wA, v, done[id := goes[id]]) && Wired(v)
    ensures Midway(v, w0, c, Retiring(wA, goes, done[id := goes[id]]))
  {
    hide RetiredSome, Wired, Recorded, Suspends, Changes;
  }

  // ---- Unbinding and building ----

  /** Closing a listener nobody is on. */
  lemma VacantUnbound(w: World, v: World, w0: World, c: Config, gone: map<nat, bool>, m: string)
    requires IsVacant(w, m) && v == w.(entries := v.entries, listeners := v.listeners) && m in v.entries && v.entries[m] == w.entries[m]
    requires Midway(v, w0, c, Unbinding(gone)) && Wired(EntryUnbound(v, m))
    ensures var u := EntryUnbound(v, m);
      && u == v.(entries := v.entries - {m}, listeners := v.listeners - {EntryAddr(v.entries[m].entry)})
      && Midway(u, w0, c, Unbinding(gone))
  {
    hide Wired;
    EntryUnboundEmpty(v, m);
  }

  lemma LiveAnswers(w: World, w0: World, n: string)
    requires Live(w0, n) && Live(w, n) && ServingOk(w) && Kept(w, w0, n)
    ensures SameAnswer(w, w0, n)
  {
    assert ServedOk(w, w.objects[w.states[n]].sw);
  }

  lemma WaitingAnswers(w: World, w0: World, c: Config, n: string)
    requires Waiting(w, w0, c, n)
    ensures StillRouted(w, w0, n) && Through(w, At(w0, n).value.sw) == Parked
  {
  }

  lemma RebuiltAnswers(w: World, w0: World, c: Config, n: string)
    requires ServingOk(w) && Rebuilt(w, w0, c, n) && KeepsRoute(w0, c, n)
    ensures StillRouted(w, w0, n) && Through(w, At(w0, n).value.sw) == ToState(w.states[n])
  {
    assert ServedOk(w, w.objects[w.states[n]].sw);
  }

  lemma StaysWhileBuilding(w: World, w0: World, c: Config, base: map<nat, State>, todo: set<string>, n: string)
    requires Rebuilding(w, w0, c, base, todo) && Stays(w0, c, n) && Live(w0, n)
    ensures Live(w, n) && Kept(w, w0, n)
  {
    assert n in todo ==> Pending(w, w0, c, n);
    assert n in c.projects ==> Rebuilt(w, w0, c, n);
    assert n !in c.projects ==> Kept(w, w0, n);
  }

  lemma BuildingIs(w: World, w0: World, c: Config, base: map<nat, State>, todo: set<string>, n: string)
    requires Rebuilding(w, w0, c, base, todo) && Live(w0, n)
    ensures Stays(w0, c, n) ==> SameAnswer(w, w0, n)
    ensures KeepsRoute(w0, c, n) && !Unchanged(w0, c, n) ==>
      StillRouted(w, w0, n) && Through(w, At(w0, n).value.sw) == if n in todo then Parked else ToState(w.states[n])
    ensures KeepsRoute(w0, c, n) && n !in todo ==> n in w.states && Rebuilt(w, w0, c, n)
  {
    RebuildingIs(w, w0, c, base, todo);
    hide Wired, Registered, Fits, EntriesFit, Grown, Accounted, SameAnswer, StillRouted, Live, Kept;
    if Stays(w0, c, n) {
      StaysWhileBuilding(w, w0, c, base, todo, n);
      LiveAnswers(w, w0, n);
    }
    if KeepsRoute(w0, c, n) && !Unchanged(w0, c, n) && n in todo {
      assert Pending(w, w0, c, n);
      WaitingAnswers(w, w0, c, n);
    }
    if KeepsRoute(w0, c, n) && n !in todo {
      RebuiltAnswers(w, w0, c, n);
    }
  }

  // ---- The whole ----

  /** What a project on a kept route may answer: as before until it is suspended, then nothing, then the new project. */
  ghost predicate KeptAnswer(w: World, w0: World, phase: Phase, n: string, answer: Answer)
    requires n in w0.states
  {
    match phase
    case Detaching(changed, held) => answer == Parked || (answer == ToState(w0.states[n]) && n !in held)
    case Building(base, todo) => if n in todo then answer == Parked else n in w.states && answer == ToState(w.states[n])
    case _ => answer == Parked
  }

  lemma MidwayIsWired(w: World, w0: World, c: Config, phase: Phase)
    requires AtRest(w0) && Midway(w, w0, c, phase)
    ensures Wired(w)
  {
    if phase.Detaching? {
      FlagsKeep(w0, w);
    }
  }

  lemma PhaseIs(w: World, w0: World, c: Config, phase: Phase, n: string)
    requires AtRest(w0) && Midway(w, w0, c, phase) && Live(w0, n)
    ensures Stays(w0, c, n) ==> SameAnswer(w, w0, n)
    ensures KeepsRoute(w0, c, n) && !Unchanged(w0, c, n) ==>
      StillRouted(w, w0, n) && KeptAnswer(w, w0, phase, n, Through(w, At(w0, n).value.sw))
  {
    hide Recorded, RetiredSome, Stays, KeepsRoute, StillRouted, SameAnswer, SwitchesOutside, Rebuilding, Wired, Matched, TornDown, NoneLost;
    match phase
    case Detaching(changed, held) =>
      DetachingIs(w, w0, c, changed, n);
      if KeepsRoute(w0, c, n) && n in held {
        SuspendedNow(w, w0, c, held, n);
      }
    case Retiring(wA, goes, done) => RetiringIs(w, w0, c, wA, goes, done, n);
    case Unbinding(gone) =>
      WiredIs(w);
      if Stays(w0, c, n) {
        StaysLive(w0, w, c, gone, n);
        LiveAnswers(w, w0, n);
      }
      if KeepsRoute(w0, c, n) && !Unchanged(w0, c, n) {
        RouteIsWaiting(w0, w, c, gone, n);
        WaitingAnswers(w, w0, c, n);
      }
    case Building(base, todo) => BuildingIs(w, w0, c, base, todo, n);
  }

  /**
   All through a reload, every project that stays is answered by the very same record, and a request for a
   changed project on a kept route reaches the old one, waits once that is suspended, or reaches the new one.
   */
  lemma ThroughoutReload(w: World, w0: World, c: Config, phase: Phase, n: string, host: string)
    requires AtRest(w0) && Midway(w, w0, c, phase) && Live(w0, n) && Asks(w0, n, host)
    ensures var answer := Route(w, ListenAddr(At(w0, n).value.project), host);
      && (Stays(w0, c, n) ==> answer == ToState(w0.states[n]))
      && (KeepsRoute(w0, c, n) && !Unchanged(w0, c, n) ==> KeptAnswer(w, w0, phase, n, answer))
  {
    PhaseIs(w, w0, c, phase, n);
    MidwayIsWired(w, w0, c, phase);
    hide AtRest, Wired, Stays, KeepsRoute, Unchanged, StillRouted, Live, Midway;
    if StillRouted(w, w0, n) {
      ThroughItsSwitch(w, w0, n, host);
    }
  }

  // ---- By the fields of the configuration ----

  lemma StaticIsLive(w: World, n: string)
    requires AtRest(w) && IsStatic(w, n)
    ensures Live(w, n) && w.objects[w.states[n]].sw < w.nextId && w.states[n] < w.nextId
  {
    assert Placed(w, n);
    assert ServedOk(w, w.objects[w.states[n]].sw);
  }

  /**
   What a configured project keeps in a reload, whatever changes: its tracker; its switch exactly if it is reached the
   same way, at one listen address, supervisor port and hostname; and its very record exactly if nothing about it
   changes but where it was read from.
   */
  lemma KeptByItsFields(w0: World, w: World, c: Config, n: string)
    requires Loaded(c) && AtRest(w0) && Reloaded(w0, w, c) && n in c.projects
    requires n in w0.states && w0.states[n] in w0.objects && !w0.objects[w0.states[n]].dynamic
    ensures n in w.states && w.states[n] in w.objects
    ensures var was, st, q := w0.objects[w0.states[n]], w.objects[w.states[n]], c.projects[n]; var p := was.project;
      && st.tracker == was.tracker
      && (st.sw == was.sw <==> p.listenHost == q.listenHost && p.supervisorPort == q.supervisorPort && p.host == q.host)
      && (w.states[n] == w0.states[n] <==> p.(source := "") == q.(source := ""))
      && (w.states[n] == w0.states[n] ==> st == was)
      && st.project.(source := "") == q.(source := "")
  {
    assert IsStatic(w0, n) && Rebuilt(w, w0, c, n);
    StaticIsLive(w0, n);
  }

  /** An entry keeps its listener and its resolver exactly if nothing about it changes but its cap. */
  lemma EntryKeptByItsFields(w0: World, w: World, c: Config, m: string)
    requires Loaded(c) && AtRest(w0) && Reloaded(w0, w, c) && m in w0.entries && m in Wanted(c.entries)
    ensures m in w.entries
    ensures w.entries[m] == w0.entries[m] <==> w0.entries[m].entry.(maxRunning := 0) == Wanted(c.entries)[m].(maxRunning := 0)
    ensures w.entries[m] != w0.entries[m] ==> w.entries[m].id != w0.entries[m].id
  {
    assert EntryOk(w0, m);
  }

  lemma LeavesWithItsEntry(w: World, c: Config, n: string, m: string)
    requires AtRest(w) && OfEntry(w, n, m) && n !in c.projects
    ensures Leaves(w, c, n) <==> !EntryStays(w, c, m)
  {
    assert forall k :: OfEntry(w, n, k) ==> k == m;
    hide EntryStays;
  }

  /** A worktree's project keeps its record, and so everything, exactly if its entry is kept; else it is gone. */
  lemma WorktreeKeptWithItsEntry(w0: World, w: World, c: Config, n: string, m: string)
    requires Loaded(c) && AtRest(w0) && Reloaded(w0, w, c) && n !in c.projects
    requires n in w0.states && w0.states[n] in w0.objects && w0.objects[w0.states[n]].dynamic
    requires m in w0.entries && w0.objects[w0.states[n]].entry == Some(w0.entries[m].id)
    ensures n in w.states <==>
      m in Wanted(c.entries) && w0.entries[m].entry.(maxRunning := 0) == Wanted(c.entries)[m].(maxRunning := 0)
    ensures n in w.states ==>
      w.states[n] == w0.states[n] && w.states[n] in w.objects && w.objects[w.states[n]] == w0.objects[w0.states[n]]
  {
    assert OfEntry(w0, n, m) && OthersKept(w, w0, c);
    LeavesWithItsEntry(w0, c, n, m);
    hide AtRest, Reloaded, Loaded, Leaves;
    assert n in w.states ==> Kept(w, w0, n);
  }

  /**
   A project whose listen address, port and hostname stay is never without a route in a reload, whatever else about
   it changes: at every point its requests reach its old record, or wait, or reach the new one.
   */
  lemma RouteIsNeverLost(w: World, w0: World, c: Config, phase: Phase, n: string, host: string)
    requires AtRest(w0) && Midway(w, w0, c, phase) && n in c.projects
    requires n in w0.states && w0.states[n] in w0.objects && !w0.objects[w0.states[n]].dynamic
    requires var p, q := w0.objects[w0.states[n]].project, c.projects[n];
      && p.listenHost == q.listenHost && p.supervisorPort == q.supervisorPort && p.host == q.host
      && (p.host == "" || p.host == host)
    ensures var answer := Route(w, Address(c.projects[n].listenHost, c.projects[n].supervisorPort), host);
      answer == ToState(w0.states[n]) || answer == Parked || (n in w.states && answer == ToState(w.states[n]))
  {
    StaticIsLive(w0, n);
    assert n in w0.states && (Unchanged(w0, c, n) ==> Stays(w0, c, n));
    assert KeepsRoute(w0, c, n);
    assert ListenAddr(w0.objects[w0.states[n]].project) == ListenAddr(c.projects[n]);
    hide AtRest, Midway, Live;
    ThroughoutReload(w, w0, c, phase, n, host);
  }
}
