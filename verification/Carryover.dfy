/**
 What a reload carries over: identities, trackers, routes; and the state of a rebuild that has still
 some projects to do.
 */
module Carryover {
  import opened Options
  import opened Config
  import opened Routing
  import opened Rest
  import opened Teardown
  import opened Rebuild

  /** Project n is as the new configuration has it, and has kept what it is entitled to keep. */
  ghost predicate Rebuilt(w: World, w0: World, c: Config, n: string) {
    && n in c.projects && Live(w, n) && IsStatic(w, n) && At(w, n).value.project.Equivalent(c.projects[n])
    && (At(w0, n).Some? ==> At(w, n).value.tracker == At(w0, n).value.tracker)
    && (Unchanged(w0, c, n) ==> w.states[n] == w0.states[n] && At(w, n) == At(w0, n))
    && (KeepsRoute(w0, c, n) ==> At(w, n).value.sw == At(w0, n).value.sw)
    // All else is new: a changed project's record, and the switch of a route that is not kept.
    && (!Unchanged(w0, c, n) ==> w.states[n] >= w0.nextId)
    && (!KeepsRoute(w0, c, n) ==> At(w, n).value.sw >= w0.nextId)
  }

  /** The very same record, in service if it was. */
  ghost predicate Kept(w: World, w0: World, n: string) {
    && Placed(w, n) && n in w0.states && w.states[n] == w0.states[n] && At(w, n) == At(w0, n)
    && (Live(w0, n) ==> Live(w, n))
  }

  /** Of the projects that are not in the configuration, exactly those of surviving entries are there, untouched. */
  ghost predicate OthersKept(w: World, w0: World, c: Config) {
    && (forall n :: n in w.states && n !in c.projects ==> Stays(w0, c, n) && Kept(w, w0, n))
    && (forall n :: n !in c.projects && Stays(w0, c, n) ==> n in w.states)
  }

  /** No record is forgotten, and what was retired, is. */
  ghost predicate RetiredForGood(w: World, w0: World) {
    forall id :: id in w0.objects ==> id in w.objects && (w0.objects[id].retired ==> w.objects[id].retired)
  }

  /** Whoever is not left in service is retired, for good. */
  ghost predicate RestRetired(w: World, w0: World, c: Config) {
    && (forall n :: n in w0.states && !Stays(w0, c, n) ==> w0.states[n] in w.objects && w.objects[w0.states[n]].retired)
    && RetiredForGood(w, w0)
  }

  /** An unchanged entry is the very same, listener and resolver included; any other is new. */
  ghost predicate EntriesCarried(w: World, w0: World, c: Config) {
    && (forall m :: EntryStays(w0, c, m) ==> m in w.entries && w.entries[m] == w0.entries[m])
    && (forall m :: m in w.entries && !EntryStays(w0, c, m) ==> w.entries[m].id >= w0.nextId)
  }

  /** now is before with new entries added. */
  ghost predicate OnlyNew(before: map<string, EntryState>, now: map<string, EntryState>, from: nat) {
    && (forall m :: m in before ==> m in now && now[m] == before[m])
    && (forall m :: m in now && m !in before ==> now[m].id >= from)
  }

  ghost predicate Carried(w: World, w0: World, c: Config) {
    && (forall n :: n in c.projects ==> Rebuilt(w, w0, c, n))
    && OthersKept(w, w0, c) && RestRetired(w, w0, c)
  }

  /** What a reload is for: v serves the new configuration, with everything carried over from w, or nothing has changed. */
  ghost predicate Reloaded(w: World, v: World, c: Config) {
    if Loaded(c) then AtRest(v) && Serves(v, c) && Carried(v, w, c) && EntriesCarried(v, w, c)
    else v == w
  }

  /** The old record still holds the route, suspended, for its replacement. */
  ghost predicate Waiting(w: World, w0: World, c: Config, n: string) {
    && KeepsRoute(w0, c, n) && n in w.states && w.states[n] == w0.states[n] && w.states[n] in w.objects
    && var sw := w.objects[w.states[n]].sw;
      && sw == At(w0, n).value.sw && sw in w.serving && w.serving[sw].id == w.states[n] && w.serving[sw].entry == None
      && w.serving[sw].project.name == n && SameRoute(w.serving[sw].project, c.projects[n])
      && IsSuspended(w.switches, sw)
  }

  ghost predicate Pending(w: World, w0: World, c: Config, n: string) {
    && n in c.projects && !Unchanged(w0, c, n)
    && if KeepsRoute(w0, c, n) then Waiting(w, w0, c, n) else NobodyServes(w, n)
  }

  predicate Grown(base: map<nat, State>, now: map<nat, State>) {
    forall id :: id in base ==> id in now && now[id] == base[id]
  }

  ghost predicate AllPending(w: World, w0: World, c: Config, todo: set<string>) {
    forall n :: n in todo ==> Pending(w, w0, c, n)
  }

  ghost predicate AllRebuilt(w: World, w0: World, c: Config, todo: set<string>) {
    forall n :: n in c.projects && n !in todo ==> Rebuilt(w, w0, c, n)
  }

  /** A rebuild with todo still to do; base are the records as the teardown left them. */
  ghost predicate Rebuilding(w: World, w0: World, c: Config, base: map<nat, State>, todo: set<string>) {
    && Wired(w) && Registered(w) && Fits(w, c) && EntriesFit(w, c) && Grown(base, w.objects) && Accounted(w, todo)
    && AllPending(w, w0, c, todo) && AllRebuilt(w, w0, c, todo) && OthersKept(w, w0, c) && w.nextId >= w0.nextId
  }

  lemma SameEntries(entries: map<string, EntryState>, from: nat)
    ensures OnlyNew(entries, entries, from)
  {
  }

  lemma OneEntryMore(before: map<string, EntryState>, now: map<string, EntryState>, from: nat, m: string, es: EntryState)
    requires OnlyNew(before, now, from) && m !in now && es.id >= from
    ensures OnlyNew(before, now[m := es], from)
  {
  }

  lemma EntriesAreCarried(w0: World, w: World, c: Config, gone: set<string>, from: nat)
    requires forall m :: m in gone <==> m in w0.entries && !EntryStays(w0, c, m)
    requires OnlyNew(w0.entries - gone, w.entries, from) && from >= w0.nextId
    ensures EntriesCarried(w, w0, c)
  {
  }

  lemma LessOne(todo: set<string>, rest: set<string>, n: string)
    requires n in todo && n !in rest
    ensures todo + rest - {n} == todo - {n} + rest
  {
  }

  // ---- No record is lost ----

  lemma InstalledAccounted(w: World, v: World, st: State, todo: set<string>)
    requires ServingOk(w) && Accounted(w, todo) && Installed(w, v, st)
    requires st.project.name in todo || st.project.name !in w.states
    ensures Accounted(v, todo - {st.project.name})
  {
  }

  // ---- One project commissioned ----

  /** sw is where n is served, or an unused one if n is not. */
  ghost predicate Slot(w: World, n: string, sw: nat) {
    forall t :: t in w.serving ==> (w.serving[t].project.name == n <==> t == sw)
  }

  lemma InstalledRegistered(w: World, v: World, st: State)
    requires Installed(w, v, st) && Slot(w, st.project.name, st.sw) && Registered(w)
    ensures Registered(v)
  {
  }

  lemma InstalledFits(w: World, v: World, st: State, c: Config)
    requires Installed(w, v, st) && Slot(w, st.project.name, st.sw) && Fits(w, c)
    requires st.entry == None && st.project.name in c.projects && c.projects[st.project.name] == st.project
    ensures Fits(v, c)
  {
  }

  lemma InstalledOther(w: World, v: World, st: State, m: string)
    requires Installed(w, v, st) && Slot(w, st.project.name, st.sw) && ServingOk(w) && Placed(w, m) && m != st.project.name
    ensures Kept(v, w, m)
  {
    assert Live(w, m) ==> ServedOk(w, w.objects[w.states[m]].sw);
  }

  lemma InstalledPending(w: World, v: World, st: State, w0: World, c: Config, m: string)
    requires Installed(w, v, st) && Slot(w, st.project.name, st.sw)
    requires ServingOk(w) && Pending(w, w0, c, m) && m != st.project.name
    ensures Pending(v, w0, c, m)
  {
    assert KeepsRoute(w0, c, m) ==> ServedOk(w, w.objects[w.states[m]].sw);
  }

  lemma InstalledNew(w: World, v: World, st: State)
    requires Installed(w, v, st)
    ensures Live(v, st.project.name) && At(v, st.project.name) == Some(st)
  {
  }

  lemma InstalledOthersKept(w: World, v: World, st: State, w0: World, c: Config)
    requires Installed(w, v, st) && Slot(w, st.project.name, st.sw) && ServingOk(w)
    requires OthersKept(w, w0, c) && st.project.name in c.projects
    ensures OthersKept(v, w0, c)
  {
    forall m | m in v.states && m !in c.projects
      ensures Stays(w0, c, m) && Kept(v, w0, m)
    {
      assert Kept(w, w0, m);
      InstalledOther(w, v, st, m);
    }
  }

  /** st is a record the new configuration allows for n: with the tracker it had, and the route if it is the same. */
  ghost predicate Fitting(w0: World, c: Config, n: string, st: State) {
    && n in c.projects && st.project == c.projects[n] && st.entry == None && !st.dynamic
    && (At(w0, n).Some? ==> st.tracker == At(w0, n).value.tracker)
    && (if KeepsRoute(w0, c, n) then st.sw == At(w0, n).value.sw else st.sw >= w0.nextId)
  }

  lemma InstalledAllPending(w: World, v: World, st: State, w0: World, c: Config, todo: set<string>)
    requires Installed(w, v, st) && Slot(w, st.project.name, st.sw) && ServingOk(w) && AllPending(w, w0, c, todo)
    ensures AllPending(v, w0, c, todo - {st.project.name})
  {
    forall m | m in todo - {st.project.name}
      ensures Pending(v, w0, c, m)
    {
      InstalledPending(w, v, st, w0, c, m);
    }
  }

  lemma InstalledRebuilt(w: World, v: World, st: State, w0: World, c: Config, m: string)
    requires Installed(w, v, st) && Slot(w, st.project.name, st.sw) && ServingOk(w) && Rebuilt(w, w0, c, m) && m != st.project.name
    ensures Rebuilt(v, w0, c, m)
  {
    InstalledOther(w, v, st, m);
  }

  lemma InstalledAllRebuilt(w: World, v: World, n: string, st: State, w0: World, c: Config, todo: set<string>)
    requires ServingOk(w) && AllRebuilt(w, w0, c, todo) && Pending(w, w0, c, n) && w.nextId >= w0.nextId
    requires Fitting(w0, c, n, st) && c.projects[n].name == n && Installed(w, v, st) && Slot(w, n, st.sw)
    ensures AllRebuilt(v, w0, c, todo - {n})
  {
    forall m | m in c.projects && m !in todo - {n}
      ensures Rebuilt(v, w0, c, m)
    {
      if m == n {
        InstalledNew(w, v, st);
      } else {
        InstalledRebuilt(w, v, st, w0, c, m);
      }
    }
  }

  /** Installing the next project is progress. */
  lemma InstalledProgress(w: World, v: World, n: string, st: State, w0: World, c: Config, base: map<nat, State>, todo: set<string>)
    requires Rebuilding(w, w0, c, base, todo) && n in todo && Fitting(w0, c, n, st) && c.projects[n].name == n
    requires Installed(w, v, st) && Slot(w, n, st.sw) && Wired(v)
    ensures Rebuilding(v, w0, c, base, todo - {n})
  {
    InstalledRegistered(w, v, st);
    InstalledAccounted(w, v, st, todo);
    InstalledFits(w, v, st, c);
    InstalledOthersKept(w, v, st, w0, c);
    InstalledAllPending(w, v, st, w0, c, todo);
    InstalledAllRebuilt(w, v, n, st, w0, c, todo);
  }

  // ---- From the teardown to the rebuild ----

  ghost function Goes(w: World, c: Config): set<string> {
    set n | n in w.states && !Stays(w, c, n)
  }

  /** The record registered under one of these names. */
  ghost predicate IsRowOf(w: World, names: set<string>, id: nat) {
    id in w.objects && w.objects[id].project.name in names && w.objects[id].project.name in w.states
    && w.states[w.objects[id].project.name] == id
  }

  /** gone holds the records of the named projects, each with whether its route is kept. */
  ghost predicate Recorded(w: World, c: Config, names: set<string>, gone: map<nat, bool>) {
    && (forall id :: id in gone <==> IsRowOf(w, names, id))
    && (forall id :: id in gone ==> (gone[id] <==> KeepsRoute(w, c, w.objects[id].project.name)))
  }

  /** The table without some of its rows. */
  ghost predicate RowsWithout(w: World, states: map<string, nat>, names: set<string>) {
    && (forall n :: n in states <==> n in w.states && n !in names)
    && (forall n :: n in states ==> states[n] == w.states[n])
  }

  lemma RecordOne(w: World, c: Config, names: set<string>, gone: map<nat, bool>, n: string)
    requires Recorded(w, c, names, gone) && Placed(w, n)
    ensures Recorded(w, c, names + {n}, gone[w.states[n] := KeepsRoute(w, c, n)])
  {
  }

  lemma ReleaseOne(w: World, c: Config, names: set<string>, states: map<string, nat>, gone: map<nat, bool>, n: string)
    requires Matched(w) && n in w.states && n !in c.projects && n !in names
    requires Recorded(w, c, names, gone) && RowsWithout(w, states, names - c.projects.Keys)
    ensures n in states && states[n] == w.states[n]
    ensures Recorded(w, c, names + {n}, gone[w.states[n] := false])
    ensures RowsWithout(w, states - {n}, names + {n} - c.projects.Keys)
  {
    hide Recorded, ServingOk, Registered;
    assert Placed(w, n);
    RecordOne(w, c, names, gone, n);
  }

  lemma DoneNext(names: set<string>, mine: set<string>, keys: set<string>, todo: set<string>, n: string)
    requires n in todo && todo <= mine
    ensures var done := names + (mine - todo - keys);
      names + (mine - (todo - {n}) - keys) == if n in keys then done else done + {n}
  {
  }

  lemma RowsAreThere(w: World, states: map<string, nat>, names: set<string>)
    requires Matched(w) && RowsWithout(w, states, names)
    ensures forall n :: n in states ==> states[n] in w.objects
  {
    forall n | n in states
      ensures states[n] in w.objects
    {
      assert Placed(w, n);
    }
  }

  /** The projects of entry m whose name the configuration does not take over. */
  ghost function OfEntrySet(w: World, c: Config, m: string): set<string> {
    set n | n in w.states && n !in c.projects && OfEntry(w, n, m)
  }

  lemma MineAre(w0: World, w: World, c: Config, names: set<string>, m: string, mine: set<string>)
    requires w == w0.(states := w.states, switches := w.switches) && RowsWithout(w0, w.states, names - c.projects.Keys)
    requires m in w0.entries && forall n :: n in mine <==> IsDynamic(w, n) && At(w, n).value.entry == Some(w0.entries[m].id)
    ensures mine <= w0.states.Keys && mine - c.projects.Keys !! names
    ensures forall n :: n in mine && n in c.projects ==> !Unchanged(w0, c, n)
    ensures names + (mine - c.projects.Keys) == names + OfEntrySet(w0, c, m)
  {
    forall n | n in OfEntrySet(w0, c, m) && n !in names
      ensures n in mine
    {
      assert n in w.states;
    }
  }

  /** Only the switches of these projects may have been touched, and only to suspend them. */
  ghost predicate SwitchesOutside(w: World, now: map<nat, Option<nat>>, names: set<string>) {
    && now.Keys == w.switches.Keys
    && (forall sw :: sw in now ==> now[sw] == None || now[sw] == w.switches[sw])
    && forall sw :: sw in now && (sw in w.serving ==> w.serving[sw].project.name !in names) ==> now[sw] == w.switches[sw]
  }

  lemma NoneTouched(w: World, names: set<string>)
    ensures SwitchesOutside(w, w.switches, names)
  {
  }

  lemma SuspendOne(w: World, now: map<nat, Option<nat>>, names: set<string>, n: string)
    requires Matched(w) && n in w.states && n in names && SwitchesOutside(w, now, names)
    ensures Placed(w, n)
    ensures Live(w, n) ==> SwitchesOutside(w, now[w.objects[w.states[n]].sw := None], names)
    ensures Live(w, n) ==> w.objects[w.states[n]].sw in now
  {
    assert Placed(w, n);
    assert Live(w, n) ==> ServedOk(w, w.objects[w.states[n]].sw);
  }

  /** Where a route is kept, its switch is suspended. */
  ghost predicate RoutesHeld(w: World, c: Config, now: map<nat, Option<nat>>, names: set<string>) {
    forall n :: n in names && KeepsRoute(w, c, n) ==> IsSuspended(now, At(w, n).value.sw)
  }

  lemma HoldOne(w: World, c: Config, now: map<nat, Option<nat>>, names: set<string>, n: string)
    requires RoutesHeld(w, c, now, names) && At(w, n).Some?
    ensures KeepsRoute(w, c, n) ==> RoutesHeld(w, c, now[At(w, n).value.sw := None], names + {n})
    ensures !KeepsRoute(w, c, n) ==> RoutesHeld(w, c, now, names + {n})
  {
  }

  /** One changed project: its route kept and suspended, or to be released. */
  lemma SuspendNext(w: World, c: Config, now: map<nat, Option<nat>>, names: set<string>, held: set<string>, n: string)
    requires Matched(w) && n in w.states && n in names && n in c.projects
    requires SwitchesOutside(w, now, names) && RoutesHeld(w, c, now, held)
    ensures Placed(w, n) && w.states[n] in w.objects
    ensures KeepsRoute(w, c, n) ==>
      var next := now[w.objects[w.states[n]].sw := None]; SwitchesOutside(w, next, names) && RoutesHeld(w, c, next, held + {n})
    ensures !KeepsRoute(w, c, n) ==> RoutesHeld(w, c, now, held + {n})
  {
    SuspendOne(w, now, names, n);
    hide SwitchesOutside, RoutesHeld;
    HoldOne(w, c, now, held, n);
  }

  lemma NoRouteHeld(w: World, c: Config)
    ensures RoutesHeld(w, c, w.switches, {})
  {
  }

  /** The table rows of projects gone from the configuration are deleted. */
  ghost predicate RowsLeft(w0: World, w: World, c: Config) {
    && (forall n :: n in w.states <==> n in w0.states && !Leaves(w0, c, n))
    && (forall n :: n in w.states ==> w.states[n] == w0.states[n])
  }

  ghost predicate TornDown(w0: World, w: World, c: Config, gone: map<nat, bool>) {
    && Recorded(w0, c, Goes(w0, c), gone)
    && RowsLeft(w0, w, c)
    && RetiredRows(w0.objects, w.objects, gone)
    && RetiredServing(w0.serving, w.serving, gone)
    && RetiredSwitches(w0, w.switches, gone) && w.nextId >= w0.nextId
  }

  /** Who is served after the teardown was served before, and either stays or keeps its route. */
  lemma StillServed(w0: World, w: World, c: Config, gone: map<nat, bool>, sw: nat)
    requires Matched(w0) && TornDown(w0, w, c, gone) && sw in w.serving
    ensures sw in w0.serving && w.serving[sw] == w0.serving[sw]
    ensures var v := w.serving[sw]; var n := v.project.name;
      && At(w0, n).Some? && w0.states[n] == v.id && At(w0, n).value.project == v.project && At(w0, n).value.entry == v.entry
      && (Stays(w0, c, n) || KeepsRoute(w0, c, n))
      && (IsDynamic(w0, n) <==> v.entry.Some?)
  {
    assert ServedOk(w0, sw);
    var n := w0.serving[sw].project.name;
    assert Placed(w0, n);
  }

  lemma TornDownServing(w0: World, w: World, c: Config, gone: map<nat, bool>)
    requires Matched(w0) && TornDown(w0, w, c, gone)
    ensures Registered(w) && Fits(w, c)
    ensures forall n :: n in c.projects && !Unchanged(w0, c, n) && !KeepsRoute(w0, c, n) ==> NobodyServes(w, n)
  {
    forall sw | sw in w.serving
      ensures var v := w.serving[sw];
        && v.project.name in w.states && w.states[v.project.name] == v.id
        && (Stays(w0, c, v.project.name) || KeepsRoute(w0, c, v.project.name))
        && (if v.entry == None then v.project.name in c.projects && SameRoute(v.project, c.projects[v.project.name])
            else v.project.name !in c.projects)
    {
      StillServed(w0, w, c, gone, sw);
    }
  }

  lemma StaysLive(w0: World, w: World, c: Config, gone: map<nat, bool>, n: string)
    requires TornDown(w0, w, c, gone) && Stays(w0, c, n) && Live(w0, n)
    ensures Live(w, n) && Kept(w, w0, n)
  {
    assert w0.states[n] !in gone;
  }

  lemma StaysOff(w0: World, w: World, c: Config, gone: map<nat, bool>, n: string)
    requires TornDown(w0, w, c, gone) && Stays(w0, c, n) && Off(w0, n)
    ensures Kept(w, w0, n)
  {
    assert w0.states[n] !in gone;
  }

  lemma StaysUntouched(w0: World, w: World, c: Config, gone: map<nat, bool>, n: string)
    requires Matched(w0) && TornDown(w0, w, c, gone) && Stays(w0, c, n)
    ensures Kept(w, w0, n)
  {
    assert Placed(w0, n);
    hide TornDown, Matched;
    if Live(w0, n) {
      StaysLive(w0, w, c, gone, n);
    } else {
      StaysOff(w0, w, c, gone, n);
    }
  }

  lemma RouteIsWaiting(w0: World, w: World, c: Config, gone: map<nat, bool>, n: string)
    requires Matched(w0) && TornDown(w0, w, c, gone) && KeepsRoute(w0, c, n) && !Unchanged(w0, c, n)
    ensures Waiting(w, w0, c, n)
  {
    assert Placed(w0, n);
    var id := w0.states[n];
    assert ServedOk(w0, w0.objects[id].sw);
    assert id in gone && gone[id];
  }

  lemma RowsForGood(w0: World, w: World, gone: map<nat, bool>)
    requires RetiredRows(w0.objects, w.objects, gone)
    ensures RetiredForGood(w, w0)
  {
  }

  lemma WhoGoesIsRetired(w0: World, w: World, c: Config, gone: map<nat, bool>, n: string)
    requires Placed(w0, n) && n in Goes(w0, c) && Recorded(w0, c, Goes(w0, c), gone) && RetiredRows(w0.objects, w.objects, gone)
    ensures n in w0.states && w0.states[n] in w.objects && w.objects[w0.states[n]].retired
  {
    hide Goes;
    assert w0.states[n] in gone;
  }

  lemma RestAreRetired(w0: World, w: World, c: Config, gone: map<nat, bool>)
    requires Matched(w0) && TornDown(w0, w, c, gone)
    ensures RestRetired(w, w0, c)
  {
    RowsForGood(w0, w, gone);
    hide RetiredForGood, RetiredRows, RetiredServing, RetiredSwitches, RowsLeft, Recorded, Placed, ServingOk, Registered, Stays;
    forall n | n in w0.states && !Stays(w0, c, n)
      ensures w0.states[n] in w.objects && w.objects[w0.states[n]].retired
    {
      WhoGoesIsRetired(w0, w, c, gone, n);
    }
  }

  lemma AllArePending(w0: World, w: World, c: Config, gone: map<nat, bool>, todo: set<string>)
    requires Matched(w0) && TornDown(w0, w, c, gone)
    requires forall n :: n in todo <==> n in c.projects && !Unchanged(w0, c, n)
    ensures AllPending(w, w0, c, todo)
  {
    TornDownServing(w0, w, c, gone);
    forall n | n in todo
      ensures Pending(w, w0, c, n)
    {
      if KeepsRoute(w0, c, n) {
        RouteIsWaiting(w0, w, c, gone, n);
      }
    }
  }

  lemma UnchangedAreRebuilt(w0: World, w: World, c: Config, gone: map<nat, bool>, todo: set<string>)
    requires Matched(w0) && TornDown(w0, w, c, gone)
    requires forall n :: n in todo <==> n in c.projects && !Unchanged(w0, c, n)
    ensures AllRebuilt(w, w0, c, todo)
  {
    forall n | n in c.projects && n !in todo
      ensures Rebuilt(w, w0, c, n)
    {
      assert Stays(w0, c, n);
      StaysUntouched(w0, w, c, gone, n);
    }
  }

  lemma OthersAreKept(w0: World, w: World, c: Config, gone: map<nat, bool>)
    requires Matched(w0) && TornDown(w0, w, c, gone)
    ensures OthersKept(w, w0, c)
  {
    hide Matched, Recorded, RetiredRows, RetiredServing, RetiredSwitches, Kept;
    forall n | n in w.states && n !in c.projects
      ensures Stays(w0, c, n) && Kept(w, w0, n)
    {
      StaysUntouched(w0, w, c, gone, n);
    }
  }

  lemma TornDownAccounted(w0: World, w: World, c: Config, gone: map<nat, bool>, todo: set<string>)
    requires Matched(w0) && NoneLost(w0) && TornDown(w0, w, c, gone)
    requires forall n :: n in todo ==> n in c.projects && !Unchanged(w0, c, n)
    ensures Accounted(w, todo)
  {
    forall id | id in w.objects && !w.objects[id].retired
      ensures Listed(w, id)
    {
      assert Listed(w0, id) && id !in gone;
    }
    forall n | n in todo && n in w.states
      ensures w.states[n] in w.objects && w.objects[w.states[n]].retired
    {
      assert Placed(w0, n) && w0.states[n] in gone;
    }
  }

  lemma TornDownThenRebuilding(w0: World, w: World, c: Config, gone: map<nat, bool>, todo: set<string>)
    requires Matched(w0) && NoneLost(w0) && TornDown(w0, w, c, gone) && Wired(w) && EntriesFit(w, c)
    requires forall n :: n in todo <==> n in c.projects && !Unchanged(w0, c, n)
    ensures Rebuilding(w, w0, c, w.objects, todo)
  {
    TornDownServing(w0, w, c, gone);
    AllArePending(w0, w, c, gone, todo);
    UnchangedAreRebuilt(w0, w, c, gone, todo);
    OthersAreKept(w0, w, c, gone);
    TornDownAccounted(w0, w, c, gone, todo);
  }

  lemma ServedIsNotOrphaned(w0: World, w: World, c: Config, gone: map<nat, bool>, m: string, sw: nat)
    requires Matched(w0) && TornDown(w0, w, c, gone) && sw in w.serving
    requires m in w0.entries && !EntryStays(w0, c, m)
    ensures w.serving[sw].entry != Some(w0.entries[m].id)
  {
    hide Matched, TornDown;
    StillServed(w0, w, c, gone, sw);
    var n := w.serving[sw].project.name;
    assert Stays(w0, c, n) ==> !OfEntry(w0, n, m);
  }

  lemma MembersAreItsOwn(w: World, m: string, sw: nat)
    requires EntriesOk(w) && ListenersOk(w) && m in w.entries && sw in Members(w.serving, EntryAddr(w.entries[m].entry))
    ensures w.serving[sw].entry == Some(w.entries[m].id)
  {
    var a := EntryAddr(w.entries[m].entry);
    assert EntryOk(w, m);
    assert ListenerOk(w.listeners[a], w.serving, Members(w.serving, a));
  }

  /** The listener of an entry that goes has no member left. */
  lemma GoneEntryIsEmpty(w0: World, w: World, c: Config, gone: map<nat, bool>, m: string)
    requires Matched(w0) && TornDown(w0, w, c, gone) && EntriesOk(w) && ListenersOk(w)
    requires m in w.entries && m in w0.entries && w.entries[m] == w0.entries[m] && !EntryStays(w0, c, m)
    ensures Members(w.serving, EntryAddr(w.entries[m].entry)) == {}
  {
    forall sw | sw in Members(w.serving, EntryAddr(w.entries[m].entry))
      ensures false
    {
      ServedIsNotOrphaned(w0, w, c, gone, m, sw);
      MembersAreItsOwn(w, m, sw);
    }
  }

  ghost predicate OfAny(w: World, n: string, ms: set<string>) {
    exists m :: m in ms && OfEntry(w, n, m)
  }

  /** The projects whose entry is among these, and whose name the configuration does not take over. */
  ghost function OfEntries(w: World, c: Config, ms: set<string>): set<string> {
    set n | n in w.states && n !in c.projects && OfAny(w, n, ms)
  }

  lemma NothingRecorded(w: World, c: Config)
    ensures Recorded(w, c, {}, map[]) && RowsWithout(w, w.states, {} - c.projects.Keys)
  {
  }

  lemma RowsLeftIs(w0: World, w: World, c: Config, names: set<string>)
    requires RowsWithout(w0, w.states, names - c.projects.Keys)
    requires forall n :: n in w0.states ==> (Leaves(w0, c, n) <==> n in names && n !in c.projects)
    ensures RowsLeft(w0, w, c)
  {
  }

  lemma RowsStay(w: World, states: map<string, nat>, c: Config, names: set<string>)
    requires RowsWithout(w, states, names - c.projects.Keys)
    ensures forall n :: n in c.projects && n in w.states ==> n in states && states[n] == w.states[n]
  {
  }

  lemma NoEntries(w: World, c: Config)
    ensures OfEntries(w, c, {}) == {}
  {
  }

  lemma OfEntriesAdd(w: World, c: Config, ms: set<string>, m: string)
    ensures OfEntries(w, c, ms + {m}) == OfEntries(w, c, ms) + OfEntrySet(w, c, m)
  {
    forall n | n in w.states && OfEntry(w, n, m)
      ensures OfAny(w, n, ms + {m})
    {
    }
    forall n | OfAny(w, n, ms)
      ensures OfAny(w, n, ms + {m})
    {
      var k :| k in ms && OfEntry(w, n, k);
      assert k in ms + {m};
    }
  }

  lemma OfEntriesNext(w: World, c: Config, ms: set<string>, todo: set<string>, m: string)
    requires m in todo && todo <= ms
    ensures OfEntries(w, c, ms - (todo - {m})) == OfEntries(w, c, ms - todo) + OfEntrySet(w, c, m)
  {
    OfEntriesAdd(w, c, ms - todo, m);
    assert ms - todo + {m} == ms - (todo - {m});
  }

  /** Removed, changed, and orphaned: together, everything that goes. */
  lemma WhoGoes(w: World, c: Config, removed: set<string>, changed: set<string>, ms: set<string>)
    requires AllPlaced(w)
    requires forall n :: n in removed <==> n !in c.projects && IsStatic(w, n)
    requires forall n :: n in changed <==> n in c.projects && n in w.states && !Unchanged(w, c, n)
    requires forall m :: m in ms <==> m in w.entries && !EntryStays(w, c, m)
    ensures removed + changed + OfEntries(w, c, ms) == Goes(w, c)
    ensures forall n :: n in w.states ==> (Leaves(w, c, n) <==> n in Goes(w, c) && n !in c.projects)
  {
    forall n | n in w.states
      ensures Orphaned(w, c, n) <==> OfAny(w, n, ms)
    {
      assert Placed(w, n);
      if m :| OfEntry(w, n, m) && !EntryStays(w, c, m) {
        assert m in ms;
      }
    }
  }

  // ---- Each step of the rebuild ----

  lemma NobodyServesSlot(w: World, n: string)
    requires ServingOk(w) && NobodyServes(w, n)
    ensures Slot(w, n, w.nextId)
  {
    forall t | t in w.serving
      ensures t != w.nextId
    {
      assert ServedOk(w, t);
    }
  }

  lemma WaitingSlot(w: World, w0: World, c: Config, n: string)
    requires ServingOk(w) && Registered(w) && Waiting(w, w0, c, n)
    ensures Slot(w, n, w.objects[w.states[n]].sw)
  {
    OneSwitchEach(w, w.objects[w.states[n]].sw);
  }

  lemma RebuildingIs(w: World, w0: World, c: Config, base: map<nat, State>, todo: set<string>)
    requires Rebuilding(w, w0, c, base, todo)
    ensures Wired(w) && ServingOk(w) && Registered(w) && Fits(w, c) && EntriesFit(w, c)
  {
  }

  /** Commissioning on a fresh route: the address is free, and the rebuild is one project further. */
  lemma FreshRoute(w: World, w0: World, c: Config, base: map<nat, State>, todo: set<string>, n: string, tracker: nat)
    requires Loaded(c) && Rebuilding(w, w0, c, base, todo) && n in todo && !KeepsRoute(w0, c, n)
    requires At(w0, n).Some? ==> tracker == At(w0, n).value.tracker
    ensures Rebuilding(Commissioned(w, c.projects[n], tracker, None, None), w0, c, base, todo - {n})
  {
    assert Pending(w, w0, c, n);
    var p, v := c.projects[n], Commissioned(w, c.projects[n], tracker, None, None);
    hide Rebuilding, Commissioned, Wired, Installed, Fits, EntriesFit, AllPending, AllRebuilt, OthersKept, Room;
    RebuildingIs(w, w0, c, base, todo);
    RoomFor(w, c, n);
    AttachKeeps(w, p, tracker, None);
    AttachInstalls(w, p, tracker, None);
    NobodyServesSlot(w, n);
    InstalledProgress(w, v, n, State(p, tracker, w.nextId, Some(ListenAddr(p)), false, None, false), w0, c, base, todo);
  }

  /** Commissioning on the route that was kept. */
  lemma KeptRoute(w: World, w0: World, c: Config, base: map<nat, State>, todo: set<string>, n: string)
    requires Loaded(c) && Rebuilding(w, w0, c, base, todo) && n in todo && KeepsRoute(w0, c, n)
    ensures n in w0.states && w0.states[n] in w.objects && w0.states[n] != w.nextId
    ensures Rebuilding(Commissioned(w, c.projects[n], At(w0, n).value.tracker, None, Some(w0.states[n])), w0, c, base, todo - {n})
  {
    assert Waiting(w, w0, c, n);
    var p, id, tracker := c.projects[n], w0.states[n], At(w0, n).value.tracker;
    var prev := w.objects[id];
    hide Rebuilding, Commissioned, Wired, Installed, Fits, EntriesFit, AllPending, AllRebuilt, OthersKept;
    RebuildingIs(w, w0, c, base, todo);
    InheritKeeps(w, p, tracker, prev.sw);
    InheritInstalls(w, p, tracker, None, id);
    WaitingSlot(w, w0, c, n);
    InstalledProgress(w, Commissioned(w, p, tracker, None, Some(id)), n,
                      State(p, tracker, prev.sw, prev.bind, false, None, false), w0, c, base, todo);
  }

  lemma EntryBoundFits(w: World, c: Config, m: string)
    requires Registered(w) && Fits(w, c) && EntriesFit(w, c) && m in Wanted(c.entries) && Wanted(c.entries)[m].name == m
    ensures var v := EntryBound(w, Wanted(c.entries)[m]); Registered(v) && Fits(v, c) && EntriesFit(v, c)
  {
  }

  lemma EntryBoundProjects(w: World, e: Entry, w0: World, c: Config)
    requires AllRebuilt(w, w0, c, {}) && OthersKept(w, w0, c) && Accounted(w, {})
    ensures AllRebuilt(EntryBound(w, e), w0, c, {}) && OthersKept(EntryBound(w, e), w0, c) && Accounted(EntryBound(w, e), {})
  {
    var v := EntryBound(w, e);
    forall n | n in c.projects
      ensures Rebuilt(v, w0, c, n)
    {
      assert Rebuilt(w, w0, c, n);
    }
    forall n | n in v.states && n !in c.projects
      ensures Stays(w0, c, n) && Kept(v, w0, n)
    {
      assert Kept(w, w0, n);
    }
  }

  /** Binding an entry changes nothing about any project. */
  lemma EntryProgress(w: World, w0: World, c: Config, base: map<nat, State>, m: string)
    requires Loaded(c) && Rebuilding(w, w0, c, base, {}) && m in Wanted(c.entries) && m !in w.entries
    ensures Wanted(c.entries)[m].name == m
    ensures Rebuilding(EntryBound(w, Wanted(c.entries)[m]), w0, c, base, {})
  {
    var i := WantedIsListed(c.entries, m);
    hide Wired, AllRebuilt, OthersKept, Registered, Fits, EntriesFit, Loaded;
    EntryAddressFree(w, c, m);
    EntryBoundKeeps(w, Wanted(c.entries)[m]);
    EntryBoundFits(w, c, m);
    EntryBoundProjects(w, Wanted(c.entries)[m], w0, c);
  }

  lemma EmptyIsRebuilding(c: Config)
    ensures Rebuilding(EMPTY, EMPTY, c, map[], c.projects.Keys)
  {
  }

  lemma StartedIsOnly(w: World, c: Config)
    requires Carried(w, EMPTY, c)
    ensures w.states.Keys == c.projects.Keys
  {
    forall n | n in c.projects
      ensures n in w.states
    {
      assert Rebuilt(w, EMPTY, c, n);
    }
  }

  lemma AtRestIs(w: World)
    requires AtRest(w)
    ensures Wired(w) && EntriesOk(w) && ListenersOk(w) && Matched(w) && NoneLost(w)
    ensures forall n :: n in w.states ==> w.states[n] in w.objects
  {
    forall n | n in w.states
      ensures w.states[n] in w.objects
    {
      assert Placed(w, n);
    }
  }

  /** After detaching, everything on the list is where it was, and so is the wiring; kept routes are of projects in service. */
  lemma DetachedIs(w0: World, w: World, c: Config, gone: map<nat, bool>, changed: set<string>)
    requires Wired(w0) && Matched(w0) && w == w0.(states := w.states, switches := w.switches)
    requires Recorded(w0, c, Goes(w0, c), gone) && SwitchesOutside(w0, w.switches, changed)
    ensures Wired(w) && forall id :: id in gone ==> MayRetire(w, id, gone[id])
  {
    FlagsKeep(w0, w);
    forall id | id in gone
      ensures MayRetire(w, id, gone[id])
    {
      assert Placed(w0, w0.objects[id].project.name);
    }
  }

  lemma ServedRow(w: World, sw: nat)
    requires Matched(w) && sw in w.serving
    ensures var v := w.serving[sw];
      && v.id in w.objects && w.objects[v.id].project.name == v.project.name
      && v.project.name in w.states && w.states[v.project.name] == v.id
  {
    assert ServedOk(w, sw);
  }

  lemma RetiredIs(w0: World, wA: World, w: World, c: Config, gone: map<nat, bool>, changed: set<string>)
    requires Matched(w0) && wA == w0.(states := wA.states, switches := wA.switches) && RetiredSome(wA, w, gone)
    requires Recorded(w0, c, Goes(w0, c), gone) && RowsLeft(w0, wA, c) && SwitchesOutside(w0, wA.switches, changed)
    requires forall n :: n in changed ==> n in c.projects && n in w0.states && !Unchanged(w0, c, n)
    ensures TornDown(w0, w, c, gone) && w.entries == w0.entries
  {
    forall sw | sw in w.switches && (sw in w0.serving ==> w0.serving[sw].id !in gone)
      ensures w.switches[sw] == w0.switches[sw]
    {
      if sw in w0.serving {
        ServedRow(w0, sw);
        assert w0.serving[sw].project.name !in Goes(w0, c);
      }
    }
  }

  /** Nobody is on the listener of this entry. */
  ghost predicate IsVacant(w: World, m: string) {
    m in w.entries && Members(w.serving, EntryAddr(w.entries[m].entry)) == {}
    && forall id :: id in w.objects ==> !IsOn(w.objects[id], EntryAddr(w.entries[m].entry), w.entries[m].id)
  }

  /** Whoever is still to be retired is where it was before, in service or off. */
  lemma StillThere(w0: World, w: World, c: Config, gone: map<nat, bool>, id: nat)
    requires Matched(w0) && NoneLost(w0) && TornDown(w0, w, c, gone) && id in w.objects && !w.objects[id].retired
    ensures w.objects[id].bind.Some? ==> w.objects[id].sw in Members(w.serving, w.objects[id].bind.value)
  {
    hide RetiredSwitches, RowsLeft, Registered, Recorded;
    assert Listed(w0, id) && id !in gone && Placed(w0, w0.objects[id].project.name);
    assert Live(w0, w0.objects[id].project.name) ==> ServedOk(w0, w0.objects[id].sw);
  }

  lemma GoneAreEmpty(w0: World, w: World, c: Config, gone: map<nat, bool>, ms: set<string>)
    requires Matched(w0) && NoneLost(w0) && TornDown(w0, w, c, gone) && Wired(w) && w.entries == w0.entries
    requires forall m :: m in ms ==> m in w0.entries && !EntryStays(w0, c, m)
    ensures forall m :: m in ms ==> IsVacant(w, m)
  {
    forall m | m in ms
      ensures IsVacant(w, m)
    {
      GoneEntryIsEmpty(w0, w, c, gone, m);
      hide Matched, NoneLost, TornDown, Wired;
      forall id | id in w.objects
        ensures !IsOn(w.objects[id], EntryAddr(w.entries[m].entry), w.entries[m].id)
      {
        if !w.objects[id].retired {
          StillThere(w0, w, c, gone, id);
        }
      }
    }
  }

  /** With the entries unbound that go, the teardown is complete. */
  lemma UnboundIs(w0: World, wB: World, w: World, c: Config, gone: map<nat, bool>, ms: set<string>, todo: set<string>)
    requires Matched(w0) && NoneLost(w0) && TornDown(w0, wB, c, gone) && wB.entries == w0.entries && Wired(w)
    requires w == wB.(entries := w.entries, listeners := w.listeners) && w.entries == wB.entries - ms
    requires forall m :: m in ms <==> m in w0.entries && !EntryStays(w0, c, m)
    requires forall n :: n in todo <==> n in c.projects && !Unchanged(w0, c, n)
    ensures TornDown(w0, w, c, gone) && Rebuilding(w, w0, c, w.objects, todo)
  {
    TornDownThenRebuilding(w0, w, c, gone, todo);
  }

  /** id is the record n had before; nothing but its retirement has been recorded in it. */
  predicate RecordOf(w0: World, base: map<nat, State>, n: string, id: nat) {
    n in w0.states && w0.states[n] == id && id in w0.objects && id in base
    && base[id].tracker == w0.objects[id].tracker && base[id].project == w0.objects[id].project
    && base[id].dynamic == w0.objects[id].dynamic
  }

  lemma StillRecordOf(w0: World, w: World, gone: map<nat, bool>, n: string)
    requires n in w0.states && Placed(w0, n) && RetiredRows(w0.objects, w.objects, gone)
    ensures RecordOf(w0, w.objects, n, w0.states[n])
  {
  }

  lemma RecordsOfChanged(w0: World, w: World, c: Config, gone: map<nat, bool>)
    requires Matched(w0) && TornDown(w0, w, c, gone)
    ensures RestRetired(w0.(objects := w.objects), w0, c)
    ensures forall n :: n in w0.states ==> RecordOf(w0, w.objects, n, w0.states[n])
  {
    RestAreRetired(w0, w, c, gone);
    hide RecordOf, Placed;
    forall n | n in w0.states
      ensures RecordOf(w0, w.objects, n, w0.states[n])
    {
      StillRecordOf(w0, w, gone, n);
    }
  }

  lemma StillRecorded(w: World, w0: World, c: Config, base: map<nat, State>, todo: set<string>, n: string, id: nat)
    requires Rebuilding(w, w0, c, base, todo) && RecordOf(w0, base, n, id) && n in c.projects
    ensures id in w.objects && w.objects[id].tracker == w0.objects[id].tracker && At(w0, n) == Some(w0.objects[id])
    ensures KeepsRoute(w0, c, n) <==> !w.objects[id].dynamic && SameRoute(w.objects[id].project, c.projects[n])
    ensures w.nextId !in w.objects
  {
  }

  // ---- The end ----

  lemma RebuiltIsMatched(w: World, w0: World, c: Config)
    requires ServingOk(w) && Registered(w) && AllRebuilt(w, w0, c, {}) && OthersKept(w, w0, c)
    ensures Matched(w)
  {
    forall n | n in w.states
      ensures Placed(w, n)
    {
      assert n in c.projects ==> Rebuilt(w, w0, c, n);
      assert n !in c.projects ==> Kept(w, w0, n);
    }
  }

  lemma RebuiltServes(w: World, w0: World, c: Config)
    requires AllRebuilt(w, w0, c, {}) && OthersKept(w, w0, c) && EntriesFit(w, c) && w.entries.Keys == Wanted(c.entries).Keys
    ensures Serves(w, c)
  {
    forall n | n in w.states && n !in c.projects
      ensures IsDynamic(w, n)
    {
      assert Kept(w, w0, n) && !Leaves(w0, c, n);
    }
    forall n | n in c.projects
      ensures IsStatic(w, n) && At(w, n).value.project.Equivalent(c.projects[n])
    {
      assert Rebuilt(w, w0, c, n);
    }
  }

  lemma RebuiltIsAtRest(w: World, w0: World, c: Config, base: map<nat, State>)
    requires Rebuilding(w, w0, c, base, {}) && w.entries.Keys == Wanted(c.entries).Keys
    requires RestRetired(w0.(objects := base), w0, c)
    ensures AtRest(w) && Serves(w, c) && Carried(w, w0, c)
  {
    RebuiltIsMatched(w, w0, c);
    RebuiltServes(w, w0, c);
  }
}
