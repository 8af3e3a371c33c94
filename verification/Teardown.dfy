/**
 What a reload makes of each registered project, and taking projects out of service: nothing but
 the projects being retired is touched.
 */
module Teardown {
  import opened Options
  import opened Config
  import opened Routing
  import opened Rest

  predicate SameRoute(p: Project, q: Project) {
    ListenAddr(p) == ListenAddr(q) && p.host == q.host
  }

  // ---- What a reload makes of each registered project ----

  predicate Unchanged(w: World, c: Config, n: string) {
    n in c.projects && IsStatic(w, n) && At(w, n).value.project.Equivalent(c.projects[n])
  }

  predicate KeepsRoute(w: World, c: Config, n: string) {
    n in c.projects && IsStatic(w, n) && SameRoute(At(w, n).value.project, c.projects[n])
  }

  predicate OfEntry(w: World, n: string, m: string) {
    m in w.entries && IsDynamic(w, n) && At(w, n).value.entry == Some(w.entries[m].id)
  }

  /** Registered by an entry that is removed or changed. */
  ghost predicate Orphaned(w: World, c: Config, n: string) {
    exists m :: OfEntry(w, n, m) && !EntryStays(w, c, m)
  }

  /** Gone from the configuration: the table row is deleted. */
  ghost predicate Leaves(w: World, c: Config, n: string) {
    n in w.states && n !in c.projects && (IsStatic(w, n) || Orphaned(w, c, n))
  }

  ghost predicate Stays(w: World, c: Config, n: string) {
    n in w.states && !Leaves(w, c, n) && (n in c.projects ==> Unchanged(w, c, n))
  }

  // ---- Tearing down ----

  function AfterRetiring(st: State, id: nat, gone: map<nat, bool>): State {
    if id !in gone then st
    else if gone[id] then st.(retired := true)
    else st.(retired := true, bind := None)
  }

  ghost predicate RetiredRows(was: map<nat, State>, now: map<nat, State>, gone: map<nat, bool>) {
    && now.Keys == was.Keys
    && forall id :: id in was ==> now[id] == AfterRetiring(was[id], id, gone)
  }

  predicate StillServing(gone: map<nat, bool>, id: nat) {
    id in gone ==> gone[id]
  }

  ghost predicate RetiredServing(was: map<nat, Served>, now: map<nat, Served>, gone: map<nat, bool>) {
    && (forall sw :: sw in now <==> sw in was && StillServing(gone, was[sw].id))
    && (forall sw :: sw in now ==> now[sw] == was[sw])
  }

  predicate IsSuspended(switches: map<nat, Option<nat>>, sw: nat) {
    sw in switches && switches[sw] == None
  }

  /** No switch but those of projects being retired is touched; where the route is kept, it is suspended. */
  ghost predicate RetiredSwitches(w: World, now: map<nat, Option<nat>>, gone: map<nat, bool>) {
    && now.Keys == w.switches.Keys
    && (forall sw :: sw in now && (sw in w.serving ==> w.serving[sw].id !in gone) ==> now[sw] == w.switches[sw])
    && (forall id :: id in gone && gone[id] && id in w.objects ==> IsSuspended(now, w.objects[id].sw))
  }

  /** v is w with the states in gone retired, those marked true keeping their route. */
  ghost predicate RetiredSome(w: World, v: World, gone: map<nat, bool>) {
    && v == w.(objects := v.objects, switches := v.switches, serving := v.serving, listeners := v.listeners)
    && RetiredRows(w.objects, v.objects, gone)
    && RetiredServing(w.serving, v.serving, gone)
    && RetiredSwitches(w, v.switches, gone)
  }

  /** In service, and not retired yet. */
  predicate InService(w: World, id: nat) {
    && id in w.objects && !w.objects[id].retired
    && w.objects[id].sw in w.serving && w.serving[w.objects[id].sw].id == id
  }

  /** Off every listener, and unable to give up a membership again. */
  predicate OffRoute(w: World, id: nat) {
    id in w.objects && w.objects[id].bind == None && w.objects[id].sw !in w.serving
  }

  /** In service, or, where no route is to be kept, off it already. */
  predicate MayRetire(w: World, id: nat, keep: bool) {
    id in w.objects && (InService(w, id) || (!keep && OffRoute(w, id)))
  }

  lemma RetiredKept(v: World, id: nat)
    requires id in v.objects && !v.objects[id].retired
    ensures var st := v.objects[id];
      Retired(v, id, true) == v.(switches := v.switches[st.sw := None], objects := v.objects[id := st.(retired := true)])
  {
  }

  lemma RetiredGone(v: World, sw: nat)
    requires sw in v.serving && ServedOk(v, sw) && ListenAddr(v.serving[sw].project) in v.listeners
    requires !v.objects[v.serving[sw].id].retired
    ensures var id, u := v.serving[sw].id, Retired(v, v.serving[sw].id, false);
      u == v.(objects := v.objects[id := v.objects[id].(bind := None, retired := true)],
              serving := v.serving - {sw}, listeners := u.listeners)
  {
    DetachedServed(v, sw);
  }

  lemma RetireRow(w: World, v: World, gone: map<nat, bool>, id: nat, keep: bool)
    requires RetiredRows(w.objects, v.objects, gone) && id in w.objects && id !in gone
    ensures RetiredRows(w.objects, v.objects[id := AfterRetiring(v.objects[id], id, map[id := keep])], gone[id := keep])
  {
  }

  lemma RetireOneServing(was: map<nat, Served>, now: map<nat, Served>, gone: map<nat, bool>, id: nat, sw: nat, keep: bool)
    requires RetiredServing(was, now, gone) && id !in gone && sw in was && was[sw].id == id
    requires forall t :: t in was && was[t].id == id ==> t == sw
    ensures RetiredServing(was, if keep then now else now - {sw}, gone[id := keep])
  {
  }

  lemma RetireSwitch(w: World, now: map<nat, Option<nat>>, gone: map<nat, bool>, id: nat, sw: nat)
    requires RetiredSwitches(w, now, gone) && sw in w.serving && w.serving[sw].id == id && sw in w.switches
    requires id in w.objects && w.objects[id].sw == sw
    ensures RetiredSwitches(w, now[sw := None], gone[id := true])
  {
  }

  lemma MarkKeeps(w: World, id: nat)
    requires Wired(w) && id in w.objects
    ensures Wired(w.(objects := w.objects[id := w.objects[id].(retired := true)]))
  {
    FlagsKeep(w, w.(objects := w.objects[id := w.objects[id].(retired := true)]));
  }

  lemma SuspendedThenMarked(v: World, id: nat)
    requires Wired(v) && id in v.objects && !v.objects[id].retired
    ensures Wired(Retired(v, id, true))
  {
    FlagsKeep(v, Suspended(v, id));
    MarkKeeps(Suspended(v, id), id);
  }

  lemma OneSwitchEach(w: World, sw: nat)
    requires ServingOk(w) && sw in w.serving
    ensures forall t :: t in w.serving && w.serving[t].id == w.serving[sw].id ==> t == sw
  {
    assert ServedOk(w, sw);
    forall t | t in w.serving && w.serving[t].id == w.serving[sw].id
      ensures t == sw
    {
      assert ServedOk(w, t);
    }
  }

  lemma RetireKeeping(w: World, v: World, gone: map<nat, bool>, id: nat)
    requires ServingOk(w) && Wired(v) && RetiredSome(w, v, gone) && InService(w, id) && id !in gone
    ensures Wired(Retired(v, id, true)) && RetiredSome(w, Retired(v, id, true), gone[id := true])
  {
    var sw := w.objects[id].sw;
    RetiredKept(v, id);
    RetireRow(w, v, gone, id, true);
    OneSwitchEach(w, sw);
    RetireOneServing(w.serving, v.serving, gone, id, sw, true);
    RetireSwitch(w, v.switches, gone, id, sw);
    SuspendedThenMarked(v, id);
  }

  lemma OffMarked(v: World, id: nat)
    requires id in v.objects && v.objects[id].bind == None
    ensures Retired(v, id, false) == v.(objects := v.objects[id := v.objects[id].(retired := true)])
  {
    if v.objects[id].retired {
      assert v.objects[id := v.objects[id]] == v.objects;
    }
  }

  lemma NobodyServedAs(w: World, id: nat)
    requires ServingOk(w) && OffRoute(w, id)
    ensures forall sw :: sw in w.serving ==> w.serving[sw].id != id
  {
    forall sw | sw in w.serving
      ensures w.serving[sw].id != id
    {
      assert ServedOk(w, sw);
    }
  }

  lemma RetireNoServing(was: map<nat, Served>, now: map<nat, Served>, gone: map<nat, bool>, id: nat)
    requires RetiredServing(was, now, gone) && forall sw :: sw in was ==> was[sw].id != id
    ensures RetiredServing(was, now, gone[id := false])
  {
  }

  lemma RetireNoSwitch(w: World, now: map<nat, Option<nat>>, gone: map<nat, bool>, id: nat)
    requires RetiredSwitches(w, now, gone)
    ensures RetiredSwitches(w, now, gone[id := false])
  {
  }

  /** Retiring a project that is off every listener marks it, and touches nothing else. */
  lemma RetireOff(w: World, v: World, gone: map<nat, bool>, id: nat)
    requires ServingOk(w) && Wired(v) && RetiredSome(w, v, gone) && OffRoute(w, id) && id !in gone
    ensures Wired(Retired(v, id, false)) && RetiredSome(w, Retired(v, id, false), gone[id := false])
  {
    OffMarked(v, id);
    RetireRow(w, v, gone, id, false);
    NobodyServedAs(w, id);
    RetireNoServing(w.serving, v.serving, gone, id);
    RetireNoSwitch(w, v.switches, gone, id);
    MarkKeeps(v, id);
    hide RetiredRows, RetiredServing, RetiredSwitches, Retired, Wired, ServingOk;
  }

  lemma DetachedThenMarked(v: World, sw: nat)
    requires Wired(v) && sw in v.serving && v.serving[sw].id in v.objects && !v.objects[v.serving[sw].id].retired
    ensures Wired(Retired(v, v.serving[sw].id, false))
  {
    DetachedKeeps(v, sw);
    MarkKeeps(Detached(v, v.serving[sw].id), v.serving[sw].id);
  }

  lemma RetireDetaching(w: World, v: World, gone: map<nat, bool>, id: nat)
    requires ServingOk(w) && Wired(v) && RetiredSome(w, v, gone) && InService(w, id) && id !in gone
    ensures Wired(Retired(v, id, false)) && RetiredSome(w, Retired(v, id, false), gone[id := false])
  {
    var sw := w.objects[id].sw;
    assert sw in v.serving && v.serving[sw].id == id && ServedOk(v, sw);
    RetiredGone(v, sw);
    RetireRow(w, v, gone, id, false);
    OneSwitchEach(w, sw);
    RetireOneServing(w.serving, v.serving, gone, id, sw, false);
    RetireNoSwitch(w, v.switches, gone, id);
    DetachedThenMarked(v, sw);
    hide RetiredRows, RetiredServing, RetiredSwitches, Retired, Wired, ServingOk;
  }

  lemma RowsThere(w: World, v: World, gone: map<nat, bool>)
    requires RetiredSome(w, v, gone)
    ensures v.objects.Keys == w.objects.Keys
  {
  }

  /** The next project of the list, whatever it is doing. */
  lemma RetireNext(w: World, v: World, gone: map<nat, bool>, id: nat, keep: bool)
    requires ServingOk(w) && Wired(v) && RetiredSome(w, v, gone) && MayRetire(w, id, keep) && id !in gone
    ensures id in v.objects && Wired(Retired(v, id, keep)) && RetiredSome(w, Retired(v, id, keep), gone[id := keep])
  {
    RowsThere(w, v, gone);
    hide Wired, RetiredSome, ServingOk, Retired, InService;
    if keep {
      RetireKeeping(w, v, gone, id);
    } else if OffRoute(w, id) {
      RetireOff(w, v, gone, id);
    } else {
      RetireDetaching(w, v, gone, id);
    }
  }

  lemma WiredIs(w: World)
    requires Wired(w)
    ensures ServingOk(w)
  {
  }

  lemma NobodyRetired(w: World)
    ensures RetiredSome(w, w, map[])
  {
  }
}
