/**
 What is left of the wiring when two projects may meet in one router under one hostname, as happens
 when a worktree comes back while its old record is still on the listener: memberships are counted
 right, and whoever is routed is a member. Every operation keeps this without looking for room.
 */
module Linking {
  import opened Options
  import opened Config
  import opened Routing
  import opened Teardown
  import opened Rebuild

  /** Only members are routed; a member may have lost its hostname to another one. */
  ghost predicate LinkOk(l: Listener, serving: map<nat, Served>, members: set<nat>) {
    && members <= serving.Keys && l.members == |members| && (l.entry == None ==> members != {})
    && (forall sw :: sw in members ==> serving[sw].entry == l.entry)
    && (forall h :: h in l.hosts ==> h != "" && l.hosts[h] in members && serving[l.hosts[h]].project.host == h)
    && (l.catchAll.Some? ==> l.catchAll.value in members && serving[l.catchAll.value].project.host == "")
  }

  ghost predicate LinksOk(w: World) {
    && (forall a :: a in w.listeners ==> LinkOk(w.listeners[a], w.serving, Members(w.serving, a)))
    && (forall sw :: sw in w.serving ==> ListenAddr(w.serving[sw].project) in w.listeners)
  }

  ghost predicate Linked(w: World) {
    ServingOk(w) && EntriesOk(w) && LinksOk(w)
  }

  lemma WiredIsLinked(w: World)
    requires Wired(w)
    ensures Linked(w)
  {
    forall a | a in w.listeners
      ensures LinkOk(w.listeners[a], w.serving, Members(w.serving, a))
    {
      assert ListenerOk(w.listeners[a], w.serving, Members(w.serving, a));
    }
  }

  lemma LinkFrame(l: Listener, serving: map<nat, Served>, after: map<nat, Served>, members: set<nat>)
    requires LinkOk(l, serving, members)
    requires members <= after.Keys && forall sw :: sw in members ==> after[sw] == serving[sw]
    ensures LinkOk(l, after, members)
  {
  }

  // ---- Joining ----

  lemma JoinedOk(l: Listener, serving: map<nat, Served>, members: set<nat>, sw: nat, v: Served)
    requires members <= serving.Keys && sw !in members && v.entry == l.entry
    requires if members == {} && l.members == 0 then l.hosts == map[] && l.catchAll == None else LinkOk(l, serving, members)
    ensures LinkOk(Routing.Routed(l.(members := l.members + 1), v.project.host, sw), serving[sw := v], members + {sw})
  {
  }

  lemma JoinedThere(w: World, sw: nat, q: Served, a: Address)
    requires LinksOk(w) && sw !in w.serving && q.entry == if a in w.listeners then w.listeners[a].entry else None
    requires a == ListenAddr(q.project)
    ensures var l := if a in w.listeners then w.listeners[a] else Listener(0, None, map[], None);
      LinkOk(Routing.Routed(l.(members := l.members + 1), q.project.host, sw), w.serving[sw := q], Members(w.serving[sw := q], a))
  {
    MembersAfterAdd(w.serving, sw, q, a);
    if a !in w.listeners {
      assert Members(w.serving, a) == {};
      JoinedOk(Listener(0, None, map[], None), w.serving, {}, sw, q);
    } else {
      JoinedOk(w.listeners[a], w.serving, Members(w.serving, a), sw, q);
    }
  }

  lemma JoinedAside(w: World, sw: nat, q: Served, a: Address)
    requires LinksOk(w) && sw !in w.serving && a in w.listeners && a != ListenAddr(q.project)
    ensures LinkOk(w.listeners[a], w.serving[sw := q], Members(w.serving[sw := q], a))
  {
    MembersAfterAdd(w.serving, sw, q, a);
    LinkFrame(w.listeners[a], w.serving, w.serving[sw := q], Members(w.serving, a));
  }

  lemma JoinedListener(w: World, id: nat, a: Address)
    requires LinksOk(w) && CanJoin(w, id) && a in Attached(w, id).listeners
    ensures var v := Attached(w, id); LinkOk(v.listeners[a], v.serving, Members(v.serving, a))
  {
    var st := w.objects[id];
    hide LinkOk, LinksOk;
    if a == ListenAddr(st.project) {
      JoinedThere(w, st.sw, Served(id, st.project, st.entry), a);
    } else {
      JoinedAside(w, st.sw, Served(id, st.project, st.entry), a);
    }
  }

  lemma JoinedLinks(w: World, id: nat)
    requires Linked(w) && CanJoin(w, id)
    ensures Linked(Attached(w, id))
  {
    var v := Attached(w, id);
    AttachedServing(w, id);
    AttachedEntries(w, id);
    hide ServingOk, EntriesOk, CanJoin;
    forall a | a in v.listeners
      ensures LinkOk(v.listeners[a], v.serving, Members(v.serving, a))
    {
      JoinedListener(w, id, a);
    }
  }

  // ---- Leaving ----

  lemma LeftOk(l: Listener, serving: map<nat, Served>, members: set<nat>, sw: nat)
    requires LinkOk(l, serving, members) && sw in members
    ensures var r := Unrouted(l, serving[sw].project.host).(members := l.members - 1);
      && r.members == |members - {sw}|
      && (r.entry.Some? || members - {sw} != {} ==> LinkOk(r, serving - {sw}, members - {sw}))
  {
  }

  lemma LeftListener(w: World, sw: nat, a: Address)
    requires LinksOk(w) && sw in w.serving && ServedOk(w, sw)
    ensures var v := Detached(w, w.serving[sw].id);
      && (a in v.listeners ==> LinkOk(v.listeners[a], v.serving, Members(v.serving, a)))
      && (a in w.listeners && a !in v.listeners ==> Members(v.serving, a) == {})
  {
    DetachedServed(w, sw);
    MembersAfterRemove(w.serving, sw, a);
    var addr := ListenAddr(w.serving[sw].project);
    if a == addr {
      LeftOk(w.listeners[addr], w.serving, Members(w.serving, addr), sw);
    } else if a in w.listeners {
      LinkFrame(w.listeners[a], w.serving, w.serving - {sw}, Members(w.serving, a));
    }
  }

  lemma DetachedLinks(w: World, sw: nat)
    requires Linked(w) && sw in w.serving
    ensures Linked(Detached(w, w.serving[sw].id))
  {
    var v := Detached(w, w.serving[sw].id);
    DetachedServed(w, sw);
    DetachedServing(w, sw);
    DetachedEntries(w, sw);
    assert ServedOk(w, sw);
    hide ServingOk, EntriesOk, Detached;
    forall a | a in v.listeners
      ensures LinkOk(v.listeners[a], v.serving, Members(v.serving, a))
    {
      LeftListener(w, sw, a);
    }
    forall m | m in v.serving
      ensures ListenAddr(v.serving[m].project) in v.listeners
    {
      LeftListener(w, sw, ListenAddr(v.serving[m].project));
      assert m in Members(v.serving, ListenAddr(v.serving[m].project));
    }
  }

  // ---- Taking over ----

  lemma TakenOver(l: Listener, serving: map<nat, Served>, members: set<nat>, sw: nat, q: Served)
    requires LinkOk(l, serving, members) && sw in serving
    requires q.project.host == serving[sw].project.host && q.entry == serving[sw].entry
    ensures LinkOk(l, serving[sw := q], members)
  {
  }

  lemma TakenOverListener(w: World, sw: nat, q: Served, a: Address)
    requires LinksOk(w) && sw in w.serving && a in w.listeners && q.entry == w.serving[sw].entry
    requires ListenAddr(q.project) == ListenAddr(w.serving[sw].project) && q.project.host == w.serving[sw].project.host
    ensures LinkOk(w.listeners[a], w.serving[sw := q], Members(w.serving[sw := q], a))
  {
    InheritedMembers(w.serving, sw, q, a);
    TakenOver(w.listeners[a], w.serving, Members(w.serving, a), sw, q);
  }

  lemma InheritedEntries(w: World, id: nat, sw: nat)
    requires EntriesOk(w) && CanInherit(w, id, sw) && w.serving[sw].id in w.objects
    ensures EntriesOk(Inherited(w, id, w.serving[sw].id))
  {
    EntriesFrame(w, Inherited(w, id, w.serving[sw].id));
  }

  lemma InheritedRoutes(w: World, id: nat, sw: nat)
    requires LinksOk(w) && CanInherit(w, id, sw) && ServedOk(w, sw)
    ensures LinksOk(Inherited(w, id, w.serving[sw].id))
  {
    var v := Inherited(w, id, w.serving[sw].id);
    hide LinkOk;
    forall a | a in v.listeners
      ensures LinkOk(v.listeners[a], v.serving, Members(v.serving, a))
    {
      TakenOverListener(w, sw, v.serving[sw], a);
    }
  }

  lemma InheritedLinks(w: World, id: nat, sw: nat)
    requires Linked(w) && CanInherit(w, id, sw)
    ensures w.serving[sw].id in w.objects && Linked(Inherited(w, id, w.serving[sw].id))
  {
    InheritedServing(w, id, sw);
    InheritedEntries(w, id, sw);
    assert ServedOk(w, sw);
    hide ServingOk, EntriesOk, LinksOk;
    InheritedRoutes(w, id, sw);
  }

  // ---- Everything else ----

  /** More records, switches and rows, and records marked retired. */
  lemma FrameLinks(w: World, v: World)
    requires Linked(w) && v.nextId >= w.nextId
    requires v == w.(states := v.states, objects := v.objects, switches := v.switches, nextId := v.nextId)
    requires forall sw :: sw in w.switches ==> sw in v.switches
    requires forall id :: id in v.objects ==> id < v.nextId
    requires forall id :: id in w.objects ==> id in v.objects && v.objects[id].(retired := false) == w.objects[id].(retired := false)
    ensures Linked(v)
  {
    forall sw | sw in v.serving
      ensures ServedOk(v, sw)
    {
      assert ServedOk(w, sw);
    }
    EntriesFrame(w, v);
  }

  lemma EntryBoundLinks(w: World, e: Entry)
    requires Linked(w) && EntryAddr(e) !in w.listeners && e.name !in w.entries
    ensures Linked(EntryBound(w, e))
  {
    var v := EntryBound(w, e);
    EntryBoundEntries(w, e);
    ServingFrame(w, v);
    forall a | a in v.listeners
      ensures LinkOk(v.listeners[a], v.serving, Members(v.serving, a))
    {
      if a == EntryAddr(e) {
        assert Members(w.serving, a) == {};
      }
    }
  }

  lemma ElsewhereListener(w: World, addr: Address, a: Address)
    requires LinksOk(w) && a in w.listeners && a != addr
    ensures LinkOk(w.listeners[a], Elsewhere(w.serving, addr), Members(Elsewhere(w.serving, addr), a))
  {
    MembersElsewhere(w.serving, addr, a);
    LinkFrame(w.listeners[a], w.serving, Elsewhere(w.serving, addr), Members(w.serving, a));
  }

  lemma EntryUnboundLinks(w: World, name: string)
    requires Linked(w) && name in w.entries
    ensures Linked(EntryUnbound(w, name))
  {
    var v := EntryUnbound(w, name);
    EntryUnboundEntries(w, name);
    EntryUnboundServing(w, name);
    hide ServingOk, EntriesOk, LinkOk, CutOff;
    forall a | a in v.listeners
      ensures LinkOk(v.listeners[a], v.serving, Members(v.serving, a))
    {
      ElsewhereListener(w, EntryAddr(w.entries[name].entry), a);
    }
  }

  // ---- Commissioning ----

  /** A project may join the listener of its own entry, or one that no entry owns. */
  predicate Joins(w: World, p: Project, entry: Option<nat>) {
    && (entry.Some? ==> p.host != "")
    && if ListenAddr(p) in w.listeners then w.listeners[ListenAddr(p)].entry == entry else entry == None
  }

  lemma CreatedLinks(w: World, p: Project, tracker: nat, entry: Option<nat>)
    requires Linked(w)
    ensures Linked(Created(w, p, tracker, entry)) && w.nextId !in w.serving && w.nextId !in w.objects
  {
    UnusedSwitch(w);
    hide EntriesOk, LinksOk;
    FrameLinks(w, Created(w, p, tracker, entry));
  }

  lemma JoinKeeps(w: World, p: Project, tracker: nat, entry: Option<nat>)
    requires Linked(w) && Joins(w, p, entry)
    ensures Linked(Commissioned(w, p, tracker, entry, None))
  {
    var v := Created(w, p, tracker, entry);
    CreatedLinks(w, p, tracker, entry);
    NobodyIs(w, w.nextId);
    hide Linked;
    JoinedLinks(v, w.nextId);
  }

  lemma InheritLinks(w: World, p: Project, tracker: nat, sw: nat)
    requires Linked(w) && sw in w.serving && SameRoute(w.serving[sw].project, p)
    ensures w.serving[sw].id in w.objects && w.serving[sw].id != w.nextId
    ensures Linked(Commissioned(w, p, tracker, w.serving[sw].entry, Some(w.serving[sw].id)))
  {
    var entry := w.serving[sw].entry;
    hide ServingOk, EntriesOk, LinksOk, SameRoute, Inherited;
    InheritsFrom(w, p, tracker, sw);
    CreatedLinks(w, p, tracker, entry);
    hide Linked, CanInherit;
    InheritedLinks(Created(w, p, tracker, entry), w.nextId, sw);
  }

  lemma MarkLinks(w: World, id: nat)
    requires Linked(w) && id in w.objects
    ensures Linked(w.(objects := w.objects[id := w.objects[id].(retired := true)]))
  {
    hide EntriesOk, LinksOk;
    FrameLinks(w, w.(objects := w.objects[id := w.objects[id].(retired := true)]));
  }

  lemma ReleasedLinks(v: World, sw: nat)
    requires Linked(v) && sw in v.serving && v.serving[sw].id in v.objects && !v.objects[v.serving[sw].id].retired
    ensures Linked(Retired(v, v.serving[sw].id, false))
  {
    var id := v.serving[sw].id;
    DetachedLinks(v, sw);
    assert ServedOk(v, sw);
    DetachedServed(v, sw);
    hide ServingOk, EntriesOk, LinksOk, Detached;
    MarkLinks(Detached(v, id), id);
  }
}
