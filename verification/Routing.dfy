/**
 Listeners, routers, and the project states routed through them, as one value: what each
 operation does to the table, and the wiring every operation keeps.
 */
module Routing {
  import opened Options
  import opened Config

  /** The daemon's record of one registered project. */
  datatype State = State(
    project: Project, tracker: nat, sw: nat, bind: Option<Address>, dynamic: bool, entry: Option<nat>, retired: bool)

  /** A bound listener and its router: routes by hostname, or one catch-all; owned by an entry, or shared by projects. */
  datatype Listener = Listener(members: int, entry: Option<nat>, hosts: map<string, nat>, catchAll: Option<nat>)

  datatype EntryState = EntryState(id: nat, entry: Entry)

  datatype Served = Served(id: nat, project: Project, entry: Option<nat>)

  datatype World = World(
    // The project table, and every state object by identity.
    states: map<string, nat>,
    objects: map<nat, State>,
    entries: map<string, EntryState>,
    listeners: map<Address, Listener>,
    // What each handler switch serves: a state, or nothing while it is suspended.
    switches: map<nat, Option<nat>>,
    // History: which state holds a listener's membership through a switch, and with which configuration.
    serving: map<nat, Served>,
    nextId: nat)

  const EMPTY: World := World(map[], map[], map[], map[], map[], map[], 0)

  // ---- Requests ----

  datatype Answer =
    | NoListener
    | ToState(id: nat)
    | Parked
    | Resolver(entry: nat)
    | NotFound

  function Through(w: World, sw: nat): Answer {
    if sw in w.switches && w.switches[sw].Some? then ToState(w.switches[sw].value) else Parked
  }

  /** Where a request for a hostname on an address goes. */
  function Route(w: World, addr: Address, host: string): Answer {
    if addr !in w.listeners then NoListener
    else
      var l := w.listeners[addr];
      if l.catchAll.Some? then Through(w, l.catchAll.value)
      else if host in l.hosts then Through(w, l.hosts[host])
      else if l.entry.Some? then Resolver(l.entry.value)
      else NotFound
  }

  // ---- Operations ----

  /** A fresh record with a switch that serves it; nothing is routed to it yet. */
  function Created(w: World, p: Project, tracker: nat, entry: Option<nat>): World {
    w.(objects := w.objects[w.nextId := State(p, tracker, w.nextId, None, entry.Some?, entry, false)],
       switches := w.switches[w.nextId := Some(w.nextId)],
       nextId := w.nextId + 1)
  }

  function Routed(l: Listener, host: string, sw: nat): Listener {
    if host != "" then l.(hosts := l.hosts[host := sw]) else l.(catchAll := Some(sw))
  }

  function Unrouted(l: Listener, host: string): Listener {
    if host != "" then l.(hosts := l.hosts - {host}) else l.(catchAll := None)
  }

  /** The state's record and membership change; its listener's row becomes l. */
  function Attached(w: World, id: nat): World
    requires id in w.objects
  {
    var st := w.objects[id];
    var addr := ListenAddr(st.project);
    var l := if addr in w.listeners then w.listeners[addr] else Listener(0, None, map[], None);
    w.(listeners := w.listeners[addr := Routed(l.(members := l.members + 1), st.project.host, st.sw)],
       objects := w.objects[id := st.(bind := Some(addr))],
       states := w.states[st.project.name := id],
       serving := w.serving[st.sw := Served(id, st.project, st.entry)])
  }

  function Detached(w: World, id: nat): World
    requires id in w.objects
  {
    var st := w.objects[id];
    if st.bind == None || st.bind.value !in w.listeners then w
    else
      var addr := st.bind.value;
      var l := Unrouted(w.listeners[addr], st.project.host);
      var m := l.(members := l.members - 1);
      w.(listeners := if m.members <= 0 && m.entry == None then w.listeners - {addr} else w.listeners[addr := m],
         objects := w.objects[id := st.(bind := None)],
         serving := w.serving - {st.sw})
  }

  function Suspended(w: World, id: nat): World
    requires id in w.objects
  {
    w.(switches := w.switches[w.objects[id].sw := None])
  }

  /** Runs at most once per project. */
  function Retired(w: World, id: nat, keep: bool): World
    requires id in w.objects
  {
    if w.objects[id].retired then w
    else
      var v := if keep then Suspended(w, id) else Detached(w, id);
      v.(objects := v.objects[id := v.objects[id].(retired := true)])
  }

  /** The record holds its listener's membership. */
  predicate HoldsRoute(w: World, id: nat) {
    id in w.objects && w.objects[id].sw in w.serving && w.serving[w.objects[id].sw].id == id
  }

  /** A replacement on the same address and host takes over switch and listener, and the membership if it is still held. */
  function Inherited(w: World, id: nat, prev: nat): World
    requires id in w.objects && prev in w.objects
  {
    var o := w.objects[prev];
    var st := w.objects[id].(sw := o.sw, bind := o.bind);
    w.(objects := w.objects[id := st],
       states := w.states[st.project.name := id],
       switches := w.switches[o.sw := Some(id)],
       serving := if HoldsRoute(w, prev) then w.serving[st.sw := Served(id, st.project, st.entry)] else w.serving)
  }

  function EntryBound(w: World, e: Entry): World {
    w.(entries := w.entries[e.name := EntryState(w.nextId, e)],
       listeners := w.listeners[EntryAddr(e) := Listener(0, Some(w.nextId), map[], None)],
       nextId := w.nextId + 1)
  }

  /** Still to be retired, and on the listener of this entry at this address. */
  predicate IsOn(st: State, addr: Address, entry: nat) {
    st.bind == Some(addr) && st.entry == Some(entry) && !st.retired
  }

  /** A closed listener is none: whoever is still on it can neither be reached through it nor leave it. */
  function CutOff(objects: map<nat, State>, addr: Address, entry: nat): map<nat, State> {
    map id | id in objects :: if IsOn(objects[id], addr, entry) then objects[id].(bind := None) else objects[id]
  }

  function Elsewhere(serving: map<nat, Served>, addr: Address): map<nat, Served> {
    map sw | sw in serving && ListenAddr(serving[sw].project) != addr :: serving[sw]
  }

  /** The entry's listener is closed, whether or not a project is still on it. */
  function EntryUnbound(w: World, name: string): World
    requires name in w.entries
  {
    var addr := EntryAddr(w.entries[name].entry);
    w.(entries := w.entries - {name}, listeners := w.listeners - {addr},
       objects := CutOff(w.objects, addr, w.entries[name].id), serving := Elsewhere(w.serving, addr))
  }

  /** The very entry is in the table, so its listener is open. */
  predicate IsBound(w: World, es: EntryState) {
    es.entry.name in w.entries && w.entries[es.entry.name] == es
  }

  /** A wildcard entry registers a project for one of its worktrees; p carries the entry's own address. */
  function Materialised(w: World, name: string, p: Project, tracker: nat): World
    requires name in w.entries
  {
    Attached(Created(w, p, tracker, Some(w.entries[name].id)), w.nextId)
  }

  /** The table row is deleted if it is still this record's. */
  function Unlisted(w: World, name: string, id: nat): World {
    if name in w.states && w.states[name] == id then w.(states := w.states - {name}) else w
  }

  /** Its resolver may be late: then the project gets its table row, and a route that leads from nowhere. */
  function RegisteredLate(w: World, p: Project, tracker: nat, entry: nat): World {
    var v := Created(w, p, tracker, Some(entry));
    v.(states := v.states[p.name := w.nextId])
  }

  function RegisteredFor(w: World, es: EntryState, p: Project, tracker: nat): World {
    if IsBound(w, es) then Materialised(w, es.entry.name, p, tracker) else RegisteredLate(w, p, tracker, es.id)
  }

  /** A dynamic project leaves: its route first, then, once its process is gone, its table row. */
  function Dropped(w: World, id: nat): World
    requires id in w.objects
  {
    Unlisted(Retired(w, id, false), w.objects[id].project.name, id)
  }

  // ---- Wiring ----

  /** The switches routed through an address. */
  function Members(serving: map<nat, Served>, addr: Address): set<nat> {
    set sw | sw in serving && ListenAddr(serving[sw].project) == addr
  }

  /** The router's table is exactly its members' routes; a project without a hostname has the listener to itself. */
  ghost predicate TableOk(l: Listener, serving: map<nat, Served>, members: set<nat>)
    requires members <= serving.Keys
  {
    && (forall h :: h in l.hosts ==> h != "" && l.hosts[h] in members && serving[l.hosts[h]].project.host == h)
    && (forall sw :: sw in members ==>
          var h := serving[sw].project.host;
          if h != "" then h in l.hosts && l.hosts[h] == sw else l.catchAll == Some(sw))
    && (l.catchAll.Some? ==> members == {l.catchAll.value} && serving[l.catchAll.value].project.host == "")
  }

  /** members is the number of states routed through it; without an entry a listener is there only for them. */
  ghost predicate ListenerOk(l: Listener, serving: map<nat, Served>, members: set<nat>) {
    && members <= serving.Keys
    && TableOk(l, serving, members)
    && l.members == |members|
    && (l.entry == None ==> members != {})
    && (forall sw :: sw in members ==> serving[sw].entry == l.entry)
  }

  ghost predicate ListenersOk(w: World) {
    && (forall a :: a in w.listeners ==> ListenerOk(w.listeners[a], w.serving, Members(w.serving, a)))
    && (forall sw :: sw in w.serving ==> ListenAddr(w.serving[sw].project) in w.listeners)
  }

  /** A served state's own record agrees with what it is served as. */
  predicate ServedOk(w: World, sw: nat)
    requires sw in w.serving
  {
    var v := w.serving[sw];
    && v.id in w.objects && sw in w.switches && sw < w.nextId
    && var st := w.objects[v.id];
      st.sw == sw && st.project == v.project && st.entry == v.entry
      && st.bind == Some(ListenAddr(v.project)) && (st.dynamic <==> st.entry.Some?)
      && (st.dynamic ==> st.project.host != "")
  }

  ghost predicate ServingOk(w: World) {
    && (forall id :: id in w.objects ==> id < w.nextId)
    && (forall sw :: sw in w.serving ==> ServedOk(w, sw))
  }

  ghost predicate EntryOk(w: World, n: string)
    requires n in w.entries
  {
    var es := w.entries[n];
    && es.entry.name == n && es.id < w.nextId
    && EntryAddr(es.entry) in w.listeners && w.listeners[EntryAddr(es.entry)].entry == Some(es.id)
  }

  ghost predicate Owns(w: World, n: string, a: Address) {
    n in w.entries && EntryAddr(w.entries[n].entry) == a && a in w.listeners && w.listeners[a].entry == Some(w.entries[n].id)
  }

  /** Each entry owns the listener at its address, and nothing else owns one. */
  ghost predicate EntriesOk(w: World) {
    && (forall n :: n in w.entries ==> EntryOk(w, n))
    && (forall n, m :: n in w.entries && m in w.entries && n != m ==> w.entries[n].id != w.entries[m].id)
    && (forall a :: a in w.listeners && w.listeners[a].entry.Some? ==> exists n :: Owns(w, n, a))
  }

  ghost predicate Wired(w: World) {
    ServingOk(w) && EntriesOk(w) && ListenersOk(w)
  }

  // ---- One router ----

  lemma RoutedOk(l: Listener, serving: map<nat, Served>, members: set<nat>, sw: nat, v: Served)
    requires members <= serving.Keys && TableOk(l, serving, members) && l.members == |members| && sw !in members
    requires forall m :: m in members ==> serving[m].entry == l.entry
    requires v.entry == l.entry
    requires if v.project.host != "" then l.catchAll == None && v.project.host !in l.hosts else members == {}
    ensures ListenerOk(Routed(l.(members := l.members + 1), v.project.host, sw), serving[sw := v], members + {sw})
  {
  }

  lemma UnroutedOk(l: Listener, serving: map<nat, Served>, members: set<nat>, sw: nat)
    requires ListenerOk(l, serving, members) && sw in members
    ensures var r := Unrouted(l, serving[sw].project.host).(members := l.members - 1);
      && r.members == |members - {sw}|
      && (r.entry.Some? || members - {sw} != {} ==> ListenerOk(r, serving - {sw}, members - {sw}))
  {
  }

  lemma TableFrame(l: Listener, serving: map<nat, Served>, after: map<nat, Served>, members: set<nat>)
    requires ListenerOk(l, serving, members)
    requires members <= after.Keys && forall sw :: sw in members ==> after[sw] == serving[sw]
    ensures ListenerOk(l, after, members)
  {
  }

  lemma EntriesFrame(w: World, v: World)
    requires EntriesOk(w) && v.entries == w.entries && v.nextId >= w.nextId
    requires forall a :: a in w.listeners && w.listeners[a].entry.Some? ==> a in v.listeners
    requires forall a :: a in v.listeners ==>
      if a in w.listeners then v.listeners[a].entry == w.listeners[a].entry else v.listeners[a].entry == None
    ensures EntriesOk(v)
  {
    forall n | n in v.entries
      ensures EntryOk(v, n)
    {
      assert EntryOk(w, n);
    }
    forall a | a in v.listeners && v.listeners[a].entry.Some?
      ensures exists n :: Owns(v, n, a)
    {
      var n :| Owns(w, n, a);
      assert Owns(v, n, a);
    }
  }

  // ---- Every operation keeps the wiring ----

  lemma CreatedKeeps(w: World, p: Project, tracker: nat, entry: Option<nat>)
    requires Wired(w)
    ensures Wired(Created(w, p, tracker, entry)) && w.nextId !in w.serving && w.nextId !in w.objects
  {
    var v := Created(w, p, tracker, entry);
    forall sw | sw in v.serving
      ensures ServedOk(v, sw)
    {
      assert ServedOk(w, sw);
    }
    EntriesFrame(w, v);
  }

  /** What a state must meet to join a listener: a switch of its own, and a listener of its own entry, or of none. */
  ghost predicate CanJoin(w: World, id: nat) {
    && id in w.objects
    && var st := w.objects[id];
      var addr := ListenAddr(st.project);
      && st.sw in w.switches && st.sw < w.nextId && st.sw !in w.serving
      && (st.dynamic <==> st.entry.Some?) && (st.dynamic ==> st.project.host != "")
      && (forall sw :: sw in w.serving ==> w.serving[sw].id != id)
      && (if addr in w.listeners then w.listeners[addr].entry == st.entry else st.entry == None)
  }

  /** And room in its router. */
  ghost predicate CanAttach(w: World, id: nat) {
    && CanJoin(w, id)
    && var p := w.objects[id].project;
      var addr := ListenAddr(p);
      addr in w.listeners ==>
        if p.host != "" then w.listeners[addr].catchAll == None && p.host !in w.listeners[addr].hosts
        else w.listeners[addr].members == 0
  }

  lemma MembersAfterAdd(serving: map<nat, Served>, sw: nat, v: Served, a: Address)
    requires sw !in serving
    ensures Members(serving[sw := v], a) == if a == ListenAddr(v.project) then Members(serving, a) + {sw} else Members(serving, a)
  {
  }

  lemma MembersAfterRemove(serving: map<nat, Served>, sw: nat, a: Address)
    requires sw in serving
    ensures Members(serving - {sw}, a) == Members(serving, a) - {sw}
    ensures a != ListenAddr(serving[sw].project) ==> Members(serving - {sw}, a) == Members(serving, a)
  {
  }

  lemma AttachedListener(w: World, id: nat, a: Address)
    requires ListenersOk(w) && CanAttach(w, id) && a in Attached(w, id).listeners
    ensures var v := Attached(w, id); ListenerOk(v.listeners[a], v.serving, Members(v.serving, a))
  {
    var v := Attached(w, id);
    var st := w.objects[id];
    MembersAfterAdd(w.serving, st.sw, v.serving[st.sw], a);
    if a == ListenAddr(st.project) {
      if a !in w.listeners {
        assert Members(w.serving, a) == {};
      }
      RoutedOk(if a in w.listeners then w.listeners[a] else Listener(0, None, map[], None),
               w.serving, Members(w.serving, a), st.sw, v.serving[st.sw]);
    } else {
      TableFrame(w.listeners[a], w.serving, v.serving, Members(w.serving, a));
    }
  }

  lemma AttachedServing(w: World, id: nat)
    requires ServingOk(w) && CanJoin(w, id)
    ensures ServingOk(Attached(w, id))
  {
    var v := Attached(w, id);
    forall sw | sw in v.serving
      ensures ServedOk(v, sw)
    {
      assert sw in w.serving ==> ServedOk(w, sw);
    }
  }

  lemma AttachedListeners(w: World, id: nat)
    requires ListenersOk(w) && CanAttach(w, id)
    ensures ListenersOk(Attached(w, id))
  {
    var v := Attached(w, id);
    forall a | a in v.listeners
      ensures ListenerOk(v.listeners[a], v.serving, Members(v.serving, a))
    {
      AttachedListener(w, id, a);
    }
  }

  lemma AttachedEntries(w: World, id: nat)
    requires EntriesOk(w) && CanJoin(w, id)
    ensures EntriesOk(Attached(w, id))
  {
    EntriesFrame(w, Attached(w, id));
  }

  lemma AttachedKeeps(w: World, id: nat)
    requires Wired(w) && CanAttach(w, id)
    ensures Wired(Attached(w, id))
  {
    AttachedListeners(w, id);
    AttachedServing(w, id);
    AttachedEntries(w, id);
  }

  /** What Detached is for a state that is being served. */
  lemma DetachedServed(w: World, sw: nat)
    requires sw in w.serving && ServedOk(w, sw) && ListenAddr(w.serving[sw].project) in w.listeners
    ensures var v, addr := Detached(w, w.serving[sw].id), ListenAddr(w.serving[sw].project);
      var l := Unrouted(w.listeners[addr], w.serving[sw].project.host).(members := w.listeners[addr].members - 1);
      && v.serving == w.serving - {sw}
      && v.listeners == (if l.members <= 0 && l.entry == None then w.listeners - {addr} else w.listeners[addr := l])
      && v.objects == w.objects[w.serving[sw].id := w.objects[w.serving[sw].id].(bind := None)]
      && v == w.(serving := v.serving, listeners := v.listeners, objects := v.objects)
  {
  }

  lemma DetachedListener(w: World, sw: nat, a: Address)
    requires ListenersOk(w) && sw in w.serving && ServedOk(w, sw)
    ensures var v := Detached(w, w.serving[sw].id);
      && (a in v.listeners ==> ListenerOk(v.listeners[a], v.serving, Members(v.serving, a)))
      && (a in w.listeners && a !in v.listeners ==> Members(v.serving, a) == {})
  {
    DetachedServed(w, sw);
    MembersAfterRemove(w.serving, sw, a);
    var addr := ListenAddr(w.serving[sw].project);
    if a == addr {
      UnroutedOk(w.listeners[addr], w.serving, Members(w.serving, addr), sw);
    } else if a in w.listeners {
      TableFrame(w.listeners[a], w.serving, w.serving - {sw}, Members(w.serving, a));
    }
  }

  lemma DetachedListeners(w: World, sw: nat)
    requires ListenersOk(w) && sw in w.serving && ServedOk(w, sw)
    ensures ListenersOk(Detached(w, w.serving[sw].id))
  {
    DetachedServed(w, sw);
    var v := Detached(w, w.serving[sw].id);
    forall a | a in v.listeners
      ensures ListenerOk(v.listeners[a], v.serving, Members(v.serving, a))
    {
      DetachedListener(w, sw, a);
    }
    forall m | m in v.serving
      ensures ListenAddr(v.serving[m].project) in v.listeners
    {
      DetachedListener(w, sw, ListenAddr(v.serving[m].project));
      assert m in Members(v.serving, ListenAddr(v.serving[m].project));
    }
  }

  lemma DetachedServing(w: World, sw: nat)
    requires ServingOk(w) && sw in w.serving && ListenAddr(w.serving[sw].project) in w.listeners
    ensures ServingOk(Detached(w, w.serving[sw].id))
  {
    DetachedServed(w, sw);
    var v := Detached(w, w.serving[sw].id);
    forall m | m in v.serving
      ensures ServedOk(v, m)
    {
      assert ServedOk(w, m);
    }
  }

  lemma DetachedEntries(w: World, sw: nat)
    requires EntriesOk(w) && sw in w.serving && ServedOk(w, sw) && ListenAddr(w.serving[sw].project) in w.listeners
    ensures EntriesOk(Detached(w, w.serving[sw].id))
  {
    DetachedServed(w, sw);
    EntriesFrame(w, Detached(w, w.serving[sw].id));
  }

  lemma DetachedKeeps(w: World, sw: nat)
    requires Wired(w) && sw in w.serving
    ensures Wired(Detached(w, w.serving[sw].id)) && Detached(w, w.serving[sw].id).serving == w.serving - {sw}
  {
    DetachedListeners(w, sw);
    DetachedServing(w, sw);
    DetachedEntries(w, sw);
    DetachedServed(w, sw);
  }

  /** What a replacement must meet: not serving itself, and the address, host and entry of the state it replaces. */
  ghost predicate CanInherit(w: World, id: nat, sw: nat) {
    && sw in w.serving && id in w.objects && (forall m :: m in w.serving ==> w.serving[m].id != id)
    && var p, q := w.objects[id], w.serving[sw];
      && ListenAddr(p.project) == ListenAddr(q.project) && p.project.host == q.project.host
      && p.entry == q.entry && (p.dynamic <==> p.entry.Some?)
  }

  lemma InheritedServing(w: World, id: nat, sw: nat)
    requires ServingOk(w) && CanInherit(w, id, sw)
    ensures w.serving[sw].id in w.objects && ServingOk(Inherited(w, id, w.serving[sw].id))
    ensures Inherited(w, id, w.serving[sw].id).serving == w.serving[sw := Served(id, w.objects[id].project, w.objects[id].entry)]
  {
    assert ServedOk(w, sw);
    var v := Inherited(w, id, w.serving[sw].id);
    forall m | m in v.serving
      ensures ServedOk(v, m)
    {
      assert ServedOk(w, m);
    }
  }

  lemma InheritedRouter(l: Listener, serving: map<nat, Served>, members: set<nat>, sw: nat, q: Served)
    requires ListenerOk(l, serving, members) && sw in serving
    requires q.project.host == serving[sw].project.host && q.entry == serving[sw].entry
    ensures ListenerOk(l, serving[sw := q], members)
  {
  }

  lemma InheritedMembers(serving: map<nat, Served>, sw: nat, q: Served, a: Address)
    requires sw in serving && ListenAddr(q.project) == ListenAddr(serving[sw].project)
    ensures Members(serving[sw := q], a) == Members(serving, a)
  {
  }

  lemma InheritedListener(w: World, sw: nat, q: Served, a: Address)
    requires ListenersOk(w) && sw in w.serving && a in w.listeners && q.entry == w.serving[sw].entry
    requires ListenAddr(q.project) == ListenAddr(w.serving[sw].project) && q.project.host == w.serving[sw].project.host
    ensures ListenerOk(w.listeners[a], w.serving[sw := q], Members(w.serving[sw := q], a))
  {
    InheritedMembers(w.serving, sw, q, a);
    InheritedRouter(w.listeners[a], w.serving, Members(w.serving, a), sw, q);
  }

  lemma InheritedListeners(w: World, id: nat, sw: nat)
    requires ListenersOk(w) && CanInherit(w, id, sw) && ServedOk(w, sw)
    ensures ListenersOk(Inherited(w, id, w.serving[sw].id))
  {
    var v := Inherited(w, id, w.serving[sw].id);
    forall a | a in v.listeners
      ensures ListenerOk(v.listeners[a], v.serving, Members(v.serving, a))
    {
      InheritedListener(w, sw, v.serving[sw], a);
    }
  }

  lemma InheritedKeeps(w: World, id: nat, sw: nat)
    requires Wired(w) && CanInherit(w, id, sw)
    ensures w.serving[sw].id in w.objects && Wired(Inherited(w, id, w.serving[sw].id))
  {
    InheritedServing(w, id, sw);
    InheritedListeners(w, id, sw);
    EntriesFrame(w, Inherited(w, id, w.serving[sw].id));
  }

  lemma FlagsKeep(w: World, v: World)
    requires Wired(w) && v == w.(states := v.states, switches := v.switches, objects := v.objects)
    requires w.switches.Keys <= v.switches.Keys
    requires v.objects.Keys == w.objects.Keys
    requires forall id :: id in v.objects ==> v.objects[id].(retired := false) == w.objects[id].(retired := false)
    ensures Wired(v)
  {
    forall m | m in v.serving
      ensures ServedOk(v, m)
    {
      assert ServedOk(w, m);
    }
    EntriesFrame(w, v);
  }

  lemma EntryBoundEntries(w: World, e: Entry)
    requires EntriesOk(w) && EntryAddr(e) !in w.listeners && e.name !in w.entries
    ensures EntriesOk(EntryBound(w, e))
  {
    var v := EntryBound(w, e);
    forall n | n in v.entries
      ensures EntryOk(v, n) && (n != e.name ==> v.entries[n].id != v.entries[e.name].id)
    {
      assert n != e.name ==> EntryOk(w, n);
    }
    forall a | a in v.listeners && v.listeners[a].entry.Some?
      ensures exists n :: Owns(v, n, a)
    {
      if a == EntryAddr(e) {
        assert Owns(v, e.name, a);
      } else {
        var n :| Owns(w, n, a);
        assert Owns(v, n, a);
      }
    }
  }

  lemma NoMembers(w: World, a: Address)
    requires ListenersOk(w) && a !in w.listeners
    ensures Members(w.serving, a) == {}
  {
  }

  lemma NewListenerOk(serving: map<nat, Served>, id: nat)
    ensures ListenerOk(Listener(0, Some(id), map[], None), serving, {})
  {
  }

  lemma EntryBoundListeners(w: World, e: Entry)
    requires ListenersOk(w) && EntryAddr(e) !in w.listeners
    ensures ListenersOk(EntryBound(w, e))
  {
    var v := EntryBound(w, e);
    NoMembers(w, EntryAddr(e));
    NewListenerOk(w.serving, w.nextId);
    forall a | a in v.listeners
      ensures ListenerOk(v.listeners[a], v.serving, Members(v.serving, a))
    {
      assert a == EntryAddr(e) || a in w.listeners;
    }
  }

  lemma ServingFrame(w: World, v: World)
    requires ServingOk(w) && v.serving == w.serving && v.objects == w.objects && v.switches == w.switches && v.nextId >= w.nextId
    ensures ServingOk(v)
  {
    forall m | m in v.serving
      ensures ServedOk(v, m)
    {
      assert ServedOk(w, m);
    }
  }

  lemma EntryBoundKeeps(w: World, e: Entry)
    requires Wired(w) && EntryAddr(e) !in w.listeners && e.name !in w.entries
    ensures Wired(EntryBound(w, e))
  {
    EntryBoundEntries(w, e);
    EntryBoundListeners(w, e);
    ServingFrame(w, EntryBound(w, e));
  }

  lemma EntryUnboundEntries(w: World, name: string)
    requires EntriesOk(w) && name in w.entries
    ensures EntriesOk(EntryUnbound(w, name))
  {
    var v := EntryUnbound(w, name);
    assert EntryOk(w, name);
    forall n | n in v.entries
      ensures EntryOk(v, n)
    {
      assert EntryOk(w, n);
      assert w.entries[n].id != w.entries[name].id;
    }
    forall a | a in v.listeners && v.listeners[a].entry.Some?
      ensures exists n :: Owns(v, n, a)
    {
      var n :| Owns(w, n, a);
      assert Owns(v, n, a);
    }
  }

  lemma EntryUnboundServing(w: World, name: string)
    requires ServingOk(w) && name in w.entries
    ensures ServingOk(EntryUnbound(w, name))
  {
    var v := EntryUnbound(w, name);
    forall sw | sw in v.serving
      ensures ServedOk(v, sw)
    {
      assert ServedOk(w, sw);
    }
  }

  lemma MembersElsewhere(serving: map<nat, Served>, addr: Address, a: Address)
    ensures Members(Elsewhere(serving, addr), a) == if a == addr then {} else Members(serving, a)
  {
  }

  lemma EntryUnboundListeners(w: World, name: string)
    requires ListenersOk(w) && name in w.entries
    ensures ListenersOk(EntryUnbound(w, name))
  {
    var v := EntryUnbound(w, name);
    forall a | a in v.listeners
      ensures ListenerOk(v.listeners[a], v.serving, Members(v.serving, a))
    {
      MembersElsewhere(w.serving, EntryAddr(w.entries[name].entry), a);
      TableFrame(w.listeners[a], w.serving, v.serving, Members(w.serving, a));
    }
  }

  lemma EntryUnboundKeeps(w: World, name: string)
    requires Wired(w) && name in w.entries
    ensures Wired(EntryUnbound(w, name))
  {
    EntryUnboundEntries(w, name);
    EntryUnboundServing(w, name);
    EntryUnboundListeners(w, name);
  }

  /** Closing an empty listener concerns no project. */
  lemma EntryUnboundEmpty(w: World, name: string)
    requires name in w.entries && Members(w.serving, EntryAddr(w.entries[name].entry)) == {}
    requires forall id :: id in w.objects ==> !IsOn(w.objects[id], EntryAddr(w.entries[name].entry), w.entries[name].id)
    ensures EntryUnbound(w, name) == w.(entries := w.entries - {name}, listeners := w.listeners - {EntryAddr(w.entries[name].entry)})
  {
    var addr := EntryAddr(w.entries[name].entry);
    assert CutOff(w.objects, addr, w.entries[name].id) == w.objects;
    forall sw | sw in w.serving
      ensures ListenAddr(w.serving[sw].project) != addr
    {
      assert sw !in Members(w.serving, addr);
    }
    assert Elsewhere(w.serving, addr) == w.serving;
  }
}
