/**
 Rebuilding after a reload has torn down what goes: each new or changed project finds its address
 free, or takes over the route that was kept for it, and nobody else notices.
 */
module Rebuild {
  import opened Options
  import opened Config
  import opened Routing
  import opened Rest
  import opened Teardown

  /** A fresh record put into service: on the route of the one it replaces, or on a fresh one. */
  function Commissioned(w: World, p: Project, tracker: nat, entry: Option<nat>, inherited: Option<nat>): World
    requires inherited.Some? ==> inherited.value in w.objects
  {
    var v := Created(w, p, tracker, entry);
    if inherited.Some? && inherited.value in v.objects then Inherited(v, w.nextId, inherited.value) else Attached(v, w.nextId)
  }

  /** What either way of commissioning does outside the listeners; st is the new record. */
  ghost predicate Installed(w: World, v: World, st: State) {
    var id := w.nextId;
    && !st.retired && (st.sw in w.serving || st.sw == id)
    && v.states == w.states[st.project.name := id]
    && v.objects == w.objects[id := st]
    && v.switches == w.switches[id := Some(id)][st.sw := Some(id)]
    && v.serving == w.serving[st.sw := Routing.Served(id, st.project, st.entry)]
    && v.entries == w.entries && v.nextId == id + 1
  }

  lemma AttachInstalls(w: World, p: Project, tracker: nat, entry: Option<nat>)
    ensures Installed(w, Commissioned(w, p, tracker, entry, None),
                      State(p, tracker, w.nextId, Some(ListenAddr(p)), entry.Some?, entry, false))
  {
  }

  lemma InheritInstalls(w: World, p: Project, tracker: nat, entry: Option<nat>, prev: nat)
    requires prev in w.objects && prev != w.nextId && HoldsRoute(w, prev)
    ensures Installed(w, Commissioned(w, p, tracker, entry, Some(prev)),
                      State(p, tracker, w.objects[prev].sw, w.objects[prev].bind, entry.Some?, entry, false))
  {
  }

  // ---- Finding the address free ----

  /** Every project in service is one the new configuration has, on the same route, or a kept one of an entry. */
  ghost predicate Fits(w: World, c: Config) {
    forall sw :: sw in w.serving ==>
      var v := w.serving[sw];
      if v.entry == None then v.project.name in c.projects && SameRoute(v.project, c.projects[v.project.name])
      else v.project.name !in c.projects
  }

  ghost predicate EntriesFit(w: World, c: Config) {
    forall m :: m in w.entries ==> EntryStays(w, c, m)
  }

  ghost predicate NobodyServes(w: World, n: string) {
    forall sw :: sw in w.serving ==> w.serving[sw].project.name != n
  }

  lemma StaticListener(w: World, c: Config, n: string)
    requires Loaded(c) && EntriesOk(w) && EntriesFit(w, c) && n in c.projects && ListenAddr(c.projects[n]) in w.listeners
    ensures w.listeners[ListenAddr(c.projects[n])].entry == None
  {
    var a := ListenAddr(c.projects[n]);
    if w.listeners[a].entry.Some? {
      var m :| Owns(w, m, a);
      assert EntryStays(w, c, m);
      EntriesShareNothing(c, m, n, a);
      assert Claims(c, n, a);
      assert false;
    }
  }

  /** Any member of the listener at the address of project n is another project, so both have hostnames, and they differ. */
  lemma MembersAside(w: World, c: Config, n: string, sw: nat)
    requires Loaded(c) && Fits(w, c) && NobodyServes(w, n) && n in c.projects
    requires sw in Members(w.serving, ListenAddr(c.projects[n])) && w.serving[sw].entry == None
    ensures c.projects[n].host != "" && w.serving[sw].project.host != "" && w.serving[sw].project.host != c.projects[n].host
  {
    OneClaimantPerRoute(c, n, w.serving[sw].project.name);
  }

  /** A project fits on its address: nobody is there, or hostnames tell everyone apart; an entry's project is on the entry's own. */
  ghost predicate Room(w: World, p: Project, entry: Option<nat>) {
    && (entry.Some? ==> p.host != "")
    && if ListenAddr(p) in w.listeners
       then
         var l := w.listeners[ListenAddr(p)];
         l.entry == entry && if p.host != "" then l.catchAll == None && p.host !in l.hosts else l.members == 0
       else entry == None
  }

  lemma RoomBeside(w: World, c: Config, n: string)
    requires Loaded(c) && Wired(w) && Fits(w, c) && EntriesFit(w, c) && NobodyServes(w, n) && n in c.projects
    requires ListenAddr(c.projects[n]) in w.listeners
    ensures Room(w, c.projects[n], None)
  {
    var a := ListenAddr(c.projects[n]);
    StaticListener(w, c, n);
    var members := Members(w.serving, a);
    assert ListenerOk(w.listeners[a], w.serving, members);
    forall sw | sw in members
      ensures c.projects[n].host != "" && w.serving[sw].project.host != "" && w.serving[sw].project.host != c.projects[n].host
    {
      MembersAside(w, c, n, sw);
    }
    var sw :| sw in members;
  }

  /** Whose listener it is: an entry's that stays, or one of projects the configuration has there. */
  lemma ListenerIsConfigured(w: World, c: Config, a: Address)
    requires Wired(w) && Fits(w, c) && EntriesFit(w, c) && a in w.listeners
    ensures (exists m :: EntryListens(c, m, a)) || (exists sw :: sw in Members(w.serving, a) && w.serving[sw].entry == None)
  {
    assert ListenerOk(w.listeners[a], w.serving, Members(w.serving, a));
    if w.listeners[a].entry.Some? {
      var m :| Owns(w, m, a);
      assert EntryStays(w, c, m) && EntryListens(c, m, a);
    } else {
      var sw :| sw in Members(w.serving, a);
      assert w.serving[sw].entry == None;
    }
  }

  lemma EntryPortApart(c: Config, m: string, n: string)
    requires Loaded(c) && m in Wanted(c.entries) && n in c.projects
    ensures Wanted(c.entries)[m].supervisorPort != c.projects[n].supervisorPort
  {
    var i := WantedIsListed(c.entries, m);
    assert PortsApart(c.entries[i], c.projects[n]);
  }

  lemma EntryPortsApart(c: Config, m: string, k: string)
    requires Loaded(c) && m in Wanted(c.entries) && k in Wanted(c.entries) && m != k
    ensures Wanted(c.entries)[m].supervisorPort != Wanted(c.entries)[k].supervisorPort
  {
    var i := WantedIsListed(c.entries, m);
    var j := WantedIsListed(c.entries, k);
    assert i < j ==> EntriesApart(c.entries[i], c.entries[j]);
    assert j < i ==> EntriesApart(c.entries[j], c.entries[i]);
  }

  /** Two sockets on one port are in each other's way even at different hosts; any listener on n's port is at n's very address. */
  lemma PortIsItsOwn(w: World, c: Config, n: string, a: Address)
    requires Loaded(c) && Wired(w) && Fits(w, c) && EntriesFit(w, c) && n in c.projects
    requires a in w.listeners && a.port == c.projects[n].supervisorPort
    ensures a == ListenAddr(c.projects[n])
  {
    ListenerIsConfigured(w, c, a);
    if m :| EntryListens(c, m, a) {
      EntryPortApart(c, m, n);
    } else {
      var sw :| sw in Members(w.serving, a) && w.serving[sw].entry == None;
      var k := w.serving[sw].project.name;
      assert k != n ==> MayCoexist(c.projects[k], c.projects[n]);
    }
  }

  /** What is left in service leaves room at n's address, and no other listener on its port. */
  lemma RoomFor(w: World, c: Config, n: string)
    requires Loaded(c) && Wired(w) && Fits(w, c) && EntriesFit(w, c) && NobodyServes(w, n) && n in c.projects
    ensures Room(w, c.projects[n], None)
    ensures forall a :: a in w.listeners && a.port == c.projects[n].supervisorPort ==> a == ListenAddr(c.projects[n])
  {
    if ListenAddr(c.projects[n]) in w.listeners {
      RoomBeside(w, c, n);
    }
    forall a | a in w.listeners && a.port == c.projects[n].supervisorPort
      ensures a == ListenAddr(c.projects[n])
    {
      PortIsItsOwn(w, c, n, a);
    }
  }

  lemma UnusedSwitch(w: World)
    requires ServingOk(w)
    ensures w.nextId !in w.serving && w.nextId !in w.objects
  {
    assert w.nextId in w.serving ==> ServedOk(w, w.nextId);
  }

  lemma NobodyIs(w: World, id: nat)
    requires ServingOk(w) && id !in w.objects
    ensures forall sw :: sw in w.serving ==> w.serving[sw].id != id
  {
    forall sw | sw in w.serving
      ensures w.serving[sw].id != id
    {
      assert ServedOk(w, sw);
    }
  }

  lemma AttachKeeps(w: World, p: Project, tracker: nat, entry: Option<nat>)
    requires Wired(w) && Room(w, p, entry)
    ensures Wired(Commissioned(w, p, tracker, entry, None))
  {
    CreatedKeeps(w, p, tracker, entry);
    NobodyIs(w, w.nextId);
    AttachedKeeps(Created(w, p, tracker, entry), w.nextId);
  }

  lemma InheritsFrom(w: World, p: Project, tracker: nat, sw: nat)
    requires ServingOk(w) && sw in w.serving && SameRoute(w.serving[sw].project, p)
    ensures w.serving[sw].id in w.objects && w.serving[sw].id != w.nextId
    ensures CanInherit(Created(w, p, tracker, w.serving[sw].entry), w.nextId, sw)
  {
    assert ServedOk(w, sw);
    NobodyIs(w, w.nextId);
  }

  lemma InheritKeeps(w: World, p: Project, tracker: nat, sw: nat)
    requires Wired(w) && sw in w.serving && SameRoute(w.serving[sw].project, p)
    ensures w.serving[sw].id in w.objects && w.serving[sw].id != w.nextId
    ensures Wired(Commissioned(w, p, tracker, w.serving[sw].entry, Some(w.serving[sw].id)))
  {
    var entry := w.serving[sw].entry;
    CreatedKeeps(w, p, tracker, entry);
    InheritsFrom(w, p, tracker, sw);
    InheritedKeeps(Created(w, p, tracker, entry), w.nextId, sw);
  }

  lemma NoOwnerNoEntry(w: World, a: Address)
    requires Wired(w) && a in w.listeners && forall k :: !Owns(w, k, a)
    ensures exists sw :: sw in Members(w.serving, a) && w.serving[sw].entry == None
  {
    assert ListenerOk(w.listeners[a], w.serving, Members(w.serving, a));
    var sw :| sw in Members(w.serving, a);
  }

  lemma EntryPortFree(w: World, c: Config, m: string, a: Address)
    requires Loaded(c) && Wired(w) && Fits(w, c) && EntriesFit(w, c) && m in Wanted(c.entries) && m !in w.entries
    requires a in w.listeners
    ensures a.port != Wanted(c.entries)[m].supervisorPort
  {
    hide Loaded, Wanted;
    if k :| Owns(w, k, a) {
      assert EntryStays(w, c, k);
      EntryPortsApart(c, m, k);
    } else {
      NoOwnerNoEntry(w, a);
      hide Wired;
      var sw :| sw in Members(w.serving, a) && w.serving[sw].entry == None;
      EntryPortApart(c, m, w.serving[sw].project.name);
    }
  }

  /** An entry's whole port is free too: it is no project's and no other entry's. */
  lemma EntryAddressFree(w: World, c: Config, m: string)
    requires Loaded(c) && Wired(w) && Fits(w, c) && EntriesFit(w, c) && m in Wanted(c.entries) && m !in w.entries
    ensures forall a :: a in w.listeners ==> a.port != Wanted(c.entries)[m].supervisorPort
    ensures EntryAddr(Wanted(c.entries)[m]) !in w.listeners
  {
    forall a | a in w.listeners
      ensures a.port != Wanted(c.entries)[m].supervisorPort
    {
      EntryPortFree(w, c, m, a);
    }
  }
}
