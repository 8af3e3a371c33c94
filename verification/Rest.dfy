/**
 When the daemon is at rest, and what it then serves: the routing function is determined by the
 configuration alone, apart from the projects that wildcard entries have registered.
 */
module Rest {
  import opened Options
  import opened Config
  import opened Routing

  /** The wildcard entries of a configuration, by name. */
  function Wanted(entries: seq<Entry>): map<string, Entry> {
    if entries == [] then map[]
    else
      var rest, e := Wanted(entries[..|entries| - 1]), entries[|entries| - 1];
      if e.wildcard then rest[e.name := e] else rest
  }

  lemma {:induction false} WantedIsListed(entries: seq<Entry>, n: string) returns (i: nat)
    requires n in Wanted(entries)
    ensures i < |entries| && entries[i] == Wanted(entries)[n] && entries[i].wildcard && entries[i].name == n
  {
    var last := |entries| - 1;
    if entries[last].wildcard && entries[last].name == n {
      i := last;
    } else {
      i := WantedIsListed(entries[..last], n);
    }
  }

  lemma {:induction false} ListedIsWanted(entries: seq<Entry>, i: nat)
    requires i < |entries| && entries[i].wildcard
    requires forall j, k :: 0 <= j < k < |entries| ==> entries[j].name != entries[k].name
    ensures entries[i].name in Wanted(entries) && Wanted(entries)[entries[i].name] == entries[i]
  {
    var last := |entries| - 1;
    if i < last {
      ListedIsWanted(entries[..last], i);
    }
  }

  // ---- At rest ----

  /** Whoever is routed is registered, under its own name. */
  ghost predicate Registered(w: World) {
    forall sw :: sw in w.serving ==>
      var v := w.serving[sw]; v.project.name in w.states && w.states[v.project.name] == v.id
  }

  /** The project registered under n is in service: routed, on a switch that lets requests through. */
  ghost predicate Live(w: World, n: string) {
    && n in w.states && w.states[n] in w.objects
    && var id := w.states[n];
      var st := w.objects[id];
      && st.project.name == n && !st.retired
      && st.sw in w.serving && w.serving[st.sw].id == id
      && st.sw in w.switches && w.switches[st.sw] == Some(id)
  }

  /** An entry's project that is registered but off its listener: it is being dropped, or was restarted while it was. */
  ghost predicate Off(w: World, n: string) {
    && n in w.states && w.states[n] in w.objects
    && var st := w.objects[w.states[n]];
      st.project.name == n && st.dynamic && st.entry.Some? && st.bind == None && st.sw !in w.serving && st.sw < w.nextId
  }

  ghost predicate Placed(w: World, n: string) {
    Live(w, n) || Off(w, n)
  }

  ghost predicate AllPlaced(w: World) {
    forall n :: n in w.states ==> Placed(w, n)
  }

  /** Table and routes agree: who is routed is registered, and who is registered is in service or knowingly off. */
  ghost predicate Matched(w: World) {
    ServingOk(w) && Registered(w) && AllPlaced(w)
  }

  /** The table holds this record, under its own name. */
  predicate Listed(w: World, id: nat) {
    id in w.objects && w.objects[id].project.name in w.states && w.states[w.objects[id].project.name] == id
  }

  /** Every record is retired, or the one in the table; those still to be replaced are retired. */
  ghost predicate Accounted(w: World, todo: set<string>) {
    && (forall id :: id in w.objects && !w.objects[id].retired ==> Listed(w, id))
    && (forall n :: n in todo && n in w.states ==> w.states[n] in w.objects && w.objects[w.states[n]].retired)
  }

  /** No record, and so no process, outlives its table row without being retired. */
  ghost predicate NoneLost(w: World) {
    Accounted(w, {})
  }

  ghost predicate AtRest(w: World) {
    Wired(w) && Matched(w) && NoneLost(w)
  }

  function At(w: World, n: string): Option<State> {
    if n in w.states && w.states[n] in w.objects then Some(w.objects[w.states[n]]) else None
  }

  predicate IsStatic(w: World, n: string) {
    At(w, n).Some? && !At(w, n).value.dynamic
  }

  predicate IsDynamic(w: World, n: string) {
    At(w, n).Some? && At(w, n).value.dynamic
  }

  predicate EntryStays(w: World, c: Config, m: string) {
    m in w.entries && m in Wanted(c.entries) && w.entries[m].entry.Equivalent(Wanted(c.entries)[m])
  }

  /** The daemon serves exactly the configuration, give or take projects of wildcard entries. */
  ghost predicate Serves(w: World, c: Config) {
    && (forall n :: n in c.projects ==> IsStatic(w, n) && At(w, n).value.project.Equivalent(c.projects[n]))
    && (forall n :: n in w.states && n !in c.projects ==> IsDynamic(w, n))
    && w.entries.Keys == Wanted(c.entries).Keys
    && (forall m :: m in w.entries ==> EntryStays(w, c, m))
  }

  // ---- Where requests go, as a caller can tell ----

  datatype Seen =
    | Refused
    | Reached(project: Project)
    | Resolved(entry: string)
    | NotServed
    | Held

  /** The answer to a request, with identities replaced by what they stand for. */
  ghost predicate Sees(w: World, addr: Address, host: string, seen: Seen) {
    match Route(w, addr, host)
    case NoListener => seen == Refused
    case ToState(id) => id in w.objects && seen == Reached(w.objects[id].project.(source := ""))
    case Parked => seen == Held
    case Resolver(e) => exists m :: m in w.entries && w.entries[m].id == e && seen == Resolved(m)
    case NotFound => seen == NotServed
  }

  ghost predicate Claims(c: Config, n: string, addr: Address) {
    n in c.projects && ListenAddr(c.projects[n]) == addr
  }

  /** A project that takes this very request: by hostname, or the one project of an address without hostnames. */
  ghost predicate Takes(c: Config, n: string, addr: Address, host: string) {
    Claims(c, n, addr) && (c.projects[n].host == "" || c.projects[n].host == host)
  }

  ghost predicate EntryListens(c: Config, m: string, addr: Address) {
    m in Wanted(c.entries) && EntryAddr(Wanted(c.entries)[m]) == addr
  }

  /** What the configuration alone says about a request; no reference to any table or listener. */
  ghost predicate Expects(c: Config, addr: Address, host: string, seen: Seen) {
    match seen
    case Refused => (forall n :: !Claims(c, n, addr)) && (forall m :: !EntryListens(c, m, addr))
    case Reached(p) => exists n :: Takes(c, n, addr, host) && p == c.projects[n].(source := "")
    case Resolved(m) => EntryListens(c, m, addr)
    case NotServed => (exists n :: Claims(c, n, addr)) && (forall n :: !Takes(c, n, addr, host))
    case Held => false
  }

  /** A request that a wildcard entry's project in service takes. */
  ghost predicate TakenByDynamic(w: World, addr: Address, host: string) {
    exists n :: Live(w, n) && IsDynamic(w, n) && ListenAddr(At(w, n).value.project) == addr && At(w, n).value.project.host == host
  }

  /** In a router, a member's hostname finds it, and a member without one takes everything. */
  lemma RoutedTo(l: Listener, serving: map<nat, Served>, members: set<nat>, sw: nat, host: string)
    requires ListenerOk(l, serving, members) && sw in members
    ensures serving[sw].project.host == "" ==> l.catchAll == Some(sw)
    ensures serving[sw].project.host == host && host != "" ==> l.catchAll == None && host in l.hosts && l.hosts[host] == sw
  {
  }

  /** A registered project's address has a listener, which routes its hostname, or everything, to it. */
  lemma LiveIsRouted(w: World, n: string, host: string)
    requires Wired(w) && Live(w, n)
    ensures var p := w.objects[w.states[n]].project;
      ListenAddr(p) in w.listeners && (p.host == "" || p.host == host ==> Route(w, ListenAddr(p), host) == ToState(w.states[n]))
  {
    var sw := w.objects[w.states[n]].sw;
    assert ServedOk(w, sw);
    var a := ListenAddr(w.serving[sw].project);
    assert sw in Members(w.serving, a);
    RoutedTo(w.listeners[a], w.serving, Members(w.serving, a), sw, host);
  }

  /** A request that reaches a switch reaches that of a registered project on this address, by its hostname or for lack of any. */
  lemma RoutedFrom(w: World, addr: Address, host: string) returns (n: string)
    requires AtRest(w) && addr in w.listeners
    requires w.listeners[addr].catchAll.Some? || host in w.listeners[addr].hosts
    ensures n in w.states && Live(w, n) && Route(w, addr, host) == ToState(w.states[n])
    ensures var p := w.objects[w.states[n]].project; ListenAddr(p) == addr && (p.host == "" || p.host == host)
  {
    var l := w.listeners[addr];
    assert ListenerOk(l, w.serving, Members(w.serving, addr));
    var sw := if l.catchAll.Some? then l.catchAll.value else l.hosts[host];
    assert sw in Members(w.serving, addr) && ServedOk(w, sw);
    n := w.serving[sw].project.name;
    assert Placed(w, n);
  }

  lemma UnroutedIsUnclaimed(w: World, c: Config, addr: Address)
    requires AtRest(w) && Serves(w, c) && addr !in w.listeners
    ensures (forall n :: !Claims(c, n, addr)) && (forall m :: !EntryListens(c, m, addr))
  {
    forall n
      ensures !Claims(c, n, addr)
    {
      if Claims(c, n, addr) {
        assert Placed(w, n);
        LiveIsRouted(w, n, "");
      }
    }
    forall m | m in w.entries
      ensures EntryAddr(w.entries[m].entry) in w.listeners && EntryStays(w, c, m)
    {
      assert EntryOk(w, m);
    }
  }

  lemma RoutedAsClaimed(w: World, c: Config, addr: Address, host: string) returns (seen: Seen)
    requires AtRest(w) && Serves(w, c) && addr in w.listeners && !TakenByDynamic(w, addr, host)
    requires w.listeners[addr].catchAll.Some? || host in w.listeners[addr].hosts
    ensures Sees(w, addr, host, seen) && Expects(c, addr, host, seen)
  {
    var n := RoutedFrom(w, addr, host);
    var st := w.objects[w.states[n]];
    assert ServedOk(w, st.sw);
    assert !(Live(w, n) && IsDynamic(w, n));
    seen := Reached(st.project.(source := ""));
    assert Takes(c, n, addr, host);
  }

  lemma NeitherRoutedNorTaken(w: World, c: Config, addr: Address, host: string)
    requires AtRest(w) && Serves(w, c) && addr in w.listeners
    requires w.listeners[addr].entry == None && w.listeners[addr].catchAll == None && host !in w.listeners[addr].hosts
    ensures (exists n :: Claims(c, n, addr)) && (forall n :: !Takes(c, n, addr, host))
  {
    var members := Members(w.serving, addr);
    assert ListenerOk(w.listeners[addr], w.serving, members);
    var sw :| sw in members;
    assert ServedOk(w, sw);
    var n := w.serving[sw].project.name;
    assert Placed(w, n) && !IsDynamic(w, n);
    assert Claims(c, n, addr);
    forall m
      ensures !Takes(c, m, addr, host)
    {
      if Takes(c, m, addr, host) {
        assert Placed(w, m);
        LiveIsRouted(w, m, host);
      }
    }
  }

  /** A daemon at rest answers every request as its configuration says. */
  lemma AnswersAsConfigured(w: World, c: Config, addr: Address, host: string) returns (seen: Seen)
    requires AtRest(w) && Serves(w, c) && !TakenByDynamic(w, addr, host)
    ensures Sees(w, addr, host, seen) && Expects(c, addr, host, seen)
  {
    if addr !in w.listeners {
      UnroutedIsUnclaimed(w, c, addr);
      seen := Refused;
    } else {
      var l := w.listeners[addr];
      if l.catchAll.Some? || host in l.hosts {
        seen := RoutedAsClaimed(w, c, addr, host);
      } else if l.entry.Some? {
        var m :| Owns(w, m, addr);
        assert EntryStays(w, c, m);
        seen := Resolved(m);
      } else {
        NeitherRoutedNorTaken(w, c, addr, host);
        seen := NotServed;
      }
    }
  }

  lemma OneEntryPerAddress(c: Config, m: string, k: string, addr: Address)
    requires Loaded(c) && EntryListens(c, m, addr) && EntryListens(c, k, addr)
    ensures m == k
  {
    var i := WantedIsListed(c.entries, m);
    var j := WantedIsListed(c.entries, k);
    assert i < j ==> EntriesApart(c.entries[i], c.entries[j]);
    assert j < i ==> EntriesApart(c.entries[j], c.entries[i]);
  }

  lemma EntriesShareNothing(c: Config, m: string, n: string, addr: Address)
    requires Loaded(c) && EntryListens(c, m, addr)
    ensures !Claims(c, n, addr)
  {
    var i := WantedIsListed(c.entries, m);
    assert n in c.projects ==> PortsApart(c.entries[i], c.projects[n]);
  }

  lemma OneAnswerExpected(c: Config, addr: Address, host: string, a: Seen, b: Seen)
    requires Loaded(c) && Expects(c, addr, host, a) && Expects(c, addr, host, b)
    ensures a == b
  {
    match a
    case Resolved(m) =>
      forall n
        ensures !Claims(c, n, addr)
      {
        EntriesShareNothing(c, m, n, addr);
      }
      if b.Resolved? {
        OneEntryPerAddress(c, m, b.entry, addr);
      }
    case Reached(p) =>
      var n :| Takes(c, n, addr, host) && p == c.projects[n].(source := "");
      if b.Reached? {
        var m :| Takes(c, m, addr, host) && b.project == c.projects[m].(source := "");
        if m != n {
          OneClaimantPerRoute(c, n, m);
        }
      } else if b.Resolved? {
        EntriesShareNothing(c, b.entry, n, addr);
      }
    case NotServed =>
      var n :| Claims(c, n, addr);
      if b.Resolved? {
        EntriesShareNothing(c, b.entry, n, addr);
      }
    case _ =>
  }

  lemma OneAnswerSeen(w: World, addr: Address, host: string, a: Seen, b: Seen)
    requires EntriesOk(w) && Sees(w, addr, host, a) && Sees(w, addr, host, b)
    ensures a == b
  {
  }

  /** What a daemon at rest answers is what its configuration says, and nothing else. */
  lemma RoutingIsConfigured(w: World, c: Config, addr: Address, host: string, seen: Seen)
    requires Loaded(c) && AtRest(w) && Serves(w, c) && !TakenByDynamic(w, addr, host)
    ensures Sees(w, addr, host, seen) <==> Expects(c, addr, host, seen)
  {
    var s := AnswersAsConfigured(w, c, addr, host);
    if Sees(w, addr, host, seen) {
      OneAnswerSeen(w, addr, host, seen, s);
    }
    if Expects(c, addr, host, seen) {
      OneAnswerExpected(c, addr, host, seen, s);
    }
  }
}
