/**
 What becomes of one worktree over every interleaving: how long requests for its hostname are sent to
 it, and how long its record is the one in the table.
 */
module RecordRuns {
  import opened Options
  import opened Config
  import opened Routing
  import opened Rest
  import opened Teardown
  import opened Rebuild
  import opened Linking
  import opened Dynamic
  import opened Conservation

  // ---- Routes ----

  /** The router of an entry's listener sends a hostname to a switch. */
  predicate SentTo(w: World, a: Address, h: string, sw: nat) {
    a in w.listeners && w.listeners[a].entry.Some? && h in w.listeners[a].hosts && w.listeners[a].hosts[h] == sw
  }

  /**
   What takes a hostname away from whoever has it on a listener: a record with this hostname leaves the
   listener, another one comes, or the listener is closed.
   */
  ghost predicate Displaces(s: Sys, op: Op, a: Address, h: string) {
    var w := s.world;
    match op
    case Retire(id, keep) =>
      id in w.objects && !keep && !w.objects[id].retired && w.objects[id].bind == Some(a) && w.objects[id].project.host == h
    case Put(p, tracker) => ListenAddr(p) == a && p.host == h
    case Ask(es, p, tracker) => IsBound(w, es) && ListenAddr(p) == a && p.host == h
    case Unbind(m) => m in w.entries && EntryAddr(w.entries[m].entry) == a
    case _ => false
  }

  /** At some point of the run. */
  ghost predicate Displaced(s: Sys, ops: seq<Op>, a: Address, h: string)
    requires Feasible(s, ops)
    decreases |ops|
  {
    ops != [] && (Displaces(s, ops[0], a, h) || Displaced(Apply(s, ops[0]), ops[1..], a, h))
  }

  lemma RoutersStay(s: Sys, op: Op)
    requires Enabled(s, op)
    requires op.Claim? || op.Swap? || op.Collect? || op.Forget? || (op.Retire? && op.keep) || (op.Ask? && !IsBound(s.world, op.es))
    ensures Apply(s, op).world.listeners == s.world.listeners
  {
  }

  lemma NumbersGrow(s: Sys, op: Op)
    requires Enabled(s, op)
    ensures Apply(s, op).world.nextId >= s.world.nextId
  {
  }

  /** A record in service takes its hostname along. */
  lemma DetachDisplaces(w: World, id: nat, a: Address, h: string, sw: nat)
    requires HoldsRoute(w, id) && ServedOk(w, w.objects[id].sw) && !w.objects[id].retired && h != ""
    requires ListenAddr(w.objects[id].project) in w.listeners
    ensures SentTo(Retired(w, id, false), a, h, sw) <==>
      SentTo(w, a, h, sw) && !(w.objects[id].bind == Some(a) && w.objects[id].project.host == h)
  {
    DetachedServed(w, w.objects[id].sw);
    hide ServedOk;
  }

  lemma HolderIs(s: Sys, id: nat)
    requires Conserved(s) && HoldsRoute(s.world, id)
    ensures ServedOk(s.world, s.world.objects[id].sw) && ListenAddr(s.world.objects[id].project) in s.world.listeners
  {
  }

  lemma SameRouters(w: World, v: World, a: Address, h: string, sw: nat)
    requires v.listeners == w.listeners
    ensures SentTo(v, a, h, sw) <==> SentTo(w, a, h, sw)
  {
  }

  lemma RetireDisplaces(s: Sys, id: nat, a: Address, h: string, sw: nat)
    requires Conserved(s) && id in s.world.objects && h != ""
    ensures SentTo(Retired(s.world, id, false), a, h, sw) <==>
      SentTo(s.world, a, h, sw) && !Displaces(s, Retire(id, false), a, h)
  {
    var w := s.world;
    hide Retired, SentTo, Conserved, ServedOk;
    if w.objects[id].retired {
      RetiredStays(w, id, false);
    } else {
      UsedOwns(s);
      assert InUse(s, id);
      if HoldsRoute(w, id) {
        HolderIs(s, id);
        DetachDisplaces(w, id, a, h, sw);
      } else {
        OffMarked(w, id);
        SameRouters(w, Retired(w, id, false), a, h, sw);
      }
    }
  }

  lemma BindDisplaces(w: World, e: Entry, a: Address, h: string, sw: nat)
    requires EntryAddr(e) !in w.listeners
    ensures SentTo(EntryBound(w, e), a, h, sw) <==> SentTo(w, a, h, sw)
  {
  }

  lemma JoinDisplaces(w: World, p: Project, tracker: nat, entry: Option<nat>, a: Address, h: string, sw: nat)
    requires Joins(w, p, entry) && sw != w.nextId && h != ""
    ensures SentTo(Commissioned(w, p, tracker, entry, None), a, h, sw) <==>
      SentTo(w, a, h, sw) && !(ListenAddr(p) == a && p.host == h)
  {
  }

  lemma UnbindDisplaces(w: World, m: string, a: Address, h: string, sw: nat)
    requires m in w.entries
    ensures SentTo(EntryUnbound(w, m), a, h, sw) <==> SentTo(w, a, h, sw) && EntryAddr(w.entries[m].entry) != a
  {
  }

  lemma AskJoins(s: Sys, es: EntryState, p: Project)
    requires Conserved(s) && MayAsk(s.world, es, p) && IsBound(s.world, es)
    ensures Joins(s.world, p, Some(es.id))
  {
    assert EntryOk(s.world, es.entry.name);
  }

  lemma RouteStep(s: Sys, op: Op, a: Address, h: string, sw: nat)
    requires Conserved(s) && Enabled(s, op) && sw < s.world.nextId && h != ""
    ensures SentTo(Apply(s, op).world, a, h, sw) <==> SentTo(s.world, a, h, sw) && !Displaces(s, op, a, h)
    ensures sw < Apply(s, op).world.nextId
  {
    NumbersGrow(s, op);
    hide Conserved, Commissioned, Replaced, Retired, RegisteredFor, EntryBound, EntryUnbound, Joins, IsReplacement, SentTo;
    match op
    case Put(p, tracker) => JoinDisplaces(s.world, p, tracker, None, a, h, sw);
    case Retire(id, keep) =>
      if keep {
        RoutersStay(s, op);
        SameRouters(s.world, Apply(s, op).world, a, h, sw);
      } else {
        RetireDisplaces(s, id, a, h, sw);
      }
    case Bind(e) => BindDisplaces(s.world, e, a, h, sw);
    case Unbind(m) => UnbindDisplaces(s.world, m, a, h, sw);
    case Ask(es, p, tracker) =>
      if IsBound(s.world, es) {
        AskJoins(s, es, p);
        AskedInTime(s.world, es, p, tracker);
        JoinDisplaces(s.world, p, tracker, Some(es.id), a, h, sw);
      } else {
        RoutersStay(s, op);
        SameRouters(s.world, Apply(s, op).world, a, h, sw);
      }
    case _ =>
      RoutersStay(s, op);
      SameRouters(s.world, Apply(s, op).world, a, h, sw);
  }

  /** A hostname is sent to a switch as long as, and only as long as, nothing has displaced it. */
  lemma {:induction false} SentUnlessDisplaced(s: Sys, ops: seq<Op>, a: Address, h: string, sw: nat)
    requires Conserved(s) && Feasible(s, ops) && sw < s.world.nextId && h != ""
    ensures SentTo(Exec(s, ops).world, a, h, sw) <==> SentTo(s.world, a, h, sw) && !Displaced(s, ops, a, h)
    decreases |ops|
  {
    if ops != [] {
      RouteStep(s, ops[0], a, h, sw);
      StepKeeps(s, ops[0]);
      SentUnlessDisplaced(Apply(s, ops[0]), ops[1..], a, h, sw);
    }
  }

  lemma NotSentYet(w: World, a: Address, h: string)
    requires LinksOk(w) && w.nextId !in w.serving
    ensures !SentTo(w, a, h, w.nextId)
  {
    if a in w.listeners {
      assert LinkOk(w.listeners[a], w.serving, Members(w.serving, a));
    }
  }

  /** A worktree that registers gets its hostname if and only if its entry is still in the table. */
  lemma AskedIsSent(s: Sys, es: EntryState, p: Project, tracker: nat)
    requires Conserved(s) && MayAsk(s.world, es, p)
    ensures SentTo(RegisteredFor(s.world, es, p, tracker), ListenAddr(p), p.host, s.world.nextId) <==> IsBound(s.world, es)
  {
    var w := s.world;
    UnusedSwitch(w);
    if IsBound(w, es) {
      assert EntryOk(w, es.entry.name);
    }
    NotSentYet(w, ListenAddr(p), p.host);
  }

  /** A request for a hostname that is sent to a switch reaches the record that holds it, or waits for its replacement. */
  lemma SentIsAnswered(s: Sys, a: Address, h: string, sw: nat)
    requires Conserved(s) && SentTo(s.world, a, h, sw)
    ensures sw in s.world.serving && InUse(s, s.world.serving[sw].id)
    ensures var id := s.world.serving[sw].id;
      && s.world.objects[id].sw == sw && s.world.objects[id].project.host == h && s.world.objects[id].bind == Some(a)
      && Route(s.world, a, h) == if id in s.swapping then Parked else ToState(id)
  {
    var l := s.world.listeners[a];
    assert LinkOk(l, s.world.serving, Members(s.world.serving, a));
    assert ServedOk(s.world, sw);
    assert l.catchAll.Some? ==> ServedOk(s.world, l.catchAll.value);
  }

  // ---- Where every project finds room ----

  /** The record that holds the switch leaves, or the listener is closed. */
  ghost predicate Releases(s: Sys, op: Op, a: Address, sw: nat) {
    var w := s.world;
    match op
    case Retire(id, keep) => HoldsRoute(w, id) && !keep && !w.objects[id].retired && w.objects[id].sw == sw
    case Unbind(m) => m in w.entries && EntryAddr(w.entries[m].entry) == a
    case _ => false
  }

  ghost predicate Released(s: Sys, ops: seq<Op>, a: Address, sw: nat)
    requires Feasible(s, ops)
    decreases |ops|
  {
    ops != [] && (Releases(s, ops[0], a, sw) || Released(Apply(s, ops[0]), ops[1..], a, sw))
  }

  lemma OneHolder(w: World, a: Address, h: string, sw: nat, id: nat)
    requires Wired(w) && SentTo(w, a, h, sw) && h != "" && HoldsRoute(w, id)
    ensures w.objects[id].bind == Some(a) && w.objects[id].project.host == h <==> w.objects[id].sw == sw
  {
    assert ServedOk(w, w.objects[id].sw) && ListenerOk(w.listeners[a], w.serving, Members(w.serving, a));
    assert w.objects[id].sw in Members(w.serving, ListenAddr(w.objects[id].project));
  }

  lemma OwnRetire(s: Sys, id: nat, keep: bool, a: Address, h: string, sw: nat)
    requires UsedOwn(s) && Wired(s.world) && id in s.world.objects && SentTo(s.world, a, h, sw) && h != ""
    ensures Displaces(s, Retire(id, keep), a, h) <==> Releases(s, Retire(id, keep), a, sw)
  {
    hide Wired, SentTo;
    if !s.world.objects[id].retired {
      assert InUse(s, id) && Owning(s.world, id);
      if HoldsRoute(s.world, id) {
        OneHolder(s.world, a, h, sw, id);
      }
    }
  }

  lemma RoomIsFree(w: World, p: Project, entry: Option<nat>, a: Address, h: string, sw: nat)
    requires Room(w, p, entry) && SentTo(w, a, h, sw) && h != ""
    ensures ListenAddr(p) != a || p.host != h
  {
  }

  lemma OwnRelease(s: Sys, op: Op, a: Address, h: string, sw: nat)
    requires Conserved(s) && Wired(s.world) && Enabled(s, op) && FindsRoom(s, op) && SentTo(s.world, a, h, sw) && h != ""
    ensures Displaces(s, op, a, h) <==> Releases(s, op, a, sw)
  {
    hide Wired, SentTo, UsedOwn, Linked, Room, Joins, MayAsk, IsReplacement;
    match op
    case Put(p, tracker) => RoomIsFree(s.world, p, None, a, h, sw);
    case Ask(es, p, tracker) =>
      if IsBound(s.world, es) {
        RoomIsFree(s.world, p, Some(es.id), a, h, sw);
      }
    case Retire(id, keep) =>
      hide Displaces, Releases;
      OwnRetire(s, id, keep, a, h, sw);
    case _ =>
  }

  lemma {:induction false} DisplacedIsReleased(s: Sys, ops: seq<Op>, a: Address, h: string, sw: nat)
    requires Conserved(s) && Wired(s.world) && Feasible(s, ops) && Roomy(s, ops) && SentTo(s.world, a, h, sw) && h != ""
    requires sw < s.world.nextId
    ensures Displaced(s, ops, a, h) <==> Released(s, ops, a, sw)
    decreases |ops|
  {
    if ops != [] {
      OwnRelease(s, ops[0], a, h, sw);
      if !Displaces(s, ops[0], a, h) {
        RouteStep(s, ops[0], a, h, sw);
        StepKeeps(s, ops[0]);
        TidyStep(s, ops[0]);
        DisplacedIsReleased(Apply(s, ops[0]), ops[1..], a, h, sw);
      }
    }
  }

  lemma AskNumbers(s: Sys, es: EntryState, p: Project, tracker: nat)
    requires MayAsk(s.world, es, p)
    ensures RegisteredFor(s.world, es, p, tracker).nextId == s.world.nextId + 1 && p.host != ""
  {
  }

  /**
   Exactly when requests for a registered worktree's hostname are sent to it, over every interleaving:
   if its very entry was in the table when it registered, and nothing has displaced the hostname
   since. Where every project finds room, that is: no drop of it, or reload that collects it, has
   begun, and its entry's listener has stayed open.
   */
  lemma WorktreeIsRouted(s: Sys, es: EntryState, p: Project, tracker: nat, ops: seq<Op>)
    requires Conserved(s) && MayAsk(s.world, es, p)
    requires var t := Apply(s, Ask(es, p, tracker)); Feasible(t, ops)
    ensures var t, a, sw := Apply(s, Ask(es, p, tracker)), ListenAddr(p), s.world.nextId;
      var sent := SentTo(Exec(t, ops).world, a, p.host, sw);
      && (sent <==> IsBound(s.world, es) && !Displaced(t, ops, a, p.host))
      && (Wired(t.world) && Roomy(t, ops) ==> (sent <==> IsBound(s.world, es) && !Released(t, ops, a, sw)))
  {
    var t := Apply(s, Ask(es, p, tracker));
    StepKeeps(s, Ask(es, p, tracker));
    AskedIsSent(s, es, p, tracker);
    AskNumbers(s, es, p, tracker);
    hide Conserved, Wired, SentTo, Displaced, Released, Roomy, Exec, Feasible, RegisteredFor;
    SentUnlessDisplaced(t, ops, ListenAddr(p), p.host, s.world.nextId);
    if Wired(t.world) && Roomy(t, ops) && IsBound(s.world, es) {
      DisplacedIsReleased(t, ops, ListenAddr(p), p.host, s.world.nextId);
    }
  }

  // ---- Rows ----

  /** Neither retired, nor in the table, nor on a reload's list: nobody will ever retire it. */
  predicate IsLost(s: Sys, id: nat) {
    id in s.world.objects && !s.world.objects[id].retired && !Listed(s.world, id) && id !in s.leaving
  }

  /** A reload or a restart puts its own project into the row of a record that nobody has retired. */
  ghost predicate Overwrites(s: Sys, op: Op, id: nat) {
    && Listed(s.world, id) && !s.world.objects[id].retired
    && match op
       case Put(p, tracker) => p.name == s.world.objects[id].project.name
       case Swap(p, tracker, prev) => p.name == s.world.objects[id].project.name
       case _ => false
  }

  ghost predicate Overwritten(s: Sys, ops: seq<Op>, id: nat)
    requires Feasible(s, ops)
    decreases |ops|
  {
    ops != [] && (Overwrites(s, ops[0], id) || Overwritten(Apply(s, ops[0]), ops[1..], id))
  }

  /** v has one record more, and its row. */
  ghost predicate OneMore(w: World, v: World, name: string) {
    && (forall id :: id in w.objects ==> id in v.objects && v.objects[id] == w.objects[id])
    && (forall id :: id in v.objects && id !in w.objects ==> id == w.nextId && v.objects[id].project.name == name)
    && v.states == w.states[name := w.nextId] && w.nextId !in w.objects
  }

  lemma OneMoreLost(s: Sys, t: Sys, name: string, id: nat)
    requires OneMore(s.world, t.world, name) && t.leaving == s.leaving && Gone(s)
    ensures IsLost(t, id) <==>
      IsLost(s, id) || (Listed(s.world, id) && !s.world.objects[id].retired && s.world.objects[id].project.name == name)
  {
  }

  lemma JoinIsOneMore(w: World, p: Project, tracker: nat, entry: Option<nat>)
    requires w.nextId !in w.objects
    ensures OneMore(w, Commissioned(w, p, tracker, entry, None), p.name)
  {
  }

  lemma SwapIsOneMore(w: World, p: Project, tracker: nat, id: nat)
    requires w.nextId !in w.objects && id in w.objects
    ensures OneMore(w, Replaced(w, p, tracker, id), p.name)
  {
  }

  lemma AskIsOneMore(w: World, es: EntryState, p: Project, tracker: nat)
    requires w.nextId !in w.objects
    ensures OneMore(w, RegisteredFor(w, es, p, tracker), p.name)
  {
  }

  lemma RetireLost(s: Sys, rid: nat, keep: bool, id: nat)
    requires rid in s.world.objects
    ensures var t := s.(world := Retired(s.world, rid, keep));
      IsLost(t, id) <==> id in t.world.objects && !t.world.objects[id].retired && IsLost(s, id)
    ensures forall m :: m in s.world.objects && s.world.objects[m].retired ==>
      m in Retired(s.world, rid, keep).objects && Retired(s.world, rid, keep).objects[m].retired
  {
  }

  lemma UnboundLost(s: Sys, m: string, id: nat)
    requires m in s.world.entries
    ensures IsLost(s.(world := EntryUnbound(s.world, m)), id) <==> IsLost(s, id)
  {
  }

  lemma LostStep(s: Sys, op: Op, id: nat)
    requires Conserved(s) && Enabled(s, op)
    ensures var t := Apply(s, op);
      IsLost(t, id) <==> id in t.world.objects && !t.world.objects[id].retired && (IsLost(s, id) || Overwrites(s, op, id))
  {
    UnusedSwitch(s.world);
    assert Gone(s) && RowsOwn(s.world);
    hide Conserved, Commissioned, Replaced, RegisteredFor, Retired, EntryUnbound, Joins, IsReplacement, Gone, OneMore;
    match op
    case Put(p, tracker) =>
      JoinIsOneMore(s.world, p, tracker, None);
      OneMoreLost(s, Apply(s, op), p.name, id);
    case Swap(p, tracker, prev) =>
      SwapIsOneMore(s.world, p, tracker, prev);
      OneMoreLost(s, Apply(s, op), p.name, id);
    case Ask(es, p, tracker) =>
      AskIsOneMore(s.world, es, p, tracker);
      OneMoreLost(s, Apply(s, op), p.name, id);
    case Retire(rid, keep) => RetireLost(s, rid, keep, id);
    case Unbind(m) => UnboundLost(s, m, id);
    case _ =>
  }

  lemma OneMoreStays(w: World, v: World, name: string, id: nat)
    requires OneMore(w, v, name) && id in w.objects
    ensures id in v.objects && v.objects[id] == w.objects[id]
  {
  }

  lemma RetiredObjects(w: World, rid: nat, keep: bool, id: nat)
    requires rid in w.objects && id in w.objects
    ensures id in Retired(w, rid, keep).objects && (w.objects[id].retired ==> Retired(w, rid, keep).objects[id].retired)
  {
  }

  lemma RecordsStay(s: Sys, op: Op, id: nat)
    requires Enabled(s, op) && id in s.world.objects && s.world.nextId !in s.world.objects
    ensures id in Apply(s, op).world.objects
    ensures s.world.objects[id].retired ==> Apply(s, op).world.objects[id].retired
  {
    hide Commissioned, Replaced, RegisteredFor, Retired, Joins, OneMore;
    match op
    case Put(p, tracker) =>
      JoinIsOneMore(s.world, p, tracker, None);
      OneMoreStays(s.world, Apply(s, op).world, p.name, id);
    case Swap(p, tracker, prev) =>
      SwapIsOneMore(s.world, p, tracker, prev);
      OneMoreStays(s.world, Apply(s, op).world, p.name, id);
    case Ask(es, p, tracker) =>
      AskIsOneMore(s.world, es, p, tracker);
      OneMoreStays(s.world, Apply(s, op).world, p.name, id);
    case Retire(rid, keep) => RetiredObjects(s.world, rid, keep, id);
    case _ =>
  }

  lemma {:induction false} RetiredForever(s: Sys, ops: seq<Op>, id: nat)
    requires Conserved(s) && Feasible(s, ops) && id in s.world.objects
    ensures id in Exec(s, ops).world.objects
    ensures s.world.objects[id].retired ==> Exec(s, ops).world.objects[id].retired
    decreases |ops|
  {
    if ops != [] {
      UnusedSwitch(s.world);
      RecordsStay(s, ops[0], id);
      StepKeeps(s, ops[0]);
      hide Conserved, Apply, Enabled;
      RetiredForever(Apply(s, ops[0]), ops[1..], id);
    }
  }

  lemma LostIsThere(s: Sys, op: Op, id: nat)
    ensures IsLost(s, id) || Overwrites(s, op, id) ==> id in s.world.objects
  {
  }

  /**
   Nobody is lost but who is overwritten, over every interleaving: a record that is not retired is in
   the table, or on a reload's list, unless a reload or a restart has put its own project into the row.
   */
  lemma {:induction false} NobodyElseIsLost(s: Sys, ops: seq<Op>, id: nat)
    requires Conserved(s) && Feasible(s, ops)
    ensures var t := Exec(s, ops);
      IsLost(t, id) <==> id in t.world.objects && !t.world.objects[id].retired && (IsLost(s, id) || Overwritten(s, ops, id))
    decreases |ops|
  {
    if ops != [] {
      var t := Apply(s, ops[0]);
      LostStep(s, ops[0], id);
      StepKeeps(s, ops[0]);
      NobodyElseIsLost(t, ops[1..], id);
      if id in t.world.objects {
        RetiredForever(t, ops[1..], id);
      }
      if id in s.world.objects {
        UnusedSwitch(s.world);
        RecordsStay(s, ops[0], id);
      }
      hide Conserved, Apply, Enabled, IsLost, Overwrites;
      assert IsLost(s, id) || Overwrites(s, ops[0], id) ==> id in s.world.objects by { LostIsThere(s, ops[0], id); }
    }
  }
}
