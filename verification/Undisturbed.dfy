/**
 A reload with requests and drops in between ends as one without: at rest, serving the configuration -
 unless a request has registered a name that the configuration has.
 */
module Undisturbed {
  import opened Options
  import opened Config
  import opened Routing
  import opened Rest
  import opened Teardown
  import opened Rebuild
  import opened Linking
  import opened Carryover
  import opened Dynamic
  import opened Conservation
  import opened RecordRuns
  import opened Meanwhile

  /** No request registers a name of the configuration. */
  predicate LeavesNames(c: Config, step: Step) {
    step.op.Ask? ==> step.op.project.name !in c.projects
  }

  /** The records of before are what they were, and the row of a name still to be commissioned is the one of before. */
  ghost predicate Pending(w0: World, c: Config, r: Point) {
    var w := r.sys.world;
    && r.todo <= ToCommission(w0, c)
    && (forall n :: n in r.todo && n in w.states ==> n in w0.states && w.states[n] == w0.states[n])
    && (forall id :: id in w0.objects ==>
          id in w.objects && w.objects[id].project == w0.objects[id].project && w.objects[id].dynamic == w0.objects[id].dynamic)
  }

  /** A configured project is in the table and on its listener. */
  predicate IsPlaced(s: Sys, n: string, p: Project) {
    && IsStaticRow(s.world, n)
    && var id := s.world.states[n];
      && !s.world.objects[id].retired && id !in s.swapping && HoldsRoute(s.world, id)
      && s.world.objects[id].project.Equivalent(p)
  }

  ghost predicate AllConfigured(c: Config, r: Point) {
    forall n :: n in c.projects && n !in r.todo ==> IsPlaced(r.sys, n, c.projects[n])
  }

  /** No static record strays from the table either. */
  ghost predicate StaticsListed(c: Config, s: Sys) {
    var w := s.world;
    && (forall id :: id in w.objects && !w.objects[id].retired && !w.objects[id].dynamic ==> Listed(w, id) || id in s.leaving)
    && (forall id :: id in s.leaving && id in w.objects && !w.objects[id].dynamic ==> w.objects[id].project.name !in c.projects)
  }

  /** What is being replaced is what the configuration keeps the route of. */
  ghost predicate SwapsPending(w0: World, c: Config, r: Point) {
    forall id :: id in r.sys.swapping ==>
      id in r.sys.world.objects
      && var n := r.sys.world.objects[id].project.name; n in r.todo && KeepsRoute(w0, c, n) && w0.states[n] == id
  }

  ghost predicate KeptHold(w0: World, c: Config, r: Point) {
    forall n :: n in r.todo && KeepsRoute(w0, c, n) ==> HoldsRoute(r.sys.world, w0.states[n])
  }

  /** A project of an entry under a name of the configuration is one that is to be replaced. */
  ghost predicate DynamicsPending(w0: World, c: Config, r: Point) {
    var w := r.sys.world;
    forall id :: id in w.objects && !w.objects[id].retired && w.objects[id].dynamic && w.objects[id].project.name in c.projects ==>
      var n := w.objects[id].project.name; n in r.todo && n in w0.states && w0.states[n] == id
  }

  /** Every member of the listener is routed. */
  ghost predicate IsFull(w: World, a: Address) {
    a in w.listeners ==>
      Members(w.serving, a) <= w.serving.Keys && TableOk(w.listeners[a], w.serving, Members(w.serving, a))
  }

  ghost predicate IsClosing(r: Point, a: Address) {
    exists m :: m in r.closing && m in r.sys.world.entries && EntryAddr(r.sys.world.entries[m].entry) == a
  }

  /** So it is on every listener but those of entries that go. */
  ghost predicate TablesFull(r: Point) {
    forall a :: a in r.sys.world.listeners && !IsClosing(r, a) ==> IsFull(r.sys.world, a)
  }

  /** An entry that is there stays, or goes, or is the configuration's. */
  ghost predicate EntriesWanted(w0: World, c: Config, r: Point) {
    forall m :: m in r.sys.world.entries ==>
      EntryStays(w0, c, m) || m in r.closing || (m in Wanted(c.entries) && r.sys.world.entries[m].entry == Wanted(c.entries)[m])
  }

  ghost predicate Calm(w0: World, c: Config, r: Point) {
    && Pending(w0, c, r) && AllConfigured(c, r) && StaticsListed(c, r.sys) && SwapsPending(w0, c, r) && KeptHold(w0, c, r)
    && DynamicsPending(w0, c, r) && TablesFull(r) && EntriesWanted(w0, c, r)
  }

  // ---- The beginning ----

  lemma LiveIsPlaced(s: Sys, n: string, p: Project)
    requires AtRest(s.world) && s.swapping == {} && IsStatic(s.world, n) && At(s.world, n).value.project.Equivalent(p)
    ensures IsPlaced(s, n, p) && HoldsRoute(s.world, s.world.states[n])
  {
    PlacedAt(s.world, n);
  }

  lemma BeginsCalm(s: Sys, c: Config, r: Point)
    requires Begins(s, c, r)
    ensures Calm(s.world, c, r)
  {
    var w := s.world;
    AtRestIs(w);
    forall n | n in c.projects && n !in r.todo
      ensures IsPlaced(s, n, c.projects[n])
    {
      LiveIsPlaced(s, n, c.projects[n]);
    }
    forall n | n in r.todo && KeepsRoute(w, c, n)
      ensures HoldsRoute(w, w.states[n])
    {
      LiveIsPlaced(s, n, At(w, n).value.project);
    }
    forall a | a in w.listeners
      ensures Members(w.serving, a) <= w.serving.Keys && TableOk(w.listeners[a], w.serving, Members(w.serving, a))
    {
      assert ListenerOk(w.listeners[a], w.serving, Members(w.serving, a));
    }
    hide Wired, Matched, ServingOk, EntriesOk, ListenersOk, TableOk, HoldsRoute, IsPlaced, Conserved, HostsNamed;
  }

  // ---- Routes of configured projects ----

  lemma NextIsFree(s: Sys)
    requires Conserved(s)
    ensures s.world.nextId !in s.world.serving && s.world.nextId !in s.world.objects
  {
    UnusedSwitch(s.world);
  }

  lemma HoldersStay(s: Sys, op: Op)
    requires Enabled(s, op) && (op.Claim? || op.Collect? || op.Forget? || op.Bind?)
    ensures Apply(s, op).world.serving == s.world.serving && Apply(s, op).world.objects == s.world.objects
  {
  }

  lemma SameHolder(w: World, v: World, id: nat)
    requires HoldsRoute(w, id) && v.serving == w.serving && v.objects == w.objects
    ensures HoldsRoute(v, id)
  {
  }

  lemma HoldJoined(w: World, p: Project, tracker: nat, entry: Option<nat>, id: nat)
    requires HoldsRoute(w, id) && w.nextId !in w.serving && w.nextId !in w.objects
    ensures HoldsRoute(Commissioned(w, p, tracker, entry, None), id)
  {
  }

  lemma HoldLate(w: World, p: Project, tracker: nat, es: EntryState, id: nat)
    requires HoldsRoute(w, id) && w.nextId !in w.objects && !IsBound(w, es)
    ensures HoldsRoute(RegisteredFor(w, es, p, tracker), id)
  {
  }

  lemma HoldAsked(w: World, es: EntryState, p: Project, tracker: nat, id: nat)
    requires HoldsRoute(w, id) && w.nextId !in w.serving && w.nextId !in w.objects
    ensures HoldsRoute(RegisteredFor(w, es, p, tracker), id)
  {
    hide HoldsRoute;
    if IsBound(w, es) {
      AskedInTime(w, es, p, tracker);
      HoldJoined(w, p, tracker, Some(es.id), id);
    } else {
      HoldLate(w, p, tracker, es, id);
    }
  }

  lemma HoldReplaced(w: World, p: Project, tracker: nat, prev: nat, id: nat)
    requires prev in w.objects && HoldsRoute(w, id) && id != prev && w.nextId !in w.objects && Owning(w, prev)
    ensures HoldsRoute(Replaced(w, p, tracker, prev), id)
  {
  }

  lemma HoldSwapped(s: Sys, p: Project, tracker: nat, prev: nat, id: nat)
    requires Conserved(s) && IsReplacement(s, p, prev) && HoldsRoute(s.world, id) && id != prev && s.world.nextId !in s.world.objects
    ensures HoldsRoute(Replaced(s.world, p, tracker, prev), id)
  {
    UsedOwns(s);
    assert InUse(s, prev);
    hide Conserved;
    HoldReplaced(s.world, p, tracker, prev, id);
  }

  lemma HoldMarked(w: World, other: nat, switches: map<nat, Option<nat>>, id: nat)
    requires HoldsRoute(w, id) && other in w.objects
    ensures HoldsRoute(w.(switches := switches, objects := w.objects[other := w.objects[other].(retired := true)]), id)
  {
  }

  lemma HoldReleased(w: World, other: nat, id: nat)
    requires HoldsRoute(w, other) && HoldsRoute(w, id) && other != id && !w.objects[other].retired
    requires ServedOk(w, w.objects[other].sw) && ListenAddr(w.objects[other].project) in w.listeners
    ensures HoldsRoute(Retired(w, other, false), id)
  {
    RetiredGone(w, w.objects[other].sw);
    hide Retired;
  }

  lemma HoldRetired(s: Sys, other: nat, keep: bool, id: nat)
    requires Conserved(s) && other in s.world.objects && HoldsRoute(s.world, id) && (other == id ==> keep)
    ensures HoldsRoute(Retired(s.world, other, keep), id)
  {
    var w := s.world;
    assert InUse(s, other) ==> Owning(w, other);
    hide Conserved, Retired, ServedOk;
    if w.objects[other].retired {
      RetiredStays(w, other, keep);
    } else if keep {
      RetiredKept(w, other);
      HoldMarked(w, other, w.switches[w.objects[other].sw := None], id);
    } else if HoldsRoute(w, other) {
      HolderIs(s, other);
      HoldReleased(w, other, id);
    } else {
      OffMarked(w, other);
      HoldMarked(w, other, w.switches, id);
    }
  }

  lemma HoldElsewhere(w: World, m: string, id: nat)
    requires m in w.entries && HoldsRoute(w, id)
    requires ListenAddr(w.serving[w.objects[id].sw].project) != EntryAddr(w.entries[m].entry)
    ensures HoldsRoute(EntryUnbound(w, m), id)
  {
  }

  lemma HolderOf(s: Sys, sw: nat)
    requires Conserved(s) && sw in s.world.serving
    ensures var id := s.world.serving[sw].id;
      && InUse(s, id) && s.world.objects[id].sw == sw && s.world.objects[id].project == s.world.serving[sw].project
      && s.world.objects[id].entry == s.world.serving[sw].entry && (s.world.objects[id].dynamic <==> s.world.objects[id].entry.Some?)
  {
    assert ServedOk(s.world, sw);
  }

  lemma HoldUnbound(s: Sys, m: string, id: nat)
    requires Conserved(s) && m in s.world.entries && HoldsRoute(s.world, id) && !s.world.objects[id].dynamic
    ensures HoldsRoute(EntryUnbound(s.world, m), id)
  {
    var w, sw := s.world, s.world.objects[id].sw;
    HolderOf(s, sw);
    ConservedIsLinked(s);
    hide Conserved, Linked, ServingOk, LinksOk, EntryUnbound;
    if ListenAddr(w.serving[sw].project) == EntryAddr(w.entries[m].entry) {
      MembersAreOfEntry(w, m, sw);
    }
    HoldElsewhere(w, m, id);
  }

  /** Whoever holds its route still does, unless it is the one that leaves or is replaced, or its listener is closed. */
  lemma HoldStays(s: Sys, op: Op, id: nat)
    requires Conserved(s) && Enabled(s, op) && HoldsRoute(s.world, id)
    requires !(op.Retire? && op.id == id && !op.keep) && !(op.Swap? && op.id == id) && (op.Unbind? ==> !s.world.objects[id].dynamic)
    ensures HoldsRoute(Apply(s, op).world, id)
  {
    NextIsFree(s);
    assert id in s.world.objects;
    hide Conserved, Commissioned, Replaced, RegisteredFor, Retired, EntryBound, EntryUnbound, Suspended, Unlisted, Joins, MayAsk, HoldsRoute;
    match op
    case Put(p, tracker) => HoldJoined(s.world, p, tracker, None, id);
    case Swap(p, tracker, prev) => HoldSwapped(s, p, tracker, prev, id);
    case Ask(es, p, tracker) => HoldAsked(s.world, es, p, tracker, id);
    case Retire(other, keep) => HoldRetired(s, other, keep, id);
    case Unbind(m) => HoldUnbound(s, m, id);
    case _ =>
      HoldersStay(s, op);
      hide Apply, Enabled;
      SameHolder(s.world, Apply(s, op).world, id);
  }

  // ---- Every step ----

  lemma OneMoreRow(w: World, v: World, name: string, n: string)
    requires OneMore(w, v, name) && n in v.states
    ensures if n == name then v.states[n] == w.nextId else n in w.states && v.states[n] == w.states[n]
  {
  }

  /** The row of a name after a step: as before, gone, or a new record's. */
  lemma RowAfter(s: Sys, op: Op, n: string)
    requires Enabled(s, op) && n in Apply(s, op).world.states && s.world.nextId !in s.world.objects
    ensures if (op.Put? || op.Swap? || op.Ask?) && op.project.name == n then Apply(s, op).world.states[n] == s.world.nextId
            else n in s.world.states && Apply(s, op).world.states[n] == s.world.states[n]
  {
    hide Commissioned, Replaced, RegisteredFor, Retired, Joins, OneMore;
    match op
    case Put(p, tracker) =>
      JoinIsOneMore(s.world, p, tracker, None);
      OneMoreRow(s.world, Apply(s, op).world, p.name, n);
    case Swap(p, tracker, prev) =>
      SwapIsOneMore(s.world, p, tracker, prev);
      OneMoreRow(s.world, Apply(s, op).world, p.name, n);
    case Ask(es, p, tracker) =>
      AskIsOneMore(s.world, es, p, tracker);
      OneMoreRow(s.world, Apply(s, op).world, p.name, n);
    case Retire(id, keep) => RetiredStates(s.world, id, keep);
    case _ =>
  }

  lemma PendingStep(w0: World, c: Config, r: Point, step: Step)
    requires Under(w0, c, r) && Pending(w0, c, r) && StepEnabled(w0, c, r, step) && LeavesNames(c, step)
    ensures Pending(w0, c, Next(w0, c, r, step))
  {
    var s, q := r.sys, Next(w0, c, r, step);
    UnusedSwitch(s.world);
    hide Under, Enabled, Apply, OwnEnabled, OtherEnabled;
    forall n | n in q.todo && n in q.sys.world.states
      ensures n in w0.states && q.sys.world.states[n] == w0.states[n]
    {
      RowAfter(s, step.op, n);
    }
    forall id | id in w0.objects
      ensures id in q.sys.world.objects && q.sys.world.objects[id].project == w0.objects[id].project
      ensures q.sys.world.objects[id].dynamic == w0.objects[id].dynamic
    {
      FlagsStay(s, step.op, id);
    }
  }

  /** The record of a name that is commissioned was the one of before, and is retired. */
  lemma CommissionedWasRetired(w0: World, c: Config, r: Point, op: Op)
    requires Pending(w0, c, r) && OwnEnabled(w0, c, r, op) && (op.Put? || op.Swap?) && RowsOwn(r.sys.world)
    ensures op.project.name in r.sys.world.states ==>
      var id := r.sys.world.states[op.project.name]; id in r.sys.world.objects && r.sys.world.objects[id].retired
  {
  }

  lemma OneMoreKeepsRow(w: World, v: World, name: string, id: nat)
    requires OneMore(w, v, name) && id in w.objects && Listed(w, id) && name != w.objects[id].project.name
    ensures id in v.objects && Listed(v, id)
  {
  }

  lemma ListedMore(s: Sys, op: Op, id: nat)
    requires Enabled(s, op) && (op.Put? || op.Swap? || op.Ask?) && s.world.nextId !in s.world.objects
    requires id in s.world.objects && Listed(s.world, id) && op.project.name != s.world.objects[id].project.name
    ensures var t := Apply(s, op); id in t.world.objects && Listed(t.world, id)
  {
    hide Commissioned, Replaced, RegisteredFor, Joins, MayAsk, OneMore, Listed;
    if op.Put? {
      JoinIsOneMore(s.world, op.project, op.tracker, None);
    } else if op.Swap? {
      SwapIsOneMore(s.world, op.project, op.tracker, op.id);
    } else {
      AskIsOneMore(s.world, op.es, op.project, op.tracker);
    }
    OneMoreKeepsRow(s.world, Apply(s, op).world, op.project.name, id);
  }

  lemma RetiredRows(s: Sys, op: Op, id: nat)
    requires Enabled(s, op) && op.Retire? && id in s.world.objects && Listed(s.world, id)
    ensures var t := Apply(s, op); id in t.world.objects && Listed(t.world, id)
  {
  }

  lemma SameRows(s: Sys, op: Op, id: nat)
    requires Enabled(s, op) && (op.Claim? || op.Bind? || op.Unbind?) && id in s.world.objects && Listed(s.world, id)
    ensures var t := Apply(s, op); id in t.world.objects && Listed(t.world, id)
  {
  }

  lemma RowsWithoutOne(s: Sys, m: string, id: nat)
    requires m in s.world.states && Listed(s.world, id)
    ensures var t := s.(world := s.world.(states := s.world.states - {m}), leaving := s.leaving + {s.world.states[m]});
      id in t.world.objects && (Listed(t.world, id) || id in t.leaving)
  {
  }

  lemma RowsForgotten(s: Sys, other: nat, id: nat)
    requires other in s.world.objects && Listed(s.world, id) && s.world.objects[other].dynamic && !s.world.objects[id].dynamic
    ensures Listed(Unlisted(s.world, s.world.objects[other].project.name, other), id)
  {
  }

  lemma ListedOther(s: Sys, op: Op, id: nat)
    requires Enabled(s, op) && !op.Put? && !op.Swap? && !op.Ask? && id in s.world.objects && Listed(s.world, id)
    requires op.Forget? ==> op.id in s.world.objects && s.world.objects[op.id].dynamic && !s.world.objects[id].dynamic
    ensures var t := Apply(s, op); id in t.world.objects && (Listed(t.world, id) || id in t.leaving)
  {
    hide Listed;
    if op.Collect? {
      RowsWithoutOne(s, op.name, id);
    } else if op.Forget? {
      RowsForgotten(s, op.id, id);
    } else if op.Retire? {
      RetiredRows(s, op, id);
    } else {
      SameRows(s, op, id);
    }
  }

  lemma AskedElsewhere(s: Sys, op: Op, id: nat)
    requires Enabled(s, op) && op.Ask? && Listed(s.world, id)
    ensures op.project.name != s.world.objects[id].project.name
  {
  }

  lemma ListedBefore(w0: World, c: Config, r: Point, step: Step, id: nat)
    requires Under(w0, c, r) && Pending(w0, c, r) && StepEnabled(w0, c, r, step) && LeavesNames(c, step)
    requires id in r.sys.world.objects && !r.sys.world.objects[id].retired && !r.sys.world.objects[id].dynamic && Listed(r.sys.world, id)
    ensures var t := Apply(r.sys, step.op); id in t.world.objects && (Listed(t.world, id) || id in t.leaving)
  {
    var s := r.sys;
    NextIsFree(s);
    assert RowsOwn(s.world);
    if step.op.Put? || step.op.Swap? {
      CommissionedWasRetired(w0, c, r, step.op);
    }
    hide Under, Pending, OwnEnabled, Apply, Enabled;
    if step.op.Put? || step.op.Swap? {
      ListedMore(s, step.op, id);
    } else if step.op.Ask? {
      AskedElsewhere(s, step.op, id);
      ListedMore(s, step.op, id);
    } else {
      hide Listed;
      ListedOther(s, step.op, id);
    }
  }

  lemma RetiredKeys(w: World, other: nat, keep: bool, id: nat)
    requires other in w.objects && id in Retired(w, other, keep).objects
    ensures id in w.objects
  {
  }

  lemma OneMoreNew(w: World, v: World, name: string, id: nat)
    requires OneMore(w, v, name) && id in v.objects && id !in w.objects
    ensures id == w.nextId && Listed(v, id)
  {
  }

  lemma NewIsListed(s: Sys, op: Op, id: nat)
    requires Enabled(s, op) && id in Apply(s, op).world.objects && id !in s.world.objects && s.world.nextId !in s.world.objects
    ensures op.Put? || op.Swap? || op.Ask?
    ensures id == s.world.nextId && Listed(Apply(s, op).world, id)
    ensures op.Ask? ==> Apply(s, op).world.objects[id].dynamic
  {
    hide Commissioned, Replaced, Retired, Joins, OneMore;
    match op
    case Put(p, tracker) =>
      JoinIsOneMore(s.world, p, tracker, None);
      OneMoreNew(s.world, Apply(s, op).world, p.name, id);
    case Swap(p, tracker, prev) =>
      SwapIsOneMore(s.world, p, tracker, prev);
      OneMoreNew(s.world, Apply(s, op).world, p.name, id);
    case Ask(es, p, tracker) =>
      AskIsOneMore(s.world, es, p, tracker);
      OneMoreNew(s.world, Apply(s, op).world, p.name, id);
      AskedRecord(s.world, es, p, tracker);
    case Retire(other, keep) => RetiredKeys(s.world, other, keep, id);
    case _ =>
  }

  lemma OnlyCollectLists(s: Sys, op: Op)
    requires Enabled(s, op)
    ensures Apply(s, op).leaving == if op.Collect? then s.leaving + {s.world.states[op.name]} else s.leaving
    ensures Apply(s, op).swapping == if op.Claim? then s.swapping + {s.world.states[op.name]} else if op.Swap? then s.swapping - {op.id} else s.swapping
  {
    hide Commissioned, Replaced, RegisteredFor, Retired, Joins, EntryBound, EntryUnbound;
  }

  lemma CollectedIsGone(w0: World, c: Config, r: Point, step: Step, id: nat)
    requires Under(w0, c, r) && StaticsListed(c, r.sys) && StepEnabled(w0, c, r, step)
    requires var t := Apply(r.sys, step.op); id in t.leaving && id in t.world.objects && !t.world.objects[id].dynamic
    ensures Apply(r.sys, step.op).world.objects[id].project.name !in c.projects
  {
    UnusedSwitch(r.sys.world);
    OnlyCollectLists(r.sys, step.op);
    assert Gone(r.sys) && RowsOwn(r.sys.world);
    hide Conserved, NamesHeld, EntriesHeld, NoStrays, HostsNamed, StaticSwaps, WasNumbered, Apply, Enabled, OtherEnabled;
    assert id in r.sys.world.objects;
    FlagsStay(r.sys, step.op, id);
  }

  lemma StaticsStep(w0: World, c: Config, r: Point, step: Step)
    requires Under(w0, c, r) && Pending(w0, c, r) && StaticsListed(c, r.sys) && StepEnabled(w0, c, r, step) && LeavesNames(c, step)
    ensures StaticsListed(c, Next(w0, c, r, step).sys)
  {
    var s, t := r.sys, Next(w0, c, r, step).sys;
    UnusedSwitch(s.world);
    OnlyCollectLists(s, step.op);
    hide Under, Pending, Apply, Enabled, OtherEnabled, Listed;
    forall id | id in t.world.objects && !t.world.objects[id].retired && !t.world.objects[id].dynamic
      ensures Listed(t.world, id) || id in t.leaving
    {
      if id in s.world.objects {
        FlagsStay(s, step.op, id);
        RecordsStay(s, step.op, id);
        if Listed(s.world, id) {
          ListedBefore(w0, c, r, step, id);
        }
      } else {
        NewIsListed(s, step.op, id);
      }
    }
    forall id | id in t.leaving && id in t.world.objects && !t.world.objects[id].dynamic
      ensures t.world.objects[id].project.name !in c.projects
    {
      CollectedIsGone(w0, c, r, step, id);
    }
  }

  // ---- Configured projects ----

  /** A static record whose name the configuration has is retired only where its route is kept, or it is to be replaced. */
  lemma WhoRetires(w0: World, c: Config, r: Point, step: Step, n: string, id: nat)
    requires Under(w0, c, r) && Pending(w0, c, r) && StaticsListed(c, r.sys) && StepEnabled(w0, c, r, step)
    requires step.op.Retire? && step.op.id == id && id in r.sys.world.objects && !r.sys.world.objects[id].dynamic
    requires r.sys.world.objects[id].project.name == n && n in c.projects
    ensures n in r.todo && n in w0.states && w0.states[n] == id && (step.op.keep <==> KeepsRoute(w0, c, n))
  {
    hide Conserved, NamesHeld, EntriesHeld, NoStrays, HostsNamed, StaticSwaps;
    if m :| m in r.todo && m in w0.states && w0.states[m] == id && (step.op.keep <==> KeepsRoute(w0, c, m)) {
      assert w0.objects[id].project.name == m;
    }
  }

  /** Neither claimed nor swapped: its name is not to be commissioned. */
  lemma SwapIsAnothers(w0: World, c: Config, r: Point, step: Step, n: string, id: nat)
    requires Under(w0, c, r) && StepEnabled(w0, c, r, step) && n in r.sys.world.states && r.sys.world.states[n] == id && n !in r.todo
    ensures step.op.Claim? ==> r.sys.world.states[step.op.name] != id
    ensures step.op.Swap? ==> step.op.id != id
  {
    assert RowsOwn(r.sys.world);
    hide Conserved, NamesHeld, EntriesHeld, NoStrays, HostsNamed, StaticSwaps;
  }

  lemma NotCollected(w0: World, c: Config, r: Point, step: Step, n: string)
    requires StepEnabled(w0, c, r, step) && IsStaticRow(r.sys.world, n) && n in c.projects && Gone(r.sys) && RowsOwn(r.sys.world)
    ensures r.sys.world.states[n] !in Apply(r.sys, step.op).leaving
  {
    OnlyCollectLists(r.sys, step.op);
    hide Apply, Enabled, OtherEnabled;
  }

  lemma StaysPlaced(w0: World, c: Config, r: Point, step: Step, n: string)
    requires Under(w0, c, r) && Pending(w0, c, r) && StaticsListed(c, r.sys) && StepEnabled(w0, c, r, step) && LeavesNames(c, step)
    requires n in c.projects && n !in r.todo && IsPlaced(r.sys, n, c.projects[n])
    ensures IsPlaced(Apply(r.sys, step.op), n, c.projects[n])
  {
    var s, t := r.sys, Apply(r.sys, step.op);
    var id := s.world.states[n];
    NextIsFree(s);
    assert RowsOwn(s.world) && Gone(s) && Conserved(s) && s.world.objects[id].project.name == n;
    hide Under, Pending, StaticsListed, Apply, Enabled, OwnEnabled, OtherEnabled, HoldsRoute, RowsOwn, Conserved;
    FlagsStay(s, step.op, id);
    OnlyCollectLists(s, step.op);
    if step.op.Retire? && step.op.id == id {
      WhoRetires(w0, c, r, step, n, id);
    } else {
      NotRetiredHere(s, step.op, id);
      SwapIsAnothers(w0, c, r, step, n, id);
      HoldStays(s, step.op, id);
      ListedBefore(w0, c, r, step, id);
      NotCollected(w0, c, r, step, n);
    }
  }

  lemma PutIsPlaced(s: Sys, p: Project, tracker: nat)
    requires s.world.nextId !in s.swapping
    ensures IsPlaced(s.(world := Commissioned(s.world, p, tracker, None, None)), p.name, p)
  {
    AttachInstalls(s.world, p, tracker, None);
  }

  lemma SwapIsPlaced(s: Sys, p: Project, tracker: nat, id: nat)
    requires id in s.world.objects && HoldsRoute(s.world, id) && s.world.objects[id].entry == None
    requires s.world.nextId !in s.swapping && s.world.nextId !in s.world.objects
    ensures IsPlaced(s.(world := Replaced(s.world, p, tracker, id), swapping := s.swapping - {id}), p.name, p)
  {
    InheritInstalls(s.world, p, tracker, None, id);
  }

  lemma NextIsNobody(s: Sys)
    requires Conserved(s)
    ensures s.world.nextId !in s.swapping && s.world.nextId !in s.world.objects
  {
  }

  lemma SwappedHolds(w0: World, c: Config, r: Point, p: Project, tracker: nat, id: nat)
    requires Under(w0, c, r) && KeptHold(w0, c, r) && StepEnabled(w0, c, r, Own(Swap(p, tracker, id)))
    ensures id in r.sys.world.objects && HoldsRoute(r.sys.world, id) && r.sys.world.objects[id].entry == None
  {
    assert Numbered(r.sys);
  }

  lemma ConfiguredStep(w0: World, c: Config, r: Point, step: Step)
    requires Loaded(c) && Under(w0, c, r) && Calm(w0, c, r) && StepEnabled(w0, c, r, step) && LeavesNames(c, step)
    ensures AllConfigured(c, Next(w0, c, r, step))
  {
    var q := Next(w0, c, r, step);
    NextIsNobody(r.sys);
    hide Under, Pending, StaticsListed, KeptHold, DynamicsPending, TablesFull, SwapsPending, IsPlaced, Loaded, IsTornDown, Joins, IsReplacement;
    forall n | n in c.projects && n !in q.todo
      ensures IsPlaced(q.sys, n, c.projects[n])
    {
      if n !in r.todo {
        StaysPlaced(w0, c, r, step, n);
      } else if step.op.Put? {
        hide Enabled;
        PutIsPlaced(r.sys, step.op.project, step.op.tracker);
      } else {
        SwappedHolds(w0, c, r, step.op.project, step.op.tracker, step.op.id);
        SwapIsPlaced(r.sys, step.op.project, step.op.tracker, step.op.id);
      }
    }
  }

  // ---- Projects being replaced ----

  lemma SwapsPendingStep(w0: World, c: Config, r: Point, step: Step)
    requires Under(w0, c, r) && Pending(w0, c, r) && SwapsPending(w0, c, r) && StepEnabled(w0, c, r, step)
    ensures SwapsPending(w0, c, Next(w0, c, r, step))
  {
    var s, q := r.sys, Next(w0, c, r, step);
    NextIsNobody(s);
    OnlyCollectLists(s, step.op);
    assert RowsOwn(s.world);
    hide Conserved, NamesHeld, EntriesHeld, NoStrays, HostsNamed, StaticSwaps, WasNumbered, Apply, Enabled, OtherEnabled, IsTornDown;
    forall id | id in q.sys.swapping
      ensures id in q.sys.world.objects
      ensures var n := q.sys.world.objects[id].project.name; n in q.todo && KeepsRoute(w0, c, n) && w0.states[n] == id
    {
      assert id in s.world.objects;
      FlagsStay(s, step.op, id);
    }
  }

  lemma NotSwapped(w0: World, c: Config, r: Point, step: Step, n: string)
    requires StepEnabled(w0, c, r, step) && n in Next(w0, c, r, step).todo && n in w0.states && w0.states[n] in r.sys.world.objects
    requires r.sys.world.objects[w0.states[n]].project.name == n
    ensures !(step.op.Swap? && step.op.id == w0.states[n])
  {
  }

  lemma KeptRecord(w0: World, c: Config, r: Point, n: string)
    requires Under(w0, c, r) && Pending(w0, c, r) && KeepsRoute(w0, c, n)
    ensures n in w0.states && w0.states[n] in r.sys.world.objects && !r.sys.world.objects[w0.states[n]].dynamic
    ensures r.sys.world.objects[w0.states[n]].project.name == n && n in c.projects && Conserved(r.sys)
  {
  }

  lemma KeptStays(w0: World, c: Config, r: Point, step: Step, n: string)
    requires Under(w0, c, r) && Pending(w0, c, r) && StaticsListed(c, r.sys) && KeptHold(w0, c, r) && StepEnabled(w0, c, r, step)
    requires n in Next(w0, c, r, step).todo && KeepsRoute(w0, c, n)
    ensures HoldsRoute(Apply(r.sys, step.op).world, w0.states[n])
  {
    var s, id := r.sys, w0.states[n];
    KeptRecord(w0, c, r, n);
    NotSwapped(w0, c, r, step, n);
    hide Under, Pending, StaticsListed, HoldsRoute, OtherEnabled, OwnEnabled, KeepsRoute, Enabled, Apply;
    if step.op.Retire? && step.op.id == id {
      WhoRetires(w0, c, r, step, n, id);
    }
    HoldStays(s, step.op, id);
  }

  lemma KeptHoldStep(w0: World, c: Config, r: Point, step: Step)
    requires Under(w0, c, r) && Pending(w0, c, r) && StaticsListed(c, r.sys) && KeptHold(w0, c, r) && StepEnabled(w0, c, r, step)
    ensures KeptHold(w0, c, Next(w0, c, r, step))
  {
    var s, q := r.sys, Next(w0, c, r, step);
    forall n | n in q.todo && KeepsRoute(w0, c, n)
      ensures HoldsRoute(q.sys.world, w0.states[n])
    {
      KeptStays(w0, c, r, step, n);
    }
  }

  lemma NewIsConfigured(w0: World, c: Config, r: Point, step: Step, id: nat)
    requires Under(w0, c, r) && StepEnabled(w0, c, r, step) && LeavesNames(c, step) && id == r.sys.world.nextId
    requires step.op.Put? || step.op.Swap? || step.op.Ask?
    ensures var v := Apply(r.sys, step.op).world;
      id in v.objects && (v.objects[id].dynamic ==> v.objects[id].project.name !in c.projects)
  {
    NewIsThere(r.sys, step.op);
    if step.op.Put? {
      PutIsStatic(r.sys.world, step.op.project, step.op.tracker);
    } else if step.op.Swap? {
      SwapsStatic(r.sys, step.op.project, step.op.tracker, step.op.id);
    }
    hide Under, Commissioned, Replaced, RegisteredFor, Enabled, OwnEnabled, OtherEnabled;
  }

  lemma DynamicsStep(w0: World, c: Config, r: Point, step: Step)
    requires Under(w0, c, r) && Pending(w0, c, r) && DynamicsPending(w0, c, r) && StepEnabled(w0, c, r, step) && LeavesNames(c, step)
    ensures DynamicsPending(w0, c, Next(w0, c, r, step))
  {
    var s, q := r.sys, Next(w0, c, r, step);
    NextIsNobody(s);
    hide Apply, Enabled, OtherEnabled;
    forall id | id in q.sys.world.objects && !q.sys.world.objects[id].retired && q.sys.world.objects[id].dynamic
                && q.sys.world.objects[id].project.name in c.projects
      ensures var n := q.sys.world.objects[id].project.name; n in q.todo && n in w0.states && w0.states[n] == id
    {
      if id in s.world.objects {
        FlagsStay(s, step.op, id);
        RecordsStay(s, step.op, id);
      } else {
        NewIsListed(s, step.op, id);
        NewIsConfigured(w0, c, r, step, id);
      }
    }
  }

  lemma WantedStep(w0: World, c: Config, r: Point, step: Step)
    requires EntriesWanted(w0, c, r) && StepEnabled(w0, c, r, step)
    ensures EntriesWanted(w0, c, Next(w0, c, r, step))
  {
    if !step.op.Bind? && !step.op.Unbind? {
      EntriesStay(r.sys, step.op);
      hide Apply, Enabled;
    }
  }

  // ---- Once everything is torn down ----

  lemma StaticIsConfigured(w0: World, c: Config, r: Point, id: nat)
    requires Under(w0, c, r) && Calm(w0, c, r) && IsTornDown(w0, c, r) && InUse(r.sys, id) && !r.sys.world.objects[id].dynamic
    ensures var p := r.sys.world.objects[id].project; p.name in c.projects && SameRoute(p, c.projects[p.name])
    ensures var n := r.sys.world.objects[id].project.name; n in r.todo ==> id in r.sys.swapping && KeepsRoute(w0, c, n)
    ensures var n := r.sys.world.objects[id].project.name; id !in r.sys.swapping ==> Listed(r.sys.world, id) && n !in r.todo
  {
    hide Conserved, NamesHeld, EntriesHeld, NoStrays, HostsNamed, StaticSwaps, TablesFull, DynamicsPending, EntriesWanted, KeptHold;
  }

  lemma DynamicIsNot(w0: World, c: Config, r: Point, id: nat)
    requires Under(w0, c, r) && Calm(w0, c, r) && IsTornDown(w0, c, r) && InUse(r.sys, id) && r.sys.world.objects[id].dynamic
    ensures !r.sys.world.objects[id].retired && r.sys.world.objects[id].project.name !in c.projects && Listed(r.sys.world, id)
  {
    hide Conserved, NamesHeld, EntriesHeld, HostsNamed, TablesFull, StaticsListed, AllConfigured, EntriesWanted, KeptHold, SwapsPending;
  }

  lemma UnderConserves(w0: World, c: Config, r: Point)
    requires Under(w0, c, r)
    ensures Conserved(r.sys) && Linked(r.sys.world) && HostsNamed(r.sys.world)
  {
  }

  lemma TodoIsConfigured(w0: World, c: Config, r: Point)
    requires Pending(w0, c, r)
    ensures forall n :: n in r.todo ==> n in c.projects
  {
  }

  lemma ItFits(w0: World, c: Config, r: Point)
    requires Under(w0, c, r) && Calm(w0, c, r) && IsTornDown(w0, c, r)
    ensures Fits(r.sys.world, c)
    ensures forall n :: n in r.todo && !KeepsRoute(w0, c, n) ==> NobodyServes(r.sys.world, n)
  {
    var w := r.sys.world;
    TodoIsConfigured(w0, c, r);
    hide Under, Calm, IsTornDown, KeepsRoute;
    forall sw | sw in w.serving
      ensures var v := w.serving[sw];
        if v.entry == None then v.project.name in c.projects && SameRoute(v.project, c.projects[v.project.name])
        else v.project.name !in c.projects
      ensures w.serving[sw].project.name in r.todo ==> KeepsRoute(w0, c, w.serving[sw].project.name)
    {
      assert Conserved(r.sys) by { UnderConserves(w0, c, r); }
      HolderOf(r.sys, sw);
      if w.objects[w.serving[sw].id].dynamic {
        DynamicIsNot(w0, c, r, w.serving[sw].id);
      } else {
        StaticIsConfigured(w0, c, r, w.serving[sw].id);
      }
    }
  }

  lemma EntriesItFits(w0: World, c: Config, r: Point)
    requires EntriesHeld(w0, c, r) && EntriesWanted(w0, c, r) && r.closing == {}
    ensures EntriesFit(r.sys.world, c)
  {
  }

  lemma FullIsWired(w: World)
    requires Linked(w) && forall a :: a in w.listeners ==> IsFull(w, a)
    ensures Wired(w)
  {
    forall a | a in w.listeners
      ensures ListenerOk(w.listeners[a], w.serving, Members(w.serving, a))
    {
      assert IsFull(w, a) && LinkOk(w.listeners[a], w.serving, Members(w.serving, a));
    }
  }

  lemma WiredIsFull(w: World, a: Address)
    requires ListenersOk(w)
    ensures IsFull(w, a)
  {
    if a in w.listeners {
      assert ListenerOk(w.listeners[a], w.serving, Members(w.serving, a));
    }
  }

  lemma WiredAgain(w0: World, c: Config, r: Point)
    requires Under(w0, c, r) && TablesFull(r) && r.closing == {}
    ensures Wired(r.sys.world)
  {
    UnderConserves(w0, c, r);
    hide Under, IsFull;
    FullIsWired(r.sys.world);
  }

  /** A project that is commissioned on a fresh route finds room. */
  lemma PutFindsRoom(w0: World, c: Config, r: Point, p: Project, tracker: nat)
    requires Loaded(c) && Under(w0, c, r) && Calm(w0, c, r) && OwnEnabled(w0, c, r, Put(p, tracker))
    ensures Wired(r.sys.world) && Room(r.sys.world, p, None)
  {
    ItFits(w0, c, r);
    EntriesItFits(w0, c, r);
    WiredAgain(w0, c, r);
    hide Under, Calm, IsTornDown, Loaded, Wired, Fits, EntriesFit, KeepsRoute;
    RoomFor(r.sys.world, c, p.name);
  }

  // ---- Routers ----

  lemma FullFrame(w: World, v: World, a: Address)
    requires IsFull(w, a) && a in w.listeners && (a in v.listeners ==> v.listeners[a] == w.listeners[a])
    requires Members(v.serving, a) == Members(w.serving, a)
    requires forall sw :: sw in Members(w.serving, a) ==> sw in v.serving && v.serving[sw] == w.serving[sw]
    ensures IsFull(v, a)
  {
  }

  lemma LeftFull(w: World, id: nat, a: Address)
    requires HoldsRoute(w, id) && !w.objects[id].retired && ServedOk(w, w.objects[id].sw)
    requires ListenAddr(w.objects[id].project) in w.listeners && a in w.listeners
    requires ListenerOk(w.listeners[a], w.serving, Members(w.serving, a))
    ensures IsFull(Retired(w, id, false), a)
  {
    var sw := w.objects[id].sw;
    DetachedServed(w, sw);
    MembersAfterRemove(w.serving, sw, a);
    hide ServedOk;
    if a == ListenAddr(w.serving[sw].project) {
      UnroutedOk(w.listeners[a], w.serving, Members(w.serving, a), sw);
    } else {
      TableFrame(w.listeners[a], w.serving, w.serving - {sw}, Members(w.serving, a));
    }
  }

  /** Who leaves a full router leaves the others routed. */
  lemma FullLeft(s: Sys, id: nat, a: Address)
    requires Conserved(s) && HoldsRoute(s.world, id) && !s.world.objects[id].retired && a in s.world.listeners && IsFull(s.world, a)
    ensures IsFull(Retired(s.world, id, false), a)
  {
    var w, sw := s.world, s.world.objects[id].sw;
    HolderIs(s, id);
    ConservedIsLinked(s);
    assert LinkOk(w.listeners[a], w.serving, Members(w.serving, a));
    hide Conserved, Linked;
    LeftFull(w, id, a);
  }

  lemma FullRetired(s: Sys, id: nat, keep: bool, a: Address)
    requires Conserved(s) && id in s.world.objects && a in s.world.listeners && IsFull(s.world, a)
    ensures IsFull(Retired(s.world, id, keep), a)
  {
    var w := s.world;
    UsedOwns(s);
    hide Conserved, Retired, IsFull;
    if w.objects[id].retired {
      RetiredStays(w, id, keep);
    } else if keep {
      RetiredKept(w, id);
      FullFrame(w, Retired(w, id, keep), a);
    } else {
      assert InUse(s, id);
      if HoldsRoute(w, id) {
        FullLeft(s, id, a);
      } else {
        OffMarked(w, id);
        FullFrame(w, Retired(w, id, keep), a);
      }
    }
  }

  lemma FullUnbound(w: World, m: string, a: Address)
    requires m in w.entries && a in w.listeners && IsFull(w, a)
    ensures IsFull(EntryUnbound(w, m), a)
  {
    if a != EntryAddr(w.entries[m].entry) {
      MembersElsewhere(w.serving, EntryAddr(w.entries[m].entry), a);
      FullFrame(w, EntryUnbound(w, m), a);
    }
  }

  lemma SurvivesIfBound(w0: World, c: Config, r: Point, es: EntryState)
    requires EntriesHeld(w0, c, r) && IsBound(r.sys.world, es) && es.entry.name !in r.closing
    ensures Survives(w0, c, es)
  {
  }

  lemma HostIsWorktrees(w0: World, c: Config, r: Point, es: EntryState, p: Project, sw: nat)
    requires Under(w0, c, r) && Survives(w0, c, es) && IsBound(r.sys.world, es) && p.name !in c.projects && IsWorktree(es.entry, p)
    requires sw in r.sys.world.serving && r.sys.world.serving[sw].entry == Some(es.id) && r.sys.world.serving[sw].project.host == p.host
    ensures p.name in r.sys.world.states
  {
    UnderConserves(w0, c, r);
    HolderOf(r.sys, sw);
    WorktreeNamed(r.sys.world, es, sw);
    HostsDiffer(es.entry, r.sys.world.serving[sw].project.name, p.name);
    hide Conserved, NamesHeld, EntriesHeld, HostsNamed, Survives, Linked;
    StayListed(w0, c, r, es, r.sys.world.serving[sw].id);
  }

  /** A worktree of an entry that does not go finds its hostname free. */
  lemma AskFindsRoom(w0: World, c: Config, r: Point, es: EntryState, p: Project)
    requires Under(w0, c, r) && MayAsk(r.sys.world, es, p) && p.name !in c.projects
    requires IsBound(r.sys.world, es) && es.entry.name !in r.closing
    ensures Room(r.sys.world, p, Some(es.id))
  {
    var w, a := r.sys.world, ListenAddr(p);
    SurvivesIfBound(w0, c, r, es);
    UnderConserves(w0, c, r);
    assert EntryOk(w, es.entry.name) && LinkOk(w.listeners[a], w.serving, Members(w.serving, a));
    var l := w.listeners[a];
    hide Conserved, NamesHeld, EntriesHeld, NoStrays, HostsNamed, StaticSwaps, Survives, WasNumbered, Linked;
    if p.host in l.hosts {
      HostIsWorktrees(w0, c, r, es, p, l.hosts[p.host]);
    }
    forall sw | sw in Members(w.serving, a)
      ensures w.serving[sw].project.host != ""
    {
      WorktreeNamed(w, es, sw);
    }
  }

  lemma JoinsFull(w: World, q: Served, a: Address)
    requires w.nextId !in w.serving && a in w.listeners && a == ListenAddr(q.project)
    requires Room(w, q.project, q.entry) && ListenerOk(w.listeners[a], w.serving, Members(w.serving, a))
    ensures var l, serving := Routing.Routed(w.listeners[a].(members := w.listeners[a].members + 1), q.project.host, w.nextId), w.serving[w.nextId := q];
      Members(serving, a) <= serving.Keys && TableOk(l, serving, Members(serving, a))
  {
    MembersAfterAdd(w.serving, w.nextId, q, a);
    RoutedOk(w.listeners[a], w.serving, Members(w.serving, a), w.nextId, q);
  }

  lemma JoinedFull(w: World, p: Project, tracker: nat, entry: Option<nat>, a: Address)
    requires w.nextId !in w.serving && Room(w, p, entry) && a in w.listeners
    requires ListenerOk(w.listeners[a], w.serving, Members(w.serving, a))
    ensures IsFull(Commissioned(w, p, tracker, entry, None), a)
  {
    var q, v := Served(w.nextId, p, entry), Commissioned(w, p, tracker, entry, None);
    assert v.serving == w.serving[w.nextId := q];
    if a == ListenAddr(p) {
      JoinsFull(w, q, a);
      assert v.listeners[a] == Routing.Routed(w.listeners[a].(members := w.listeners[a].members + 1), p.host, w.nextId);
      hide Commissioned, Room, ListenerOk;
    } else {
      assert v.listeners[a] == w.listeners[a];
      hide Commissioned, Room;
      MembersAfterAdd(w.serving, w.nextId, q, a);
      TableFrame(w.listeners[a], w.serving, w.serving[w.nextId := q], Members(w.serving, a));
    }
  }

  /** A project that finds room joins a full router, and leaves the others alone. */
  lemma FullJoined(s: Sys, p: Project, tracker: nat, entry: Option<nat>, a: Address)
    requires Conserved(s) && Room(s.world, p, entry) && IsFull(s.world, a) && a in s.world.listeners
    ensures IsFull(Commissioned(s.world, p, tracker, entry, None), a)
  {
    var w := s.world;
    UnusedSwitch(w);
    ConservedIsLinked(s);
    assert LinkOk(w.listeners[a], w.serving, Members(w.serving, a));
    hide Conserved, Linked, ServingOk, LinksOk;
    JoinedFull(w, p, tracker, entry, a);
  }

  lemma SameFull(w: World, v: World, a: Address)
    requires IsFull(w, a) && v.listeners == w.listeners && v.serving == w.serving
    ensures IsFull(v, a)
  {
  }

  lemma RoutesStay(s: Sys, op: Op)
    requires Enabled(s, op) && (op.Claim? || op.Collect? || op.Forget? || (op.Ask? && !IsBound(s.world, op.es)))
    ensures Apply(s, op).world.listeners == s.world.listeners && Apply(s, op).world.serving == s.world.serving
  {
  }

  lemma SwapTables(w0: World, c: Config, r: Point, p: Project, tracker: nat, id: nat, a: Address)
    requires Under(w0, c, r) && TablesFull(r) && r.closing == {} && IsReplacement(r.sys, p, id)
    ensures IsFull(Replaced(r.sys.world, p, tracker, id), a)
  {
    WiredAgain(w0, c, r);
    UnderConserves(w0, c, r);
    hide Under, Conserved, Wired;
    TidySwap(r.sys, p, tracker, id);
    WiredIsFull(Replaced(r.sys.world, p, tracker, id), a);
  }

  lemma PutTables(w0: World, c: Config, r: Point, p: Project, tracker: nat, a: Address)
    requires Loaded(c) && Under(w0, c, r) && Calm(w0, c, r) && OwnEnabled(w0, c, r, Put(p, tracker))
    ensures IsFull(Commissioned(r.sys.world, p, tracker, None, None), a)
  {
    PutFindsRoom(w0, c, r, p, tracker);
    hide Under, Calm, Wired, OwnEnabled, Room;
    TidyJoin(r.sys.world, p, tracker, None);
    WiredIsFull(Commissioned(r.sys.world, p, tracker, None, None), a);
  }

  lemma BindTables(w0: World, c: Config, r: Point, e: Entry, a: Address)
    requires Under(w0, c, r) && TablesFull(r) && r.closing == {} && EntryAddr(e) !in r.sys.world.listeners
    ensures IsFull(EntryBound(r.sys.world, e), a)
  {
    WiredAgain(w0, c, r);
    WiringOf(r.sys.world);
    hide Under, Wired;
    EntryBoundListeners(r.sys.world, e);
    WiredIsFull(EntryBound(r.sys.world, e), a);
  }

  lemma AskedAside(w: World, es: EntryState, p: Project, tracker: nat, a: Address)
    requires IsBound(w, es) && a in w.listeners && IsFull(w, a) && a != ListenAddr(p) && ServingOk(w)
    ensures IsFull(RegisteredFor(w, es, p, tracker), a)
  {
    var q, v := Served(w.nextId, p, Some(es.id)), RegisteredFor(w, es, p, tracker);
    UnusedSwitch(w);
    MembersAfterAdd(w.serving, w.nextId, q, a);
    assert v.serving == w.serving[w.nextId := q] && v.listeners[a] == w.listeners[a];
    hide RegisteredFor, ServingOk;
    FullFrame(w, v, a);
  }

  lemma AskTables(w0: World, c: Config, r: Point, es: EntryState, p: Project, tracker: nat, a: Address)
    requires Under(w0, c, r) && MayAsk(r.sys.world, es, p) && p.name !in c.projects
    requires IsBound(r.sys.world, es) && a in r.sys.world.listeners && IsFull(r.sys.world, a)
    requires es.entry.name in r.closing ==> a != ListenAddr(p)
    ensures IsFull(RegisteredFor(r.sys.world, es, p, tracker), a)
  {
    UnderConserves(w0, c, r);
    AskedInTime(r.sys.world, es, p, tracker);
    if es.entry.name !in r.closing {
      AskFindsRoom(w0, c, r, es, p);
      hide Under, Conserved, RegisteredFor, Commissioned, Room;
      FullJoined(r.sys, p, tracker, Some(es.id), a);
    } else {
      hide Under, Conserved, Linked;
      AskedAside(r.sys.world, es, p, tracker, a);
    }
  }

  lemma EntryRemains(s: Sys, op: Op, m: string, a: Address)
    requires Enabled(s, op) && m in s.world.entries && EntryAddr(s.world.entries[m].entry) == a && a in Apply(s, op).world.listeners
    ensures m in Apply(s, op).world.entries && Apply(s, op).world.entries[m] == s.world.entries[m]
    ensures op.Unbind? ==> op.name != m
  {
    if !op.Unbind? && !op.Bind? {
      EntriesStay(s, op);
      hide Apply, Enabled;
    }
  }

  /** What is closing after a step was closing before, or is closed. */
  lemma StillClosing(w0: World, c: Config, r: Point, step: Step, a: Address)
    requires Under(w0, c, r) && StepEnabled(w0, c, r, step) && IsClosing(r, a) && a in Next(w0, c, r, step).sys.world.listeners
    ensures IsClosing(Next(w0, c, r, step), a)
  {
    var m :| m in r.closing && m in r.sys.world.entries && EntryAddr(r.sys.world.entries[m].entry) == a;
    hide Under, OtherEnabled, IsTornDown;
    EntryRemains(r.sys, step.op, m, a);
    hide Apply, Enabled, OwnEnabled;
    assert m in Next(w0, c, r, step).closing;
  }

  lemma NotItsOwn(w0: World, c: Config, r: Point, es: EntryState, a: Address)
    requires IsBound(r.sys.world, es) && !IsClosing(r, a)
    ensures es.entry.name in r.closing ==> a != EntryAddr(es.entry)
  {
  }

  lemma OwnTables(w0: World, c: Config, r: Point, step: Step, a: Address)
    requires Loaded(c) && Under(w0, c, r) && Calm(w0, c, r) && StepEnabled(w0, c, r, step) && TablesFull(r)
    requires step.op.Put? || step.op.Swap? || step.op.Bind?
    ensures IsFull(Apply(r.sys, step.op).world, a)
  {
    hide Under, Calm, IsFull, Loaded, TablesFull, Commissioned, Replaced, EntryBound, IsReplacement, Joins;
    match step.op
    case Put(p, tracker) => PutTables(w0, c, r, p, tracker, a);
    case Swap(p, tracker, id) => SwapTables(w0, c, r, p, tracker, id, a);
    case Bind(e) => BindTables(w0, c, r, e, a);
  }

  lemma AskIs(s: Sys, op: Op)
    requires Enabled(s, op) && op.Ask?
    ensures MayAsk(s.world, op.es, op.project) && ListenAddr(op.project) == EntryAddr(op.es.entry)
    ensures Apply(s, op).world == RegisteredFor(s.world, op.es, op.project, op.tracker)
  {
  }

  lemma AskedTables(w0: World, c: Config, r: Point, step: Step, a: Address)
    requires Under(w0, c, r) && Enabled(r.sys, step.op) && LeavesNames(c, step) && step.op.Ask?
    requires a in r.sys.world.listeners && IsFull(r.sys.world, a) && !IsClosing(r, a)
    ensures IsFull(Apply(r.sys, step.op).world, a)
  {
    var es, p := step.op.es, step.op.project;
    AskIs(r.sys, step.op);
    hide Under, IsFull, RegisteredFor, IsClosing, IsBound;
    if IsBound(r.sys.world, es) {
      hide Apply, Enabled;
      NotItsOwn(w0, c, r, es, a);
      AskTables(w0, c, r, es, p, step.op.tracker, a);
    } else {
      RoutesStay(r.sys, step.op);
      hide Apply, Enabled;
      SameFull(r.sys.world, Apply(r.sys, step.op).world, a);
    }
  }

  lemma OtherTables(s: Sys, op: Op, a: Address)
    requires Conserved(s) && Enabled(s, op) && !op.Put? && !op.Swap? && !op.Bind? && !op.Ask?
    requires a in s.world.listeners && IsFull(s.world, a)
    ensures IsFull(Apply(s, op).world, a)
  {
    hide Conserved, IsFull, Retired, EntryUnbound;
    if op.Unbind? {
      FullUnbound(s.world, op.name, a);
    } else if op.Retire? {
      FullRetired(s, op.id, op.keep, a);
    } else {
      RoutesStay(s, op);
      SameFull(s.world, Apply(s, op).world, a);
    }
  }

  lemma TablesAre(w0: World, c: Config, r: Point)
    requires Calm(w0, c, r)
    ensures TablesFull(r)
  {
  }

  lemma TableStep(w0: World, c: Config, r: Point, step: Step, a: Address)
    requires Loaded(c) && Under(w0, c, r) && Calm(w0, c, r) && StepEnabled(w0, c, r, step) && LeavesNames(c, step)
    requires a in r.sys.world.listeners && IsFull(r.sys.world, a) && !IsClosing(r, a)
    ensures IsFull(Apply(r.sys, step.op).world, a)
  {
    var s := r.sys;
    UnderConserves(w0, c, r);
    TablesAre(w0, c, r);
    hide Under, Calm, IsFull, Conserved, Loaded, Linked, HostsNamed, TablesFull, IsClosing;
    if step.op.Put? || step.op.Swap? || step.op.Bind? {
      OwnTables(w0, c, r, step, a);
    } else if step.op.Ask? {
      AskedTables(w0, c, r, step, a);
    } else {
      hide OwnEnabled, OtherEnabled;
      OtherTables(s, step.op, a);
    }
  }

  lemma AskOpensNone(w: World, es: EntryState, p: Project, tracker: nat, a: Address)
    requires EntriesOk(w) && MayAsk(w, es, p)
    ensures a in RegisteredFor(w, es, p, tracker).listeners ==> a in w.listeners
  {
    assert IsBound(w, es) ==> EntryOk(w, es.entry.name);
  }

  lemma RetireOpensNone(w: World, id: nat, keep: bool, a: Address)
    requires id in w.objects
    ensures a in Retired(w, id, keep).listeners ==> a in w.listeners
  {
  }

  /** Only a reload opens a listener. */
  lemma OpensListener(s: Sys, op: Op, a: Address)
    requires Conserved(s) && Enabled(s, op)
    ensures a in Apply(s, op).world.listeners ==> a in s.world.listeners || op.Put? || op.Bind?
  {
    assert EntriesOk(s.world);
    hide Conserved, Linked, Commissioned, Replaced, RegisteredFor, Retired, EntriesOk, Joins;
    match op
    case Ask(es, p, tracker) => AskOpensNone(s.world, es, p, tracker, a);
    case Swap(p, tracker, id) => RoutersStay(s, op);
    case Retire(id, keep) => RetireOpensNone(s.world, id, keep, a);
    case _ =>
  }

  lemma OpenedIsFull(w0: World, c: Config, r: Point, step: Step, a: Address)
    requires Loaded(c) && Under(w0, c, r) && Calm(w0, c, r) && StepEnabled(w0, c, r, step) && (step.op.Put? || step.op.Bind?)
    ensures IsFull(Apply(r.sys, step.op).world, a)
  {
    hide Under, Calm, IsFull, Loaded;
    if step.op.Put? {
      PutTables(w0, c, r, step.op.project, step.op.tracker, a);
    } else {
      TablesAre(w0, c, r);
      BindTables(w0, c, r, step.op.listed, a);
    }
  }

  lemma TablesStep(w0: World, c: Config, r: Point, step: Step)
    requires Loaded(c) && Under(w0, c, r) && Calm(w0, c, r) && StepEnabled(w0, c, r, step) && LeavesNames(c, step)
    ensures TablesFull(Next(w0, c, r, step))
  {
    var q := Next(w0, c, r, step);
    UnderConserves(w0, c, r);
    hide Under, Pending, AllConfigured, StaticsListed, SwapsPending, KeptHold, DynamicsPending, EntriesWanted, IsFull, Conserved;
    hide Apply, Enabled, OtherEnabled, Loaded, IsClosing, Linked, HostsNamed, IsTornDown;
    forall a | a in q.sys.world.listeners && !IsClosing(q, a)
      ensures IsFull(q.sys.world, a)
    {
      if a in r.sys.world.listeners {
        if IsClosing(r, a) {
          StillClosing(w0, c, r, step, a);
        }
        TableStep(w0, c, r, step, a);
      } else {
        OpensListener(r.sys, step.op, a);
        OpenedIsFull(w0, c, r, step, a);
      }
    }
  }

  lemma StepCalm(w0: World, c: Config, r: Point, step: Step)
    requires Loaded(c) && Under(w0, c, r) && Calm(w0, c, r) && StepEnabled(w0, c, r, step) && LeavesNames(c, step)
    ensures Calm(w0, c, Next(w0, c, r, step))
  {
    PendingStep(w0, c, r, step);
    ConfiguredStep(w0, c, r, step);
    StaticsStep(w0, c, r, step);
    SwapsPendingStep(w0, c, r, step);
    KeptHoldStep(w0, c, r, step);
    DynamicsStep(w0, c, r, step);
    WantedStep(w0, c, r, step);
    TablesStep(w0, c, r, step);
    hide Pending, AllConfigured, StaticsListed, SwapsPending, KeptHold, DynamicsPending, TablesFull, EntriesWanted, Under, StepEnabled, Next;
  }

  predicate AllLeaveNames(c: Config, steps: seq<Step>) {
    forall step :: step in steps ==> LeavesNames(c, step)
  }

  lemma {:induction false} RunCalm(w0: World, c: Config, r: Point, steps: seq<Step>)
    requires Loaded(c) && Under(w0, c, r) && Calm(w0, c, r) && CanRun(w0, c, r, steps) && AllLeaveNames(c, steps)
    ensures var q := Run(w0, c, r, steps); Under(w0, c, q) && Calm(w0, c, q)
    decreases |steps|
  {
    if steps != [] {
      StepUnder(w0, c, r, steps[0]);
      StepCalm(w0, c, r, steps[0]);
      hide Under, Calm, StepEnabled, Next, Loaded, LeavesNames;
      RunCalm(w0, c, Next(w0, c, r, steps[0]), steps[1..]);
    }
  }

  // ---- The end ----

  lemma NobodySwaps(w0: World, c: Config, r: Point)
    requires SwapsPending(w0, c, r) && r.todo == {}
    ensures r.sys.swapping == {}
  {
  }

  lemma OffIsDynamicRow(w0: World, c: Config, r: Point, n: string)
    requires Calm(w0, c, r) && Ends(w0, c, r) && n in r.sys.world.states && r.sys.world.states[n] in r.sys.world.objects
    requires !HoldsRoute(r.sys.world, r.sys.world.states[n])
    ensures r.sys.world.objects[r.sys.world.states[n]].dynamic
  {
    assert n in c.projects ==> IsPlaced(r.sys, n, c.projects[n]);
  }

  lemma RowIsPlaced(w0: World, c: Config, r: Point, n: string)
    requires Under(w0, c, r) && Calm(w0, c, r) && Ends(w0, c, r) && n in r.sys.world.states
    ensures Placed(r.sys.world, n)
  {
    var s, id := r.sys, r.sys.world.states[n];
    assert RowsOwn(s.world) && Owning(s.world, id);
    NobodySwaps(w0, c, r);
    if HoldsRoute(s.world, id) {
      HolderIs(s, id);
      assert InUse(s, id) && Switched(s);
    } else {
      OffIsDynamicRow(w0, c, r, n);
      assert Numbered(s);
    }
  }

  lemma EndsRegistered(w0: World, c: Config, r: Point)
    requires Under(w0, c, r) && Calm(w0, c, r) && Ends(w0, c, r)
    ensures Registered(r.sys.world)
  {
    var w := r.sys.world;
    UnderConserves(w0, c, r);
    NobodySwaps(w0, c, r);
    hide Under, Calm, IsTornDown, Conserved, Linked, HostsNamed;
    forall sw | sw in w.serving
      ensures var v := w.serving[sw]; v.project.name in w.states && w.states[v.project.name] == v.id
    {
      HolderOf(r.sys, sw);
      var id := w.serving[sw].id;
      if w.objects[id].dynamic {
        DynamicIsNot(w0, c, r, id);
      } else {
        StaticIsConfigured(w0, c, r, id);
      }
    }
  }

  lemma NobodyStrays(w0: World, c: Config, r: Point, id: nat)
    requires Under(w0, c, r) && Calm(w0, c, r) && Ends(w0, c, r) && id in r.sys.world.objects && !r.sys.world.objects[id].retired
    ensures Listed(r.sys.world, id)
  {
    hide Conserved, HostsNamed, TablesFull, AllConfigured, KeptHold, EntriesWanted;
  }

  lemma EndsLost(w0: World, c: Config, r: Point)
    requires Under(w0, c, r) && Calm(w0, c, r) && Ends(w0, c, r)
    ensures NoneLost(r.sys.world)
  {
    var w := r.sys.world;
    hide Under, Calm;
    forall id | id in w.objects && !w.objects[id].retired
      ensures Listed(w, id)
    {
      assert InUse(r.sys, id);
      NobodyStrays(w0, c, r, id);
    }
  }

  lemma AllBound(w0: World, c: Config, r: Point)
    requires Ends(w0, c, r) && EntriesFit(r.sys.world, c)
    ensures r.sys.world.entries.Keys == Wanted(c.entries).Keys
    ensures forall m :: m in r.sys.world.entries ==> EntryStays(r.sys.world, c, m)
  {
    forall m | m in r.sys.world.entries
      ensures m in Wanted(c.entries)
    {
      assert EntryStays(r.sys.world, c, m);
    }
  }

  lemma EndsBound(w0: World, c: Config, r: Point)
    requires Under(w0, c, r) && Calm(w0, c, r) && Ends(w0, c, r)
    ensures r.sys.world.entries.Keys == Wanted(c.entries).Keys
    ensures forall m :: m in r.sys.world.entries ==> EntryStays(r.sys.world, c, m)
  {
    EntriesItFits(w0, c, r);
    hide Under, Calm, EntriesFit;
    AllBound(w0, c, r);
  }

  lemma ConfiguredIsStatic(w0: World, c: Config, r: Point, n: string)
    requires Calm(w0, c, r) && Ends(w0, c, r) && n in c.projects
    ensures IsStatic(r.sys.world, n) && At(r.sys.world, n).value.project.Equivalent(c.projects[n])
  {
    assert IsPlaced(r.sys, n, c.projects[n]);
  }

  lemma OtherIsDynamic(w0: World, c: Config, r: Point, n: string)
    requires Under(w0, c, r) && Ends(w0, c, r) && n in r.sys.world.states && n !in c.projects
    ensures IsDynamic(r.sys.world, n)
  {
    assert RowsOwn(r.sys.world);
    hide NamesHeld, EntriesHeld, NoStrays, HostsNamed, StaticSwaps, WasNumbered, Linked;
  }

  lemma EndsServing(w0: World, c: Config, r: Point)
    requires Under(w0, c, r) && Calm(w0, c, r) && Ends(w0, c, r)
    ensures Serves(r.sys.world, c)
  {
    var w := r.sys.world;
    hide Under, Calm, Ends, EntriesFit;
    EndsBound(w0, c, r);
    forall n | n in c.projects
      ensures IsStatic(w, n) && At(w, n).value.project.Equivalent(c.projects[n])
    {
      ConfiguredIsStatic(w0, c, r, n);
    }
    forall n | n in w.states && n !in c.projects
      ensures IsDynamic(w, n)
    {
      OtherIsDynamic(w0, c, r, n);
    }
  }

  lemma ItRests(w0: World, c: Config, r: Point)
    requires Under(w0, c, r) && Calm(w0, c, r) && Ends(w0, c, r)
    ensures AtRest(r.sys.world) && Serves(r.sys.world, c) && HostsNamed(r.sys.world) && Conserved(r.sys)
  {
    UnderConserves(w0, c, r);
    TablesAre(w0, c, r);
    WiredAgain(w0, c, r);
    EndsRegistered(w0, c, r);
    EndsLost(w0, c, r);
    EndsServing(w0, c, r);
    hide Under, Calm, Ends, Conserved, Serves, HostsNamed, NoneLost, Registered, Placed;
    forall n | n in r.sys.world.states
      ensures Placed(r.sys.world, n)
    {
      RowIsPlaced(w0, c, r, n);
    }
  }

  /**
   Whatever requests and drops come in between, a reload ends at rest, serving the configuration, unless
   a request registers a name of the configuration before the reload commissions it.
   */
  lemma EndsAtRest(s: Sys, c: Config, r: Point, steps: seq<Step>)
    requires Loaded(c) && Begins(s, c, r) && CanRun(s.world, c, r, steps) && AllLeaveNames(c, steps)
    requires Ends(s.world, c, Run(s.world, c, r, steps))
    ensures var q := Run(s.world, c, r, steps);
      AtRest(q.sys.world) && Serves(q.sys.world, c) && HostsNamed(q.sys.world) && Conserved(q.sys)
  {
    BeginsUnder(s, c, r);
    BeginsCalm(s, c, r);
    RunCalm(s.world, c, r, steps);
    var q := Run(s.world, c, r, steps);
    hide Under, Calm, Begins, Loaded, Ends, AtRest, Serves;
    ItRests(s.world, c, q);
  }

  // ---- Never in its own way ----

  lemma BindFindsRoom(w0: World, c: Config, r: Point, m: string)
    requires Loaded(c) && Under(w0, c, r) && Calm(w0, c, r) && IsTornDown(w0, c, r) && m in Wanted(c.entries) && m !in r.sys.world.entries
    ensures forall a :: a in r.sys.world.listeners ==> a.port != Wanted(c.entries)[m].supervisorPort
  {
    ItFits(w0, c, r);
    EntriesItFits(w0, c, r);
    WiredAgain(w0, c, r);
    hide Under, Calm, IsTornDown, Loaded, Wired, Fits, EntriesFit, Wanted;
    EntryAddressFree(r.sys.world, c, m);
  }

  lemma ProjectFindsRoom(w0: World, c: Config, r: Point, n: string)
    requires Loaded(c) && Under(w0, c, r) && Calm(w0, c, r) && IsTornDown(w0, c, r) && n in r.todo && !KeepsRoute(w0, c, n)
    ensures n in c.projects && Room(r.sys.world, c.projects[n], None)
    ensures forall a :: a in r.sys.world.listeners && a.port == c.projects[n].supervisorPort ==> a == ListenAddr(c.projects[n])
  {
    ItFits(w0, c, r);
    EntriesItFits(w0, c, r);
    WiredAgain(w0, c, r);
    TodoIsConfigured(w0, c, r);
    hide Under, Calm, IsTornDown, Loaded, Wired, Fits, EntriesFit, KeepsRoute, Room;
    RoomFor(r.sys.world, c, n);
  }

  /**
   Whatever has come in between, once everything is torn down each project still to be attached finds
   room at its address and no other listener on its port, and each entry still to be bound finds its
   port free.
   */
  lemma NeverInItsOwnWay(s: Sys, c: Config, r: Point, steps: seq<Step>)
    requires Loaded(c) && Begins(s, c, r) && CanRun(s.world, c, r, steps) && AllLeaveNames(c, steps)
    requires IsTornDown(s.world, c, Run(s.world, c, r, steps))
    ensures var q := Run(s.world, c, r, steps); var w := q.sys.world;
      && (forall n :: n in q.todo && !KeepsRoute(s.world, c, n) ==>
            && n in c.projects && Room(w, c.projects[n], None)
            && forall a :: a in w.listeners && a.port == c.projects[n].supervisorPort ==> a == ListenAddr(c.projects[n]))
      && (forall m :: m in Wanted(c.entries) && m !in w.entries ==>
            forall a :: a in w.listeners ==> a.port != Wanted(c.entries)[m].supervisorPort)
  {
    BeginsUnder(s, c, r);
    BeginsCalm(s, c, r);
    RunCalm(s.world, c, r, steps);
    var q := Run(s.world, c, r, steps);
    hide Under, Calm, Begins, Loaded, IsTornDown, KeepsRoute, Room, CanRun, Run, Wanted;
    forall n | n in q.todo && !KeepsRoute(s.world, c, n)
      ensures n in c.projects && Room(q.sys.world, c.projects[n], None)
      ensures forall a :: a in q.sys.world.listeners && a.port == c.projects[n].supervisorPort ==> a == ListenAddr(c.projects[n])
    {
      ProjectFindsRoom(s.world, c, q, n);
    }
    forall m | m in Wanted(c.entries) && m !in q.sys.world.entries
      ensures forall a :: a in q.sys.world.listeners ==> a.port != Wanted(c.entries)[m].supervisorPort
    {
      BindFindsRoom(s.world, c, q, m);
    }
  }
}
