/**
 A reload under way, one operation at a time, with requests and drops coming in between at any point:
 what becomes of the worktrees that are registered meanwhile.
 */
module Meanwhile {
  import opened Options
  import opened Config
  import opened Routing
  import opened Rest
  import opened Teardown
  import opened Rebuild
  import opened Linking
  import opened Dynamic
  import opened Conservation
  import opened RecordRuns

  /** Names still to be commissioned, and entries whose listeners are still to be closed. */
  datatype Point = Point(sys: Sys, todo: set<string>, closing: set<string>)

  datatype Step = Own(op: Op) | Other(op: Op)

  ghost function ToCommission(w0: World, c: Config): set<string> {
    set n | n in c.projects && !Unchanged(w0, c, n)
  }

  ghost function ToClose(w0: World, c: Config): set<string> {
    set m | m in w0.entries && !EntryStays(w0, c, m)
  }

  /** The reload has taken stock of a daemon at rest. */
  ghost predicate Begins(s: Sys, c: Config, r: Point) {
    && Conserved(s) && AtRest(s.world) && HostsNamed(s.world) && s.swapping == {} && s.leaving == {}
    && r == Point(s, ToCommission(s.world, c), ToClose(s.world, c))
  }

  /** Rows are taken off before any listener is closed: of projects gone from the configuration, and of entries that go. */
  ghost predicate MayCollect(w0: World, c: Config, r: Point, n: string) {
    var w := r.sys.world;
    && r.closing == ToClose(w0, c) && n in w.states && w.states[n] in w.objects
    && var st := w.objects[w.states[n]];
      if st.dynamic then (n in c.projects ==> n !in w0.states) && exists m :: m in ToClose(w0, c) && st.entry == Some(w0.entries[m].id)
      else n !in c.projects
  }

  /** Everything that goes is off the table, retired and closed. */
  ghost predicate IsTornDown(w0: World, c: Config, r: Point) {
    var w := r.sys.world;
    && r.closing == {}
    && (forall id :: id in r.sys.leaving && id in w.objects ==> w.objects[id].retired)
    && (forall n :: n in ToCommission(w0, c) && n in w0.states && w0.states[n] in w.objects ==> w.objects[w0.states[n]].retired)
    && (forall n :: n in w.states && w.states[n] in w.objects && !w.objects[w.states[n]].dynamic ==> n in c.projects)
  }

  ghost predicate OwnEnabled(w0: World, c: Config, r: Point, op: Op) {
    match op
    case Collect(n) => MayCollect(w0, c, r, n)
    case Claim(n) => r.closing == ToClose(w0, c) && n in r.todo && KeepsRoute(w0, c, n)
    case Retire(id, keep) =>
      || (id in r.sys.leaving && !keep)
      || exists n :: n in r.todo && n in w0.states && w0.states[n] == id && (keep <==> KeepsRoute(w0, c, n))
    case Unbind(m) => m in r.closing
    case Put(p, tracker) =>
      IsTornDown(w0, c, r) && p.name in r.todo && p.name in c.projects && p == c.projects[p.name] && !KeepsRoute(w0, c, p.name)
    case Swap(p, tracker, id) =>
      && IsTornDown(w0, c, r) && p.name in r.todo && p.name in c.projects && p == c.projects[p.name]
      && KeepsRoute(w0, c, p.name) && id == w0.states[p.name]
    case Bind(e) => IsTornDown(w0, c, r) && r.todo == {} && e.name in Wanted(c.entries) && Wanted(c.entries)[e.name] == e
    case _ => false
  }

  /** A request may come for an entry of before, or of now; a drop concerns a project of an entry. */
  ghost predicate OtherEnabled(w0: World, r: Point, op: Op) {
    var w := r.sys.world;
    match op
    case Ask(es, p, tracker) => IsBound(w, es) || es.id < w0.nextId
    case Retire(id, keep) => !keep && id in w.objects && w.objects[id].dynamic
    case Forget(id) => id in w.objects && w.objects[id].dynamic
    case _ => false
  }

  ghost predicate StepEnabled(w0: World, c: Config, r: Point, step: Step) {
    && Enabled(r.sys, step.op)
    && match step
       case Own(op) => OwnEnabled(w0, c, r, op)
       case Other(op) => OtherEnabled(w0, r, op)
  }

  ghost function Next(w0: World, c: Config, r: Point, step: Step): Point
    requires StepEnabled(w0, c, r, step)
  {
    Point(Apply(r.sys, step.op),
          if step.op.Put? || step.op.Swap? then r.todo - {step.op.project.name} else r.todo,
          if step.op.Unbind? then r.closing - {step.op.name} else r.closing)
  }

  ghost predicate CanRun(w0: World, c: Config, r: Point, steps: seq<Step>)
    decreases |steps|
  {
    steps == [] || (StepEnabled(w0, c, r, steps[0]) && CanRun(w0, c, Next(w0, c, r, steps[0]), steps[1..]))
  }

  ghost function Run(w0: World, c: Config, r: Point, steps: seq<Step>): Point
    requires CanRun(w0, c, r, steps)
    decreases |steps|
  {
    if steps == [] then r else Run(w0, c, Next(w0, c, r, steps[0]), steps[1..])
  }

  /** And everything is commissioned and bound. */
  ghost predicate Ends(w0: World, c: Config, r: Point) {
    IsTornDown(w0, c, r) && r.todo == {} && forall m :: m in Wanted(c.entries) ==> m in r.sys.world.entries
  }

  // ---- What every step keeps ----

  predicate IsStaticRow(w: World, n: string) {
    n in w.states && w.states[n] in w.objects && !w.objects[w.states[n]].dynamic
  }

  /** A name of the configuration is still to be commissioned, or its row is a configured project's. */
  ghost predicate NamesHeld(w0: World, c: Config, r: Point) {
    && r.todo <= c.projects.Keys
    && (forall n :: n in c.projects ==> n in r.todo || IsStaticRow(r.sys.world, n))
    && (forall n :: n in r.todo && IsStatic(w0, n) ==> IsStaticRow(r.sys.world, n))
  }

  /** Entries that stay are there, those that go are there until they are closed, and any other is new. */
  ghost predicate EntriesHeld(w0: World, c: Config, r: Point) {
    var entries := r.sys.world.entries;
    && r.sys.world.nextId >= w0.nextId && r.closing <= ToClose(w0, c)
    && (forall m :: EntryStays(w0, c, m) || m in r.closing ==> m in w0.entries && m in entries && entries[m] == w0.entries[m])
    && (forall m :: m in entries ==> EntryStays(w0, c, m) || m in r.closing || entries[m].id >= w0.nextId)
  }

  predicate IsEntrys(st: State, w0: World, ms: set<string>) {
    exists m :: m in ms && m in w0.entries && st.entry == Some(w0.entries[m].id)
  }

  /** No project of an entry strays from the table, unless its name is the configuration's, or a reload has its entry on the list. */
  ghost predicate NoStrays(w0: World, c: Config, r: Point) {
    var w := r.sys.world;
    && (forall id :: id in w.objects && !w.objects[id].retired && w.objects[id].dynamic && w.objects[id].project.name !in c.projects ==>
          Listed(w, id) || id in r.sys.leaving)
    && (forall id :: id in r.sys.leaving && id in w.objects && w.objects[id].dynamic ==> IsEntrys(w.objects[id], w0, ToClose(w0, c)))
  }

  ghost predicate WasNumbered(w0: World) {
    && (forall m :: m in w0.entries ==> w0.entries[m].id < w0.nextId)
    && (forall m, k :: m in w0.entries && k in w0.entries && m != k ==> w0.entries[m].id != w0.entries[k].id)
    && (forall n :: n in w0.states ==> w0.states[n] < w0.nextId)
    && (forall n :: n in w0.states ==> w0.states[n] in w0.objects && w0.objects[w0.states[n]].project.name == n)
  }

  ghost predicate Under(w0: World, c: Config, r: Point) {
    && Conserved(r.sys) && NamesHeld(w0, c, r) && StaticSwaps(r.sys) && EntriesHeld(w0, c, r) && NoStrays(w0, c, r)
    && HostsNamed(r.sys.world) && WasNumbered(w0)
  }

  lemma NoneStray(s: Sys, c: Config, r: Point)
    requires NoneLost(s.world) && s.leaving == {} && r.sys == s
    ensures NoStrays(s.world, c, r)
  {
  }

  lemma BeginsUnder(s: Sys, c: Config, r: Point)
    requires Begins(s, c, r) && Loaded(c)
    ensures Under(s.world, c, r)
  {
    var w := s.world;
    forall n | n in c.projects && n !in r.todo
      ensures IsStaticRow(w, n)
    {
      assert Unchanged(w, c, n);
    }
    forall m | m in r.closing || EntryStays(w, c, m)
      ensures m in w.entries
    {
    }
    assert NoStrays(w, c, r) by { NoneStray(s, c, r); }
    forall m | m in w.entries
      ensures w.entries[m].id < w.nextId
    {
      assert EntryOk(w, m);
    }
    forall n | n in w.states
      ensures w.states[n] < w.nextId
    {
      assert w.states[n] in w.objects;
    }
  }

  // ---- Rows ----

  /** v's rows are w's, or fewer, and no record has changed its owner. */
  ghost predicate SameOwners(w: World, v: World) {
    && v.states == w.states
    && forall id :: id in w.objects ==> id in v.objects && v.objects[id].dynamic == w.objects[id].dynamic
  }

  lemma OwnersStay(s: Sys, op: Op)
    requires Enabled(s, op) && (op.Claim? || op.Bind? || op.Unbind? || op.Retire?)
    ensures SameOwners(s.world, Apply(s, op).world)
  {
  }

  lemma NamesSame(w0: World, c: Config, r: Point, q: Point)
    requires NamesHeld(w0, c, r) && SameOwners(r.sys.world, q.sys.world) && q.todo == r.todo
    ensures NamesHeld(w0, c, q)
  {
  }

  lemma NamesAsked(w0: World, c: Config, r: Point, q: Point, name: string)
    requires NamesHeld(w0, c, r) && OneMore(r.sys.world, q.sys.world, name) && q.todo == r.todo && name !in r.sys.world.states
    ensures NamesHeld(w0, c, q)
  {
  }

  lemma NamesDone(w0: World, c: Config, r: Point, q: Point, name: string)
    requires NamesHeld(w0, c, r) && OneMore(r.sys.world, q.sys.world, name) && q.todo == r.todo - {name}
    requires r.sys.world.nextId in q.sys.world.objects && !q.sys.world.objects[r.sys.world.nextId].dynamic
    ensures NamesHeld(w0, c, q)
  {
  }

  lemma NamesFewer(w0: World, c: Config, r: Point, q: Point, n: string)
    requires NamesHeld(w0, c, r) && q.todo == r.todo && q.sys.world.objects == r.sys.world.objects
    requires q.sys.world.states == r.sys.world.states - {n} && (n in c.projects ==> !IsStaticRow(r.sys.world, n))
    ensures NamesHeld(w0, c, q)
  {
  }

  /** A new record of the configuration is nobody's but its own. */
  lemma PutIsStatic(w: World, p: Project, tracker: nat)
    ensures var v := Commissioned(w, p, tracker, None, None);
      w.nextId in v.objects && !v.objects[w.nextId].dynamic && !v.objects[w.nextId].retired
  {
  }

  lemma SwapIsStatic(w: World, p: Project, tracker: nat, id: nat)
    requires id in w.objects && (w.objects[id].dynamic <==> w.objects[id].entry.Some?) && !w.objects[id].dynamic
    ensures var v := Replaced(w, p, tracker, id);
      w.nextId in v.objects && !v.objects[w.nextId].dynamic && !v.objects[w.nextId].retired
  {
  }

  lemma SwapsStatic(s: Sys, p: Project, tracker: nat, id: nat)
    requires Conserved(s) && StaticSwaps(s) && IsReplacement(s, p, id)
    ensures var v := Replaced(s.world, p, tracker, id);
      s.world.nextId in v.objects && !v.objects[s.world.nextId].dynamic && !v.objects[s.world.nextId].retired
  {
    SwapIsStatic(s.world, p, tracker, id);
  }

  lemma NamesNone(w0: World, c: Config, r: Point, q: Point)
    requires NamesHeld(w0, c, r) && q.sys.world == r.sys.world && q.todo == r.todo
    ensures NamesHeld(w0, c, q)
  {
  }

  lemma NamesCommissioned(w0: World, c: Config, r: Point, step: Step)
    requires Conserved(r.sys) && NamesHeld(w0, c, r) && StaticSwaps(r.sys) && StepEnabled(w0, c, r, step) && (step.op.Put? || step.op.Swap?)
    ensures NamesHeld(w0, c, Next(w0, c, r, step))
  {
    var s, q, p := r.sys, Next(w0, c, r, step), step.op.project;
    UnusedSwitch(s.world);
    hide Conserved, NamesHeld, Commissioned, Replaced, Joins, OneMore, OwnEnabled;
    if step.op.Put? {
      JoinIsOneMore(s.world, p, step.op.tracker, None);
      PutIsStatic(s.world, p, step.op.tracker);
    } else {
      SwapIsOneMore(s.world, p, step.op.tracker, step.op.id);
      SwapsStatic(s, p, step.op.tracker, step.op.id);
    }
    NamesDone(w0, c, r, q, p.name);
  }

  lemma NamesUnlisted(w0: World, c: Config, r: Point, step: Step)
    requires NamesHeld(w0, c, r) && StepEnabled(w0, c, r, step) && (step.op.Collect? || step.op.Forget?)
    ensures NamesHeld(w0, c, Next(w0, c, r, step))
  {
    var s, q := r.sys, Next(w0, c, r, step);
    hide NamesHeld;
    if step.op.Collect? {
      NamesFewer(w0, c, r, q, step.op.name);
    } else {
      var id := step.op.id;
      var n := s.world.objects[id].project.name;
      if n in s.world.states && s.world.states[n] == id {
        NamesFewer(w0, c, r, q, n);
      } else {
        NamesNone(w0, c, r, q);
      }
    }
  }

  lemma NamesStep(w0: World, c: Config, r: Point, step: Step)
    requires Under(w0, c, r) && StepEnabled(w0, c, r, step)
    ensures NamesHeld(w0, c, Next(w0, c, r, step))
  {
    var s, q := r.sys, Next(w0, c, r, step);
    UnusedSwitch(s.world);
    hide Conserved, NamesHeld, EntriesHeld, NoStrays, HostsNamed, WasNumbered, Commissioned, Replaced, RegisteredFor, Joins, OneMore;
    if step.op.Put? || step.op.Swap? {
      NamesCommissioned(w0, c, r, step);
    } else if step.op.Ask? {
      AskIsOneMore(s.world, step.op.es, step.op.project, step.op.tracker);
      NamesAsked(w0, c, r, q, step.op.project.name);
    } else if step.op.Collect? || step.op.Forget? {
      NamesUnlisted(w0, c, r, step);
    } else {
      hide OwnEnabled, OtherEnabled, SameOwners;
      OwnersStay(s, step.op);
      hide Apply, Enabled;
      NamesSame(w0, c, r, q);
    }
  }

  // ---- Swaps, entries, strays, hostnames ----

  lemma FlagsStay(s: Sys, op: Op, id: nat)
    requires Enabled(s, op) && id in s.world.objects && s.world.nextId !in s.world.objects
    ensures id in Apply(s, op).world.objects
    ensures Apply(s, op).world.objects[id].dynamic == s.world.objects[id].dynamic
    ensures Apply(s, op).world.objects[id].project == s.world.objects[id].project
    ensures Apply(s, op).world.objects[id].entry == s.world.objects[id].entry
    ensures Apply(s, op).world.objects[id].sw == s.world.objects[id].sw
  {
    hide Commissioned, Replaced, RegisteredFor, Joins, OneMore;
    match op
    case Put(p, tracker) =>
      JoinIsOneMore(s.world, p, tracker, None);
      OneMoreStays(s.world, Apply(s, op).world, p.name, id);
    case Swap(p, tracker, prev) =>
      SwapIsOneMore(s.world, p, tracker, prev);
      OneMoreStays(s.world, Apply(s, op).world, p.name, id);
    case Ask(es, p, tracker) =>
      AskIsOneMore(s.world, es, p, tracker);
      OneMoreStays(s.world, Apply(s, op).world, p.name, id);
    case _ =>
  }

  lemma SwapFrom(w0: World, c: Config, r: Point, step: Step, id: nat)
    requires Numbered(r.sys) && NamesHeld(w0, c, r) && StaticSwaps(r.sys) && StepEnabled(w0, c, r, step) && id in Next(w0, c, r, step).sys.swapping
    ensures id in r.sys.world.objects && !r.sys.world.objects[id].dynamic
  {
  }

  lemma SwapsStep(w0: World, c: Config, r: Point, step: Step)
    requires Under(w0, c, r) && StepEnabled(w0, c, r, step)
    ensures StaticSwaps(Next(w0, c, r, step).sys)
  {
    var s, t := r.sys, Next(w0, c, r, step).sys;
    UnusedSwitch(s.world);
    assert Numbered(s) && NamesHeld(w0, c, r);
    hide Conserved, EntriesHeld, NoStrays, HostsNamed;
    forall id | id in t.swapping
      ensures id in t.world.objects && !t.world.objects[id].dynamic
    {
      SwapFrom(w0, c, r, step, id);
      FlagsStay(s, step.op, id);
    }
  }

  lemma EntriesStay(s: Sys, op: Op)
    requires Enabled(s, op) && !op.Bind? && !op.Unbind?
    ensures Apply(s, op).world.entries == s.world.entries
  {
  }

  lemma EntriesSame(w0: World, c: Config, r: Point, q: Point)
    requires EntriesHeld(w0, c, r) && q.sys.world.entries == r.sys.world.entries && q.closing == r.closing
    requires q.sys.world.nextId >= r.sys.world.nextId
    ensures EntriesHeld(w0, c, q)
  {
  }

  lemma EntriesBound(w0: World, c: Config, r: Point, q: Point, e: Entry)
    requires EntriesHeld(w0, c, r) && e.name !in r.sys.world.entries && q.closing == r.closing && q.sys.world == EntryBound(r.sys.world, e)
    ensures EntriesHeld(w0, c, q)
  {
  }

  lemma EntriesUnbound(w0: World, c: Config, r: Point, q: Point, m: string)
    requires EntriesHeld(w0, c, r) && m in r.closing && m in r.sys.world.entries
    requires q.closing == r.closing - {m} && q.sys.world == EntryUnbound(r.sys.world, m)
    ensures EntriesHeld(w0, c, q)
  {
  }

  lemma EntriesStep(w0: World, c: Config, r: Point, step: Step)
    requires Under(w0, c, r) && StepEnabled(w0, c, r, step)
    ensures EntriesHeld(w0, c, Next(w0, c, r, step))
  {
    var q := Next(w0, c, r, step);
    NumbersGrow(r.sys, step.op);
    hide Conserved, NamesHeld, NoStrays, HostsNamed, StaticSwaps, EntriesHeld, EntryBound, EntryUnbound;
    if step.op.Bind? {
      EntriesBound(w0, c, r, q, step.op.listed);
    } else if step.op.Unbind? {
      EntriesUnbound(w0, c, r, q, step.op.name);
    } else {
      EntriesStay(r.sys, step.op);
      hide Apply, Enabled;
      EntriesSame(w0, c, r, q);
    }
  }

  /** The same record, or with its route gone, or retired. */
  predicate SameRecord(was: State, now: State) {
    now.(bind := None, retired := false) == was.(bind := None, retired := false) && (was.retired ==> now.retired)
  }

  ghost predicate SameTable(s: Sys, t: Sys) {
    && t.leaving == s.leaving && t.world.states == s.world.states
    && forall id :: id in t.world.objects ==> id in s.world.objects && SameRecord(s.world.objects[id], t.world.objects[id])
  }

  lemma StraysSame(w0: World, c: Config, r: Point, q: Point)
    requires NoStrays(w0, c, r) && SameTable(r.sys, q.sys)
    ensures NoStrays(w0, c, q)
  {
  }

  lemma StraysStays(s: Sys, op: Op)
    requires Enabled(s, op) && (op.Claim? || op.Bind? || op.Unbind? || op.Retire?)
    ensures SameTable(s, Apply(s, op))
  {
  }

  /** A new record strays from nothing; the row it takes is that of nobody, or of a name of the configuration. */
  lemma StraysMore(w0: World, c: Config, r: Point, q: Point, name: string)
    requires NoStrays(w0, c, r) && Gone(r.sys) && OneMore(r.sys.world, q.sys.world, name) && q.sys.leaving == r.sys.leaving
    requires name in c.projects || name !in r.sys.world.states
    requires r.sys.world.nextId in q.sys.world.objects && q.sys.world.objects[r.sys.world.nextId].project.name == name
    ensures NoStrays(w0, c, q)
  {
  }

  lemma StraysFewer(w0: World, c: Config, r: Point, q: Point, n: string)
    requires NoStrays(w0, c, r) && RowsOwn(r.sys.world) && n in r.sys.world.states
    requires q.sys.world == r.sys.world.(states := r.sys.world.states - {n})
    requires var id := r.sys.world.states[n]; var st := r.sys.world.objects[id];
      || (q.sys.leaving == r.sys.leaving && st.retired)
      || (q.sys.leaving == r.sys.leaving + {id} && (st.dynamic ==> IsEntrys(st, w0, ToClose(w0, c))))
    ensures NoStrays(w0, c, q)
  {
  }

  lemma NewIsThere(s: Sys, op: Op)
    requires Enabled(s, op) && (op.Put? || op.Swap? || op.Ask?)
    ensures var v := Apply(s, op).world; s.world.nextId in v.objects && v.objects[s.world.nextId].project == op.project
  {
  }

  lemma StraysNone(w0: World, c: Config, r: Point, q: Point)
    requires NoStrays(w0, c, r) && q.sys == r.sys
    ensures NoStrays(w0, c, q)
  {
  }

  lemma StraysStep(w0: World, c: Config, r: Point, step: Step)
    requires Under(w0, c, r) && StepEnabled(w0, c, r, step)
    ensures NoStrays(w0, c, Next(w0, c, r, step))
  {
    var s, q := r.sys, Next(w0, c, r, step);
    UnusedSwitch(s.world);
    assert RowsOwn(s.world) && Gone(s);
    hide Conserved, NamesHeld, EntriesHeld, NoStrays, HostsNamed, SameTable, Commissioned, Replaced, RegisteredFor, Retired,
      EntryUnbound, Joins, OneMore, RowsOwn, Gone;
    match step.op
    case Put(p, tracker) =>
      JoinIsOneMore(s.world, p, tracker, None);
      NewIsThere(s, step.op);
      StraysMore(w0, c, r, q, p.name);
    case Swap(p, tracker, id) =>
      SwapIsOneMore(s.world, p, tracker, id);
      NewIsThere(s, step.op);
      StraysMore(w0, c, r, q, p.name);
    case Ask(es, p, tracker) =>
      AskIsOneMore(s.world, es, p, tracker);
      NewIsThere(s, step.op);
      StraysMore(w0, c, r, q, p.name);
    case Collect(n) => StraysFewer(w0, c, r, q, n);
    case Forget(id) =>
      var n := s.world.objects[id].project.name;
      if n in s.world.states && s.world.states[n] == id {
        StraysFewer(w0, c, r, q, n);
      } else {
        StraysNone(w0, c, r, q);
      }
    case _ =>
      StraysStays(s, step.op);
      StraysSame(w0, c, r, q);
  }

  /** Hostnames are as worktrees have them: what is served is what was, or less, or a worktree, or nobody's. */
  lemma NamedLess(w: World, v: World)
    requires HostsNamed(w)
    requires forall sw :: sw in v.serving ==> (sw in w.serving && v.serving[sw] == w.serving[sw]) || v.serving[sw].entry == None
    requires forall m :: m in v.entries ==> m in w.entries && v.entries[m] == w.entries[m]
    ensures HostsNamed(v)
  {
  }

  lemma ServingLess(s: Sys, op: Op)
    requires Enabled(s, op) && !op.Put? && !op.Swap? && !op.Ask? && !op.Bind?
    ensures forall sw :: sw in Apply(s, op).world.serving ==> sw in s.world.serving && Apply(s, op).world.serving[sw] == s.world.serving[sw]
    ensures forall m :: m in Apply(s, op).world.entries ==> m in s.world.entries && Apply(s, op).world.entries[m] == s.world.entries[m]
  {
  }

  lemma PutServes(w: World, p: Project, tracker: nat)
    ensures var v := Commissioned(w, p, tracker, None, None);
      v.entries == w.entries && v.serving == w.serving[w.nextId := Routing.Served(w.nextId, p, None)]
  {
  }

  lemma SwapServes(w: World, p: Project, tracker: nat, id: nat)
    requires id in w.objects && w.objects[id].entry == None
    ensures var v := Replaced(w, p, tracker, id);
      v.entries == w.entries
      && forall sw :: sw in v.serving ==> (sw in w.serving && v.serving[sw] == w.serving[sw]) || v.serving[sw].entry == None
  {
  }

  lemma AskedNamed(w: World, es: EntryState, p: Project, tracker: nat)
    requires HostsNamed(w) && EntriesOk(w) && IsWorktree(es.entry, p)
    ensures HostsNamed(RegisteredFor(w, es, p, tracker))
  {
  }

  lemma BoundNamed(w: World, e: Entry)
    requires HostsNamed(w) && Linked(w)
    ensures HostsNamed(EntryBound(w, e))
  {
    forall sw | sw in w.serving && w.serving[sw].entry.Some?
      ensures w.serving[sw].entry.value < w.nextId
    {
      var a := ListenAddr(w.serving[sw].project);
      assert LinkOk(w.listeners[a], w.serving, Members(w.serving, a)) && sw in Members(w.serving, a);
      var m :| Owns(w, m, a);
      assert EntryOk(w, m);
    }
  }

  lemma HostsStep(w0: World, c: Config, r: Point, step: Step)
    requires Under(w0, c, r) && StepEnabled(w0, c, r, step)
    ensures HostsNamed(Next(w0, c, r, step).sys.world)
  {
    var s := r.sys;
    assert Numbered(s) && Linked(s.world) && EntriesOk(s.world);
    hide Conserved, NamesHeld, EntriesHeld, NoStrays, HostsNamed, Commissioned, Replaced, RegisteredFor, Joins, Linked;
    match step.op
    case Put(p, tracker) =>
      PutServes(s.world, p, tracker);
      NamedLess(s.world, Apply(s, step.op).world);
    case Swap(p, tracker, id) =>
      SwapServes(s.world, p, tracker, id);
      NamedLess(s.world, Apply(s, step.op).world);
    case Ask(es, p, tracker) => AskedNamed(s.world, es, p, tracker);
    case Bind(e) => BoundNamed(s.world, e);
    case _ =>
      ServingLess(s, step.op);
      NamedLess(s.world, Apply(s, step.op).world);
  }

  lemma StepUnder(w0: World, c: Config, r: Point, step: Step)
    requires Under(w0, c, r) && StepEnabled(w0, c, r, step)
    ensures Under(w0, c, Next(w0, c, r, step))
  {
    NamesStep(w0, c, r, step);
    SwapsStep(w0, c, r, step);
    EntriesStep(w0, c, r, step);
    StraysStep(w0, c, r, step);
    HostsStep(w0, c, r, step);
    StepKeeps(r.sys, step.op);
    hide Conserved, NamesHeld, EntriesHeld, NoStrays, HostsNamed, StaticSwaps, Apply, Enabled;
  }

  // ---- One worktree ----

  /** The very entry is one the reload leaves alone, or one of its own. */
  ghost predicate Survives(w0: World, c: Config, es: EntryState) {
    es.id >= w0.nextId || exists m :: EntryStays(w0, c, m) && w0.entries[m] == es
  }

  /** The worktree's record, by the switch it was given, and what the reload has done to it so far. */
  ghost predicate Tracks(w0: World, c: Config, r: Point, id: nat, es: EntryState, p: Project) {
    var w := r.sys.world;
    && id in w.objects && id >= w0.nextId && p.host != "" && IsWorktree(es.entry, p)
    && w.objects[id].project == p && w.objects[id].entry == Some(es.id) && w.objects[id].dynamic && w.objects[id].sw == id
    && (p.name in c.projects && Listed(w, id) ==> p.name in r.todo)
    && (Survives(w0, c, es) ==> IsBound(w, es))
    && (Survives(w0, c, es) && p.name !in c.projects && !w.objects[id].retired ==> SentTo(w, ListenAddr(p), p.host, id))
    && (!Survives(w0, c, es) ==> es.id < w0.nextId && forall m :: EntryStays(w0, c, m) && m in w0.entries ==> w0.entries[m].id != es.id)
  }

  lemma SurvivorIsBound(w0: World, c: Config, r: Point, es: EntryState)
    requires EntriesHeld(w0, c, r) && EntriesOk(r.sys.world) && Survives(w0, c, es)
    requires IsBound(r.sys.world, es) || es.id < w0.nextId
    ensures IsBound(r.sys.world, es)
  {
    if m :| EntryStays(w0, c, m) && w0.entries[m] == es {
      assert m in r.sys.world.entries && EntryOk(r.sys.world, m);
    }
  }

  lemma NoSurvivor(w0: World, c: Config, r: Point, es: EntryState)
    requires EntriesHeld(w0, c, r) && EntriesOk(r.sys.world) && WasNumbered(w0) && !Survives(w0, c, es)
    requires IsBound(r.sys.world, es) || IsFormer(r.sys.world, es)
    ensures es.id < w0.nextId && forall m :: EntryStays(w0, c, m) && m in w0.entries ==> w0.entries[m].id != es.id
  {
    var entries := r.sys.world.entries;
    forall m | EntryStays(w0, c, m) && m in w0.entries
      ensures w0.entries[m].id != es.id
    {
      assert m in entries && entries[m] == w0.entries[m];
    }
  }

  lemma AskedRecord(w: World, es: EntryState, p: Project, tracker: nat)
    ensures var v := RegisteredFor(w, es, p, tracker);
      && w.nextId in v.objects && v.objects[w.nextId].project == p && v.objects[w.nextId].entry == Some(es.id)
      && v.objects[w.nextId].dynamic && v.objects[w.nextId].sw == w.nextId
  {
  }

  lemma AskTracks(w0: World, c: Config, r: Point, es: EntryState, p: Project, tracker: nat)
    requires Under(w0, c, r) && StepEnabled(w0, c, r, Other(Ask(es, p, tracker)))
    ensures Tracks(w0, c, Next(w0, c, r, Other(Ask(es, p, tracker))), r.sys.world.nextId, es, p)
  {
    var w, id := r.sys.world, r.sys.world.nextId;
    AskedIsSent(r.sys, es, p, tracker);
    AskedRecord(w, es, p, tracker);
    if Survives(w0, c, es) {
      SurvivorIsBound(w0, c, r, es);
    } else {
      NoSurvivor(w0, c, r, es);
    }
    hide Conserved, EntriesHeld, NoStrays, HostsNamed, StaticSwaps, RegisteredFor, SentTo;
  }

  lemma ListenersOwned(s: Sys, a: Address)
    requires Conserved(s) && a in s.world.listeners && s.world.listeners[a].entry.Some?
    ensures exists m :: Owns(s.world, m, a)
  {
    assert EntriesOk(s.world);
    hide LinksOk, ServingOk, UsedOwn, RowsOwn, HeldAreUsed, Numbered, Switched, Gone;
  }

  lemma HolderEntry(s: Sys, id: nat)
    requires Conserved(s) && id in s.world.objects && !s.world.objects[id].retired && s.world.objects[id].bind.Some?
    ensures var w, st := s.world, s.world.objects[id]; var a := st.bind.value;
      && st.sw in w.serving && w.serving[st.sw].id == id && w.serving[st.sw].entry == st.entry && w.serving[st.sw].project == st.project
      && a in w.listeners && w.listeners[a].entry == st.entry
  {
    var w, sw := s.world, s.world.objects[id].sw;
    assert InUse(s, id) && Owning(w, id) && ServedOk(w, sw);
    var a := ListenAddr(w.serving[sw].project);
    assert LinkOk(w.listeners[a], w.serving, Members(w.serving, a)) && sw in Members(w.serving, a);
  }

  /** Its hostname is sent to it on the listener of its very entry. */
  lemma SentOnItsEntry(s: Sys, a: Address, h: string, id: nat)
    requires Conserved(s) && SentTo(s.world, a, h, id) && id in s.world.objects && s.world.objects[id].sw == id && !s.world.objects[id].retired
    ensures s.world.listeners[a].entry == s.world.objects[id].entry
    ensures exists m :: Owns(s.world, m, a)
  {
    SentIsAnswered(s, a, h, id);
    UsedOwns(s);
    assert InUse(s, id);
    ListenersOwned(s, a);
    hide Conserved;
    HolderEntry(s, id);
  }

  lemma NumberedIs(s: Sys, id: nat)
    requires Conserved(s) && id in s.world.objects
    ensures s.world.objects[id].dynamic <==> s.world.objects[id].entry.Some?
  {
  }

  lemma WorktreeNamed(w: World, es: EntryState, sw: nat)
    requires HostsNamed(w) && IsBound(w, es) && sw in w.serving && w.serving[sw].entry == Some(es.id)
    ensures w.serving[sw].project.host == HostOf(es.entry, w.serving[sw].project.name)
  {
  }

  /** No entry that goes has its identity. */
  lemma OthersDiffer(w0: World, c: Config, es: EntryState)
    requires WasNumbered(w0) && Survives(w0, c, es)
    ensures forall m :: m in ToClose(w0, c) ==> w0.entries[m].id != es.id
  {
    if k :| EntryStays(w0, c, k) && w0.entries[k] == es {
      forall m | m in ToClose(w0, c)
        ensures w0.entries[m].id != es.id
      {
        assert m != k;
      }
    }
  }

  /** A project of an entry that survives is in the table, if its name is not the configuration's. */
  lemma StayListed(w0: World, c: Config, r: Point, es: EntryState, id: nat)
    requires NoStrays(w0, c, r) && WasNumbered(w0) && Survives(w0, c, es)
    requires id in r.sys.world.objects && !r.sys.world.objects[id].retired && r.sys.world.objects[id].dynamic
    requires r.sys.world.objects[id].entry == Some(es.id) && r.sys.world.objects[id].project.name !in c.projects
    ensures Listed(r.sys.world, id)
  {
    OthersDiffer(w0, c, es);
  }

  /** Whoever else is on that listener under that hostname would be of the same name, so in the same row. */
  lemma OnlyOneThere(w0: World, c: Config, r: Point, es: EntryState, p: Project, id: nat, other: nat)
    requires Under(w0, c, r) && Tracks(w0, c, r, id, es, p) && Survives(w0, c, es) && p.name !in c.projects
    requires !r.sys.world.objects[id].retired && SentTo(r.sys.world, ListenAddr(p), p.host, id)
    requires var w := r.sys.world;
      other in w.objects && !w.objects[other].retired && w.objects[other].bind == Some(ListenAddr(p)) && w.objects[other].project.host == p.host
    ensures other == id
  {
    var w := r.sys.world;
    hide Conserved, NamesHeld, EntriesHeld, NoStrays, HostsNamed, StaticSwaps, Survives, SentTo, WasNumbered;
    SentOnItsEntry(r.sys, ListenAddr(p), p.host, id);
    HolderEntry(r.sys, other);
    NumberedIs(r.sys, other);
    WorktreeNamed(w, es, w.objects[other].sw);
    HostsDiffer(es.entry, w.objects[other].project.name, p.name);
    StayListed(w0, c, r, es, id);
    StayListed(w0, c, r, es, other);
  }

  lemma EntryIsIt(w0: World, c: Config, r: Point, es: EntryState, m: string)
    requires EntriesHeld(w0, c, r) && EntriesOk(r.sys.world) && WasNumbered(w0) && Survives(w0, c, es)
    requires m in r.sys.world.entries && r.sys.world.entries[m].id == es.id && IsBound(r.sys.world, es)
    ensures r.sys.world.entries[m] == es && m !in r.closing
  {
    var entries := r.sys.world.entries;
    assert EntryOk(r.sys.world, m);
    if k :| EntryStays(w0, c, k) && w0.entries[k] == es {
      assert k in entries && EntryOk(r.sys.world, k);
    }
  }

  // ---- What the reload does to it ----

  lemma RetiredStates(w: World, id: nat, keep: bool)
    requires id in w.objects
    ensures Retired(w, id, keep).states == w.states
  {
  }

  lemma OneMoreListed(w: World, v: World, name: string, id: nat)
    requires OneMore(w, v, name) && id in w.objects && Listed(v, id)
    ensures Listed(w, id) && name != w.objects[id].project.name
  {
  }

  /** No row goes back to a record that has left it, and a commissioned name's row is a new record's. */
  lemma RowsMoveOn(s: Sys, op: Op, id: nat)
    requires Conserved(s) && Enabled(s, op) && id in s.world.objects && Listed(Apply(s, op).world, id)
    ensures Listed(s.world, id)
    ensures op.Put? || op.Swap? ==> op.project.name != s.world.objects[id].project.name
  {
    UnusedSwitch(s.world);
    FlagsStay(s, op, id);
    hide Conserved, Commissioned, Replaced, RegisteredFor, Retired, EntryUnbound, Joins, OneMore;
    match op
    case Put(p, tracker) =>
      JoinIsOneMore(s.world, p, tracker, None);
      OneMoreListed(s.world, Apply(s, op).world, p.name, id);
    case Swap(p, tracker, prev) =>
      SwapIsOneMore(s.world, p, tracker, prev);
      OneMoreListed(s.world, Apply(s, op).world, p.name, id);
    case Ask(es, p, tracker) =>
      AskIsOneMore(s.world, es, p, tracker);
      OneMoreListed(s.world, Apply(s, op).world, p.name, id);
    case Retire(rid, keep) => RetiredStates(s.world, rid, keep);
    case Unbind(m) => UnboundNames(s.world, m);
    case _ =>
  }

  lemma NotRetired(w0: World, c: Config, r: Point, id: nat, es: EntryState, p: Project, other: nat, keep: bool)
    requires Under(w0, c, r) && Tracks(w0, c, r, id, es, p) && other != id
    requires Survives(w0, c, es) && p.name !in c.projects && !r.sys.world.objects[id].retired
    ensures !Displaces(r.sys, Retire(other, keep), ListenAddr(p), p.host)
  {
    hide Conserved, NamesHeld, EntriesHeld, NoStrays, HostsNamed, StaticSwaps, Survives, SentTo, WasNumbered;
    if Displaces(r.sys, Retire(other, keep), ListenAddr(p), p.host) {
      OnlyOneThere(w0, c, r, es, p, id, other);
    }
  }

  lemma NotClosed(w0: World, c: Config, r: Point, es: EntryState, m: string)
    requires Under(w0, c, r) && Survives(w0, c, es) && IsBound(r.sys.world, es) && m in r.closing && m in r.sys.world.entries
    ensures EntryAddr(r.sys.world.entries[m].entry) != EntryAddr(es.entry) && m != es.entry.name
  {
    var w := r.sys.world;
    OthersDiffer(w0, c, es);
    assert EntryOk(w, m) && EntryOk(w, es.entry.name);
  }

  lemma NotUnbound(w0: World, c: Config, r: Point, id: nat, es: EntryState, p: Project, m: string)
    requires Under(w0, c, r) && Tracks(w0, c, r, id, es, p) && m in r.closing && m in r.sys.world.entries && Survives(w0, c, es)
    ensures !Displaces(r.sys, Unbind(m), ListenAddr(p), p.host)
  {
    hide Conserved, NamesHeld, EntriesHeld, NoStrays, HostsNamed, StaticSwaps, Survives, SentTo, WasNumbered;
    NotClosed(w0, c, r, es, m);
  }

  lemma NotPut(w0: World, c: Config, r: Point, id: nat, es: EntryState, p: Project, q: Project, tracker: nat)
    requires Under(w0, c, r) && Tracks(w0, c, r, id, es, p) && Joins(r.sys.world, q, None)
    requires Survives(w0, c, es) && p.name !in c.projects && !r.sys.world.objects[id].retired
    ensures !Displaces(r.sys, Put(q, tracker), ListenAddr(p), p.host)
  {
    hide Conserved, NamesHeld, EntriesHeld, NoStrays, HostsNamed, StaticSwaps, Survives, WasNumbered;
  }

  lemma NoneDisplaced(s: Sys, op: Op, a: Address, h: string)
    requires !op.Retire? && !op.Ask? && !op.Unbind? && !op.Put?
    ensures !Displaces(s, op, a, h)
  {
  }

  lemma SameEntry(w0: World, c: Config, r: Point, es: EntryState, fs: EntryState)
    requires Under(w0, c, r) && IsBound(r.sys.world, es) && IsBound(r.sys.world, fs) && EntryAddr(fs.entry) == EntryAddr(es.entry)
    ensures fs == es
  {
    assert EntryOk(r.sys.world, es.entry.name) && EntryOk(r.sys.world, fs.entry.name);
  }

  lemma NotAsked(w0: World, c: Config, r: Point, id: nat, es: EntryState, p: Project, fs: EntryState, q: Project, tracker: nat)
    requires Under(w0, c, r) && Tracks(w0, c, r, id, es, p) && MayAsk(r.sys.world, fs, q)
    requires Survives(w0, c, es) && p.name !in c.projects && !r.sys.world.objects[id].retired
    ensures !Displaces(r.sys, Ask(fs, q, tracker), ListenAddr(p), p.host)
  {
    hide Conserved, NamesHeld, EntriesHeld, NoStrays, HostsNamed, StaticSwaps, Survives, SentTo, WasNumbered;
    StayListed(w0, c, r, es, id);
    if Displaces(r.sys, Ask(fs, q, tracker), ListenAddr(p), p.host) {
      SameEntry(w0, c, r, es, fs);
      HostsDiffer(es.entry, q.name, p.name);
    }
  }

  /** Nothing a reload, a request or a drop of another one does displaces a worktree of an entry that survives. */
  lemma NotDisplaced(w0: World, c: Config, r: Point, step: Step, id: nat, es: EntryState, p: Project)
    requires Under(w0, c, r) && Tracks(w0, c, r, id, es, p) && StepEnabled(w0, c, r, step)
    requires Survives(w0, c, es) && p.name !in c.projects && !r.sys.world.objects[id].retired
    requires !(step.op.Retire? && step.op.id == id)
    ensures !Displaces(r.sys, step.op, ListenAddr(p), p.host)
  {
    hide Conserved, NamesHeld, EntriesHeld, NoStrays, HostsNamed, StaticSwaps, Survives, SentTo, WasNumbered, Displaces, Under, Tracks;
    match step.op
    case Retire(other, keep) => NotRetired(w0, c, r, id, es, p, other, keep);
    case Ask(fs, q, tracker) => NotAsked(w0, c, r, id, es, p, fs, q, tracker);
    case Unbind(m) => NotUnbound(w0, c, r, id, es, p, m);
    case Put(q, tracker) => NotPut(w0, c, r, id, es, p, q, tracker);
    case _ => NoneDisplaced(r.sys, step.op, ListenAddr(p), p.host);
  }

  lemma StillBound(w0: World, c: Config, r: Point, step: Step, es: EntryState)
    requires Under(w0, c, r) && StepEnabled(w0, c, r, step) && (Survives(w0, c, es) ==> IsBound(r.sys.world, es))
    ensures Survives(w0, c, es) ==> IsBound(Next(w0, c, r, step).sys.world, es)
  {
    hide Conserved, NamesHeld, EntriesHeld, NoStrays, HostsNamed, StaticSwaps, Survives, WasNumbered;
    if Survives(w0, c, es) {
      if step.op.Unbind? {
        NotClosed(w0, c, r, es, step.op.name);
      } else if !step.op.Bind? {
        EntriesStay(r.sys, step.op);
        hide Apply, Enabled;
      }
    }
  }

  lemma RetireRetires(s: Sys, op: Op, id: nat)
    requires Enabled(s, op) && id in s.world.objects
    ensures var v := Apply(s, op).world; op.Retire? && op.id == id ==> id in v.objects && v.objects[id].retired
  {
    if op.Retire? && op.id == id {
      RetiredMarks(s.world, id, op.keep);
    }
  }

  lemma StillSent(w0: World, c: Config, r: Point, step: Step, id: nat, es: EntryState, p: Project)
    requires Under(w0, c, r) && Tracks(w0, c, r, id, es, p) && StepEnabled(w0, c, r, step)
    requires Survives(w0, c, es) && p.name !in c.projects
    requires var v := Apply(r.sys, step.op).world; id in v.objects && !v.objects[id].retired
    ensures SentTo(Apply(r.sys, step.op).world, ListenAddr(p), p.host, id)
  {
    UnusedSwitch(r.sys.world);
    RecordsStay(r.sys, step.op, id);
    assert Numbered(r.sys);
    RouteStep(r.sys, step.op, ListenAddr(p), p.host, id);
    hide Conserved, NamesHeld, EntriesHeld, NoStrays, HostsNamed, StaticSwaps, Survives, WasNumbered, SentTo, Displaces;
    RetireRetires(r.sys, step.op, id);
    hide Apply, Enabled;
    NotDisplaced(w0, c, r, step, id, es, p);
  }

  lemma TracksStep(w0: World, c: Config, r: Point, step: Step, id: nat, es: EntryState, p: Project)
    requires Under(w0, c, r) && Tracks(w0, c, r, id, es, p) && StepEnabled(w0, c, r, step)
    ensures Tracks(w0, c, Next(w0, c, r, step), id, es, p)
  {
    var s, q := r.sys, Next(w0, c, r, step);
    UnusedSwitch(s.world);
    FlagsStay(s, step.op, id);
    StillBound(w0, c, r, step, es);
    if Listed(q.sys.world, id) {
      RowsMoveOn(s, step.op, id);
    }
    if Survives(w0, c, es) && p.name !in c.projects && !q.sys.world.objects[id].retired {
      StillSent(w0, c, r, step, id, es, p);
    }
    hide Conserved, NamesHeld, EntriesHeld, NoStrays, HostsNamed, StaticSwaps, Survives, SentTo, WasNumbered, Apply, Enabled, Listed;
  }

  // ---- The end ----

  lemma {:induction false} RunTracks(w0: World, c: Config, r: Point, steps: seq<Step>, id: nat, es: EntryState, p: Project)
    requires Under(w0, c, r) && Tracks(w0, c, r, id, es, p) && CanRun(w0, c, r, steps)
    ensures var q := Run(w0, c, r, steps); Under(w0, c, q) && Tracks(w0, c, q, id, es, p)
    decreases |steps|
  {
    if steps != [] {
      StepUnder(w0, c, r, steps[0]);
      TracksStep(w0, c, r, steps[0], id, es, p);
      hide Under, Tracks, StepEnabled, Next;
      RunTracks(w0, c, Next(w0, c, r, steps[0]), steps[1..], id, es, p);
    }
  }

  lemma {:induction false} RunUnder(w0: World, c: Config, r: Point, steps: seq<Step>)
    requires Under(w0, c, r) && CanRun(w0, c, r, steps)
    ensures Under(w0, c, Run(w0, c, r, steps))
    decreases |steps|
  {
    if steps != [] {
      StepUnder(w0, c, r, steps[0]);
      hide Under, StepEnabled, Next;
      RunUnder(w0, c, Next(w0, c, r, steps[0]), steps[1..]);
    }
  }

  /** A drop of this very record begins. */
  predicate DropsIt(steps: seq<Step>, id: nat) {
    exists k :: 0 <= k < |steps| && steps[k].Other? && steps[k].op.Retire? && steps[k].op.id == id
  }

  /** The record is in the table, not retired, and requests for its hostname are sent to it. */
  predicate InService(s: Sys, id: nat, p: Project) {
    && id in s.world.objects && !s.world.objects[id].retired && Listed(s.world, id)
    && SentTo(s.world, ListenAddr(p), p.host, id)
  }

  /** A reload retires only what it has found, or taken off the table. */
  lemma OwnRetires(w0: World, c: Config, r: Point, id: nat, keep: bool, es: EntryState, p: Project)
    requires Under(w0, c, r) && Tracks(w0, c, r, id, es, p) && Survives(w0, c, es)
    ensures !OwnEnabled(w0, c, r, Retire(id, keep))
  {
    hide Conserved, NamesHeld, EntriesHeld, HostsNamed, StaticSwaps, Survives, SentTo;
    OthersDiffer(w0, c, es);
  }

  lemma DropsOne(step: Step, id: nat)
    ensures DropsIt([step], id) <==> step.Other? && step.op.Retire? && step.op.id == id
  {
    assert [step][0] == step;
  }

  lemma NotRetiredHere(s: Sys, op: Op, id: nat)
    requires Enabled(s, op) && id in s.world.objects && !(op.Retire? && op.id == id) && s.world.nextId !in s.world.objects
    ensures id in Apply(s, op).world.objects && Apply(s, op).world.objects[id].retired == s.world.objects[id].retired
  {
    hide Commissioned, Replaced, RegisteredFor, Joins, OneMore;
    match op
    case Put(p, tracker) =>
      JoinIsOneMore(s.world, p, tracker, None);
      OneMoreStays(s.world, Apply(s, op).world, p.name, id);
    case Swap(p, tracker, prev) =>
      SwapIsOneMore(s.world, p, tracker, prev);
      OneMoreStays(s.world, Apply(s, op).world, p.name, id);
    case Ask(es, p, tracker) =>
      AskIsOneMore(s.world, es, p, tracker);
      OneMoreStays(s.world, Apply(s, op).world, p.name, id);
    case _ =>
  }

  lemma RetiredByDrop(w0: World, c: Config, r: Point, step: Step, id: nat, es: EntryState, p: Project)
    requires Under(w0, c, r) && Tracks(w0, c, r, id, es, p) && StepEnabled(w0, c, r, step) && Survives(w0, c, es)
    ensures var v := Next(w0, c, r, step).sys.world;
      && id in v.objects
      && (v.objects[id].retired <==> r.sys.world.objects[id].retired || DropsIt([step], id))
  {
    UnusedSwitch(r.sys.world);
    DropsOne(step, id);
    hide Conserved, NamesHeld, EntriesHeld, NoStrays, HostsNamed, StaticSwaps, Survives, SentTo, WasNumbered, OwnEnabled, DropsIt;
    if step.op.Retire? && step.op.id == id {
      RetiredMarks(r.sys.world, id, step.op.keep);
      OwnRetires(w0, c, r, id, step.op.keep, es, p);
      hide Retired;
    } else {
      NotRetiredHere(r.sys, step.op, id);
      hide Apply, Enabled;
    }
  }

  lemma DropsFirst(steps: seq<Step>, id: nat)
    requires steps != []
    ensures DropsIt(steps, id) <==> DropsIt([steps[0]], id) || DropsIt(steps[1..], id)
  {
    if DropsIt(steps[1..], id) {
      var k :| 0 <= k < |steps[1..]| && steps[1..][k].Other? && steps[1..][k].op.Retire? && steps[1..][k].op.id == id;
      assert steps[k + 1] == steps[1..][k];
    }
    if DropsIt([steps[0]], id) {
      assert steps[0] == [steps[0]][0];
    }
    if k :| 0 <= k < |steps| && steps[k].Other? && steps[k].op.Retire? && steps[k].op.id == id {
      if k == 0 {
        assert [steps[0]][0] == steps[0];
      } else {
        assert steps[1..][k - 1] == steps[k];
      }
    }
  }

  lemma {:induction false} RetiredByDrops(w0: World, c: Config, r: Point, steps: seq<Step>, id: nat, es: EntryState, p: Project)
    requires Under(w0, c, r) && Tracks(w0, c, r, id, es, p) && CanRun(w0, c, r, steps) && Survives(w0, c, es)
    ensures var v := Run(w0, c, r, steps).sys.world;
      id in v.objects && (v.objects[id].retired <==> r.sys.world.objects[id].retired || DropsIt(steps, id))
    decreases |steps|
  {
    if steps != [] {
      DropsFirst(steps, id);
      RetiredByDrop(w0, c, r, steps[0], id, es, p);
      StepUnder(w0, c, r, steps[0]);
      TracksStep(w0, c, r, steps[0], id, es, p);
      hide Under, Tracks, StepEnabled, Next, DropsIt, Survives;
      RetiredByDrops(w0, c, Next(w0, c, r, steps[0]), steps[1..], id, es, p);
    }
  }

  lemma EndsInService(w0: World, c: Config, r: Point, id: nat, es: EntryState, p: Project)
    requires Under(w0, c, r) && Tracks(w0, c, r, id, es, p) && Ends(w0, c, r)
    ensures InService(r.sys, id, p) <==> Survives(w0, c, es) && p.name !in c.projects && !r.sys.world.objects[id].retired
    ensures !r.sys.world.objects[id].retired ==> (IsLost(r.sys, id) <==> p.name in c.projects)
  {
    if InService(r.sys, id, p) {
      SentOnItsEntry(r.sys, ListenAddr(p), p.host, id);
    }
    if Survives(w0, c, es) && p.name !in c.projects && !r.sys.world.objects[id].retired {
      StayListed(w0, c, r, es, id);
    }
    hide Conserved, NamesHeld, HostsNamed, StaticSwaps, WasNumbered, SentTo;
  }

  lemma TracksIsThere(w0: World, c: Config, r: Point, id: nat, es: EntryState, p: Project)
    requires Tracks(w0, c, r, id, es, p)
    ensures id in r.sys.world.objects
  {
  }

  lemma FreshIsNotRetired(w0: World, c: Config, r: Point, es: EntryState, p: Project, tracker: nat)
    requires StepEnabled(w0, c, r, Other(Ask(es, p, tracker)))
    ensures var v := Next(w0, c, r, Other(Ask(es, p, tracker))).sys.world; var id := r.sys.world.nextId;
      id in v.objects && !v.objects[id].retired
  {
  }

  /**
   A worktree that registers at any point of a reload, whatever requests and drops come before and
   after: when the reload is over it is in the table, and requests for its hostname are sent to it, if
   and only if its entry survives, the configuration does not have its name, and no drop of it has
   begun. And if it is not retired, it is lost if and only if the configuration has its name.
   */
  lemma RegisteredMeanwhile(s: Sys, c: Config, r: Point, before: seq<Step>, es: EntryState, p: Project, tracker: nat, after: seq<Step>)
    requires Loaded(c) && Begins(s, c, r) && CanRun(s.world, c, r, before)
    requires var q := Run(s.world, c, r, before); StepEnabled(s.world, c, q, Other(Ask(es, p, tracker)))
    requires var t := Next(s.world, c, Run(s.world, c, r, before), Other(Ask(es, p, tracker)));
      CanRun(s.world, c, t, after) && Ends(s.world, c, Run(s.world, c, t, after))
    ensures var q := Run(s.world, c, r, before);
      var id, t := q.sys.world.nextId, Next(s.world, c, q, Other(Ask(es, p, tracker)));
      var end := Run(s.world, c, t, after).sys;
      && (InService(end, id, p) <==> Survives(s.world, c, es) && p.name !in c.projects && !DropsIt(after, id))
      && id in end.world.objects
      && (!end.world.objects[id].retired ==> (IsLost(end, id) <==> p.name in c.projects))
  {
    BeginsUnder(s, c, r);
    hide Under, Tracks, StepEnabled, Begins, Survives, InService, IsLost, Ends, DropsIt;
    RunUnder(s.world, c, r, before);
    var q := Run(s.world, c, r, before);
    var id, ask := q.sys.world.nextId, Other(Ask(es, p, tracker));
    AskTracks(s.world, c, q, es, p, tracker);
    StepUnder(s.world, c, q, ask);
    var t := Next(s.world, c, q, ask);
    FreshIsNotRetired(s.world, c, q, es, p, tracker);
    RunTracks(s.world, c, t, after, id, es, p);
    TracksIsThere(s.world, c, Run(s.world, c, t, after), id, es, p);
    EndsInService(s.world, c, Run(s.world, c, t, after), id, es, p);
    if Survives(s.world, c, es) {
      RetiredByDrops(s.world, c, t, after, id, es, p);
    }
  }
}
