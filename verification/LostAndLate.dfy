/**
 Inputs on which a worktree is registered and yet not served, or served and yet in no table: its entry
 is gone, or a reload or a restart puts its own project into the row.
 */
module LostAndLate {
  import opened Options
  import opened Config
  import opened Routing
  import opened Rest
  import opened Teardown
  import opened Linking
  import opened Dynamic
  import opened Conservation
  import opened RecordRuns
  import opened Meanwhile

  /** A daemon with one entry and nothing else. */
  function OneEntry(e: Entry): Sys {
    Sys(EntryBound(EMPTY, e), {}, {})
  }

  lemma OneEntryRests(e: Entry)
    ensures var s := OneEntry(e);
      && Conserved(s) && AtRest(s.world) && HostsNamed(s.world) && s.world.entries == map[e.name := EntryState(0, e)]
      && s.world.states == map[] && s.world.objects == map[] && s.world.nextId == 1
      && s.world.listeners == map[EntryAddr(e) := Listener(0, Some(0), map[], None)]
  {
    EntryBoundKeeps(EMPTY, e);
    EntryBoundLinks(EMPTY, e);
  }

  lemma WantedOne(e: Entry)
    requires e.wildcard
    ensures Wanted([e]) == map[e.name := e]
  {
    assert [e][..0] == [];
  }

  lemma RunsTwo(w0: World, c: Config, r: Point, x: Step, y: Step)
    requires StepEnabled(w0, c, r, x) && StepEnabled(w0, c, Next(w0, c, r, x), y)
    ensures CanRun(w0, c, r, [x, y]) && Run(w0, c, r, [x, y]) == Next(w0, c, Next(w0, c, r, x), y)
  {
    assert [x, y][1..] == [y] && [y][1..] == [];
    assert CanRun(w0, c, Next(w0, c, r, x), [y]);
    assert Run(w0, c, Next(w0, c, r, x), [y]) == Next(w0, c, Next(w0, c, r, x), y);
    hide StepEnabled, Next;
  }

  lemma RunsThree(w0: World, c: Config, r: Point, x: Step, y: Step, z: Step)
    requires StepEnabled(w0, c, r, x) && StepEnabled(w0, c, Next(w0, c, r, x), y)
    requires StepEnabled(w0, c, Next(w0, c, Next(w0, c, r, x), y), z)
    ensures CanRun(w0, c, r, [x, y, z]) && Run(w0, c, r, [x, y, z]) == Next(w0, c, Next(w0, c, Next(w0, c, r, x), y), z)
  {
    RunsTwo(w0, c, Next(w0, c, r, x), y, z);
    assert [x, y, z][1..] == [y, z];
    hide StepEnabled, Next;
  }

  lemma AskIsOthers(e: Entry, r: Point, p: Project, tracker: nat)
    ensures OtherEnabled(OneEntry(e).world, r, Ask(EntryState(0, e), p, tracker))
  {
  }

  /** The daemon after its one worktree has registered in time. */
  function OneWorktree(e: Entry, p: Project, tracker: nat): Sys {
    var a := EntryAddr(e);
    Sys(World(map[p.name := 1], map[1 := State(p, tracker, 1, Some(a), true, Some(0), false)], map[e.name := EntryState(0, e)],
              map[a := Listener(1, Some(0), map[p.host := 1], None)], map[1 := Some(1)],
              map[1 := Routing.Served(1, p, Some(0))], 2), {}, {})
  }

  lemma AskFirst(e: Entry, p: Project, tracker: nat)
    requires IsWorktree(e, p)
    ensures Enabled(OneEntry(e), Ask(EntryState(0, e), p, tracker))
    ensures Apply(OneEntry(e), Ask(EntryState(0, e), p, tracker)) == OneWorktree(e, p, tracker)
  {
  }

  lemma PutOver(e: Entry, p: Project, tracker: nat, q: Project)
    requires IsWorktree(e, p) && q.name == p.name && ListenAddr(q) != EntryAddr(e)
    ensures Enabled(OneWorktree(e, p, tracker), Put(q, 2))
    ensures var t := Apply(OneWorktree(e, p, tracker), Put(q, 2));
      IsLost(t, 1) && SentTo(t.world, EntryAddr(e), p.host, 1) && t.leaving == {}
  {
  }

  lemma PutIsOwn(e: Entry, p: Project, q: Project, cap: nat)
    requires q.name == p.name
    ensures var c := Config(map[q.name := q], [e], cap);
      OwnEnabled(OneEntry(e).world, c, Point(OneWorktree(e, p, 1), {q.name}, {}), Put(q, 2))
  {
  }

  lemma PutEnds(e: Entry, p: Project, q: Project, cap: nat)
    requires e.wildcard && IsWorktree(e, p) && q.name == p.name && ListenAddr(q) != EntryAddr(e)
    ensures var c := Config(map[q.name := q], [e], cap);
      var s := OneWorktree(e, p, 1); Enabled(s, Put(q, 2)) && Ends(OneEntry(e).world, c, Point(Apply(s, Put(q, 2)), {}, {}))
  {
    WantedOne(e);
  }

  lemma NewName(e: Entry, q: Project, cap: nat)
    requires e.wildcard && Loaded(Config(map[q.name := q], [e], cap))
    ensures var s, c := OneEntry(e), Config(map[q.name := q], [e], cap);
      Begins(s, c, Point(s, {q.name}, {})) && ListenAddr(q) != EntryAddr(e)
  {
    var s, c := OneEntry(e), Config(map[q.name := q], [e], cap);
    OneEntryRests(e);
    WantedOne(e);
    assert PortsApart(c.entries[0], c.projects[q.name]);
    assert ToCommission(s.world, c) == {q.name};
    assert ToClose(s.world, c) == {};
    hide AtRest, Conserved, HostsNamed;
  }

  /**
   A reload adds a project of a name, and before it commissions it a request registers the worktree of
   that name: the worktree's record stays on its listener, in no row and on no list.
   */
  lemma LostToReload(e: Entry, p: Project, q: Project, cap: nat)
    requires e.wildcard && IsWorktree(e, p) && q.name == p.name
    requires Loaded(Config(map[q.name := q], [e], cap))
    ensures var s, c := OneEntry(e), Config(map[q.name := q], [e], cap);
      var r := Point(s, {q.name}, {});
      var steps := [Other(Ask(EntryState(0, e), p, 1)), Own(Put(q, 2))];
      && Begins(s, c, r) && CanRun(s.world, c, r, steps)
      && var end := Run(s.world, c, r, steps);
        Ends(s.world, c, end) && IsLost(end.sys, 1) && SentTo(end.sys.world, EntryAddr(e), p.host, 1)
  {
    var s, c := OneEntry(e), Config(map[q.name := q], [e], cap);
    NewName(e, q, cap);
    AskFirst(e, p, 1);
    PutOver(e, p, 1, q);
    AskIsOthers(e, Point(s, {q.name}, {}), p, 1);
    PutIsOwn(e, p, q, cap);
    PutEnds(e, p, q, cap);
    hide Begins, Enabled, Apply, Loaded, IsLost, SentTo, OneEntry, OneWorktree, OwnEnabled, OtherEnabled, Ends;
    assert {q.name} - {q.name} == {};
    RunsTwo(s.world, c, Point(s, {q.name}, {}), Other(Ask(EntryState(0, e), p, 1)), Own(Put(q, 2)));
  }


  // ---- An entry that goes ----

  /** The one entry changed, but not its name, its address or its domain. */
  predicate IsChange(e: Entry, f: Entry) {
    e.wildcard && f.wildcard && f.name == e.name && EntryAddr(f) == EntryAddr(e) && f.baseDomain == e.baseDomain && !e.Equivalent(f)
  }

  /** The daemon after its entry has been replaced: the worktree is registered for the old one. */
  function LeftBehind(e: Entry, f: Entry, p: Project, tracker: nat): Sys {
    Sys(World(map[p.name := 1], map[1 := State(p, tracker, 1, None, true, Some(0), false)], map[f.name := EntryState(2, f)],
              map[EntryAddr(f) := Listener(0, Some(2), map[], None)], map[1 := Some(1)], map[], 3), {}, {})
  }

  /** With the old entry closed, before or after the worktree has registered. */
  function Closed(e: Entry, p: Project, tracker: nat): Sys {
    Sys(World(map[p.name := 1], map[1 := State(p, tracker, 1, None, true, Some(0), false)], map[], map[], map[1 := Some(1)], map[], 2),
        {}, {})
  }

  lemma CloseFirst(e: Entry, p: Project, tracker: nat)
    requires IsWorktree(e, p)
    ensures Enabled(OneEntry(e), Unbind(e.name))
    ensures var s := Apply(OneEntry(e), Unbind(e.name)); var ask := Ask(EntryState(0, e), p, tracker);
      Enabled(s, ask) && Apply(s, ask) == Closed(e, p, tracker)
  {
  }

  lemma CloseThen(e: Entry, p: Project, tracker: nat)
    requires IsWorktree(e, p)
    ensures var s := OneWorktree(e, p, tracker); Enabled(s, Unbind(e.name)) && Apply(s, Unbind(e.name)) == Closed(e, p, tracker)
  {
    var w := OneWorktree(e, p, tracker).world;
    assert CutOff(w.objects, EntryAddr(e), 0) == map[1 := State(p, tracker, 1, None, true, Some(0), false)];
    assert Elsewhere(w.serving, EntryAddr(e)) == map[];
  }

  lemma BindAgain(e: Entry, f: Entry, p: Project, tracker: nat)
    requires IsChange(e, f)
    ensures Enabled(Closed(e, p, tracker), Bind(f)) && Apply(Closed(e, p, tracker), Bind(f)) == LeftBehind(e, f, p, tracker)
  {
  }

  lemma EntryChanges(e: Entry, f: Entry, cap: nat)
    requires IsChange(e, f)
    ensures var s, c := OneEntry(e), Config(map[], [f], cap);
      && Begins(s, c, Point(s, {}, {e.name})) && ToClose(s.world, c) == {e.name} && Wanted(c.entries) == map[f.name := f]
  {
    var s, c := OneEntry(e), Config(map[], [f], cap);
    OneEntryRests(e);
    WantedOne(f);
    assert ToCommission(s.world, c) == {};
    assert ToClose(s.world, c) == {e.name};
    hide AtRest, Conserved, HostsNamed;
  }

  lemma LeftBehindIs(e: Entry, f: Entry, p: Project, tracker: nat)
    requires IsChange(e, f) && IsWorktree(e, p)
    ensures var s := LeftBehind(e, f, p, tracker);
      && Listed(s.world, 1) && s.world.objects[1].project == p && !s.world.objects[1].retired
      && Route(s.world, ListenAddr(p), p.host) == Resolver(2) && s.leaving == {}
  {
  }

  lemma LateRun(e: Entry, f: Entry, p: Project, c: Config)
    requires IsChange(e, f) && IsWorktree(e, p) && Wanted(c.entries) == map[f.name := f]
    ensures var w0, r, ask := OneEntry(e).world, Point(OneEntry(e), {}, {e.name}), Other(Ask(EntryState(0, e), p, 1));
      var steps := [Own(Unbind(e.name)), ask, Own(Bind(f))];
      CanRun(w0, c, r, steps) && Run(w0, c, r, steps) == Point(LeftBehind(e, f, p, 1), {}, {})
  {
    var w0, r, ask := OneEntry(e).world, Point(OneEntry(e), {}, {e.name}), Other(Ask(EntryState(0, e), p, 1));
    CloseFirst(e, p, 1);
    BindAgain(e, f, p, 1);
    hide Enabled, Apply, OneEntry, OneWorktree, Closed, LeftBehind, IsWorktree, OtherEnabled;
    AskIsOthers(e, Next(w0, c, r, Own(Unbind(e.name))), p, 1);
    RunsThree(w0, c, r, Own(Unbind(e.name)), ask, Own(Bind(f)));
  }

  lemma EarlyRun(e: Entry, f: Entry, p: Project, c: Config)
    requires IsChange(e, f) && IsWorktree(e, p) && Wanted(c.entries) == map[f.name := f]
    ensures var w0, r, ask := OneEntry(e).world, Point(OneEntry(e), {}, {e.name}), Other(Ask(EntryState(0, e), p, 1));
      var steps := [ask, Own(Unbind(e.name)), Own(Bind(f))];
      CanRun(w0, c, r, steps) && Run(w0, c, r, steps) == Point(LeftBehind(e, f, p, 1), {}, {})
  {
    var w0, r, ask := OneEntry(e).world, Point(OneEntry(e), {}, {e.name}), Other(Ask(EntryState(0, e), p, 1));
    AskFirst(e, p, 1);
    CloseThen(e, p, 1);
    BindAgain(e, f, p, 1);
    hide Enabled, Apply, OneEntry, OneWorktree, Closed, LeftBehind, IsWorktree, OtherEnabled;
    AskIsOthers(e, r, p, 1);
    RunsThree(w0, c, r, ask, Own(Unbind(e.name)), Own(Bind(f)));
  }

  /**
   An entry is changed while one of its worktrees is being resolved. Whether the worktree registers before
   the entry's listener is closed or after, no drop of it has begun, and it is in the table and not
   retired, but requests for it meet the new entry's resolver.
   */
  lemma LateIsUnreached(e: Entry, f: Entry, p: Project, cap: nat, late: bool)
    requires IsChange(e, f) && IsWorktree(e, p)
    ensures var s, c := OneEntry(e), Config(map[], [f], cap);
      var r, ask, unbind := Point(s, {}, {e.name}), Other(Ask(EntryState(0, e), p, 1)), Own(Unbind(e.name));
      var steps := if late then [unbind, ask, Own(Bind(f))] else [ask, unbind, Own(Bind(f))];
      && Begins(s, c, r) && CanRun(s.world, c, r, steps)
      && var end := Run(s.world, c, r, steps);
        && Ends(s.world, c, end) && Listed(end.sys.world, 1) && end.sys.world.objects[1].project == p && !end.sys.world.objects[1].retired
        && Route(end.sys.world, ListenAddr(p), p.host) == Resolver(2)
  {
    var c := Config(map[], [f], cap);
    EntryChanges(e, f, cap);
    LeftBehindIs(e, f, p, 1);
    LateRun(e, f, p, c);
    EarlyRun(e, f, p, c);
    hide Begins, CanRun, Run, Wanted, ToClose, OneEntry, LeftBehind, IsWorktree, IsChange, Route, Listed;
  }

  // ---- A restart whose row a drop has deleted ----

  /** Claimed by the restart, retired by the drop, and its row gone. */
  function Dropped(e: Entry, p: Project): Sys {
    Sys(World(map[], map[1 := State(p, 1, 1, None, true, Some(0), true)], map[e.name := EntryState(0, e)],
              map[EntryAddr(e) := Listener(0, Some(0), map[], None)], map[1 := None], map[], 2), {1}, {})
  }

  /** And registered again. */
  function Again(e: Entry, p: Project): Sys {
    var a := EntryAddr(e);
    Sys(World(map[p.name := 2],
              map[1 := State(p, 1, 1, None, true, Some(0), true), 2 := State(p, 2, 2, Some(a), true, Some(0), false)],
              map[e.name := EntryState(0, e)], map[a := Listener(1, Some(0), map[p.host := 2], None)], map[1 := None, 2 := Some(2)],
              map[2 := Routing.Served(2, p, Some(0))], 3), {1}, {})
  }

  /** Claimed by the restart, and retired by the drop, in service until then. */
  function Claimed(e: Entry, p: Project): Sys {
    var s := OneWorktree(e, p, 1);
    s.(world := s.world.(switches := map[1 := None]), swapping := {1})
  }

  lemma ClaimIt(e: Entry, p: Project)
    ensures var s := OneWorktree(e, p, 1); Enabled(s, Op.Claim(p.name)) && Apply(s, Op.Claim(p.name)) == Claimed(e, p)
  {
  }

  lemma DropIt(e: Entry, p: Project)
    requires IsWorktree(e, p)
    ensures Enabled(Claimed(e, p), Retire(1, false))
    ensures var b := Apply(Claimed(e, p), Retire(1, false)); Enabled(b, Forget(1)) && Apply(b, Forget(1)) == Dropped(e, p)
  {
    assert map[p.host := 1] - {p.host} == map[];
    assert Claimed(e, p).world.serving - {1} == map[];
  }

  lemma RegisterAgain(e: Entry, p: Project)
    requires IsWorktree(e, p)
    ensures Enabled(Dropped(e, p), Ask(EntryState(0, e), p, 2)) && Apply(Dropped(e, p), Ask(EntryState(0, e), p, 2)) == Again(e, p)
  {
  }

  lemma SwapOver(e: Entry, p: Project, q: Project)
    requires IsWorktree(e, p) && q.name == p.name && SameRoute(p, q)
    ensures Enabled(Again(e, p), Swap(q, 1, 1))
    ensures var t := Apply(Again(e, p), Swap(q, 1, 1)); IsLost(t, 2) && SentTo(t.world, EntryAddr(e), p.host, 2)
  {
  }

  lemma FeasibleCons(s: Sys, op: Op, ops: seq<Op>)
    requires Enabled(s, op) && Feasible(Apply(s, op), ops)
    ensures Feasible(s, [op] + ops) && Exec(s, [op] + ops) == Exec(Apply(s, op), ops)
  {
    assert ([op] + ops)[1..] == ops;
    hide Enabled, Apply;
  }

  lemma FeasibleNone(s: Sys)
    ensures Feasible(s, []) && Exec(s, []) == s
  {
  }

  lemma FeasibleTwo(s: Sys, a: Op, b: Op)
    requires Enabled(s, a) && Enabled(Apply(s, a), b)
    ensures Feasible(s, [a, b]) && Exec(s, [a, b]) == Apply(Apply(s, a), b)
  {
    hide Enabled, Apply, Feasible, Exec;
    FeasibleNone(Apply(Apply(s, a), b));
    FeasibleCons(Apply(s, a), b, []);
    assert [b] + [] == [b];
    FeasibleCons(s, a, [b]);
    assert [a] + [b] == [a, b];
  }

  lemma FeasibleFive(s: Sys, a: Op, b: Op, c: Op, d: Op, e: Op)
    requires Enabled(s, a) && Enabled(Apply(s, a), b) && Enabled(Apply(Apply(s, a), b), c)
    requires var t := Apply(Apply(Apply(s, a), b), c); Enabled(t, d) && Enabled(Apply(t, d), e)
    ensures Feasible(s, [a, b, c, d, e])
    ensures Exec(s, [a, b, c, d, e]) == Apply(Apply(Apply(Apply(Apply(s, a), b), c), d), e)
  {
    hide Enabled, Apply, Feasible, Exec;
    FeasibleTwo(Apply(Apply(Apply(s, a), b), c), d, e);
    FeasibleCons(Apply(Apply(s, a), b), c, [d, e]);
    assert [c] + [d, e] == [c, d, e];
    FeasibleCons(Apply(s, a), b, [c, d, e]);
    assert [b] + [c, d, e] == [b, c, d, e];
    FeasibleCons(s, a, [b, c, d, e]);
    assert [a] + [b, c, d, e] == [a, b, c, d, e];
  }

  /**
   A restart has claimed a worktree; a drop retires it and deletes its row; a request registers it again;
   and the restart puts its own record into the row: the one in between is on the listener, in no row.
   */
  lemma LostToRestart(e: Entry, p: Project, q: Project)
    requires IsWorktree(e, p) && q.name == p.name && SameRoute(p, q)
    ensures var s, again := OneWorktree(e, p, 1), Ask(EntryState(0, e), p, 2);
      var ops := [Op.Claim(p.name), Retire(1, false), Forget(1), again, Swap(q, 1, 1)];
      Feasible(s, ops) && IsLost(Exec(s, ops), 2) && SentTo(Exec(s, ops).world, EntryAddr(e), p.host, 2)
  {
    ClaimIt(e, p);
    DropIt(e, p);
    RegisterAgain(e, p);
    SwapOver(e, p, q);
    hide Enabled, Apply, IsLost, SentTo, Claimed, Dropped, Again, OneWorktree;
    FeasibleFive(OneWorktree(e, p, 1), Op.Claim(p.name), Retire(1, false), Forget(1), Ask(EntryState(0, e), p, 2), Swap(q, 1, 1));
  }
}
