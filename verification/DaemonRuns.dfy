/**
 The life of a daemon: started, then reloaded, and asked for worktrees that come, are restarted and are
 dropped, in any order. A drop is two steps, and anything may happen while it waits for its process.
 */
module DaemonRuns {
  import opened Config
  import opened Routing
  import opened Rest
  import opened Teardown
  import opened Carryover
  import opened Dynamic

  /** leaving are the records whose drop has retired them and not yet come to the table. */
  datatype Point = Point(world: World, config: Config, leaving: set<nat>)

  datatype Step =
    | Load(config: Config)
    | Ask(es: EntryState, project: Project, tracker: nat)
    | DropBegin(id: nat)
    | DropEnd(id: nat)
    | Restart(id: nat, project: Project)

  ghost predicate Started(s: Point) {
    && Loaded(s.config) && AtRest(s.world) && Serves(s.world, s.config) && HostsNamed(s.world) && s.leaving == {}
  }

  /**
   A step from s to t. A worktree whose name is taken, and a drop or a restart that comes too late, change
   nothing; one whose entry is no longer in the table is registered all the same.
   */
  ghost predicate Next(s: Point, step: Step, t: Point) {
    var w := s.world;
    match step
    case Load(c) =>
      && Reloaded(w, t.world, c) && (HostsNamed(w) ==> HostsNamed(t.world))
      && t == s.(world := t.world, config := if Loaded(c) then c else s.config)
    case Ask(es, p, tracker) =>
      && (IsBound(w, es) || IsFormer(w, es)) && IsWorktree(es.entry, p)
      && t == if p.name in w.states then s else s.(world := RegisteredFor(w, es, p, tracker))
    case DropBegin(id) =>
      && id in w.objects && w.objects[id].dynamic
      && t == s.(world := Retired(w, id, false), leaving := s.leaving + {id})
    case DropEnd(id) =>
      && id in s.leaving && id in w.objects
      && t == s.(world := Unlisted(w, w.objects[id].project.name, id), leaving := s.leaving - {id})
    case Restart(id, p) =>
      && id in w.objects && w.objects[id].dynamic && p.name == w.objects[id].project.name && SameRoute(w.objects[id].project, p)
      && t == if p.name in w.states && w.states[p.name] == id then s.(world := Restarted(w, id, p)) else s
  }

  ghost predicate IsRun(points: seq<Point>, steps: seq<Step>) {
    && |points| == |steps| + 1 && Started(points[0])
    && forall i :: 0 <= i < |steps| ==> Next(points[i], steps[i], points[i + 1])
  }

  predicate AllRetired(w: World, ids: set<nat>) {
    forall id :: id in ids ==> id in w.objects && w.objects[id].retired
  }

  ghost predicate Ready(s: Point) {
    && Loaded(s.config) && AtRest(s.world) && Serves(s.world, s.config) && HostsNamed(s.world)
    && AllRetired(s.world, s.leaving)
  }

  // ---- What a step does to the project registered as n ----

  /** Nothing about n has changed but, perhaps, its record; it is in service if it was, unless this step drops it. */
  ghost predicate Follows(w: World, v: World, n: string, dropped: bool) {
    Placed(v, n) && (Live(v, n) <==> Live(w, n) && !dropped)
  }

  predicate Drops(w: World, step: Step, n: string) {
    step.DropBegin? && n in w.states && w.states[n] == step.id
  }

  lemma KeptFollows(w: World, v: World, n: string)
    requires ServingOk(v) && Kept(v, w, n) && Placed(w, n)
    ensures Follows(w, v, n, false)
  {
    assert Live(v, n) ==> ServedOk(v, v.objects[v.states[n]].sw);
  }

  /** All but n are as before, and n, if it is there, is an entry's: the configuration is still served. */
  lemma StillServes(w: World, v: World, c: Config, n: string)
    requires Serves(w, c) && v.entries == w.entries && n !in c.projects
    requires forall m :: m in w.states && m != n ==> m in v.states
    requires forall m :: m in v.states && m != n ==> Kept(v, w, m)
    requires n in v.states ==> IsDynamic(v, n)
    ensures Serves(v, c)
  {
    forall m | m in c.projects
      ensures IsStatic(v, m) && At(v, m).value.project.Equivalent(c.projects[m])
    {
      assert IsStatic(w, m) && Kept(v, w, m);
    }
    forall m | m in v.states && m !in c.projects
      ensures IsDynamic(v, m)
    {
      if m != n {
        assert Kept(v, w, m) && IsDynamic(w, m);
      }
    }
    forall m | m in v.entries
      ensures EntryStays(v, c, m)
    {
      assert EntryStays(w, c, m);
    }
  }

  lemma NotConfigured(w: World, c: Config, n: string)
    requires Serves(w, c) && IsDynamic(w, n)
    ensures n !in c.projects
  {
  }

  lemma SameIsKept(w: World, n: string)
    requires Placed(w, n)
    ensures Kept(w, w, n)
  {
  }

  lemma RegisteredRest(w: World, es: EntryState, p: Project, tracker: nat, ids: set<nat>)
    requires ServingOk(w) && AllRetired(w, ids)
    ensures var v := RegisteredFor(w, es, p, tracker);
      && v.entries == w.entries && AllRetired(v, ids) && v.states == w.states[p.name := w.nextId]
  {
  }

  lemma OffIsDynamic(w: World, n: string)
    requires Off(w, n)
    ensures IsDynamic(w, n) && !Live(w, n)
  {
  }

  /** Registered, in time or late: in service exactly if in time. */
  lemma AskedOne(w: World, es: EntryState, p: Project, tracker: nat)
    requires AtRest(w) && HostsNamed(w) && IsWorktree(es.entry, p) && p.name !in w.states
    ensures var v := RegisteredFor(w, es, p, tracker);
      && AtRest(v) && HostsNamed(v) && IsDynamic(v, p.name) && (Live(v, p.name) <==> IsBound(w, es))
      && forall n :: n in w.states ==> Kept(v, w, n)
  {
    if IsBound(w, es) {
      MaterialisedAtRest(w, es.entry.name, p, tracker);
      MaterialisedOthers(w, es.entry.name, p, tracker);
    } else {
      LateAtRest(w, p, tracker, es.id);
      LateOthers(w, p, tracker, es.id);
      OffIsDynamic(RegisteredLate(w, p, tracker, es.id), p.name);
    }
    hide AtRest, HostsNamed, Materialised, RegisteredLate, Kept, Live, IsDynamic;
  }

  lemma AskedKeeps(s: Point, es: EntryState, p: Project, tracker: nat, t: Point)
    requires Ready(s) && Next(s, Ask(es, p, tracker), t)
    ensures Ready(t) && forall n :: n in s.world.states && n in t.world.states ==> Follows(s.world, t.world, n, false)
  {
    var w, v := s.world, t.world;
    if p.name !in w.states {
      AskedOne(w, es, p, tracker);
      RegisteredRest(w, es, p, tracker, s.leaving);
      StillServes(w, v, s.config, p.name);
    }
    AtRestIs(v);
    WiringOf(v);
    hide RegisteredFor, AtRest, Serves, HostsNamed, Kept, Wired, Follows;
    forall n | n in w.states && n in v.states
      ensures Follows(w, v, n, false)
    {
      PlacedAt(w, n);
      if p.name in w.states {
        SameIsKept(w, n);
      }
      KeptFollows(w, v, n);
    }
  }

  lemma BegunFollows(w: World, id: nat, v: World, n: string)
    requires ServingOk(v) && Placed(w, n) && id in w.objects && n in v.states
    requires if Drops(w, DropBegin(id), n) then (if w.objects[id].retired then v == w && !Live(w, n) else Off(v, n) && !Live(v, n))
             else v == w || Kept(v, w, n)
    ensures Follows(w, v, n, Drops(w, DropBegin(id), n))
  {
    if !Drops(w, DropBegin(id), n) {
      if v == w {
        SameIsKept(w, n);
      }
      KeptFollows(w, v, n);
    }
  }

  lemma NotLive(w: World, id: nat)
    requires id in w.objects && w.objects[id].retired
    ensures forall n :: n in w.states && w.states[n] == id ==> !Live(w, n)
  {
  }

  lemma RetiredRest(w: World, id: nat, ids: set<nat>)
    requires id in w.objects && AllRetired(w, ids)
    ensures var v := Retired(w, id, false); v.entries == w.entries && v.states == w.states && AllRetired(v, ids + {id})
  {
  }

  lemma BegunKeeps(s: Point, id: nat, t: Point)
    requires Ready(s) && Next(s, DropBegin(id), t)
    ensures Ready(t)
    ensures forall n :: n in s.world.states && n in t.world.states ==> Follows(s.world, t.world, n, Drops(s.world, DropBegin(id), n))
  {
    var w, v := s.world, t.world;
    RetiredRest(w, id, s.leaving);
    AtRestIs(w);
    if w.objects[id].retired {
      RetiredStays(w, id, false);
      NotLive(w, id);
    } else {
      var n := w.objects[id].project.name;
      DropBegun(w, n);
      NotConfigured(w, s.config, n);
      OffIsDynamic(v, n);
      StillServes(w, v, s.config, n);
    }
    AtRestIs(v);
    WiringOf(v);
    hide Retired, AtRest, Serves, HostsNamed, Kept, Wired, Follows, Live, Off;
    forall n | n in w.states && n in v.states
      ensures Follows(w, v, n, Drops(w, DropBegin(id), n))
    {
      PlacedAt(w, n);
      BegunFollows(w, id, v, n);
    }
  }

  /** The row of a retired record goes, and nobody else's. */
  lemma LastStep(w: World, c: Config, id: nat, n: string)
    requires AtRest(w) && HostsNamed(w) && Serves(w, c) && id in w.objects && w.objects[id].retired
    requires n in w.states && w.states[n] == id
    ensures var v := w.(states := w.states - {n});
      AtRest(v) && HostsNamed(v) && Serves(v, c) && forall m :: m in v.states ==> Kept(v, w, m)
  {
    PlacedAt(w, n);
    OffIsDynamic(w, n);
    DropEnded(w, n);
    NotConfigured(w, c, n);
    hide AtRest, HostsNamed, Serves, Off, Live, Kept;
    StillServes(w, w.(states := w.states - {n}), c, n);
  }

  lemma EndedKeeps(s: Point, id: nat, t: Point)
    requires Ready(s) && Next(s, DropEnd(id), t)
    ensures Ready(t) && forall n :: n in s.world.states && n in t.world.states ==> Follows(s.world, t.world, n, false)
  {
    var w, v := s.world, t.world;
    var n := w.objects[id].project.name;
    if n in w.states && w.states[n] == id {
      LastStep(w, s.config, id, n);
    }
    AtRestIs(v);
    WiringOf(v);
    hide AtRest, Serves, HostsNamed, Kept, Wired, Follows, Live, Off;
    forall m | m in w.states && m in v.states
      ensures Follows(w, v, m, false)
    {
      PlacedAt(w, m);
      if v == w {
        SameIsKept(w, m);
      }
      KeptFollows(w, v, m);
    }
  }

  lemma RestartedRest(w: World, id: nat, p: Project, ids: set<nat>)
    requires ServingOk(w) && id in w.objects && AllRetired(w, ids)
    ensures var v := Restarted(w, id, p); v.entries == w.entries && AllRetired(v, ids)
  {
    InPlaceIs(w, id);
  }

  lemma RestartKeeps(s: Point, id: nat, p: Project, t: Point)
    requires Ready(s) && Next(s, Restart(id, p), t)
    ensures Ready(t) && forall n :: n in s.world.states && n in t.world.states ==> Follows(s.world, t.world, n, false)
  {
    var w, v, n := s.world, t.world, p.name;
    if n in w.states && w.states[n] == id {
      RestartedAtRest(w, n, p);
      RestartedRest(w, id, p, s.leaving);
      NotConfigured(w, s.config, n);
      StillServes(w, v, s.config, n);
    }
    AtRestIs(v);
    WiringOf(v);
    hide Restarted, AtRest, Serves, HostsNamed, Kept, Wired, Live, Off;
    forall m | m in w.states && m in v.states
      ensures Follows(w, v, m, false)
    {
      PlacedAt(w, m);
      PlacedAt(v, m);
      if v == w || m != n {
        if v == w {
          SameIsKept(w, m);
        }
        KeptFollows(w, v, m);
      }
    }
  }

  lemma PlacedIn(w: World, n: string)
    requires Matched(w) && n in w.states
    ensures Placed(w, n)
  {
  }

  lemma LoadKeeps(s: Point, c: Config, t: Point)
    requires Ready(s) && Next(s, Load(c), t)
    ensures Ready(t)
    ensures forall n :: n in s.world.states && n in t.world.states && n !in t.config.projects ==> Follows(s.world, t.world, n, false)
  {
    var w, v := s.world, t.world;
    AtRestIs(v);
    WiringOf(v);
    hide AtRest, Serves, HostsNamed, Wired, Live, Off, Follows, Kept, Rebuilt, EntriesCarried, Matched, Loaded;
    forall n | n in w.states && n in v.states && n !in t.config.projects
      ensures Follows(w, v, n, false)
    {
      AtRestIs(w);
      PlacedIn(w, n);
      if v == w {
        SameIsKept(w, n);
      }
      KeptFollows(w, v, n);
    }
  }

  /** A worktree that is registered is routed if and only if its very entry is still in the table. */
  lemma AskedIsRouted(s: Point, es: EntryState, p: Project, tracker: nat, t: Point)
    requires Ready(s) && Next(s, Ask(es, p, tracker), t) && p.name !in s.world.states
    ensures IsRouted(t.world, p.name) <==> IsBound(s.world, es)
  {
    AskedOne(s.world, es, p, tracker);
    hide AtRest, Live, IsRouted, RegisteredFor;
    RoutedIsLive(t.world, p.name);
  }

  // ---- Whole runs ----

  lemma StepKeeps(s: Point, step: Step, t: Point)
    requires Ready(s) && Next(s, step, t)
    ensures Ready(t)
    ensures forall n :: n in s.world.states && n in t.world.states && n !in t.config.projects ==>
      Follows(s.world, t.world, n, Drops(s.world, step, n))
  {
    hide Ready, Next, Follows;
    match step
    case Load(c) => LoadKeeps(s, c, t);
    case Ask(es, p, tracker) => AskedKeeps(s, es, p, tracker, t);
    case DropBegin(id) => BegunKeeps(s, id, t);
    case DropEnd(id) => EndedKeeps(s, id, t);
    case Restart(id, p) => RestartKeeps(s, id, p, t);
  }

  lemma StartedIsReady(s: Point)
    requires Started(s)
    ensures Ready(s)
  {
  }

  lemma {:induction false} AlwaysReady(points: seq<Point>, steps: seq<Step>, i: nat)
    requires IsRun(points, steps) && i < |points|
    ensures Ready(points[i])
  {
    if i == 0 {
      StartedIsReady(points[0]);
    } else {
      hide Next, Started, Ready;
      AlwaysReady(points, steps, i - 1);
      StepKeeps(points[i - 1], steps[i - 1], points[i]);
    }
  }

  /** At every point of its life the daemon answers as its current configuration says. */
  lemma AlwaysAsConfigured(points: seq<Point>, steps: seq<Step>, i: nat, addr: Address, host: string, seen: Seen)
    requires IsRun(points, steps) && i < |points| && !TakenByDynamic(points[i].world, addr, host)
    ensures Sees(points[i].world, addr, host, seen) <==> Expects(points[i].config, addr, host, seen)
  {
    AlwaysReady(points, steps, i);
    RoutingIsConfigured(points[i].world, points[i].config, addr, host, seen);
  }

  /** No record is ever lost: at every point it is retired, or the one the table holds under its name. */
  lemma NobodyIsLost(points: seq<Point>, steps: seq<Step>, i: nat, id: nat)
    requires IsRun(points, steps) && i < |points| && id in points[i].world.objects
    ensures points[i].world.objects[id].retired || Listed(points[i].world, id)
  {
    AlwaysReady(points, steps, i);
  }

  /** Registered for an entry from i to j. */
  ghost predicate Remains(points: seq<Point>, i: nat, j: nat, n: string)
    requires j < |points|
  {
    forall k :: i <= k <= j ==> n in points[k].world.states && n !in points[k].config.projects
  }

  /** A drop of n's then record begins between i and j. */
  ghost predicate DroppedBetween(points: seq<Point>, steps: seq<Step>, i: nat, j: nat, n: string)
    requires |points| == |steps| + 1 && j < |points|
  {
    exists k :: i <= k < j && Drops(points[k].world, steps[k], n)
  }

  lemma RoutedNext(s: Point, step: Step, t: Point, n: string)
    requires Ready(s) && Next(s, step, t) && n in s.world.states && n in t.world.states && n !in t.config.projects
    ensures IsRouted(t.world, n) <==> IsRouted(s.world, n) && !Drops(s.world, step, n)
  {
    StepKeeps(s, step, t);
    RoutedIsLive(s.world, n);
    RoutedIsLive(t.world, n);
    hide Next, AtRest, IsRouted, Live, Off, Drops;
  }

  lemma NotDroppedYet(points: seq<Point>, steps: seq<Step>, i: nat, n: string)
    requires |points| == |steps| + 1 && i < |points|
    ensures !DroppedBetween(points, steps, i, i, n)
  {
  }

  lemma DroppedNext(points: seq<Point>, steps: seq<Step>, i: nat, j: nat, n: string)
    requires |points| == |steps| + 1 && i < j < |points|
    ensures DroppedBetween(points, steps, i, j, n) <==>
      DroppedBetween(points, steps, i, j - 1, n) || Drops(points[j - 1].world, steps[j - 1], n)
  {
    hide Drops;
  }

  /**
   Exactly when a registered worktree is routed: if it was when it registered, which is if its entry was
   still in the table, and no drop of it has begun since. A drop
   that has begun and does not come to delete the row, because a restart has put another record
   there, leaves the worktree unrouted, whatever materialising, restarting or reloading follows.
   */
  lemma {:induction false} RoutedUnlessDropped(points: seq<Point>, steps: seq<Step>, i: nat, j: nat, n: string)
    requires IsRun(points, steps) && i <= j < |points| && Remains(points, i, j, n)
    ensures IsRouted(points[j].world, n) <==> IsRouted(points[i].world, n) && !DroppedBetween(points, steps, i, j, n)
  {
    hide Next, Started, DroppedBetween, IsRouted, Drops, Ready;
    if i == j {
      NotDroppedYet(points, steps, i, n);
    } else {
      RoutedUnlessDropped(points, steps, i, j - 1, n);
      DroppedNext(points, steps, i, j, n);
      AlwaysReady(points, steps, j - 1);
      RoutedNext(points[j - 1], steps[j - 1], points[j], n);
    }
  }
}
