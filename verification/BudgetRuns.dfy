/**
 The running-server budget over every interleaving. A reservation holds the budget lock, reads
 the projects' states one at a time, and starts only if its own count leaves room; everything
 that is not a start may happen to any project between two of its reads.
 */
module BudgetRuns {
  import opened Options
  import opened Lifecycle
  import LifecycleRuns
  import opened Sets

  datatype Project = Project(sup: Sup, entry: Option<nat>, registered: bool)

  /** The reservation that holds the lock: whom it is for, what it lists, how far it has read, and its counts. */
  datatype Scan = Scan(id: nat, listed: seq<nat>, next: nat, ofAll: nat, ofEntry: nat)

  /** A cap of 0, or none for an entry, means unlimited. */
  datatype Budget = Budget(maxRunning: nat, entryCaps: map<nat, nat>, projects: map<nat, Project>, lock: Option<Scan>)

  function EntryCap(b: Budget, e: Option<nat>): nat {
    if e.Some? && e.value in b.entryCaps then b.entryCaps[e.value] else 0
  }

  predicate IsStart(e: Event) {
    e.EvManual? || e.EvOnDemand?
  }

  /** A start that the supervisor answers without spawning: nothing to claim, or suppressed by backoff. */
  predicate ClaimsNothing(sup: Sup, e: Event) {
    sup.phase == Running || sup.phase == Starting || sup.phase == Stopping || (e.EvOnDemand? && Suppressed(sup, e.now))
  }

  predicate Holds(p: Project) {
    p.registered && Active(p.sup)
  }

  function Holders(ps: map<nat, Project>): set<nat> {
    set i | i in ps && Holds(ps[i])
  }

  function EntryHolders(ps: map<nat, Project>, e: nat): set<nat> {
    set i | i in ps && Holds(ps[i]) && ps[i].entry == Some(e)
  }

  // ---- Steps ----

  datatype Step =
    | Register(id: nat, entry: Option<nat>)
    | Unregister(id: nat)
    | Happens(id: nat, e: Event)
    | StartOutside(id: nat, e: Event)
    | Lock(id: nat, listed: seq<nat>)
    | ReadOne
    | Recount
    | Start(e: Event)
    | Refuse

  /** The order of the listing is the names' order in the daemon; no count depends on it. */
  predicate ListsRegistered(b: Budget, listed: seq<nat>) {
    && (forall i :: i in b.projects && b.projects[i].registered ==> i in listed)
    && (forall k :: 0 <= k < |listed| ==> listed[k] in b.projects)
    && (forall j, k :: 0 <= j < k < |listed| ==> listed[j] != listed[k])
  }

  predicate ScanDone(b: Budget) {
    b.lock.Some? && b.lock.value.next == |b.lock.value.listed|
  }

  predicate HasRoom(b: Budget)
    requires b.lock.Some? && b.lock.value.id in b.projects
  {
    var cap := EntryCap(b, b.projects[b.lock.value.id].entry);
    && (b.maxRunning > 0 ==> b.lock.value.ofAll < b.maxRunning)
    && (cap > 0 ==> b.lock.value.ofEntry < cap)
  }

  predicate StepEnabled(b: Budget, x: Step) {
    match x
    case Register(id, _) => id !in b.projects
    case Unregister(id) => id in b.projects
    case Happens(id, e) => id in b.projects && Enabled(b.projects[id].sup, e) && !IsStart(e)
    // Starts that need no slot: short-circuited, of an unregistered project, or with no cap that applies.
    case StartOutside(id, e) =>
      && id in b.projects && IsStart(e)
      && (ClaimsNothing(b.projects[id].sup, e) || !b.projects[id].registered
          || (b.maxRunning == 0 && EntryCap(b, b.projects[id].entry) == 0))
    case Lock(id, listed) => b.lock == None && id in b.projects && b.projects[id].registered && ListsRegistered(b, listed)
    case ReadOne =>
      b.lock.Some? && b.lock.value.next < |b.lock.value.listed| && b.lock.value.listed[b.lock.value.next] in b.projects
    case Recount => ScanDone(b)
    case Start(e) => ScanDone(b) && b.lock.value.id in b.projects && HasRoom(b) && IsStart(e)
    case Refuse => b.lock.Some?
  }

  function SetSup(b: Budget, id: nat, sup: Sup): Budget
    requires id in b.projects
  {
    b.(projects := b.projects[id := b.projects[id].(sup := sup)])
  }

  function Count(b: Budget, c: Scan): Scan
    requires c.next < |c.listed| && c.listed[c.next] in b.projects && c.id in b.projects
  {
    var p := b.projects[c.listed[c.next]];
    var entry := b.projects[c.id].entry;
    c.(next := c.next + 1,
       ofAll := c.ofAll + if Active(p.sup) then 1 else 0,
       ofEntry := c.ofEntry + if Active(p.sup) && entry.Some? && p.entry == entry then 1 else 0)
  }

  function Next(b: Budget, x: Step): Budget
    requires StepEnabled(b, x)
    requires b.lock.Some? ==> b.lock.value.id in b.projects
  {
    match x
    case Register(id, entry) => b.(projects := b.projects[id := Project(INIT, entry, true)])
    case Unregister(id) => b.(projects := b.projects[id := b.projects[id].(registered := false)])
    case Happens(id, e) => SetSup(b, id, Apply(b.projects[id].sup, e))
    case StartOutside(id, e) => SetSup(b, id, Apply(b.projects[id].sup, e))
    case Lock(id, listed) => b.(lock := Some(Scan(id, listed, 0, 0, 0)))
    case ReadOne => b.(lock := Some(Count(b, b.lock.value)))
    case Recount => b.(lock := Some(b.lock.value.(next := 0, ofAll := 0, ofEntry := 0)))
    case Start(e) => SetSup(b, b.lock.value.id, Apply(b.projects[b.lock.value.id].sup, e)).(lock := None)
    case Refuse => b.(lock := None)
  }

  // ---- The invariant ----

  ghost predicate WithinCaps(b: Budget) {
    && (b.maxRunning > 0 ==> |Holders(b.projects)| <= b.maxRunning)
    && (forall e :: e in b.entryCaps && b.entryCaps[e] > 0 ==> |EntryHolders(b.projects, e)| <= b.entryCaps[e])
  }

  /** The projects read so far that hold a slot now. */
  function ReadHolders(ps: map<nat, Project>, c: Scan): set<nat>
    requires c.next <= |c.listed|
  {
    set i | i in c.listed[..c.next] && i in ps && Holds(ps[i])
  }

  function ReadEntryHolders(ps: map<nat, Project>, c: Scan, e: nat): set<nat>
    requires c.next <= |c.listed|
  {
    set i | i in c.listed[..c.next] && i in ps && Holds(ps[i]) && ps[i].entry == Some(e)
  }

  ghost predicate AllCounted(ps: map<nat, Project>, c: Scan)
    requires c.next <= |c.listed|
  {
    && (forall i :: i in ps && Holds(ps[i]) ==> i in c.listed)
    && |ReadHolders(ps, c)| <= c.ofAll
  }

  ghost predicate EntryCounted(ps: map<nat, Project>, c: Scan, e: nat)
    requires c.next <= |c.listed|
  {
    && (forall i :: i in ps && Holds(ps[i]) && ps[i].entry == Some(e) ==> i in c.listed)
    && |ReadEntryHolders(ps, c, e)| <= c.ofEntry
  }

  /** Under the lock no capped slot is claimed, so what the scan has counted is never too little. */
  ghost predicate ScanOk(b: Budget, c: Scan) {
    && c.id in b.projects && c.next <= |c.listed|
    && (forall j, k :: 0 <= j < k < |c.listed| ==> c.listed[j] != c.listed[k])
    && (forall k :: 0 <= k < |c.listed| ==> c.listed[k] in b.projects)
    && (b.maxRunning > 0 ==> AllCounted(b.projects, c))
    && (EntryCap(b, b.projects[c.id].entry) > 0 ==> EntryCounted(b.projects, c, b.projects[c.id].entry.value))
  }

  ghost predicate BudgetInv(b: Budget) {
    && WithinCaps(b)
    && (b.lock.Some? ==> ScanOk(b, b.lock.value))
  }

  // ---- Preservation ----

  lemma NoClaimInScan(b: Budget, ps: map<nat, Project>, id: nat)
    requires b.lock.Some? && ScanOk(b, b.lock.value)
    requires ps.Keys == b.projects.Keys + {id} && forall i :: i in ps && i != id ==> ps[i] == b.projects[i]
    requires id in b.projects ==> ps[id].entry == b.projects[id].entry
    requires Holds(ps[id]) ==> id in b.projects && Holds(b.projects[id])
    ensures ScanOk(b.(projects := ps), b.lock.value)
  {
    var c := b.lock.value;
    Shrinks(ReadHolders(ps, c), ReadHolders(b.projects, c));
    if ps[c.id].entry.Some? {
      Shrinks(ReadEntryHolders(ps, c, ps[c.id].entry.value), ReadEntryHolders(b.projects, c, ps[c.id].entry.value));
    }
  }

  /** A change of one project that claims no slot can only lower counts. */
  lemma NoClaim(b: Budget, ps: map<nat, Project>, id: nat)
    requires BudgetInv(b)
    requires ps.Keys == b.projects.Keys + {id} && forall i :: i in ps && i != id ==> ps[i] == b.projects[i]
    requires id in b.projects ==> ps[id].entry == b.projects[id].entry
    requires Holds(ps[id]) ==> id in b.projects && Holds(b.projects[id])
    ensures BudgetInv(b.(projects := ps))
  {
    Shrinks(Holders(ps), Holders(b.projects));
    forall e | e in b.entryCaps && b.entryCaps[e] > 0
      ensures |EntryHolders(ps, e)| <= b.entryCaps[e]
    {
      Shrinks(EntryHolders(ps, e), EntryHolders(b.projects, e));
    }
    if b.lock.Some? {
      NoClaimInScan(b, ps, id);
    }
  }

  lemma OnlyStartsClaim(sup: Sup, e: Event)
    requires Enabled(sup, e) && (!IsStart(e) || ClaimsNothing(sup, e))
    ensures Active(Apply(sup, e)) ==> Active(sup)
  {
    LifecycleRuns.StepFacts(sup, e);
  }

  lemma ReadAll(ps: map<nat, Project>, c: Scan, d: Scan)
    requires c.next < |c.listed| && d.listed == c.listed && d.next == c.next + 1 && c.listed[c.next] in ps
    requires d.ofAll == c.ofAll + (if Active(ps[c.listed[c.next]].sup) then 1 else 0)
    requires AllCounted(ps, c)
    ensures AllCounted(ps, d)
  {
    var i := c.listed[c.next];
    assert c.listed[..d.next] == c.listed[..c.next] + [i];
    if Holds(ps[i]) {
      assert ReadHolders(ps, d) == ReadHolders(ps, c) + {i};
    } else {
      assert ReadHolders(ps, d) == ReadHolders(ps, c);
    }
  }

  lemma ReadEntry(ps: map<nat, Project>, c: Scan, d: Scan, e: nat)
    requires c.next < |c.listed| && d.listed == c.listed && d.next == c.next + 1 && c.listed[c.next] in ps
    requires d.ofEntry == c.ofEntry + (if Active(ps[c.listed[c.next]].sup) && ps[c.listed[c.next]].entry == Some(e) then 1 else 0)
    requires EntryCounted(ps, c, e)
    ensures EntryCounted(ps, d, e)
  {
    var i := c.listed[c.next];
    assert c.listed[..d.next] == c.listed[..c.next] + [i];
    if Holds(ps[i]) && ps[i].entry == Some(e) {
      assert ReadEntryHolders(ps, d, e) == ReadEntryHolders(ps, c, e) + {i};
    } else {
      assert ReadEntryHolders(ps, d, e) == ReadEntryHolders(ps, c, e);
    }
  }

  lemma ReadKeeps(b: Budget)
    requires BudgetInv(b) && StepEnabled(b, ReadOne)
    ensures BudgetInv(Next(b, ReadOne))
  {
    var c := b.lock.value;
    if b.maxRunning > 0 {
      ReadAll(b.projects, c, Count(b, c));
    }
    if EntryCap(b, b.projects[c.id].entry) > 0 {
      ReadEntry(b.projects, c, Count(b, c), b.projects[c.id].entry.value);
    }
  }

  lemma ScanStarts(b: Budget, c: Scan)
    requires c.id in b.projects && c.next == 0 && ListsRegistered(b, c.listed)
    ensures ScanOk(b, c)
  {
    assert ReadHolders(b.projects, c) == {};
    if b.projects[c.id].entry.Some? {
      assert ReadEntryHolders(b.projects, c, b.projects[c.id].entry.value) == {};
    }
  }

  lemma RecountKeeps(b: Budget)
    requires BudgetInv(b) && StepEnabled(b, Recount)
    ensures BudgetInv(Next(b, Recount))
  {
    var c := b.lock.value.(next := 0, ofAll := 0, ofEntry := 0);
    assert ReadHolders(b.projects, c) == {};
    if b.projects[c.id].entry.Some? {
      assert ReadEntryHolders(b.projects, c, b.projects[c.id].entry.value) == {};
    }
  }

  /** The scan's own count bounds what is held now, so one more start stays within both caps. */
  lemma StartKeeps(b: Budget, e: Event)
    requires BudgetInv(b) && StepEnabled(b, Start(e))
    ensures BudgetInv(Next(b, Start(e)))
  {
    var c := b.lock.value;
    var n := Next(b, Start(e));
    assert c.listed[..c.next] == c.listed;
    if b.maxRunning > 0 {
      assert Holders(b.projects) == ReadHolders(b.projects, c);
      Shrinks(Holders(n.projects), Holders(b.projects) + {c.id});
    }
    forall k | k in b.entryCaps && b.entryCaps[k] > 0
      ensures |EntryHolders(n.projects, k)| <= b.entryCaps[k]
    {
      if b.projects[c.id].entry == Some(k) {
        assert EntryHolders(b.projects, k) == ReadEntryHolders(b.projects, c, k);
        Shrinks(EntryHolders(n.projects, k), EntryHolders(b.projects, k) + {c.id});
      } else {
        Shrinks(EntryHolders(n.projects, k), EntryHolders(b.projects, k));
      }
    }
  }

  /** A start no cap applies to leaves every cap, and every scan that serves one, alone. */
  lemma UncappedKeeps(b: Budget, id: nat, sup: Sup)
    requires BudgetInv(b) && id in b.projects && b.maxRunning == 0 && EntryCap(b, b.projects[id].entry) == 0
    ensures BudgetInv(SetSup(b, id, sup))
  {
    var n := SetSup(b, id, sup);
    forall k | k in b.entryCaps && b.entryCaps[k] > 0
      ensures |EntryHolders(n.projects, k)| <= b.entryCaps[k]
    {
      assert EntryHolders(n.projects, k) == EntryHolders(b.projects, k);
    }
    if b.lock.Some? {
      var c := b.lock.value;
      if EntryCap(b, b.projects[c.id].entry) > 0 {
        assert ReadEntryHolders(n.projects, c, b.projects[c.id].entry.value)
            == ReadEntryHolders(b.projects, c, b.projects[c.id].entry.value);
      }
    }
  }

  lemma OutsideKeeps(b: Budget, id: nat, e: Event)
    requires BudgetInv(b) && StepEnabled(b, StartOutside(id, e))
    ensures BudgetInv(Next(b, StartOutside(id, e)))
  {
    var sup := Apply(b.projects[id].sup, e);
    if ClaimsNothing(b.projects[id].sup, e) || !b.projects[id].registered {
      if ClaimsNothing(b.projects[id].sup, e) {
        OnlyStartsClaim(b.projects[id].sup, e);
      }
      NoClaim(b, b.projects[id := b.projects[id].(sup := sup)], id);
    } else {
      UncappedKeeps(b, id, sup);
    }
  }

  lemma BudgetStep(b: Budget, x: Step)
    requires BudgetInv(b) && StepEnabled(b, x)
    ensures BudgetInv(Next(b, x))
  {
    match x
    case Register(id, entry) => NoClaim(b, b.projects[id := Project(INIT, entry, true)], id);
    case Unregister(id) => NoClaim(b, b.projects[id := b.projects[id].(registered := false)], id);
    case Happens(id, e) =>
      OnlyStartsClaim(b.projects[id].sup, e);
      NoClaim(b, b.projects[id := b.projects[id].(sup := Apply(b.projects[id].sup, e))], id);
    case StartOutside(id, e) => OutsideKeeps(b, id, e);
    case Lock(id, listed) => ScanStarts(b, Scan(id, listed, 0, 0, 0));
    case ReadOne => ReadKeeps(b);
    case Recount => RecountKeeps(b);
    case Start(e) => StartKeeps(b, e);
    case Refuse =>
  }

  // ---- Runs ----

  ghost predicate CanRun(b: Budget, xs: seq<Step>)
    decreases |xs|
  {
    xs == [] || (StepEnabled(b, xs[0]) && (b.lock.Some? ==> b.lock.value.id in b.projects) && CanRun(Next(b, xs[0]), xs[1..]))
  }

  function Run(b: Budget, xs: seq<Step>): Budget
    requires CanRun(b, xs)
    decreases |xs|
  {
    if xs == [] then b else Run(Next(b, xs[0]), xs[1..])
  }

  lemma {:induction false} BudgetInvRun(b: Budget, xs: seq<Step>)
    requires BudgetInv(b) && CanRun(b, xs)
    ensures BudgetInv(Run(b, xs))
    decreases |xs|
  {
    if xs != [] {
      BudgetStep(b, xs[0]);
      BudgetInvRun(Next(b, xs[0]), xs[1..]);
    }
  }

  /**
   From any state within the caps, whatever reservations, evictions, readiness, exits, stops,
   registrations and removals are interleaved, the registered projects that are starting or
   running never exceed max_running, nor those of an entry the entry's own cap.
   */
  lemma CapsHold(b: Budget, xs: seq<Step>)
    requires WithinCaps(b) && b.lock == None && CanRun(b, xs)
    ensures WithinCaps(Run(b, xs))
  {
    BudgetInvRun(b, xs);
  }

  // ---- A reservation by itself ----

  /** The scan has counted exactly what it has read. */
  predicate CountsExactly(b: Budget, c: Scan)
    requires c.next <= |c.listed|
  {
    && c.id in b.projects
    && c.ofAll == |ReadHolders(b.projects, c)|
    && c.ofEntry == var e := b.projects[c.id].entry; if e.Some? then |ReadEntryHolders(b.projects, c, e.value)| else 0
  }

  lemma ReadsOne(ps: map<nat, Project>, c: Scan, d: Scan)
    requires c.next < |c.listed| && d.listed == c.listed && d.next == c.next + 1 && c.listed[c.next] in ps
    requires forall k :: 0 <= k < c.next ==> c.listed[k] != c.listed[c.next]
    ensures |ReadHolders(ps, d)| == |ReadHolders(ps, c)| + if Holds(ps[c.listed[c.next]]) then 1 else 0
  {
    var i := c.listed[c.next];
    assert c.listed[..d.next] == c.listed[..c.next] + [i];
    assert ReadHolders(ps, d) == if Holds(ps[i]) then ReadHolders(ps, c) + {i} else ReadHolders(ps, c);
    assert i !in ReadHolders(ps, c);
    hide ReadHolders;
  }

  lemma ReadsOneOf(ps: map<nat, Project>, c: Scan, d: Scan, e: nat)
    requires c.next < |c.listed| && d.listed == c.listed && d.next == c.next + 1 && c.listed[c.next] in ps
    requires forall k :: 0 <= k < c.next ==> c.listed[k] != c.listed[c.next]
    ensures |ReadEntryHolders(ps, d, e)|
         == |ReadEntryHolders(ps, c, e)| + if Holds(ps[c.listed[c.next]]) && ps[c.listed[c.next]].entry == Some(e) then 1 else 0
  {
    var i := c.listed[c.next];
    var counts := Holds(ps[i]) && ps[i].entry == Some(e);
    assert c.listed[..d.next] == c.listed[..c.next] + [i];
    assert ReadEntryHolders(ps, d, e) == if counts then ReadEntryHolders(ps, c, e) + {i} else ReadEntryHolders(ps, c, e);
    assert i !in ReadEntryHolders(ps, c, e);
    hide ReadEntryHolders;
  }

  lemma ReadsExactly(b: Budget)
    requires b.lock.Some? && StepEnabled(b, ReadOne) && CountsExactly(b, b.lock.value)
    requires forall k :: 0 <= k < b.lock.value.next ==> b.lock.value.listed[k] != b.lock.value.listed[b.lock.value.next]
    requires b.projects[b.lock.value.listed[b.lock.value.next]].registered
    ensures var n := Next(b, ReadOne);
      n == b.(lock := n.lock) && n.lock == Some(Count(b, b.lock.value)) && CountsExactly(n, n.lock.value)
  {
    var c := b.lock.value;
    ReadsOne(b.projects, c, Count(b, c));
    if b.projects[c.id].entry.Some? {
      ReadsOneOf(b.projects, c, Count(b, c), b.projects[c.id].entry.value);
    }
    hide ReadHolders, ReadEntryHolders;
  }

  function Reads(k: nat): seq<Step> {
    if k == 0 then [] else [ReadOne] + Reads(k - 1)
  }

  lemma {:induction false} ReadsAll(b: Budget, k: nat)
    requires b.lock.Some? && b.lock.value.next + k == |b.lock.value.listed| && CountsExactly(b, b.lock.value)
    requires var listed := b.lock.value.listed;
      && (forall j, l :: 0 <= j < l < |listed| ==> listed[j] != listed[l])
      && (forall j :: 0 <= j < |listed| ==> listed[j] in b.projects && b.projects[listed[j]].registered)
    ensures CanRun(b, Reads(k))
    ensures var n := Run(b, Reads(k));
      && n == b.(lock := n.lock) && n.lock.Some? && n.lock.value.id == b.lock.value.id && ScanDone(n)
      && n.lock.value.listed == b.lock.value.listed && CountsExactly(n, n.lock.value)
    decreases k
  {
    if k > 0 {
      hide CountsExactly;
      ReadsExactly(b);
      ReadsAll(Next(b, ReadOne), k - 1);
      assert Reads(k)[0] == ReadOne && Reads(k)[1..] == Reads(k - 1);
    }
  }

  lemma NothingRead(b: Budget)
    requires b.lock.Some? && b.lock.value.next == 0 && b.lock.value.ofAll == 0 && b.lock.value.ofEntry == 0
    requires b.lock.value.id in b.projects
    ensures CountsExactly(b, b.lock.value)
  {
    var c := b.lock.value;
    assert ReadHolders(b.projects, c) == {};
    if b.projects[c.id].entry.Some? {
      assert ReadEntryHolders(b.projects, c, b.projects[c.id].entry.value) == {};
    }
  }

  lemma ReadEverything(ps: map<nat, Project>, c: Scan)
    requires c.next == |c.listed| && c.id in ps && forall i :: i in ps && ps[i].registered ==> i in c.listed
    ensures ReadHolders(ps, c)
         == set i | i in ps && ps[i].registered && (ps[i].sup.phase == Starting || ps[i].sup.phase == Running)
    ensures var entry := ps[c.id].entry; entry.Some? ==>
      ReadEntryHolders(ps, c, entry.value)
      == set i | i in ps && ps[i].registered && (ps[i].sup.phase == Starting || ps[i].sup.phase == Running) && ps[i].entry == entry
  {
    assert c.listed[..c.next] == c.listed;
  }

  lemma Scanned(b: Budget, id: nat, listed: seq<nat>)
    requires b.lock == None && StepEnabled(b, Lock(id, listed))
    requires forall k :: 0 <= k < |listed| ==> b.projects[listed[k]].registered
    ensures CanRun(b, [Lock(id, listed)] + Reads(|listed|))
    ensures var n := Run(b, [Lock(id, listed)] + Reads(|listed|));
      && n == b.(lock := n.lock) && n.lock.Some? && n.lock.value.id == id && ScanDone(n)
      && n.lock.value.listed == listed && CountsExactly(n, n.lock.value)
  {
    var locked := Next(b, Lock(id, listed));
    NothingRead(locked);
    hide CountsExactly;
    ReadsAll(locked, |listed|);
    var xs := [Lock(id, listed)] + Reads(|listed|);
    assert xs[0] == Lock(id, listed) && xs[1..] == Reads(|listed|);
  }

  /**
   A reservation nobody interferes with counts exactly the slots taken, and may start its project exactly if
   both caps, where they are set, leave one more.
   */
  lemma ReservationDecides(b: Budget, id: nat, listed: seq<nat>, e: Event)
    requires b.lock == None && id in b.projects && b.projects[id].registered && ListsRegistered(b, listed) && IsStart(e)
    requires forall k :: 0 <= k < |listed| ==> b.projects[listed[k]].registered
    ensures CanRun(b, [Lock(id, listed)] + Reads(|listed|))
    ensures var n := Run(b, [Lock(id, listed)] + Reads(|listed|));
      var entry, ps := b.projects[id].entry, b.projects;
      && n.projects == b.projects && n.lock.Some?
      && (StepEnabled(n, Start(e)) <==>
            && (b.maxRunning > 0 ==>
                  |set i | i in ps && ps[i].registered && (ps[i].sup.phase == Starting || ps[i].sup.phase == Running)|
                  < b.maxRunning)
            && (entry.Some? && entry.value in b.entryCaps && b.entryCaps[entry.value] > 0 ==>
                  |set i | i in ps && ps[i].registered && (ps[i].sup.phase == Starting || ps[i].sup.phase == Running)
                                   && ps[i].entry == entry|
                  < b.entryCaps[entry.value]))
      && (StepEnabled(n, Start(e)) ==>
            Next(n, Start(e)).lock == None && Next(n, Start(e)).projects == ps[id := ps[id].(sup := Apply(ps[id].sup, e))])
  {
    Scanned(b, id, listed);
    var n := Run(b, [Lock(id, listed)] + Reads(|listed|));
    ReadEverything(b.projects, n.lock.value);
    assert CountsExactly(n, n.lock.value);
    hide Run, CanRun, Reads, ReadHolders, ReadEntryHolders, ListsRegistered;
  }
}
