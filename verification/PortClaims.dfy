/**
 What a sync guarantees about ports: exclusive claims, supervisor ports that never move, and a second
 sync that changes nothing - exactly when no port a project was refused has become free meanwhile.
 */
module PortClaims {
  import opened Options
  import opened Ports
  import Config

  /** Whatever is held stays held by the same. */
  ghost predicate Keeps(before: Used, now: Used) {
    forall p :: Holder(before, p) != "" ==> Holder(now, p) == Holder(before, p)
  }

  /** A project holds both its ports, and they are two. */
  predicate Holds(used: Used, name: string, p: Project) {
    Holder(used, p.supervisorPort) == name && Holder(used, p.applicationPort) == name && p.supervisorPort != p.applicationPort
  }

  ghost predicate AllHold(used: Used, projects: map<string, Project>) {
    forall n :: n in projects ==> n != "" && Holds(used, n, projects[n])
  }

  predicate DistinctNames(cands: seq<Candidate>) {
    && (forall i :: 0 <= i < |cands| ==> cands[i].name != "")
    && (forall i, j :: 0 <= i < j < |cands| ==> cands[i].name != cands[j].name)
  }

  // ---- What a configuration uses ----

  predicate Uses(p: Config.Project, port: int) {
    port == p.supervisorPort || port == p.applicationPort
  }

  function ListenerName(e: Config.Entry): string {
    "discovery:" + e.name
  }

  /** A project or wildcard listener, by the name it holds its ports under, that the configuration has on this port. */
  ghost predicate IsUser(c: Config.Config, done: set<string>, entries: seq<Config.Entry>, port: int, who: string) {
    || (who in done && who in c.projects && Uses(c.projects[who], port))
    || exists i :: 0 <= i < |entries| && entries[i].wildcard && entries[i].supervisorPort == port && who == ListenerName(entries[i])
  }

  /** Each port met so far is held by one of those that use it. */
  ghost predicate HeldByUsers(used: Used, c: Config.Config, done: set<string>, entries: seq<Config.Entry>) {
    forall port :: Holder(used, port) != "" ==> IsUser(c, done, entries, port, Holder(used, port))
  }

  /** An application port belongs to its project alone; a supervisor port does unless the project has a hostname to share it by. */
  predicate HoldsItsOwn(used: Used, n: string, p: Config.Project) {
    && Holder(used, p.applicationPort) == n && Holder(used, p.supervisorPort) != ""
    && (p.host == "" ==> Holder(used, p.supervisorPort) == n)
  }

  ghost predicate ProjectsHold(used: Used, c: Config.Config, done: set<string>) {
    forall n :: n in done && n in c.projects ==> HoldsItsOwn(used, n, c.projects[n])
  }

  ghost predicate ListenersHold(used: Used, entries: seq<Config.Entry>) {
    forall i :: 0 <= i < |entries| && entries[i].wildcard ==> Holder(used, entries[i].supervisorPort) == ListenerName(entries[i])
  }

  /** One project more claims its two ports; nobody met before it loses one that was its own. */
  lemma OneMoreHolds(used: Used, c: Config.Config, done: set<string>, n: string)
    requires Config.Loaded(c) && n in c.projects && n !in done
    requires ProjectsHold(used, c, done) && HeldByUsers(used, c, done, [])
    ensures var p := c.projects[n]; var now := used[p.supervisorPort := n][p.applicationPort := n];
      ProjectsHold(now, c, done + {n}) && HeldByUsers(now, c, done + {n}, [])
  {
    var p := c.projects[n];
    var now := used[p.supervisorPort := n][p.applicationPort := n];
    assert Config.SelfOk(p);
    forall m | m in done + {n} && m in c.projects
      ensures HoldsItsOwn(now, m, c.projects[m])
    {
      if m != n {
        assert HoldsItsOwn(used, m, c.projects[m]) && Config.MayCoexist(c.projects[m], p);
      }
    }
    forall port | Holder(now, port) != ""
      ensures IsUser(c, done + {n}, [], port, Holder(now, port))
    {
      assert Uses(p, port) || IsUser(c, done, [], port, Holder(used, port));
    }
  }

  lemma OneListenerMore(used: Used, c: Config.Config, i: nat)
    requires Config.Loaded(c) && i < |c.entries| && c.entries[i].wildcard
    requires ProjectsHold(used, c, c.projects.Keys) && ListenersHold(used, c.entries[..i])
    ensures var now := used[c.entries[i].supervisorPort := ListenerName(c.entries[i])];
      ProjectsHold(now, c, c.projects.Keys) && ListenersHold(now, c.entries[..i + 1])
  {
    var e := c.entries[i];
    var now := used[e.supervisorPort := ListenerName(e)];
    forall n | n in c.projects
      ensures HoldsItsOwn(now, n, c.projects[n])
    {
      assert HoldsItsOwn(used, n, c.projects[n]) && Config.PortsApart(e, c.projects[n]);
    }
    forall j | 0 <= j < i && c.entries[j].wildcard
      ensures Holder(now, c.entries[j].supervisorPort) == ListenerName(c.entries[j])
    {
      assert c.entries[..i][j] == c.entries[j] && Config.EntriesApart(c.entries[j], e);
    }
  }

  lemma MoreUsers(c: Config.Config, done: set<string>, i: nat, port: int, who: string)
    requires i < |c.entries| && IsUser(c, done, c.entries[..i], port, who)
    ensures IsUser(c, done, c.entries[..i + 1], port, who)
  {
    var before, now := c.entries[..i], c.entries[..i + 1];
    if j :| 0 <= j < i && before[j].wildcard && before[j].supervisorPort == port && who == ListenerName(before[j]) {
      assert now[j] == before[j];
    }
  }

  lemma ListenersAreUsers(used: Used, c: Config.Config, i: nat)
    requires i < |c.entries| && HeldByUsers(used, c, c.projects.Keys, c.entries[..i])
    ensures var e := c.entries[i];
      HeldByUsers(if e.wildcard then used[e.supervisorPort := ListenerName(e)] else used, c, c.projects.Keys, c.entries[..i + 1])
  {
    var e := c.entries[i];
    var now := if e.wildcard then used[e.supervisorPort := ListenerName(e)] else used;
    forall port | Holder(now, port) != ""
      ensures IsUser(c, c.projects.Keys, c.entries[..i + 1], port, Holder(now, port))
    {
      if e.wildcard && port == e.supervisorPort {
        assert c.entries[..i + 1][i] == e;
      } else {
        MoreUsers(c, c.projects.Keys, i, port, Holder(used, port));
      }
    }
  }

  lemma NothingUsed(c: Config.Config)
    ensures ProjectsHold(map[], c, {}) && HeldByUsers(map[], c, {}, [])
  {
  }

  lemma NobodyListens(used: Used)
    ensures ListenersHold(used, [])
  {
  }

  lemma NoListenerMore(used: Used, entries: seq<Config.Entry>, i: nat)
    requires i < |entries| && !entries[i].wildcard && ListenersHold(used, entries[..i])
    ensures ListenersHold(used, entries[..i + 1])
  {
    forall j | 0 <= j < i + 1 && entries[j].wildcard
      ensures Holder(used, entries[j].supervisorPort) == ListenerName(entries[j])
    {
      assert entries[..i][j] == entries[j];
    }
  }

  /**
   Every port that a valid configuration uses has a holder that uses it, in whatever order its projects
   are met: application ports and wildcard listeners their own, and supervisor ports too where they
   are not shared by hostname.
   */
  method CollectUsed(c: Config.Config) returns (used: Used)
    requires Config.Loaded(c)
    ensures HeldByUsers(used, c, c.projects.Keys, c.entries)
    ensures ProjectsHold(used, c, c.projects.Keys) && ListenersHold(used, c.entries)
  {
    hide Config.Loaded, ProjectsHold, HeldByUsers, ListenersHold, Uses;
    used := map[];
    var todo := c.projects.Keys;
    NothingUsed(c);
    assert c.projects.Keys - todo == {};
    while todo != {}
      invariant todo <= c.projects.Keys
      invariant ProjectsHold(used, c, c.projects.Keys - todo) && HeldByUsers(used, c, c.projects.Keys - todo, [])
      decreases |todo|
    {
      var name :| name in todo;
      OneMoreHolds(used, c, c.projects.Keys - todo, name);
      assert c.projects.Keys - todo + {name} == c.projects.Keys - (todo - {name});
      used := used[c.projects[name].supervisorPort := name][c.projects[name].applicationPort := name];
      todo := todo - {name};
    }
    NobodyListens(used);
    assert c.projects.Keys - {} == c.projects.Keys && c.entries[..0] == [];
    for i := 0 to |c.entries|
      invariant ProjectsHold(used, c, c.projects.Keys) && ListenersHold(used, c.entries[..i])
      invariant HeldByUsers(used, c, c.projects.Keys, c.entries[..i])
    {
      var e := c.entries[i];
      ListenersAreUsers(used, c, i);
      if e.wildcard {
        OneListenerMore(used, c, i);
        used := used[e.supervisorPort := "discovery:" + e.name];
      } else {
        NoListenerMore(used, c.entries, i);
      }
    }
    assert c.entries[..|c.entries|] == c.entries;
  }

  /** What the entry's managed file registers is in the configuration, without hostnames. */
  ghost predicate Manages(c: Config.Config, existing: map<string, Project>) {
    forall n :: n in existing ==>
      && n in c.projects && c.projects[n].host == ""
      && existing[n].supervisorPort == c.projects[n].supervisorPort && existing[n].applicationPort == c.projects[n].applicationPort
  }

  /** The projects a sync manages have no hostnames, so each of them holds both its ports when the sync begins. */
  lemma ManagedHold(used: Used, c: Config.Config, existing: map<string, Project>)
    requires Config.Loaded(c) && ProjectsHold(used, c, c.projects.Keys)
    requires Manages(c, existing)
    ensures AllHold(used, existing)
  {
    forall n | n in existing
      ensures n != "" && Holds(used, n, existing[n])
    {
      assert HoldsItsOwn(used, n, c.projects[n]) && Config.SelfOk(c.projects[n]);
    }
  }

  // ---- One sync ----

  /** Building one project: nobody loses a port, and what is generated holds its own. */
  lemma BuildClaims(used: Used, e: Entry, c: Candidate, prev: Option<Project>)
    requires c.name != "" && (prev.Some? ==> Holds(used, c.name, prev.value))
    ensures var (u, b) := Build(used, e, c, prev);
      && Keeps(used, u)
      && (b.Generated? ==> Holds(u, c.name, b.project))
      && (b.Generated? && prev.Some? ==> b.project.supervisorPort == prev.value.supervisorPort)
      && (b.Kept? ==> prev.Some?)
  {
  }

  lemma KeptHold(before: Used, now: Used, projects: map<string, Project>)
    requires Keeps(before, now) && AllHold(before, projects)
    ensures AllHold(now, projects)
  {
    forall n | n in projects
      ensures n != "" && Holds(now, n, projects[n])
    {
      assert Holds(before, n, projects[n]);
    }
  }

  lemma {:induction false} SyncClaims(used: Used, e: Entry, cands: seq<Candidate>, existing: map<string, Project>)
    requires DistinctNames(cands) && AllHold(used, existing)
    ensures var s := Sync(used, e, cands, existing);
      && Keeps(used, s.used) && AllHold(s.used, s.final)
      && (forall n :: n in s.final && n in existing ==> s.final[n].supervisorPort == existing[n].supervisorPort)
    decreases |cands|
  {
    if cands != [] {
      var front, c := cands[..|cands| - 1], cands[|cands| - 1];
      SyncClaims(used, e, front, existing);
      var s := Sync(used, e, front, existing);
      KeptHold(used, s.used, existing);
      var prev := Prev(existing, c.name);
      assert prev.Some? ==> Holds(s.used, c.name, prev.value);
      BuildClaims(s.used, e, c, prev);
      var (u, b) := Build(s.used, e, c, prev);
      KeptHold(s.used, u, s.final);
      KeptHold(s.used, u, existing);
    }
  }

  /**
   After a sync all ports of all its projects are different, none is one that anybody else held
   before, and no project that was registered has a new supervisor port.
   */
  lemma PortsAreExclusive(used: Used, e: Entry, cands: seq<Candidate>, existing: map<string, Project>, n: string)
    requires DistinctNames(cands) && AllHold(used, existing) && n in Sync(used, e, cands, existing).final
    ensures var final := Sync(used, e, cands, existing).final;
      && final[n].supervisorPort != final[n].applicationPort
      && (forall m :: m in final && m != n ==>
            {final[n].supervisorPort, final[n].applicationPort} !! {final[m].supervisorPort, final[m].applicationPort})
      && (forall p :: Holder(used, p) != "" && Holder(used, p) != n ==> p !in {final[n].supervisorPort, final[n].applicationPort})
      && (n in existing ==> final[n].supervisorPort == existing[n].supervisorPort)
  {
    SyncClaims(used, e, cands, existing);
    var s := Sync(used, e, cands, existing);
    assert Holds(s.used, n, s.final[n]);
    forall m | m in s.final && m != n
      ensures {s.final[n].supervisorPort, s.final[n].applicationPort} !! {s.final[m].supervisorPort, s.final[m].applicationPort}
    {
      assert Holds(s.used, m, s.final[m]);
    }
  }

  // ---- What a candidate gets ----

  /** port is the lowest of the range that nobody holds, and that is not to be avoided. */
  ghost predicate IsLowest(used: Used, range: Range, port: int, avoid: Option<int>) {
    && range.Range? && range.low <= port <= range.high && Holder(used, port) == "" && avoid != Some(port)
    && forall p :: range.low <= p < port ==> Holder(used, p) != "" || avoid == Some(p)
  }

  /** Nobody's holdings differ. */
  ghost predicate SameHolders(before: Used, now: Used) {
    forall p :: Holder(now, p) == Holder(before, p)
  }

  lemma FreeIsLowest(used: Used, range: Range)
    ensures Free(used, range).Some? ==> IsLowest(used, range, Free(used, range).value, None)
    ensures Free(used, range) == None ==> forall p :: !IsLowest(used, range, p, None)
  {
  }

  lemma FreeIsLowestBut(used: Used, range: Range, held: int, name: string)
    requires name != "" && Holder(used, held) == ""
    ensures var port := Free(used[held := name], range);
      && (port.Some? ==> IsLowest(used, range, port.value, Some(held)))
      && (port == None ==> forall p :: !IsLowest(used, range, p, Some(held)))
  {
    var next := used[held := name];
    assert forall p :: Holder(next, p) == if p == held then name else Holder(used, p);
    FreeIsLowest(next, range);
    forall p | IsLowest(used, range, p, Some(held))
      ensures IsLowest(next, range, p, None)
    {
    }
    if Free(next, range).Some? {
      assert IsLowest(next, range, Free(next, range).value, None);
    }
  }

  lemma LowestIsOne(used: Used, range: Range, p: int, q: int, avoid: Option<int>)
    requires IsLowest(used, range, p, avoid) && IsLowest(used, range, q, avoid)
    ensures p == q
  {
  }

  /** What a directory's command answers can be its application port: nobody else's, and not its supervisor port. */
  predicate IsUsable(used: Used, c: Candidate, sp: int) {
    && c.probe.Some? && c.probe.value != sp
    && (Holder(used, c.probe.value) == "" || Holder(used, c.probe.value) == c.name)
  }

  /**
   A candidate that is new is registered exactly if there is a supervisor port for it, the lowest free one, and an
   application port: what its command answers, or the lowest free one beside. Else nothing is taken.
   */
  lemma NewCandidateGets(used: Used, e: Entry, c: Candidate)
    requires c.name != "" && !c.definedElsewhere && !c.refused
    ensures var (u, b) := Build(used, e, c, None);
      && (b.Generated? || (b == Skipped && SameHolders(used, u)))
      && (b.Generated? <==> exists sp ::
            && IsLowest(used, e.supervisors, sp, None)
            && if e.portCommand then IsUsable(used, c, sp) else exists ap :: IsLowest(used, e.applications, ap, Some(sp)))
      && (b.Generated? ==>
            var p := b.project;
            && p.fields == c.fields && IsLowest(used, e.supervisors, p.supervisorPort, None)
            && (if e.portCommand then c.probe == Some(p.applicationPort)
                else IsLowest(used, e.applications, p.applicationPort, Some(p.supervisorPort)))
            && u == used[p.supervisorPort := c.name][p.applicationPort := c.name])
  {
    FreeIsLowest(used, e.supervisors);
    var port := Free(used, e.supervisors);
    if port.Some? {
      var sp := port.value;
      FreeIsLowestBut(used, e.applications, sp, c.name);
      forall q | IsLowest(used, e.supervisors, q, None)
        ensures q == sp
      {
        LowestIsOne(used, e.supervisors, q, sp, None);
      }
      hide IsLowest, Free;
    }
  }

  /**
   One that is registered keeps its supervisor port, and moves its application port only to one that its command names
   and it may use; while its command names none, it is left as it is.
   */
  lemma KnownCandidateKeeps(used: Used, e: Entry, c: Candidate, p: Project)
    requires !c.definedElsewhere
    ensures var (u, b) := Build(used, e, c, Some(p));
      if !e.portCommand then u == used && b == Generated(p.(fields := c.fields))
      else if IsUsable(used, c, p.supervisorPort) then
        u == used[c.probe.value := c.name] && b == Generated(Project(c.fields, p.supervisorPort, c.probe.value))
      else u == used && b == Kept
  {
  }

  /** Every project of the result is reported, and rightly: as added, updated or unchanged. */
  lemma {:induction false} ReportsAreRight(used: Used, e: Entry, cands: seq<Candidate>, existing: map<string, Project>)
    requires DistinctNames(cands)
    ensures var s := Sync(used, e, cands, existing);
      && s.reports.Keys == s.final.Keys
      && forall n :: n in s.final ==>
           s.reports[n] == if n !in existing then Added else if s.final[n] == existing[n] then Unchanged else Updated
    decreases |cands|
  {
    if cands != [] {
      ReportsAreRight(used, e, cands[..|cands| - 1], existing);
    }
  }

  // ---- Syncing again ----

  /** The candidate's probe names a port, not its own already, that it could take now. */
  predicate CouldMove(used: Used, e: Entry, c: Candidate, p: Project) {
    && e.portCommand && c.probe.Some? && c.probe.value != p.supervisorPort && c.probe.value != p.applicationPort
    && (Holder(used, c.probe.value) == "" || Holder(used, c.probe.value) == c.name)
  }

  /** The registration is one a sync with the same answers made, or kept. */
  predicate Settled(e: Entry, c: Candidate, p: Project) {
    && !c.definedElsewhere
    && (p.fields == c.fields
        || (e.portCommand && (c.probe == None || c.probe.value == p.supervisorPort || c.probe.value != p.applicationPort)))
  }

  predicate Stable(b: Built, p: Project) {
    b.Kept? || b == Generated(p)
  }

  lemma BuildSettles(used: Used, e: Entry, c: Candidate, prev: Option<Project>)
    requires c.name != "" && (prev.Some? ==> Holds(used, c.name, prev.value))
    ensures var b := Build(used, e, c, prev).1;
      && (b.Generated? ==> Settled(e, c, b.project))
      && (b.Kept? && prev.Some? ==> Settled(e, c, prev.value))
  {
  }

  /** The registration stays exactly if its probe does not name a port it could move to. */
  lemma BuildAgain(used: Used, e: Entry, c: Candidate, p: Project)
    requires c.name != "" && Holds(used, c.name, p) && Settled(e, c, p)
    ensures var (u, b) := Build(used, e, c, Some(p));
      && (Stable(b, p) <==> !CouldMove(used, e, c, p))
      && (Stable(b, p) ==> Keeps(used, u) && Keeps(u, used))
  {
  }

  /** What the sync made of the i-th candidate is its last word on it. */
  lemma {:induction false} FinalWord(used: Used, e: Entry, cands: seq<Candidate>, existing: map<string, Project>, i: nat)
    requires DistinctNames(cands) && i < |cands|
    ensures var n := cands[i].name;
      var at, all := Sync(used, e, cands[..i + 1], existing), Sync(used, e, cands, existing);
      && (n in all.final <==> n in at.final) && (n in all.final ==> all.final[n] == at.final[n])
      && (n in all.reports <==> n in at.reports) && (n in all.reports ==> all.reports[n] == at.reports[n])
    decreases |cands|
  {
    if i < |cands| - 1 {
      var front := cands[..|cands| - 1];
      FinalWord(used, e, front, existing, i);
      assert front[..i + 1] == cands[..i + 1];
    } else {
      assert cands[..i + 1] == cands;
    }
  }

  /** Only candidates are registered. */
  lemma {:induction false} OnlyCandidates(used: Used, e: Entry, cands: seq<Candidate>, existing: map<string, Project>, n: string)
    requires n in Sync(used, e, cands, existing).final
    ensures exists i :: 0 <= i < |cands| && cands[i].name == n
    decreases |cands|
  {
    if cands[|cands| - 1].name != n {
      OnlyCandidates(used, e, cands[..|cands| - 1], existing, n);
      var i :| 0 <= i < |cands| - 1 && cands[..|cands| - 1][i].name == n;
      assert cands[i].name == n;
    }
  }

  lemma SyncStep(used: Used, e: Entry, cands: seq<Candidate>, existing: map<string, Project>, i: nat)
    requires i < |cands|
    ensures var s, c := Sync(used, e, cands[..i], existing), cands[i];
      var (u, b) := Build(s.used, e, c, Prev(existing, c.name));
      Sync(used, e, cands[..i + 1], existing) == AfterBuilt(s, u, c, Prev(existing, c.name), b)
  {
    assert cands[..i + 1][..i] == cands[..i];
  }

  lemma NotYet(used: Used, e: Entry, cands: seq<Candidate>, existing: map<string, Project>, i: nat)
    requires DistinctNames(cands) && i < |cands|
    ensures cands[i].name !in Sync(used, e, cands[..i], existing).final
  {
    if cands[i].name in Sync(used, e, cands[..i], existing).final {
      OnlyCandidates(used, e, cands[..i], existing, cands[i].name);
    }
  }

  /** The result has exactly the candidates that were built or kept, each as it was built in its turn. */
  lemma FinalIsBuilt(used: Used, e: Entry, cands: seq<Candidate>, existing: map<string, Project>, i: nat)
    requires DistinctNames(cands) && i < |cands|
    ensures var s, n := Sync(used, e, cands, existing), cands[i].name;
      var b := Build(Sync(used, e, cands[..i], existing).used, e, cands[i], Prev(existing, n)).1;
      && (n in s.final <==> b.Generated? || (b.Kept? && n in existing))
      && (n in s.final ==> s.final[n] == if b.Generated? then b.project else existing[n])
  {
    FinalWord(used, e, cands, existing, i);
    SyncStep(used, e, cands, existing, i);
    NotYet(used, e, cands, existing, i);
  }

  lemma SyncSettles(used: Used, e: Entry, cands: seq<Candidate>, existing: map<string, Project>, i: nat)
    requires DistinctNames(cands) && AllHold(used, existing) && i < |cands| && cands[i].name in Sync(used, e, cands, existing).final
    ensures Settled(e, cands[i], Sync(used, e, cands, existing).final[cands[i].name])
  {
    var c := cands[i];
    var prev := Prev(existing, c.name);
    FinalWord(used, e, cands, existing, i);
    SyncStep(used, e, cands, existing, i);
    SyncClaims(used, e, cands[..i], existing);
    var s := Sync(used, e, cands[..i], existing);
    KeptHold(used, s.used, existing);
    assert prev.Some? ==> Holds(s.used, c.name, prev.value);
    BuildSettles(s.used, e, c, prev);
    NotYet(used, e, cands, existing, i);
  }

  /** Nothing registered could move: every registration is found as it was. */
  ghost predicate NoneCouldMove(used: Used, e: Entry, cands: seq<Candidate>, final: map<string, Project>) {
    forall i :: 0 <= i < |cands| && cands[i].name in final ==> !CouldMove(used, e, cands[i], final[cands[i].name])
  }

  ghost predicate AllUnchanged(s: Synced, final: map<string, Project>) {
    forall n :: n in final ==> n in s.final && s.final[n] == final[n] && n in s.reports && s.reports[n] == Unchanged
  }

  ghost predicate AllSettled(e: Entry, cands: seq<Candidate>, final: map<string, Project>) {
    && (forall i :: 0 <= i < |cands| && cands[i].name in final ==> Settled(e, cands[i], final[cands[i].name]))
    && (forall n :: n in final ==> exists i :: 0 <= i < |cands| && cands[i].name == n)
  }

  /** A registered project that is not defined elsewhere is never dropped. */
  lemma Registers(used: Used, e: Entry, c: Candidate, p: Project)
    requires !c.definedElsewhere
    ensures !Build(used, e, c, Some(p)).1.Skipped?
  {
  }

  /** One registration met again, wherever the sync has got to. */
  lemma MetAgain(used: Used, e: Entry, cands: seq<Candidate>, final: map<string, Project>, i: nat)
    requires DistinctNames(cands) && AllHold(used, final) && AllSettled(e, cands, final) && i < |cands| && cands[i].name in final
    ensures var n, at := cands[i].name, Sync(used, e, cands[..i], final).used;
      var s := Sync(used, e, cands, final);
      && Keeps(used, at)
      && (n in s.final && s.final[n] == final[n] && n in s.reports && s.reports[n] == Unchanged
          <==> !CouldMove(at, e, cands[i], final[n]))
  {
    var c := cands[i];
    var s := Sync(used, e, cands[..i], final);
    FinalWord(used, e, cands, final, i);
    SyncStep(used, e, cands, final, i);
    SyncClaims(used, e, cands[..i], final);
    KeptHold(used, s.used, final);
    assert Holds(s.used, c.name, final[c.name]);
    BuildAgain(s.used, e, c, final[c.name]);
    BuildClaims(s.used, e, c, Some(final[c.name]));
    Registers(s.used, e, c, final[c.name]);
  }

  lemma SecondSyncIsQuiet(used: Used, e: Entry, cands: seq<Candidate>, final: map<string, Project>)
    requires DistinctNames(cands) && AllHold(used, final) && AllSettled(e, cands, final) && NoneCouldMove(used, e, cands, final)
    ensures AllUnchanged(Sync(used, e, cands, final), final)
  {
    forall n | n in final
      ensures var s := Sync(used, e, cands, final);
        n in s.final && s.final[n] == final[n] && n in s.reports && s.reports[n] == Unchanged
    {
      var i :| 0 <= i < |cands| && cands[i].name == n;
      MetAgain(used, e, cands, final, i);
    }
  }

  /** As long as every candidate is registered and stays, no port changes hands. */
  lemma {:induction false} QuietSoFar(used: Used, e: Entry, cands: seq<Candidate>, final: map<string, Project>, i: nat)
    requires DistinctNames(cands) && AllHold(used, final) && AllSettled(e, cands, final) && i <= |cands|
    requires forall j :: 0 <= j < i ==> cands[j].name in final
    requires AllUnchanged(Sync(used, e, cands, final), final)
    ensures var at := Sync(used, e, cands[..i], final).used; Keeps(used, at) && Keeps(at, used)
    decreases i
  {
    if i > 0 {
      QuietSoFar(used, e, cands, final, i - 1);
      var c, s := cands[i - 1], Sync(used, e, cands[..i - 1], final);
      MetAgain(used, e, cands, final, i - 1);
      SyncStep(used, e, cands, final, i - 1);
      KeptHold(used, s.used, final);
      assert Holds(s.used, c.name, final[c.name]);
      BuildAgain(s.used, e, c, final[c.name]);
    }
  }

  /**
   A second sync with the same answers finds every registration unchanged, if no candidate's probe
   names a port that has become free; and where every candidate is registered, only then.
   */
  lemma SecondSync(first: Used, second: Used, e: Entry, cands: seq<Candidate>, existing: map<string, Project>)
    requires DistinctNames(cands) && AllHold(first, existing)
    requires AllHold(second, Sync(first, e, cands, existing).final)
    ensures var final := Sync(first, e, cands, existing).final;
      && (NoneCouldMove(second, e, cands, final) ==> AllUnchanged(Sync(second, e, cands, final), final))
      && ((forall i :: 0 <= i < |cands| ==> cands[i].name in final) ==>
            (AllUnchanged(Sync(second, e, cands, final), final) <==> NoneCouldMove(second, e, cands, final)))
  {
    var final := Sync(first, e, cands, existing).final;
    forall i | 0 <= i < |cands| && cands[i].name in final
      ensures Settled(e, cands[i], final[cands[i].name])
    {
      SyncSettles(first, e, cands, existing, i);
    }
    forall n | n in final
      ensures exists i :: 0 <= i < |cands| && cands[i].name == n
    {
      OnlyCandidates(first, e, cands, existing, n);
    }
    if NoneCouldMove(second, e, cands, final) {
      SecondSyncIsQuiet(second, e, cands, final);
    }
    if AllUnchanged(Sync(second, e, cands, final), final) && forall i :: 0 <= i < |cands| ==> cands[i].name in final {
      forall i | 0 <= i < |cands| && cands[i].name in final
        ensures !CouldMove(second, e, cands[i], final[cands[i].name])
      {
        QuietSoFar(second, e, cands, final, i);
        MetAgain(second, e, cands, final, i);
      }
    }
  }

  /**
   It can move: b's directory answers with a port of a, whose directory is gone. The first sync keeps
   b as it was; a is not registered any more, and the second sync moves b to a's old port.
   */
  lemma SecondSyncMayMove()
    ensures var e := Entry(true, NoRange, NoRange);
      var cands := [Candidate("b", false, false, 0, Some(2))];
      var existing := map["a" := Project(0, 1, 2), "b" := Project(0, 3, 4)];
      var first := Sync(map[1 := "a", 2 := "a", 3 := "b", 4 := "b"], e, cands, existing).final;
      var second := Sync(map[3 := "b", 4 := "b"], e, cands, first).final;
      first == map["b" := Project(0, 3, 4)] && second == map["b" := Project(0, 3, 2)]
  {
    var c := Candidate("b", false, false, 0, Some(2));
    assert [c][..0] == [];
  }

  // ---- Beside the rest of the configuration ----

  /** A name that another source defines is not registered. */
  lemma DefinedElsewhereIsSkipped(used: Used, e: Entry, cands: seq<Candidate>, existing: map<string, Project>, i: nat)
    requires DistinctNames(cands) && i < |cands| && cands[i].definedElsewhere
    ensures cands[i].name !in Sync(used, e, cands, existing).final
  {
    FinalWord(used, e, cands, existing, i);
    SyncStep(used, e, cands, existing, i);
    NotYet(used, e, cands, existing, i);
  }

  /** The candidates of an entry, told which names other sources of the configuration define; no name is that of a listener. */
  ghost predicate Scanned(c: Config.Config, cands: seq<Candidate>, existing: map<string, Project>) {
    && DistinctNames(cands)
    && (forall i :: 0 <= i < |cands| ==> (cands[i].definedElsewhere <==> cands[i].name in c.projects && cands[i].name !in existing))
    && (forall i, j :: 0 <= i < |cands| && 0 <= j < |c.entries| ==> cands[i].name != ListenerName(c.entries[j]))
  }

  lemma HeldByAnother(c: Config.Config, used: Used, existing: map<string, Project>, m: string, n: string, port: int)
    requires Config.Loaded(c) && Manages(c, existing) && (n in c.projects ==> n in existing)
    requires HeldByUsers(used, c, c.projects.Keys, c.entries) && ProjectsHold(used, c, c.projects.Keys)
    requires m in c.projects && m != n && Uses(c.projects[m], port) && forall j :: 0 <= j < |c.entries| ==> n != ListenerName(c.entries[j])
    ensures Holder(used, port) != "" && Holder(used, port) != n
  {
    assert HoldsItsOwn(used, m, c.projects[m]);
    assert IsUser(c, c.projects.Keys, c.entries, port, Holder(used, port));
    assert n in c.projects ==> Config.MayCoexist(c.projects[m], c.projects[n]);
  }

  /** No port of a registered worktree is one that the rest of the configuration uses. */
  lemma SyncedFits(c: Config.Config, used: Used, e: Entry, cands: seq<Candidate>, existing: map<string, Project>, n: string, port: int)
    requires Config.Loaded(c) && Manages(c, existing) && Scanned(c, cands, existing)
    requires HeldByUsers(used, c, c.projects.Keys, c.entries) && ProjectsHold(used, c, c.projects.Keys) && ListenersHold(used, c.entries)
    requires var final := Sync(used, e, cands, existing).final;
      n in final && (port == final[n].supervisorPort || port == final[n].applicationPort)
    ensures forall m :: m in c.projects && m != n ==> !Uses(c.projects[m], port)
    ensures forall j :: 0 <= j < |c.entries| && c.entries[j].wildcard ==> c.entries[j].supervisorPort != port
  {
    ManagedHold(used, c, existing);
    PortsAreExclusive(used, e, cands, existing, n);
    OnlyCandidates(used, e, cands, existing, n);
    var i :| 0 <= i < |cands| && cands[i].name == n;
    if cands[i].definedElsewhere {
      DefinedElsewhereIsSkipped(used, e, cands, existing, i);
    }
    assert n in c.projects ==> n in existing;
    hide Sync;
    forall m | m in c.projects && m != n
      ensures !Uses(c.projects[m], port)
    {
      if Uses(c.projects[m], port) {
        HeldByAnother(c, used, existing, m, n, port);
      }
    }
  }
}
