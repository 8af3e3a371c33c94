/**
 The configuration the daemon serves, and the check that decides which projects may share what:
 every application port is exclusive, a supervisor port may be shared only by projects that all
 set host and bind one listen address, hosts are unique, and a wildcard entry's port is its own.
 */
module Config {
  /** other stands for every remaining field; source says where the definition was read from. */
  datatype Project = Project(
    name: string, supervisorPort: int, applicationPort: int, host: string, listenHost: string,
    alwaysOn: bool, other: nat, source: string)
  {
    /** Equal in everything but source. */
    predicate Equivalent(p: Project) {
      this.(source := "") == p.(source := "")
    }
  }

  /** A discovery entry; its cap may change without the entry counting as changed. */
  datatype Entry = Entry(
    name: string, wildcard: bool, supervisorPort: int, listenHost: string, baseDomain: string, maxRunning: nat, other: nat)
  {
    predicate Equivalent(e: Entry) {
      this.(maxRunning := 0) == e.(maxRunning := 0)
    }
  }

  datatype Config = Config(projects: map<string, Project>, entries: seq<Entry>, maxRunning: nat)

  predicate IsValidPort(port: int) {
    1 <= port <= 65535
  }

  // ---- What may be shared ----

  predicate SelfOk(p: Project) {
    IsValidPort(p.supervisorPort) ==> p.supervisorPort != p.applicationPort
  }

  predicate MayCoexist(p: Project, q: Project) {
    && (p.host != "" ==> p.host != q.host)
    && (IsValidPort(p.applicationPort) ==> p.applicationPort != q.applicationPort && p.applicationPort != q.supervisorPort)
    && (IsValidPort(q.applicationPort) ==> q.applicationPort != p.supervisorPort)
    && (IsValidPort(p.supervisorPort) && p.supervisorPort == q.supervisorPort ==>
          p.host != "" && q.host != "" && p.listenHost == q.listenHost)
  }

  predicate PortsApart(e: Entry, p: Project) {
    e.wildcard && IsValidPort(e.supervisorPort) ==> e.supervisorPort != p.supervisorPort && e.supervisorPort != p.applicationPort
  }

  predicate EntriesApart(e: Entry, f: Entry) {
    e.wildcard && f.wildcard && IsValidPort(e.supervisorPort) ==> e.supervisorPort != f.supervisorPort
  }

  /** Every pair is fine; no reference to any order or first claimant. */
  ghost predicate NoConflict(c: Config) {
    && (forall n :: n in c.projects ==> SelfOk(c.projects[n]))
    && (forall n, m :: n in c.projects && m in c.projects && n != m ==> MayCoexist(c.projects[n], c.projects[m]))
    && (forall i, n :: 0 <= i < |c.entries| && n in c.projects ==> PortsApart(c.entries[i], c.projects[n]))
    && (forall i, j :: 0 <= i < j < |c.entries| ==> EntriesApart(c.entries[i], c.entries[j]))
  }

  /** The daemon checks the projects in name order; no verdict depends on the order. */
  ghost predicate Lists(names: seq<string>, c: Config) {
    && (forall n :: n in c.projects <==> n in names)
    && (forall i, j :: 0 <= i < j < |names| ==> names[i] != names[j])
  }

  // ---- The check ----

  datatype Field = SupervisorPort | ApplicationPort

  datatype Claim = Claim(project: string, field: Field, host: string, listenHost: string)

  datatype Conflict =
    | HostTaken(project: string, host: string, owner: string)
    | PortTaken(project: string, field: Field, port: int, owner: string)
    | SharingNeedsHost(project: string, port: int, owner: string)
    | ListenHostDiffers(project: string, port: int, owner: string)
    | EntryPortTaken(entry: string, port: int, owner: string)

  function ClaimOf(p: Project, name: string, field: Field): Claim {
    Claim(name, field, p.host, p.listenHost)
  }

  function PortOf(p: Project, field: Field): int {
    if field == SupervisorPort then p.supervisorPort else p.applicationPort
  }

  /** What the switch over field, host and listen_host reports for a port that is already claimed. */
  predicate Clash(prev: Claim, next: Claim) {
    || next.field != SupervisorPort || prev.field != SupervisorPort
    || next.host == "" || prev.host == ""
    || next.listenHost != prev.listenHost
  }

  /** What ClaimPort leaves in the table. */
  function AfterClaim(claimed: map<int, Claim>, p: Project, name: string, f: Field): map<int, Claim> {
    var port := PortOf(p, f);
    if IsValidPort(port) && port !in claimed then claimed[port := ClaimOf(p, name, f)] else claimed
  }

  predicate PortFine(claimed: map<int, Claim>, p: Project, name: string, f: Field) {
    var port := PortOf(p, f);
    IsValidPort(port) && port in claimed ==> !Clash(claimed[port], ClaimOf(p, name, f))
  }

  /** What is reported of a clash. */
  function Reported(prev: Claim, next: Claim, port: int): Conflict {
    if next.field != SupervisorPort || prev.field != SupervisorPort then PortTaken(next.project, next.field, port, prev.project)
    else if next.host == "" || prev.host == "" then SharingNeedsHost(next.project, port, prev.project)
    else ListenHostDiffers(next.project, port, prev.project)
  }

  /** One claim of one port against the first claimant. */
  method ClaimPort(p: Project, name: string, field: Field, claimed: map<int, Claim>)
    returns (now: map<int, Claim>, errs: seq<Conflict>)
    ensures now == AfterClaim(claimed, p, name, field) && (errs == [] <==> PortFine(claimed, p, name, field))
    ensures errs != [] ==> errs == [Reported(claimed[PortOf(p, field)], ClaimOf(p, name, field), PortOf(p, field))]
  {
    now, errs := claimed, [];
    var port := PortOf(p, field);
    if !IsValidPort(port) {
      return;
    }
    if port !in claimed {
      now := claimed[port := ClaimOf(p, name, field)];
      return;
    }
    var prev := claimed[port];
    if field != SupervisorPort || prev.field != SupervisorPort {
      errs := [PortTaken(name, field, port, prev.project)];
    } else if p.host == "" || prev.host == "" {
      errs := [SharingNeedsHost(name, port, prev.project)];
    } else if p.listenHost != prev.listenHost {
      errs := [ListenHostDiffers(name, port, prev.project)];
    }
  }

  /** Among the first n projects listed, all is fine. */
  ghost predicate FineUpTo(c: Config, names: seq<string>, n: nat)
    requires Lists(names, c) && n <= |names|
  {
    && (forall i :: 0 <= i < n ==> SelfOk(c.projects[names[i]]))
    && (forall i, j :: 0 <= i < j < n ==> MayCoexist(c.projects[names[i]], c.projects[names[j]]))
  }

  /** One of the first n projects made this claim of this port. */
  ghost predicate ClaimedBy(c: Config, names: seq<string>, n: nat, port: int, claim: Claim)
    requires Lists(names, c) && n <= |names|
  {
    IsValidPort(port) && exists i ::
      0 <= i < n && PortOf(c.projects[names[i]], claim.field) == port
      && claim == ClaimOf(c.projects[names[i]], names[i], claim.field)
  }

  /** claimed holds, for every valid port of the first n projects, a claim by one of them. */
  ghost predicate ClaimsUpTo(c: Config, names: seq<string>, n: nat, claimed: map<int, Claim>)
    requires Lists(names, c) && n <= |names|
  {
    && (forall port :: port in claimed ==> ClaimedBy(c, names, n, port, claimed[port]))
    && (forall i, f: Field ::
          0 <= i < n && IsValidPort(PortOf(c.projects[names[i]], f)) ==> PortOf(c.projects[names[i]], f) in claimed)
  }

  ghost predicate HostUsed(c: Config, names: seq<string>, n: nat, h: string)
    requires Lists(names, c) && n <= |names|
  {
    h != "" && exists i :: 0 <= i < n && c.projects[names[i]].host == h
  }

  ghost predicate HostsUpTo(c: Config, names: seq<string>, n: nat, hosts: map<string, string>)
    requires Lists(names, c) && n <= |names|
  {
    forall h :: h in hosts <==> HostUsed(c, names, n, h)
  }

  /** A port of a later project that a fine prefix has claimed: the first claimant speaks for every claimant. */
  lemma FirstClaimantSuffices(c: Config, names: seq<string>, n: nat, claimed: map<int, Claim>, p: Project, i: nat)
    requires Lists(names, c) && n <= |names| && FineUpTo(c, names, n) && ClaimsUpTo(c, names, n, claimed) && i < n
    requires IsValidPort(p.supervisorPort) && p.supervisorPort in claimed ==>
      !Clash(claimed[p.supervisorPort], ClaimOf(p, p.name, SupervisorPort))
    requires IsValidPort(p.applicationPort) ==> p.applicationPort !in claimed
    requires p.host != "" ==> c.projects[names[i]].host != p.host
    ensures MayCoexist(c.projects[names[i]], p)
  {
    var q := c.projects[names[i]];
    assert IsValidPort(PortOf(q, ApplicationPort)) ==> q.applicationPort in claimed;
    assert IsValidPort(PortOf(q, SupervisorPort)) ==> q.supervisorPort in claimed;
    if IsValidPort(p.supervisorPort) && p.supervisorPort in claimed {
      assert ClaimedBy(c, names, n, p.supervisorPort, claimed[p.supervisorPort]);
      var j :| 0 <= j < n && PortOf(c.projects[names[j]], claimed[p.supervisorPort].field) == p.supervisorPort
        && claimed[p.supervisorPort] == ClaimOf(c.projects[names[j]], names[j], claimed[p.supervisorPort].field);
      assert i < j ==> MayCoexist(q, c.projects[names[j]]);
      assert j < i ==> MayCoexist(c.projects[names[j]], q);
      assert SelfOk(q);
    }
  }

  lemma ClaimantConflicts(c: Config, names: seq<string>, n: nat, claimed: map<int, Claim>, p: Project, f: Field)
    requires Lists(names, c) && n <= |names| && ClaimsUpTo(c, names, n, claimed)
    requires IsValidPort(PortOf(p, f)) && PortOf(p, f) in claimed && Clash(claimed[PortOf(p, f)], ClaimOf(p, p.name, f))
    ensures exists i :: 0 <= i < n && !MayCoexist(c.projects[names[i]], p)
  {
    var port := PortOf(p, f);
    assert ClaimedBy(c, names, n, port, claimed[port]);
    var i :| 0 <= i < n && PortOf(c.projects[names[i]], claimed[port].field) == port
      && claimed[port] == ClaimOf(c.projects[names[i]], names[i], claimed[port].field);
    assert !MayCoexist(c.projects[names[i]], p);
  }

  /** One claim by project n: the table speaks for the first n projects, and now for this port of it. */
  lemma ClaimNext(c: Config, names: seq<string>, n: nat, claimed: map<int, Claim>, f: Field)
    requires Lists(names, c) && n < |names|
    requires forall port :: port in claimed ==> ClaimedBy(c, names, n + 1, port, claimed[port])
    ensures var p := c.projects[names[n]];
      var end := AfterClaim(claimed, p, names[n], f);
      && (forall port :: port in claimed ==> port in end)
      && (IsValidPort(PortOf(p, f)) ==> PortOf(p, f) in end)
      && forall port :: port in end ==> ClaimedBy(c, names, n + 1, port, end[port])
  {
    var p := c.projects[names[n]];
    assert IsValidPort(PortOf(p, f)) ==> ClaimedBy(c, names, n + 1, PortOf(p, f), ClaimOf(p, names[n], f));
  }

  lemma ClaimsNext(c: Config, names: seq<string>, n: nat, claimed: map<int, Claim>)
    requires Lists(names, c) && n < |names| && ClaimsUpTo(c, names, n, claimed)
    ensures var p := c.projects[names[n]];
      ClaimsUpTo(c, names, n + 1, AfterClaim(AfterClaim(claimed, p, names[n], SupervisorPort), p, names[n], ApplicationPort))
  {
    var p, name := c.projects[names[n]], names[n];
    forall port | port in claimed
      ensures ClaimedBy(c, names, n + 1, port, claimed[port])
    {
      assert ClaimedBy(c, names, n, port, claimed[port]);
    }
    var mid := AfterClaim(claimed, p, name, SupervisorPort);
    ClaimNext(c, names, n, claimed, SupervisorPort);
    ClaimNext(c, names, n, mid, ApplicationPort);
    var end := AfterClaim(mid, p, name, ApplicationPort);
    forall i, f: Field | 0 <= i < n + 1 && IsValidPort(PortOf(c.projects[names[i]], f))
      ensures PortOf(c.projects[names[i]], f) in end
    {
      assert i < n ==> PortOf(c.projects[names[i]], f) in claimed;
      assert i == n ==> f == SupervisorPort || f == ApplicationPort;
    }
  }

  lemma HostsNext(c: Config, names: seq<string>, n: nat, hosts: map<string, string>)
    requires Lists(names, c) && n < |names| && HostsUpTo(c, names, n, hosts)
    ensures var h := c.projects[names[n]].host;
      HostsUpTo(c, names, n + 1, if h != "" && h !in hosts then hosts[h := names[n]] else hosts)
  {
    var g := c.projects[names[n]].host;
    forall h
      ensures HostUsed(c, names, n + 1, h) <==> HostUsed(c, names, n, h) || (h == g && h != "")
    {
      if HostUsed(c, names, n + 1, h) {
        var i :| 0 <= i < n + 1 && c.projects[names[i]].host == h;
      }
    }
  }

  lemma FineNext(c: Config, names: seq<string>, n: nat, claimed: map<int, Claim>, hosts: map<string, string>)
    requires Lists(names, c) && n < |names| && ClaimsUpTo(c, names, n, claimed) && HostsUpTo(c, names, n, hosts)
    ensures var p, name := c.projects[names[n]], names[n];
      FineUpTo(c, names, n + 1) <==>
        FineUpTo(c, names, n) && p.host !in hosts && PortFine(claimed, p, name, SupervisorPort)
        && PortFine(AfterClaim(claimed, p, name, SupervisorPort), p, name, ApplicationPort)
  {
    var p, name := c.projects[names[n]], names[n];
    var mid := AfterClaim(claimed, p, name, SupervisorPort);
    var fine := p.host !in hosts && PortFine(claimed, p, name, SupervisorPort) && PortFine(mid, p, name, ApplicationPort);
    if FineUpTo(c, names, n) && fine {
      forall i | 0 <= i < n
        ensures MayCoexist(c.projects[names[i]], p)
      {
        FirstClaimantSuffices(c, names, n, claimed, p, i);
      }
    }
    if FineUpTo(c, names, n + 1) {
      if !PortFine(claimed, p, name, SupervisorPort) {
        ClaimantConflicts(c, names, n, claimed, p, SupervisorPort);
      }
      if p.applicationPort in claimed && IsValidPort(p.applicationPort) {
        ClaimantConflicts(c, names, n, claimed, p, ApplicationPort);
      }
      assert SelfOk(p);
    }
  }

  predicate Listens(e: Entry) {
    e.wildcard && IsValidPort(e.supervisorPort)
  }

  ghost predicate ProjectUses(c: Config, port: int) {
    IsValidPort(port) && exists n ::
      n in c.projects && (c.projects[n].supervisorPort == port || c.projects[n].applicationPort == port)
  }

  /** Some project, or one of the first m entries, has this port. */
  ghost predicate Taken(c: Config, m: nat, port: int)
    requires m <= |c.entries|
  {
    ProjectUses(c, port) || exists i :: 0 <= i < m && Listens(c.entries[i]) && c.entries[i].supervisorPort == port
  }

  /** What is reported is so: the parties are there, they are two where one alone would be fine, and they do clash. */
  ghost predicate IsReal(c: Config, x: Conflict) {
    match x
    case HostTaken(n, host, owner) =>
      && n in c.projects && owner in c.projects && n != owner && host != ""
      && c.projects[n].host == host == c.projects[owner].host
    case PortTaken(n, f, port, owner) =>
      && n in c.projects && owner in c.projects && 1 <= port <= 65535
      && if f == SupervisorPort then c.projects[n].supervisorPort == port == c.projects[owner].applicationPort
         else c.projects[n].applicationPort == port
              && (c.projects[owner].supervisorPort == port || (owner != n && c.projects[owner].applicationPort == port))
    case SharingNeedsHost(n, port, owner) =>
      && n in c.projects && owner in c.projects && n != owner && 1 <= port <= 65535
      && c.projects[n].supervisorPort == port == c.projects[owner].supervisorPort
      && (c.projects[n].host == "" || c.projects[owner].host == "")
    case ListenHostDiffers(n, port, owner) =>
      && n in c.projects && owner in c.projects && n != owner && 1 <= port <= 65535
      && c.projects[n].supervisorPort == port == c.projects[owner].supervisorPort
      && c.projects[n].listenHost != c.projects[owner].listenHost
    case EntryPortTaken(e, port, _) =>
      exists i :: 0 <= i < |c.entries| && c.entries[i].name == e && Listens(c.entries[i]) && c.entries[i].supervisorPort == port
        && Taken(c, i, port)
  }

  lemma ReportIsReal(c: Config, names: seq<string>, n: nat, claimed: map<int, Claim>, f: Field)
    requires Lists(names, c) && n < |names|
    requires var m := if f == SupervisorPort then n else n + 1;
      forall port :: port in claimed ==> ClaimedBy(c, names, m, port, claimed[port])
    requires f == ApplicationPort ==> forall port :: port in claimed && claimed[port].project == names[n] ==> claimed[port].field == SupervisorPort
    ensures var p, name := c.projects[names[n]], names[n]; var port := PortOf(p, f);
      !PortFine(claimed, p, name, f) ==> IsReal(c, Reported(claimed[port], ClaimOf(p, name, f), port))
  {
    var p, name := c.projects[names[n]], names[n];
    var port := PortOf(p, f);
    if !PortFine(claimed, p, name, f) {
      var m := if f == SupervisorPort then n else n + 1;
      assert ClaimedBy(c, names, m, port, claimed[port]);
      var i :| 0 <= i < m && PortOf(c.projects[names[i]], claimed[port].field) == port
        && claimed[port] == ClaimOf(c.projects[names[i]], names[i], claimed[port].field);
    }
  }

  /** Between its two claims, a project has only its supervisor port in the table. */
  lemma OnlySupervisorYet(c: Config, names: seq<string>, n: nat, claimed: map<int, Claim>)
    requires Lists(names, c) && n < |names| && ClaimsUpTo(c, names, n, claimed)
    ensures var mid := AfterClaim(claimed, c.projects[names[n]], names[n], SupervisorPort);
      && (forall port :: port in mid ==> ClaimedBy(c, names, n + 1, port, mid[port]))
      && (forall port :: port in mid && mid[port].project == names[n] ==> mid[port].field == SupervisorPort)
  {
    forall port | port in claimed
      ensures ClaimedBy(c, names, n + 1, port, claimed[port]) && claimed[port].project != names[n]
    {
      assert ClaimedBy(c, names, n, port, claimed[port]);
    }
    ClaimNext(c, names, n, claimed, SupervisorPort);
  }

  /** Both claims of project n. */
  lemma ReportsNext(c: Config, names: seq<string>, n: nat, claimed: map<int, Claim>)
    requires Lists(names, c) && n < |names| && ClaimsUpTo(c, names, n, claimed)
    ensures var p, name := c.projects[names[n]], names[n];
      var mid := AfterClaim(claimed, p, name, SupervisorPort);
      && (!PortFine(claimed, p, name, SupervisorPort) ==>
            IsReal(c, Reported(claimed[p.supervisorPort], ClaimOf(p, name, SupervisorPort), p.supervisorPort)))
      && (!PortFine(mid, p, name, ApplicationPort) ==>
            IsReal(c, Reported(mid[p.applicationPort], ClaimOf(p, name, ApplicationPort), p.applicationPort)))
  {
    var p, name := c.projects[names[n]], names[n];
    ReportIsReal(c, names, n, claimed, SupervisorPort);
    OnlySupervisorYet(c, names, n, claimed);
    hide IsReal, ClaimedBy, ClaimsUpTo;
    ReportIsReal(c, names, n, AfterClaim(claimed, p, name, SupervisorPort), ApplicationPort);
  }

  /** One of the first n projects, of this name, has this host. */
  ghost predicate HostOwned(c: Config, names: seq<string>, n: nat, h: string, owner: string)
    requires Lists(names, c) && n <= |names|
  {
    h != "" && exists i :: 0 <= i < n && names[i] == owner && c.projects[names[i]].host == h
  }

  lemma HostsOwnedNext(c: Config, names: seq<string>, n: nat, hosts: map<string, string>)
    requires Lists(names, c) && n < |names| && forall h :: h in hosts ==> HostOwned(c, names, n, h, hosts[h])
    ensures var g := c.projects[names[n]].host;
      var next := if g != "" && g !in hosts then hosts[g := names[n]] else hosts;
      forall h :: h in next ==> HostOwned(c, names, n + 1, h, next[h])
  {
    var g := c.projects[names[n]].host;
    forall h | h in hosts
      ensures HostOwned(c, names, n + 1, h, hosts[h])
    {
      assert HostOwned(c, names, n, h, hosts[h]);
    }
    assert g != "" ==> HostOwned(c, names, n + 1, g, names[n]);
  }

  lemma HostIsReal(c: Config, names: seq<string>, n: nat, hosts: map<string, string>)
    requires Lists(names, c) && n < |names|
    requires forall h :: h in hosts ==> HostOwned(c, names, n, h, hosts[h])
    ensures var p := c.projects[names[n]];
      p.host in hosts ==> p.host != "" && IsReal(c, HostTaken(names[n], p.host, hosts[p.host]))
  {
  }

  lemma NothingListed(c: Config, names: seq<string>)
    requires Lists(names, c)
    ensures FineUpTo(c, names, 0) && ClaimsUpTo(c, names, 0, map[]) && HostsUpTo(c, names, 0, map[])
  {
  }

  method ValidateProjects(c: Config, names: seq<string>) returns (errs: seq<Conflict>, claimed: map<int, Claim>)
    requires Lists(names, c)
    ensures errs == [] <==> FineUpTo(c, names, |names|)
    ensures forall x :: x in errs ==> IsReal(c, x)
    ensures ClaimsUpTo(c, names, |names|, claimed)
  {
    hide FineUpTo, ClaimsUpTo, HostsUpTo, HostOwned, IsReal, PortFine, AfterClaim, Reported;
    var hosts: map<string, string> := map[];
    errs, claimed := [], map[];
    NothingListed(c, names);
    for n := 0 to |names|
      invariant errs == [] <==> FineUpTo(c, names, n)
      invariant forall x :: x in errs ==> IsReal(c, x)
      invariant forall h :: h in hosts ==> HostOwned(c, names, n, h, hosts[h])
      invariant ClaimsUpTo(c, names, n, claimed) && HostsUpTo(c, names, n, hosts)
    {
      var name := names[n];
      var p := c.projects[name];
      ClaimsNext(c, names, n, claimed);
      HostsNext(c, names, n, hosts);
      FineNext(c, names, n, claimed, hosts);
      HostIsReal(c, names, n, hosts);
      HostsOwnedNext(c, names, n, hosts);
      ReportsNext(c, names, n, claimed);
      if p.host != "" {
        if p.host in hosts {
          errs := errs + [HostTaken(name, p.host, hosts[p.host])];
        } else {
          hosts := hosts[p.host := name];
        }
      }
      var supErrs, appErrs;
      claimed, supErrs := ClaimPort(p, name, SupervisorPort, claimed);
      claimed, appErrs := ClaimPort(p, name, ApplicationPort, claimed);
      errs := errs + supErrs + appErrs;
    }
  }

  ghost predicate EntriesFineUpTo(c: Config, m: nat)
    requires m <= |c.entries|
  {
    && (forall i :: 0 <= i < m && Listens(c.entries[i]) ==> !ProjectUses(c, c.entries[i].supervisorPort))
    && (forall i, j :: 0 <= i < j < m ==> EntriesApart(c.entries[i], c.entries[j]))
  }

  lemma ClaimedPorts(c: Config, names: seq<string>, claimed: map<int, Claim>, port: int)
    requires Lists(names, c) && ClaimsUpTo(c, names, |names|, claimed)
    ensures port in claimed <==> ProjectUses(c, port)
  {
    if port in claimed {
      assert ClaimedBy(c, names, |names|, port, claimed[port]);
      var i :| 0 <= i < |names| && PortOf(c.projects[names[i]], claimed[port].field) == port;
      assert names[i] in c.projects;
    }
    if ProjectUses(c, port) {
      var n :| n in c.projects && (c.projects[n].supervisorPort == port || c.projects[n].applicationPort == port);
      var i :| 0 <= i < |names| && names[i] == n;
      assert PortOf(c.projects[n], SupervisorPort) == port || PortOf(c.projects[n], ApplicationPort) == port;
    }
  }

  lemma TakenNext(c: Config, m: nat, port: int)
    requires m < |c.entries|
    ensures Taken(c, m + 1, port) <==> Taken(c, m, port) || (Listens(c.entries[m]) && c.entries[m].supervisorPort == port)
  {
  }

  lemma EntriesFineNext(c: Config, m: nat)
    requires m < |c.entries|
    ensures EntriesFineUpTo(c, m + 1) <==>
      EntriesFineUpTo(c, m) && (Listens(c.entries[m]) ==> !Taken(c, m, c.entries[m].supervisorPort))
  {
    if EntriesFineUpTo(c, m + 1) && Listens(c.entries[m]) {
      forall i | 0 <= i < m && Listens(c.entries[i])
        ensures c.entries[i].supervisorPort != c.entries[m].supervisorPort
      {
        assert EntriesApart(c.entries[i], c.entries[m]);
      }
    }
  }

  method ValidateEntries(c: Config, ghost names: seq<string>, ports: map<int, Claim>) returns (errs: seq<Conflict>)
    requires Lists(names, c) && ClaimsUpTo(c, names, |names|, ports)
    ensures errs == [] <==> EntriesFineUpTo(c, |c.entries|)
    ensures forall x :: x in errs ==> IsReal(c, x)
  {
    var claimed := ports;
    errs := [];
    forall port
      ensures port in claimed <==> ProjectUses(c, port)
    {
      ClaimedPorts(c, names, ports, port);
    }
    for m := 0 to |c.entries|
      invariant errs == [] <==> EntriesFineUpTo(c, m)
      invariant forall x :: x in errs ==> IsReal(c, x)
      invariant forall port :: port in claimed <==> Taken(c, m, port)
    {
      EntriesFineNext(c, m);
      forall port
        ensures Taken(c, m + 1, port) <==> Taken(c, m, port) || (Listens(c.entries[m]) && c.entries[m].supervisorPort == port)
      {
        TakenNext(c, m, port);
      }
      var e := c.entries[m];
      if e.wildcard && IsValidPort(e.supervisorPort) {
        if e.supervisorPort in claimed {
          errs := errs + [EntryPortTaken(e.name, e.supervisorPort, claimed[e.supervisorPort].project)];
        } else {
          claimed := claimed[e.supervisorPort := Claim("discovery:" + e.name, SupervisorPort, "", "")];
        }
      }
    }
  }

  lemma PairsAreEnough(c: Config, names: seq<string>)
    requires Lists(names, c)
    ensures FineUpTo(c, names, |names|) && EntriesFineUpTo(c, |c.entries|) <==> NoConflict(c)
  {
    if FineUpTo(c, names, |names|) && EntriesFineUpTo(c, |c.entries|) {
      forall n, m | n in c.projects && m in c.projects && n != m
        ensures SelfOk(c.projects[n]) && MayCoexist(c.projects[n], c.projects[m])
      {
        var i :| 0 <= i < |names| && names[i] == n;
        var j :| 0 <= j < |names| && names[j] == m;
        assert i < j ==> MayCoexist(c.projects[names[i]], c.projects[names[j]]);
        assert j < i ==> MayCoexist(c.projects[names[j]], c.projects[names[i]]);
      }
      forall n | n in c.projects
        ensures SelfOk(c.projects[n])
      {
        var i :| 0 <= i < |names| && names[i] == n;
      }
    }
    if NoConflict(c) {
      forall i | 0 <= i < |c.entries| && Listens(c.entries[i])
        ensures !ProjectUses(c, c.entries[i].supervisorPort)
      {
      }
    }
  }

  /** Hostnames are unique, and projects that share a supervisor port all have one and listen on one address. */
  ghost predicate SharedByHost(c: Config) {
    && (forall n, m :: n in c.projects && m in c.projects && n != m && c.projects[n].host == c.projects[m].host ==>
          c.projects[n].host == "")
    && (forall n, m | n in c.projects && m in c.projects && n != m ::
          1 <= c.projects[n].supervisorPort <= 65535 && c.projects[n].supervisorPort == c.projects[m].supervisorPort ==>
            c.projects[n].host != "" && c.projects[m].host != "" && c.projects[n].listenHost == c.projects[m].listenHost)
  }

  /** A project's application port has no other use, the port of a wildcard entry none but its own. */
  ghost predicate UsedOnce(c: Config) {
    && (forall n, m | n in c.projects && m in c.projects ::
          1 <= c.projects[n].applicationPort <= 65535 ==>
            && c.projects[n].applicationPort != c.projects[m].supervisorPort
            && (n != m ==> c.projects[n].applicationPort != c.projects[m].applicationPort))
    && (forall i, n | 0 <= i < |c.entries| && n in c.projects ::
          c.entries[i].wildcard && 1 <= c.entries[i].supervisorPort <= 65535 ==>
            && c.entries[i].supervisorPort != c.projects[n].supervisorPort
            && c.entries[i].supervisorPort != c.projects[n].applicationPort)
    && (forall i, j | 0 <= i < j < |c.entries| ::
          c.entries[i].wildcard && c.entries[j].wildcard && 1 <= c.entries[i].supervisorPort <= 65535 ==>
            c.entries[i].supervisorPort != c.entries[j].supervisorPort)
  }

  lemma PairsByPorts(c: Config)
    requires SharedByHost(c) && UsedOnce(c)
    ensures NoConflict(c)
  {
  }

  lemma PortsByPairs(c: Config)
    requires NoConflict(c)
    ensures SharedByHost(c) && UsedOnce(c)
  {
    forall n, m | n in c.projects && m in c.projects && n != m
      ensures MayCoexist(c.projects[n], c.projects[m]) && SelfOk(c.projects[n])
    {
    }
    forall i, n | 0 <= i < |c.entries| && n in c.projects
      ensures PortsApart(c.entries[i], c.projects[n])
    {
    }
  }

  /** Which configurations are free of conflicts, port by port and host by host. */
  lemma NoConflictByPorts(c: Config)
    ensures NoConflict(c) <==> SharedByHost(c) && UsedOnce(c)
  {
    hide NoConflict, SharedByHost, UsedOnce;
    if NoConflict(c) {
      PortsByPairs(c);
    }
    if SharedByHost(c) && UsedOnce(c) {
      PairsByPorts(c);
    }
  }

  /** The check reports no conflict exactly when, pair by pair, there is none, and none that is not there. */
  method Validate(c: Config, names: seq<string>) returns (errs: seq<Conflict>)
    requires Lists(names, c)
    ensures errs == [] <==> NoConflict(c)
    ensures forall x :: x in errs ==> IsReal(c, x)
  {
    var claimed;
    errs, claimed := ValidateProjects(c, names);
    var entryErrs := ValidateEntries(c, names, claimed);
    errs := errs + entryErrs;
    PairsAreEnough(c, names);
  }

  // ---- What a valid configuration means for routing ----

  predicate PortsValid(p: Project) {
    IsValidPort(p.supervisorPort) && IsValidPort(p.applicationPort)
  }

  /** What the checks of single projects and entries establish. */
  ghost predicate FieldsOk(c: Config) {
    && (forall n :: n in c.projects ==> n != "" && c.projects[n].name == n && PortsValid(c.projects[n]))
    && (forall i :: 0 <= i < |c.entries| && c.entries[i].wildcard ==> IsValidPort(c.entries[i].supervisorPort))
    && (forall i, j :: 0 <= i < j < |c.entries| ==> c.entries[i].name != c.entries[j].name)
  }

  /** A configuration that loads. */
  ghost predicate Loaded(c: Config) {
    NoConflict(c) && FieldsOk(c)
  }

  datatype Address = Address(host: string, port: int)

  function ListenAddr(p: Project): Address {
    Address(p.listenHost, p.supervisorPort)
  }

  function EntryAddr(e: Entry): Address {
    Address(e.listenHost, e.supervisorPort)
  }

  /** Two projects on one address are told apart by hostname, and no listener of an entry is shared. */
  lemma OneClaimantPerRoute(c: Config, n: string, m: string)
    requires NoConflict(c) && n in c.projects && m in c.projects && n != m
    requires PortsValid(c.projects[n]) && ListenAddr(c.projects[n]) == ListenAddr(c.projects[m])
    ensures c.projects[n].host != "" && c.projects[m].host != "" && c.projects[n].host != c.projects[m].host
  {
    assert MayCoexist(c.projects[n], c.projects[m]);
  }
}
