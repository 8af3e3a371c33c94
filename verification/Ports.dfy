/**
 Port allocation of a sync: every port has one holder, an allocation takes the lowest free one, and
 nothing that is held is ever taken away.
 */
module Ports {
  import opened Options

  /** Who holds each port; no name, no holder. */
  type Used = map<int, string>

  function Holder(used: Used, port: int): string {
    if port in used then used[port] else ""
  }

  datatype Range = NoRange | Range(low: int, high: int)

  datatype Entry = Entry(portCommand: bool, supervisors: Range, applications: Range)

  /** fields stands for all the entry generates for the directory, except ports; probe is what its port_command answers. */
  datatype Candidate = Candidate(name: string, definedElsewhere: bool, refused: bool, fields: nat, probe: Option<int>)

  datatype Project = Project(fields: nat, supervisorPort: int, applicationPort: int)

  datatype Built = Generated(project: Project) | Kept | Skipped

  datatype Report = Added | Updated | Unchanged

  /** The lowest free port from low to high. */
  function LowestFree(used: Used, low: int, high: int): (port: Option<int>)
    ensures port.Some? ==> low <= port.value <= high && Holder(used, port.value) == ""
    ensures forall p :: low <= p < (if port.Some? then port.value else high + 1) ==> Holder(used, p) != ""
    decreases high - low + 1
  {
    if low > high then None
    else if Holder(used, low) == "" then Some(low)
    else LowestFree(used, low + 1, high)
  }

  function Free(used: Used, range: Range): (port: Option<int>)
    ensures port.Some? ==> Holder(used, port.value) == ""
  {
    if range.NoRange? then None else LowestFree(used, range.low, range.high)
  }

  function Released(used: Used, port: Option<int>, name: string): Used {
    if port.Some? && Holder(used, port.value) == name then used - {port.value} else used
  }

  /** The application port, once the supervisor port is settled; claimed is given back if there is none. */
  function WithApplication(used: Used, e: Entry, c: Candidate, prev: Option<Project>, sp: int, claimed: Option<int>): (Used, Built)
  {
    var kept := if prev.Some? then Kept else Skipped;
    if e.portCommand then
      if c.probe == None || (Holder(used, c.probe.value) != "" && Holder(used, c.probe.value) != c.name) || c.probe.value == sp
      then (Released(used, claimed, c.name), kept)
      else (used[c.probe.value := c.name], Generated(Project(c.fields, sp, c.probe.value)))
    else if prev.Some? then (used, Generated(Project(c.fields, sp, prev.value.applicationPort)))
    else
      var port := Free(used, e.applications);
      if port == None then (Released(used, claimed, c.name), Skipped)
      else (used[port.value := c.name], Generated(Project(c.fields, sp, port.value)))
  }

  function Build(used: Used, e: Entry, c: Candidate, prev: Option<Project>): (Used, Built) {
    if c.definedElsewhere || (prev == None && c.refused) then (used, Skipped)
    else if prev.Some? then WithApplication(used, e, c, prev, prev.value.supervisorPort, None)
    else
      var port := Free(used, e.supervisors);
      if port == None then (used, Skipped)
      else WithApplication(used[port.value := c.name], e, c, None, port.value, port)
  }

  datatype Synced = Synced(used: Used, final: map<string, Project>, reports: map<string, Report>)

  function Prev(existing: map<string, Project>, name: string): Option<Project> {
    if name in existing then Some(existing[name]) else None
  }

  function AfterBuilt(s: Synced, used: Used, c: Candidate, prev: Option<Project>, b: Built): Synced {
    match b
    case Skipped => s.(used := used)
    case Kept =>
      if prev.Some? then Synced(used, s.final[c.name := prev.value], s.reports[c.name := Unchanged]) else s.(used := used)
    case Generated(p) =>
      Synced(used, s.final[c.name := p],
             s.reports[c.name := if prev == None then Added else if prev.value == p then Unchanged else Updated])
  }

  /** The candidates are built in order; existing is what the managed file registers so far. */
  function Sync(used: Used, e: Entry, cands: seq<Candidate>, existing: map<string, Project>): Synced {
    if cands == [] then Synced(used, map[], map[])
    else
      var s := Sync(used, e, cands[..|cands| - 1], existing);
      var c := cands[|cands| - 1];
      var (u, b) := Build(s.used, e, c, Prev(existing, c.name));
      AfterBuilt(s, u, c, Prev(existing, c.name), b)
  }

  class Syncer {
    var used: Used

    constructor (taken: Used)
      ensures used == taken
    {
      used := taken;
    }

    method Allocate(range: Range, name: string) returns (port: Option<int>)
      modifies this
      ensures port == Free(old(used), range)
      ensures used == if port.Some? then old(used)[port.value := name] else old(used)
    {
      if range.NoRange? {
        return None;
      }
      var p := range.low;
      while p <= range.high
        invariant used == old(used)
        invariant LowestFree(used, range.low, range.high) == LowestFree(used, p, range.high)
        decreases range.high - p + 1
      {
        if Holder(used, p) == "" {
          used := used[p := name];
          return Some(p);
        }
        p := p + 1;
      }
      port := None;
    }

    method Release(port: Option<int>, name: string)
      modifies this
      ensures used == Released(old(used), port, name)
    {
      if port.Some? && Holder(used, port.value) == name {
        used := used - {port.value};
      }
    }

    method BuildProject(e: Entry, c: Candidate, prev: Option<Project>) returns (b: Built)
      modifies this
      ensures (used, b) == Build(old(used), e, c, prev)
    {
      if c.definedElsewhere || (prev == None && c.refused) {
        return Skipped;
      }
      var sp, claimed: Option<int> := 0, None;
      if prev.Some? {
        sp := prev.value.supervisorPort;
      } else {
        claimed := Allocate(e.supervisors, c.name);
        if claimed == None {
          return Skipped;
        }
        sp := claimed.value;
      }
      if e.portCommand {
        if c.probe == None || (Holder(used, c.probe.value) != "" && Holder(used, c.probe.value) != c.name) || c.probe.value == sp {
          Release(claimed, c.name);
          return if prev.Some? then Kept else Skipped;
        }
        used := used[c.probe.value := c.name];
        return Generated(Project(c.fields, sp, c.probe.value));
      }
      if prev.Some? {
        return Generated(Project(c.fields, sp, prev.value.applicationPort));
      }
      var port := Allocate(e.applications, c.name);
      if port == None {
        Release(claimed, c.name);
        return Skipped;
      }
      b := Generated(Project(c.fields, sp, port.value));
    }

    method SyncEntry(e: Entry, cands: seq<Candidate>, existing: map<string, Project>)
      returns (final: map<string, Project>, reports: map<string, Report>)
      modifies this
      ensures Synced(used, final, reports) == Sync(old(used), e, cands, existing)
    {
      final, reports := map[], map[];
      for i := 0 to |cands|
        invariant Synced(used, final, reports) == Sync(old(used), e, cands[..i], existing)
      {
        var c := cands[i];
        assert cands[..i + 1][..i] == cands[..i];
        var prev := Prev(existing, c.name);
        var b := BuildProject(e, c, prev);
        if b.Generated? {
          final := final[c.name := b.project];
          reports := reports[c.name := if prev == None then Added else if prev.value == b.project then Unchanged else Updated];
        } else if b.Kept? && prev.Some? {
          final := final[c.name := prev.value];
          reports := reports[c.name := Unchanged];
        }
      }
      assert cands[..|cands|] == cands;
    }
  }
}
