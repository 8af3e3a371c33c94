/**
 The daemon's table, listeners and switches, and the reload that applies a new configuration to them
 while they are in use.
 */
module Reload {
  import opened Options
  import opened Config
  import opened Routing
  import opened Rest
  import opened Teardown
  import opened Rebuild
  import opened Carryover
  import opened Dynamic
  import opened Throughout

  class Daemon {
    var states: map<string, nat>
    var objects: map<nat, State>
    var entries: map<string, EntryState>
    var listeners: map<Address, Listener>
    var switches: map<nat, Option<nat>>
    var nextId: nat
    // History: who is routed.
    ghost var serving: map<nat, Routing.Served>

    ghost function View(): World
      reads this
    {
      World(states, objects, entries, listeners, switches, serving, nextId)
    }

    constructor ()
      ensures View() == EMPTY
    {
      states, objects, entries, listeners, switches, serving, nextId := map[], map[], map[], map[], map[], map[], 0;
    }

    // ---- Single projects ----

    method NewProjectState(p: Project, tracker: nat, entry: Option<nat>) returns (id: nat)
      modifies this`objects, this`switches, this`nextId
      ensures id == old(nextId) && View() == Created(old(View()), p, tracker, entry)
    {
      id := nextId;
      objects := objects[id := State(p, tracker, id, None, entry.Some?, entry, false)];
      switches := switches[id := Some(id)];
      nextId := nextId + 1;
    }

    method Attach(id: nat)
      requires id in objects
      modifies this`listeners, this`objects, this`states, this`serving
      ensures View() == Attached(old(View()), id)
    {
      var st := objects[id];
      var addr := ListenAddr(st.project);
      var l := Listener(0, None, map[], None);
      if addr in listeners {
        l := listeners[addr];
      }
      l := l.(members := l.members + 1);
      objects := objects[id := st.(bind := Some(addr))];
      states := states[st.project.name := id];
      if st.project.host != "" {
        l := l.(hosts := l.hosts[st.project.host := st.sw]);
      } else {
        l := l.(catchAll := Some(st.sw));
      }
      listeners := listeners[addr := l];
      serving := serving[st.sw := Routing.Served(id, st.project, st.entry)];
    }

    method Suspend(id: nat)
      requires id in objects
      modifies this`switches
      ensures View() == Suspended(old(View()), id)
    {
      switches := switches[objects[id].sw := None];
    }

    method Detach(id: nat, keep: bool)
      requires id in objects
      modifies this`listeners, this`objects, this`switches, this`serving
      ensures View() == if keep then Suspended(old(View()), id) else Detached(old(View()), id)
    {
      if keep {
        Suspend(id);
        return;
      }
      var st := objects[id];
      if st.bind == None || st.bind.value !in listeners {
        return;
      }
      var addr := st.bind.value;
      var l := listeners[addr];
      if st.project.host != "" {
        l := l.(hosts := l.hosts - {st.project.host});
      } else {
        l := l.(catchAll := None);
      }
      l := l.(members := l.members - 1);
      if l.members <= 0 && l.entry == None {
        listeners := listeners - {addr};
      } else {
        listeners := listeners[addr := l];
      }
      objects := objects[id := st.(bind := None)];
      serving := serving - {st.sw};
    }

    /** Runs at most once per project. */
    method Retire(id: nat, keep: bool)
      requires id in objects
      modifies this`listeners, this`objects, this`switches, this`serving
      ensures View() == Retired(old(View()), id, keep)
    {
      if objects[id].retired {
        return;
      }
      Detach(id, keep);
      objects := objects[id := objects[id].(retired := true)];
    }

    /** Puts a fresh record into service, on the route of the one it replaces or on one of its own. */
    method Commission(p: Project, tracker: nat, entry: Option<nat>, inherited: Option<nat>) returns (id: nat)
      requires inherited.Some? ==> inherited.value in objects && inherited.value != nextId
      modifies this`listeners, this`objects, this`switches, this`serving, this`states, this`nextId
      ensures View() == Commissioned(old(View()), p, tracker, entry, inherited) && nextId == old(nextId) + 1
    {
      id := NewProjectState(p, tracker, entry);
      if inherited.Some? {
        var prev := objects[inherited.value];
        objects := objects[id := objects[id].(sw := prev.sw, bind := prev.bind)];
        states := states[p.name := id];
        switches := switches[prev.sw := Some(id)];
        serving := if HoldsRoute(View(), inherited.value) then serving[prev.sw := Routing.Served(id, p, entry)] else serving;
      } else {
        Attach(id);
      }
    }

    method BindEntry(e: Entry)
      modifies this`entries, this`listeners, this`nextId
      ensures View() == EntryBound(old(View()), e)
    {
      listeners := listeners[EntryAddr(e) := Listener(0, Some(nextId), map[], None)];
      entries := entries[e.name := EntryState(nextId, e)];
      nextId := nextId + 1;
    }

    method UnbindEntry(name: string)
      requires name in entries
      modifies this`entries, this`listeners, this`objects, this`serving
      ensures View() == EntryUnbound(old(View()), name)
    {
      var addr := EntryAddr(entries[name].entry);
      objects := CutOff(objects, addr, entries[name].id);
      serving := Elsewhere(serving, addr);
      listeners := listeners - {addr};
      entries := entries - {name};
    }

    // ---- The difference ----

    method DiffProjects(c: Config) returns (added: set<string>, removed: set<string>, changed: set<string>)
      requires forall n :: n in states ==> states[n] in objects
      ensures forall n :: n in added <==> n in c.projects && n !in states
      ensures forall n :: n in changed <==> n in c.projects && n in states && !Unchanged(View(), c, n)
      ensures forall n :: n in removed <==> n !in c.projects && IsStatic(View(), n)
    {
      added, removed, changed := {}, {}, {};
      var todo := c.projects.Keys;
      while todo != {}
        invariant todo <= c.projects.Keys
        invariant forall n :: n in added <==> n in c.projects && n !in todo && n !in states
        invariant forall n :: n in changed <==> n in c.projects && n !in todo && n in states && !Unchanged(View(), c, n)
        decreases |todo|
      {
        var name :| name in todo;
        if name !in states {
          added := added + {name};
        } else {
          var st := objects[states[name]];
          if st.dynamic || !st.project.Equivalent(c.projects[name]) {
            changed := changed + {name};
          }
        }
        todo := todo - {name};
      }
      todo := states.Keys;
      while todo != {}
        invariant todo <= states.Keys
        invariant forall n :: n in removed <==> n !in c.projects && n !in todo && IsStatic(View(), n)
        decreases |todo|
      {
        var name :| name in todo;
        if name !in c.projects && !objects[states[name]].dynamic {
          removed := removed + {name};
        }
        todo := todo - {name};
      }
    }

    /** The wildcard entries of the configuration, by name. */
    method WantedEntries(c: Config) returns (wanted: map<string, Entry>)
      ensures wanted == Wanted(c.entries)
    {
      wanted := map[];
      for i := 0 to |c.entries|
        invariant wanted == Wanted(c.entries[..i])
      {
        assert c.entries[..i + 1][..i] == c.entries[..i];
        if c.entries[i].wildcard {
          wanted := wanted[c.entries[i].name := c.entries[i]];
        }
      }
      assert c.entries[..|c.entries|] == c.entries;
    }

    method DiffEntries(c: Config, wanted: map<string, Entry>)
      returns (added: set<string>, removed: set<string>, changed: set<string>)
      requires wanted == Wanted(c.entries)
      ensures forall m :: m in removed <==> m in entries && m !in wanted
      ensures forall m :: m in changed <==> m in entries && m in wanted && !EntryStays(View(), c, m)
      ensures forall m :: m in added <==> m in wanted && m !in entries
    {
      added, removed, changed := {}, {}, {};
      var todo := entries.Keys;
      while todo != {}
        invariant todo <= entries.Keys
        invariant forall m :: m in removed <==> m in entries && m !in todo && m !in wanted
        invariant forall m :: m in changed <==> m in entries && m !in todo && m in wanted && !EntryStays(View(), c, m)
        decreases |todo|
      {
        var name :| name in todo;
        if name !in wanted {
          removed := removed + {name};
        } else if !entries[name].entry.Equivalent(wanted[name]) {
          changed := changed + {name};
        }
        todo := todo - {name};
      }
      todo := wanted.Keys;
      while todo != {}
        invariant todo <= wanted.Keys
        invariant forall m :: m in added <==> m in wanted && m !in todo && m !in entries
        decreases |todo|
      {
        var name :| name in todo;
        if name !in entries {
          added := added + {name};
        }
        todo := todo - {name};
      }
    }

    // ---- Tear down ----

    /** Removed projects leave the table. */
    method ReleaseRemoved(c: Config, removed: set<string>) returns (retire: map<nat, bool>)
      requires Matched(View()) && forall n :: n in removed ==> n !in c.projects && n in states
      modifies this`states
      ensures View() == old(View()).(states := states)
      ensures RowsWithout(old(View()), states, removed - c.projects.Keys) && Recorded(old(View()), c, removed, retire)
    {
      hide Matched, Recorded, RowsWithout;
      retire := map[];
      var todo := removed;
      ghost var all: set<string> := {};
      NothingRecorded(View(), c);
      while todo != {}
        invariant todo <= removed && all == removed - todo
        invariant RowsWithout(old(View()), states, all - c.projects.Keys) && Recorded(old(View()), c, all, retire)
        decreases |todo|
      {
        var name :| name in todo;
        ReleaseOne(old(View()), c, all, states, retire, name);
        all := all + {name};
        retire := retire[states[name] := false];
        states := states - {name};
        todo := todo - {name};
      }
      assert all == removed;
    }

    /** Suspends the project's switch if its route is kept, and lists the project to retire. */
    method SuspendKept(ghost w0: World, c: Config, name: string, ghost changed: set<string>,
                       ghost names: set<string>, ghost held: set<string>, retiring: map<nat, bool>)
      returns (retire: map<nat, bool>)
      requires Matched(w0) && View() == w0.(states := states, switches := switches) && Recorded(w0, c, names, retiring)
      requires name in changed && name in c.projects && name in w0.states && name in states && states[name] == w0.states[name]
      requires SwitchesOutside(w0, switches, changed) && RoutesHeld(w0, c, switches, held)
      modifies this`switches
      ensures View() == w0.(states := states, switches := switches) && Recorded(w0, c, names + {name}, retire)
      ensures SwitchesOutside(w0, switches, changed) && RoutesHeld(w0, c, switches, held + {name})
    {
      hide Matched, SwitchesOutside, RoutesHeld, Recorded, Live, Off;
      SuspendNext(w0, c, switches, changed, held, name);
      RecordOne(w0, c, names, retiring, name);
      var id := states[name];
      var keep := !objects[id].dynamic && SameRoute(objects[id].project, c.projects[name]);
      if keep {
        Suspend(id);
      }
      retire := retiring[id := keep];
    }

    /** A changed project on an unchanged route keeps it, suspended, and its table row. */
    method SuspendChanged(ghost w0: World, c: Config, changed: set<string>, ghost names: set<string>, retiring: map<nat, bool>)
      returns (retire: map<nat, bool>)
      requires Matched(w0) && View() == w0.(states := states) && Recorded(w0, c, names, retiring)
      requires forall n :: n in changed ==> n in c.projects && n in w0.states && n in states && states[n] == w0.states[n]
      modifies this`switches
      ensures View() == w0.(states := states, switches := switches)
      ensures Recorded(w0, c, names + changed, retire)
      ensures SwitchesOutside(w0, switches, changed) && RoutesHeld(w0, c, switches, changed)
    {
      hide Matched, Recorded, SwitchesOutside, RoutesHeld, Placed, KeepsRoute;
      NoneTouched(w0, changed);
      NoRouteHeld(w0, c);
      ghost var all, held := names, {};
      retire := retiring;
      var todo := changed;
      while todo != {}
        invariant todo <= changed
        invariant View() == w0.(states := states, switches := switches)
        invariant all == names + held && Recorded(w0, c, all, retire)
        invariant held == changed - todo && SwitchesOutside(w0, switches, changed) && RoutesHeld(w0, c, switches, held)
        decreases |todo|
      {
        var name :| name in todo;
        retire := SuspendKept(w0, c, name, changed, all, held, retire);
        all, held, todo := all + {name}, held + {name}, todo - {name};
      }
      assert held == changed;
    }

    /** The names an entry's projects are registered under. */
    method DynamicStates(entry: nat) returns (names: set<string>)
      requires forall n :: n in states ==> states[n] in objects
      ensures forall n :: n in names <==> IsDynamic(View(), n) && At(View(), n).value.entry == Some(entry)
    {
      names := {};
      var todo := states.Keys;
      while todo != {}
        invariant todo <= states.Keys
        invariant forall n :: n in names <==> n !in todo && IsDynamic(View(), n) && At(View(), n).value.entry == Some(entry)
        decreases |todo|
      {
        var name :| name in todo;
        var st := objects[states[name]];
        if st.dynamic && st.entry == Some(entry) {
          names := names + {name};
        }
        todo := todo - {name};
      }
    }

    /** The projects of one entry that goes leave the table, unless the configuration takes their name over. */
    method ReleaseEntry(ghost w0: World, c: Config, entry: string, changed: set<string>, ghost names: set<string>,
                        retiring: map<nat, bool>)
      returns (retire: map<nat, bool>)
      requires Matched(w0) && View() == w0.(states := states, switches := switches) && Recorded(w0, c, names, retiring)
      requires entry in w0.entries && RowsWithout(w0, states, names - c.projects.Keys)
      requires forall n :: n in changed <==> n in c.projects && n in w0.states && !Unchanged(w0, c, n)
      modifies this`states
      ensures View() == w0.(states := states, switches := switches)
      ensures var all := names + OfEntrySet(w0, c, entry);
        Recorded(w0, c, all, retire) && RowsWithout(w0, states, all - c.projects.Keys)
    {
      retire := retiring;
      hide Matched, Recorded, RowsWithout, OfEntrySet;
      RowsAreThere(w0, states, names - c.projects.Keys);
      var todo := DynamicStates(entries[entry].id);
      ghost var mine, all := todo, names;
      MineAre(w0, View(), c, names, entry, mine);
      while todo != {}
        invariant todo <= mine
        invariant all == names + (mine - todo - c.projects.Keys)
        invariant Recorded(w0, c, all, retire) && RowsWithout(w0, states, all - c.projects.Keys)
        decreases |todo|
      {
        var name :| name in todo;
        DoneNext(names, mine, c.projects.Keys, todo, name);
        todo := todo - {name};
        if name !in changed {
          ReleaseOne(w0, c, all, states, retire, name);
          retire := retire[states[name] := false];
          states := states - {name};
          all := all + {name};
        }
      }
      assert all == names + (mine - c.projects.Keys);
    }

    /** The dynamic projects of removed and changed entries. */
    method ReleaseOrphans(ghost w0: World, c: Config, gone: set<string>, changed: set<string>, ghost names: set<string>,
                          retiring: map<nat, bool>)
      returns (retire: map<nat, bool>)
      requires Matched(w0) && View() == w0.(states := states, switches := switches) && Recorded(w0, c, names, retiring)
      requires gone <= w0.entries.Keys && RowsWithout(w0, states, names - c.projects.Keys)
      requires forall n :: n in changed <==> n in c.projects && n in w0.states && !Unchanged(w0, c, n)
      modifies this`states
      ensures View() == w0.(states := states, switches := switches)
      ensures var all := names + OfEntries(w0, c, gone);
        Recorded(w0, c, all, retire) && RowsWithout(w0, states, all - c.projects.Keys)
    {
      hide Matched, Recorded, RowsWithout, OfEntries, OfEntrySet, Unchanged;
      retire := retiring;
      var todo := gone;
      ghost var all := names;
      NoEntries(w0, c);
      assert gone - gone == {};
      while todo != {}
        invariant todo <= gone && all == names + OfEntries(w0, c, gone - todo)
        invariant Recorded(w0, c, all, retire) && RowsWithout(w0, states, all - c.projects.Keys)
        decreases |todo|
      {
        var name :| name in todo;
        OfEntriesNext(w0, c, gone, todo, name);
        retire := ReleaseEntry(w0, c, name, changed, all, retire);
        all := all + OfEntrySet(w0, c, name);
        todo := todo - {name};
      }
      assert gone - {} == gone;
    }

    /** Everything that goes is taken off the table or suspended, and put on the list to retire. */
    method DetachAll(c: Config, removed: set<string>, changed: set<string>, gone: set<string>) returns (retire: map<nat, bool>)
      requires Matched(View())
      requires forall n :: n in removed <==> n !in c.projects && IsStatic(View(), n)
      requires forall n :: n in changed <==> n in c.projects && n in states && !Unchanged(View(), c, n)
      requires forall m :: m in gone <==> m in entries && !EntryStays(View(), c, m)
      modifies this`states, this`switches
      ensures View() == old(View()).(states := states, switches := switches)
      ensures Recorded(old(View()), c, Goes(old(View()), c), retire)
      ensures RowsLeft(old(View()), View(), c)
      ensures SwitchesOutside(old(View()), switches, changed) && RoutesHeld(old(View()), c, switches, changed)
    {
      hide Recorded, SwitchesOutside, RoutesHeld, OfEntries, Goes, RowsWithout;
      ghost var w0 := View();
      retire := ReleaseRemoved(c, removed);
      RowsStay(w0, states, c, removed);
      retire := SuspendChanged(w0, c, changed, removed, retire);
      assert removed + changed - c.projects.Keys == removed - c.projects.Keys;
      retire := ReleaseOrphans(w0, c, gone, changed, removed + changed, retire);
      WhoGoes(w0, c, removed, changed, gone);
      RowsLeftIs(w0, View(), c, removed + changed + OfEntries(w0, c, gone));
    }

    /** The projects are retired side by side; in whatever order they finish, the outcome is this. */
    method RetireAll(ghost w0: World, ghost c: Config, retire: map<nat, bool>)
      requires Wired(View()) && forall id :: id in retire ==> MayRetire(View(), id, retire[id])
      requires Midway(View(), w0, c, Retiring(View(), retire, map[]))
      modifies this`listeners, this`objects, this`switches, this`serving
      ensures Wired(View()) && RetiredSome(old(View()), View(), retire)
    {
      ghost var w := View();
      hide Wired, RetiredSome, ServingOk, MayRetire, Retired, Midway;
      WiredIs(w);
      NobodyRetired(w);
      var todo := retire.Keys;
      ghost var done: map<nat, bool> := map[];
      while todo != {}
        invariant todo <= retire.Keys && done.Keys == retire.Keys - todo && forall id :: id in done ==> done[id] == retire[id]
        invariant Wired(View()) && RetiredSome(w, View(), done)
        invariant Midway(View(), w0, c, Retiring(w, retire, done))
        decreases |todo|
      {
        var id :| id in todo;
        RetireNext(w, View(), done, id, retire[id]);
        RetiredIsMidway(View(), Retired(View(), id, retire[id]), w0, c, w, retire, done, id);
        Retire(id, retire[id]);
        done := done[id := retire[id]];
        todo := todo - {id};
      }
      assert done == retire;
    }

    method UnbindAll(ghost w0: World, ghost c: Config, ghost gone: map<nat, bool>, names: set<string>)
      requires Wired(View()) && names <= entries.Keys && Midway(View(), w0, c, Unbinding(gone))
      requires forall m :: m in names ==> IsVacant(View(), m)
      modifies this`entries, this`listeners, this`objects, this`serving
      ensures Wired(View()) && View() == old(View()).(entries := entries, listeners := listeners)
      ensures entries == old(entries) - names
    {
      hide Wired, IsVacant, Midway, EntryUnbound;
      ghost var w := View();
      var todo := names;
      while todo != {}
        invariant todo <= names && Wired(View()) && entries == w.entries - (names - todo)
        invariant View() == w.(entries := entries, listeners := listeners) && Midway(View(), w0, c, Unbinding(gone))
        decreases |todo|
      {
        var name :| name in todo;
        EntryUnboundKeeps(View(), name);
        VacantUnbound(w, View(), w0, c, gone, name);
        UnbindEntry(name);
        todo := todo - {name};
      }
    }

    // ---- Rebuild ----

    /** An added project may take over an address that a removed one held. */
    method CommissionAdded(ghost w0: World, c: Config, ghost base: map<nat, State>, added: set<string>, ghost rest: set<string>)
      requires Loaded(c) && Rebuilding(View(), w0, c, base, added + rest) && added !! rest
      requires forall n :: n in added ==> n in c.projects && n !in w0.states
      modifies this`listeners, this`objects, this`switches, this`serving, this`states, this`nextId
      ensures Rebuilding(View(), w0, c, base, rest) && nextId >= old(nextId)
    {
      hide Rebuilding, Commissioned;
      var todo := added;
      while todo != {}
        invariant todo <= added && Rebuilding(View(), w0, c, base, todo + rest) && nextId >= old(nextId)
        decreases |todo|
      {
        var name :| name in todo;
        FreshRoute(View(), w0, c, base, todo + rest, name, nextId);
        var id := Commission(c.projects[name], nextId, None, None);
        LessOne(todo, rest, name);
        todo := todo - {name};
      }
      assert {} + rest == rest;
    }

    /** current is the table before the reload: a changed project keeps its tracker, and its route if it can. */
    method CommissionChanged(ghost w0: World, c: Config, ghost base: map<nat, State>, changed: set<string>,
                             current: map<string, nat>)
      requires Loaded(c) && Rebuilding(View(), w0, c, base, changed)
      requires forall n :: n in changed ==> n in current && RecordOf(w0, base, n, current[n]) && n in c.projects
      modifies this`listeners, this`objects, this`switches, this`serving, this`states, this`nextId
      ensures Rebuilding(View(), w0, c, base, {}) && nextId >= old(nextId)
    {
      hide Rebuilding, Commissioned;
      var todo := changed;
      while todo != {}
        invariant todo <= changed && Rebuilding(View(), w0, c, base, todo) && nextId >= old(nextId)
        decreases |todo|
      {
        var name :| name in todo;
        StillRecorded(View(), w0, c, base, todo, name, current[name]);
        var prev := objects[current[name]];
        var inherited: Option<nat> := None;
        if !prev.dynamic && SameRoute(prev.project, c.projects[name]) {
          inherited := Some(current[name]);
          KeptRoute(View(), w0, c, base, todo, name);
        } else {
          FreshRoute(View(), w0, c, base, todo, name, prev.tracker);
        }
        var id := Commission(c.projects[name], prev.tracker, None, inherited);
        todo := todo - {name};
      }
    }

    method BindEntries(ghost w0: World, c: Config, ghost base: map<nat, State>, wanted: map<string, Entry>, names: set<string>)
      requires Loaded(c) && Rebuilding(View(), w0, c, base, {}) && wanted == Wanted(c.entries)
      requires forall m :: m in names <==> m in wanted && m !in entries
      requires entries.Keys <= wanted.Keys
      modifies this`entries, this`listeners, this`nextId
      ensures Rebuilding(View(), w0, c, base, {}) && entries.Keys == wanted.Keys
      ensures OnlyNew(old(entries), entries, old(nextId))
    {
      hide Rebuilding, OnlyNew;
      SameEntries(entries, nextId);
      var todo := names;
      while todo != {}
        invariant todo <= names && Rebuilding(View(), w0, c, base, {})
        invariant entries.Keys <= wanted.Keys && forall m :: m in todo <==> m in wanted && m !in entries
        invariant OnlyNew(old(entries), entries, old(nextId)) && nextId >= old(nextId)
        decreases |todo|
      {
        var name :| name in todo;
        EntryProgress(View(), w0, c, base, name);
        OneEntryMore(old(entries), entries, old(nextId), name, EntryState(nextId, wanted[name]));
        BindEntry(wanted[name]);
        todo := todo - {name};
      }
    }

    // ---- The whole ----

    /** A new daemon builds everything from the configuration. */
    method Start(c: Config)
      requires Loaded(c) && View() == EMPTY
      modifies this
      ensures AtRest(View()) && Serves(View(), c) && states.Keys == c.projects.Keys && HostsNamed(View())
    {
      EmptyIsRebuilding(c);
      hide Rebuilding;
      assert c.projects.Keys + {} == c.projects.Keys;
      CommissionAdded(EMPTY, c, map[], c.projects.Keys, {});
      RebuildingIs(View(), EMPTY, c, map[], {});
      var wanted := WantedEntries(c);
      var added, removed, changed := DiffEntries(c, wanted);
      BindEntries(EMPTY, c, map[], wanted, added);
      RebuiltIsAtRest(View(), EMPTY, c, map[]);
      StartedIsOnly(View(), c);
      NoDynamicsNamed(View(), c);
    }

    /** Everything that goes is out of service, its processes stopped, before anything new is built. */
    method TearDown(c: Config, ghost added: set<string>, removed: set<string>, changed: set<string>, gone: set<string>)
      requires AtRest(View())
      requires forall n :: n in added <==> n in c.projects && n !in states
      requires forall n :: n in removed <==> n !in c.projects && IsStatic(View(), n)
      requires forall n :: n in changed <==> n in c.projects && n in states && !Unchanged(View(), c, n)
      requires forall m :: m in gone <==> m in entries && !EntryStays(View(), c, m)
      modifies this`states, this`listeners, this`objects, this`switches, this`serving, this`entries
      ensures Rebuilding(View(), old(View()), c, objects, added + changed)
      ensures entries == old(entries) - gone
      ensures RestRetired(old(View()).(objects := objects), old(View()), c)
      ensures forall n :: n in changed ==> RecordOf(old(View()), objects, n, old(states)[n])
    {
      hide Wired, EntriesOk, ListenersOk, Matched, TornDown, Rebuilding;
      hide Recorded, RowsLeft, SwitchesOutside, RetiredSome, RestRetired;
      ghost var w0 := View();
      AtRestIs(w0);
      var retire := DetachAll(c, removed, changed, gone);
      DetachedIs(w0, View(), c, retire, changed);
      ghost var detached := View();
      DetachedIsMidway(View(), w0, c, changed, retire);
      RetireAll(w0, c, retire);
      RetiredIs(w0, detached, View(), c, retire, changed);
      GoneAreEmpty(w0, View(), c, retire, gone);
      ghost var torn := View();
      UnbindAll(w0, c, retire, gone);
      UnboundIs(w0, torn, View(), c, retire, gone, added + changed);
      RecordsOfChanged(w0, View(), c, retire);
    }

    /**
     Applies a valid configuration to a daemon at rest. In between, each listener the rebuild needs is
     free; afterwards the daemon serves the new configuration, and what the reload promises to carry
     over is carried over.
     */
    method ApplyConfig(c: Config)
      requires Loaded(c) && AtRest(View())
      modifies this
      ensures AtRest(View()) && Serves(View(), c)
      ensures Carried(View(), old(View()), c) && EntriesCarried(View(), old(View()), c)
      ensures HostsNamed(old(View())) ==> HostsNamed(View())
      // A configured project keeps its switch exactly if its listen address, port and hostname stay.
      ensures forall n :: n in c.projects && IsStatic(old(View()), n) ==>
        n in old(states) && old(states)[n] in old(objects) && n in states && states[n] in objects
        && var was, st := old(objects)[old(states)[n]], objects[states[n]];
          st.sw == was.sw <==>
            && was.project.listenHost == c.projects[n].listenHost && was.project.supervisorPort == c.projects[n].supervisorPort
            && was.project.host == c.projects[n].host
    {
      hide Wired, Matched, EntriesOk, ListenersOk, Rebuilding, RestRetired, Serves, Carried, EntriesCarried, HostsNamed, OnlyNew;
      ghost var w0 := View();
      var current := states;
      AtRestIs(w0);
      var added, removed, changed := DiffProjects(c);
      var wanted := WantedEntries(c);
      var entriesAdded, entriesRemoved, entriesChanged := DiffEntries(c, wanted);

      var gone := entriesRemoved + entriesChanged;
      TearDown(c, added, removed, changed, gone);
      ghost var base := objects;
      CommissionAdded(w0, c, base, added, changed);
      CommissionChanged(w0, c, base, changed, current);
      ghost var from := nextId;
      BindEntries(w0, c, base, wanted, entriesAdded + entriesChanged);

      EntriesAreCarried(w0, View(), c, gone, from);
      RebuiltIsAtRest(View(), w0, c, base);
      if HostsNamed(w0) {
        HostsStayNamed(w0, View(), c);
      }
      forall n | n in c.projects && IsStatic(w0, n)
        ensures n in w0.states && w0.states[n] in w0.objects && n in states && states[n] in objects
        ensures objects[states[n]].sw == w0.objects[w0.states[n]].sw <==>
          && w0.objects[w0.states[n]].project.listenHost == c.projects[n].listenHost
          && w0.objects[w0.states[n]].project.supervisorPort == c.projects[n].supervisorPort
          && w0.objects[w0.states[n]].project.host == c.projects[n].host
      {
        KeptByItsFields(w0, View(), c, n);
      }
    }

    /**
     An invalid configuration rejects the whole reload, and nothing changes. fieldsOk is the verdict of
     the checks of single projects and entries, names the order in which projects are checked.
     */
    method Reload(c: Config, names: seq<string>, fieldsOk: bool) returns (applied: bool)
      requires AtRest(View()) && Lists(names, c) && (fieldsOk <==> FieldsOk(c))
      modifies this
      ensures applied <==> Loaded(c)
      ensures Reloaded(old(View()), View(), c)
      ensures AtRest(View()) && (HostsNamed(old(View())) ==> HostsNamed(View()))
    {
      hide AtRest, Serves, Carried, EntriesCarried, HostsNamed, NoConflict, FieldsOk, Lists;
      var errs := Validate(c, names);
      if errs != [] || !fieldsOk {
        return false;
      }
      ApplyConfig(c);
      applied := true;
    }

    // ---- Projects of wildcard entries ----

    /**
     The registering half of a resolution; a name that is taken is left alone. The resolver knows its
     entry by itself: a reload may have taken it off the table and closed its listener long since.
     */
    method Materialise(es: EntryState, p: Project) returns (id: Option<nat>)
      modifies this`listeners, this`objects, this`switches, this`serving, this`states, this`nextId
      ensures id == if p.name in old(states) then None else Some(old(nextId))
      ensures View() == if id == None then old(View()) else RegisteredFor(old(View()), es, p, old(nextId))
    {
      if p.name in states {
        return None;
      }
      var open := es.entry.name in entries && entries[es.entry.name] == es;
      var st := NewProjectState(p, nextId, Some(es.id));
      if open {
        Attach(st);
      } else {
        states := states[p.name := st];
      }
      id := Some(st);
    }

    /** Safe against a reload that retires the same project. Retiring waits for the process; until it is gone, the row stays. */
    method DropDynamic(id: nat)
      requires id in objects
      modifies this`listeners, this`objects, this`switches, this`serving, this`states
      ensures View() == Dropped(old(View()), id)
    {
      Retire(id, false);
      RetiredMarks(old(View()), id, false);
      ForgetDynamic(id);
    }

    /** The row may by now be another project's. */
    method ForgetDynamic(id: nat)
      requires id in objects
      modifies this`states
      ensures View() == Unlisted(old(View()), objects[id].project.name, id)
    {
      var name := objects[id].project.name;
      if name in states && states[name] == id {
        states := states - {name};
      }
    }

    /** The swap of project:restart, when the application port has changed; refused if the project was replaced meanwhile. */
    method RestartDynamic(id: nat, p: Project) returns (ok: bool)
      requires id in objects && id != nextId && p.name == objects[id].project.name
      modifies this`listeners, this`objects, this`switches, this`serving, this`states, this`nextId
      ensures ok <==> p.name in old(states) && old(states)[p.name] == id
      ensures View() == if ok then Restarted(old(View()), id, p) else old(View())
    {
      if p.name !in states || states[p.name] != id {
        return false;
      }
      Suspend(id);
      Retire(id, true);
      var next := Commission(p, objects[id].tracker, objects[id].entry, Some(id));
      ok := true;
    }
  }

  /**
   A reload agrees with a fresh start: after it, every request gets the answer a daemon newly built
   from the same configuration gives, except where a project of a surviving wildcard entry takes it.
   */
  lemma ReloadedAsFresh(w: World, v: World, c: Config, addr: Address, host: string, seen: Seen)
    requires Loaded(c) && AtRest(w) && Serves(w, c) && !TakenByDynamic(w, addr, host)
    requires AtRest(v) && Serves(v, c) && v.states.Keys == c.projects.Keys
    ensures Sees(w, addr, host, seen) <==> Sees(v, addr, host, seen)
  {
    RoutingIsConfigured(w, c, addr, host, seen);
    RoutingIsConfigured(v, c, addr, host, seen);
  }

  /** Whatever is neither changed nor removed is answered by the very same state as before, those projects included. */
  lemma UntouchedRoutes(w0: World, w: World, c: Config, n: string, host: string)
    requires AtRest(w0) && AtRest(w) && Carried(w, w0, c) && Stays(w0, c, n) && Live(w0, n)
    requires var p := w0.objects[w0.states[n]].project; p.host == "" || p.host == host
    ensures var addr := ListenAddr(w0.objects[w0.states[n]].project);
      Route(w0, addr, host) == ToState(w0.states[n]) == Route(w, addr, host)
  {
    assert n in c.projects ==> Rebuilt(w, w0, c, n);
    assert n !in c.projects ==> Kept(w, w0, n);
    LiveIsRouted(w0, n, host);
    LiveIsRouted(w, n, host);
  }
}
