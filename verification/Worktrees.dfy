/**
 Where the resolver meets the daemon: the registering step of a request is what the daemon does to its
 table, and what a request comes to whose worktree is registered but off its listener.
 */
module Worktrees {
  import opened Config
  import opened Routing
  import opened Rest
  import opened Dynamic
  import ResolverRuns

  /** The daemon's world after the registering section of a resolution, as Materialise leaves it. */
  function AfterMaterialise(w: World, es: EntryState, p: Project, tracker: nat): World {
    if p.name in w.states then w else RegisteredFor(w, es, p, tracker)
  }

  /** Request t is materialising the worktree of this name. */
  predicate Resolves(s: ResolverRuns.Sys, t: nat, name: string) {
    t in s.callers && s.callers[t].name == name && s.callers[t].pc.Leading?
  }

  /** The resolver's step does to the table of names what the daemon's does, and answers with the project registered, if any. */
  lemma SettleMaterialises(s: ResolverRuns.Sys, t: nat, w: World, es: EntryState, p: Project, tracker: nat)
    requires Resolves(s, t, p.name) && s.table == w.states
    ensures var n := ResolverRuns.NextDo(s, t, ResolverRuns.Settle(ResolverRuns.Registers(w.nextId)));
      var v, r := AfterMaterialise(w, es, p, tracker), n.results[s.callers[t].pc.call];
      && n.table == v.states
      && (r.Handler? <==> v != w)
      && (r.Handler? ==> p.name in v.states && v.states[p.name] == r.id && r.id in v.objects && v.objects[r.id].project == p)
  {
    if p.name !in w.states {
      var v := RegisteredFor(w, es, p, tracker);
      assert v.nextId == w.nextId + 1;
    }
  }

  /**
   A request for a worktree that is registered but off its listener, because it is being dropped or
   because a drop and a restart have stranded it, reaches the resolver; and whatever materialising
   comes to, no project answers it, and the table stays as it is.
   */
  lemma OffIsRefused(w: World, n: string, m: string, s: ResolverRuns.Sys, t: nat, verdict: ResolverRuns.Verdict)
    requires AtRest(w) && HostsNamed(w) && Off(w, n)
    requires m in w.entries && IsWorktree(w.entries[m].entry, w.objects[w.states[n]].project)
    requires Resolves(s, t, n) && s.table == w.states
    ensures var p := w.objects[w.states[n]].project; Route(w, ListenAddr(p), p.host) == Resolver(w.entries[m].id)
    ensures var next := ResolverRuns.NextDo(s, t, ResolverRuns.Settle(verdict));
      !next.results[s.callers[t].pc.call].Handler? && next.table == s.table
  {
    OffMeetsResolver(w, n, m);
    assert n in s.table;
    hide AtRest, HostsNamed;
  }
}
