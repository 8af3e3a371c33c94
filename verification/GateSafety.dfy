/**
 The stop-gate protocol keeps its invariant in every interleaving, and what follows from that.
 */
module GateSafety {
  import opened Options
  import opened Idle
  import opened Lifecycle
  import opened StopGate

  // ---- Counting ----

  lemma SetsAfter(reqs: map<nat, Req>, t: nat, r: Req)
    ensures var q := reqs[t := r];
      && InflightSet(q) == (if r.open && r.kind != KeepAlive then InflightSet(reqs) + {t} else InflightSet(reqs) - {t})
      && PersistentSet(q) == (if r.open && r.kind == KeepAlive then PersistentSet(reqs) + {t} else PersistentSet(reqs) - {t})
      && HoldingSet(q) == (if r.holding then HoldingSet(reqs) + {t} else HoldingSet(reqs) - {t})
      && OverSet(q) == (if r.pc == OverLimit then OverSet(reqs) + {t} else OverSet(reqs) - {t})
  {
  }

  /** What one step does to the request that takes it, whatever the rest of the system looks like. */
  lemma ReqFacts(s: Sys, r: Req, a: ReqAct)
    requires BracketOk(r) && ReqEnabled(s, r, a)
    ensures var q := NextReq(s, r, a);
      && BracketOk(q) && q.kind == r.kind
      && (if a.Release? then r.open && !q.open else q.open == r.open)
      && (q.holding == if a.TryHold? then s.held < s.maxHeld else r.holding && !a.Unhold?)
      && (r.holding ==> !a.TryHold?) && (a.Unhold? ==> r.holding)
      && (q.pc == OverLimit <==> a.TryHold? && s.held >= s.maxHeld)
      && (r.pc == OverLimit <==> a.Reject?) && (a.TryHold? ==> r.pc != OverLimit)
  {
  }

  lemma CountersAfter(reqs: map<nat, Req>, t: nat, r: Req)
    requires t in reqs && r.kind == reqs[t].kind && (r.open ==> reqs[t].open)
    ensures var n := if reqs[t].open && !r.open then 1 else 0;
      && |InflightSet(reqs[t := r])| == |InflightSet(reqs)| - (if r.kind != KeepAlive then n else 0)
      && |PersistentSet(reqs[t := r])| == |PersistentSet(reqs)| - (if r.kind == KeepAlive then n else 0)
  {
    SetsAfter(reqs, t, r);
    assert t in InflightSet(reqs) <==> reqs[t].open && r.kind != KeepAlive;
    assert t in PersistentSet(reqs) <==> reqs[t].open && r.kind == KeepAlive;
  }

  lemma CountersReq(s: Sys, t: nat, a: ReqAct)
    requires CountersOk(s) && t in s.reqs && BracketOk(s.reqs[t]) && ReqEnabled(s, s.reqs[t], a)
    ensures CountersOk(ReqStep(s, t, a))
  {
    ReqFacts(s, s.reqs[t], a);
    CountersAfter(s.reqs, t, NextReq(s, s.reqs[t], a));
  }

  lemma HoldsReq(s: Sys, t: nat, a: ReqAct)
    requires HoldsOk(s) && t in s.reqs && BracketOk(s.reqs[t]) && ReqEnabled(s, s.reqs[t], a)
    ensures HoldsOk(ReqStep(s, t, a))
  {
    var r := NextReq(s, s.reqs[t], a);
    ReqFacts(s, s.reqs[t], a);
    SetsAfter(s.reqs, t, r);
    assert t in HoldingSet(s.reqs) <==> s.reqs[t].holding;
    assert t in OverSet(s.reqs) <==> s.reqs[t].pc == OverLimit;
  }

  lemma BracketsReq(s: Sys, t: nat, a: ReqAct)
    requires BracketsOk(s) && t in s.reqs && ReqEnabled(s, s.reqs[t], a)
    ensures BracketsOk(ReqStep(s, t, a))
  {
    ReqFacts(s, s.reqs[t], a);
  }

  lemma StaysSheltered(s: Sys, r: Req, a: ReqAct, o: nat)
    requires ReqEnabled(s, r, a) && s.act.gate == Some(o) && s.closed[o] == 0 && Sheltered(r, o)
    ensures Sheltered(NextReq(s, r, a), o)
  {
  }

  lemma ShieldsKept(reqs: map<nat, Req>, t: nat, q: Req, p: Stopper, o: nat)
    requires Shields(reqs, p, o) && t in reqs && q.kind == reqs[t].kind && (q.open ==> reqs[t].open)
    requires Sheltered(reqs[t], o) ==> Sheltered(q, o)
    ensures Shields(reqs[t := q], p, o)
  {
  }

  lemma ShieldReq(s: Sys, t: nat, a: ReqAct)
    requires ShieldOk(s) && GateOk(s) && t in s.reqs && BracketOk(s.reqs[t]) && ReqEnabled(s, s.reqs[t], a)
    ensures ShieldOk(ReqStep(s, t, a))
  {
    ReqFacts(s, s.reqs[t], a);
    if s.act.gate.Some? {
      var o := s.act.gate.value;
      if Sheltered(s.reqs[t], o) {
        StaysSheltered(s, s.reqs[t], a, o);
      }
      ShieldsKept(s.reqs, t, NextReq(s, s.reqs[t], a), s.stops[o], o);
    }
  }

  // ---- Stop attempts ----

  /** What one step does to the stop attempt that takes it. */
  lemma StopFacts(s: Sys, p: Stopper, a: StopAct)
    requires AttemptOk(p) && StopEnabled(s, p, a)
    ensures var q := NextStop(s, p, a);
      && AttemptOk(q)
      && (Owns(p.pc) <==> !a.CloseGate?) && (Owns(q.pc) <==> !a.CloseGate? && !a.ClearGate?)
      && p.pc != Finished && (q.pc == Finished <==> a.CloseGate?)
      && (PastInflight(q) ==> PastInflight(p) || (a.LoadInflight? && s.act.inflight <= 0))
      && (PastPersistent(q) ==> PastPersistent(p) || (a.LoadPersistent? && s.act.persistent <= 0))
      && (a.Stop? ==> PastInflight(p) && PastPersistent(p))
  {
  }

  lemma GateStop(s: Sys, o: nat, a: StopAct)
    requires GateOk(s) && o in s.stops && StopEnabled(s, s.stops[o], a)
    ensures GateOk(StopStep(s, o, a))
  {
    StopFacts(s, s.stops[o], a);
  }

  lemma GateArm(s: Sys, o: nat, who: StopperKind)
    requires GateOk(s) && o !in s.stops && s.act.gate == None
    ensures GateOk(Next(s, Arm(o, who)))
  {
  }

  lemma ShieldStop(s: Sys, o: nat, a: StopAct)
    requires ShieldOk(s) && GateOk(s) && CountersOk(s) && o in s.stops && StopEnabled(s, s.stops[o], a)
    ensures ShieldOk(StopStep(s, o, a))
  {
    StopFacts(s, s.stops[o], a);
    if a.LoadInflight? && s.act.inflight <= 0 {
      assert InflightSet(s.reqs) == {};
      assert forall t :: t in s.reqs && s.reqs[t].open && s.reqs[t].kind != KeepAlive ==> t in InflightSet(s.reqs);
    }
    if a.LoadPersistent? && s.act.persistent <= 0 {
      assert PersistentSet(s.reqs) == {};
      assert forall t :: t in s.reqs && s.reqs[t].open && s.reqs[t].kind == KeepAlive ==> t in PersistentSet(s.reqs);
    }
  }

  /** While the owner of the gate has read both counters as zero, no counted request is past the gate. */
  lemma NoneOnCourse(s: Sys, o: nat, t: nat)
    requires ShieldOk(s) && GateOk(s) && o in s.stops && PastInflight(s.stops[o]) && PastPersistent(s.stops[o])
    requires t in s.reqs && s.reqs[t].open
    ensures Sheltered(s.reqs[t], o)
  {
  }

  // ---- Generations ----

  lemma DoomedStep(s: Sys, x: Step)
    requires DoomedOk(s) && StepEnabled(s, x)
    ensures DoomedOk(Next(s, x))
  {
    match x
    case Serve(t, a) =>
      if a.CallEnsure? {
        LifecycleRuns.StepFacts(s.sup, EvOnDemand(s.clock, a.spawns));
      }
    case Attempt(o, a) =>
      if a.Stop? {
        LifecycleRuns.StepFacts(s.sup, EvStopBegin);
      }
    case Env(e) => LifecycleRuns.StepFacts(s.sup, e);
    case _ =>
  }

  /** A supervisor event moves nobody onto a doomed course: it may answer a channel, or start a new generation. */
  lemma CourseSup(r: Req, sup: Sup, e: Event, doomed: set<nat>)
    requires Inv(sup) && Enabled(sup, e) && CourseOk(r, sup, doomed)
    requires forall g :: g in doomed ==> g <= sup.generation
    ensures CourseOk(r, Apply(sup, e), doomed)
  {
    LifecycleRuns.StepFacts(sup, e);
    if r.pc.Awaiting? {
      LifecycleRuns.SentGrows(sup, e, r.pc.channel);
    }
  }

  /** The channel a request opens is on course: only an active project leaves it unanswered or answers it ready. */
  lemma CourseOpened(s: Sys, spawns: bool)
    requires Inv(s.sup) && DoomedOk(s)
    ensures var sup := EnsureOnDemand(s.sup, s.clock, spawns);
      && |sup.sent| == |s.sup.sent| + 1
      && (sup.sent[|s.sup.sent|] == [] || sup.sent[|s.sup.sent|][0] == Ready ==> sup.generation !in s.doomed)
  {
  }

  lemma CoursesReq(s: Sys, t: nat, a: ReqAct)
    requires CoursesOk(s) && DoomedOk(s) && Inv(s.sup)
    requires t in s.reqs && BracketOk(s.reqs[t]) && ReqEnabled(s, s.reqs[t], a)
    ensures CoursesOk(ReqStep(s, t, a))
  {
    var n := ReqStep(s, t, a);
    if a.CallEnsure? {
      forall u | u in s.reqs
        ensures CourseOk(s.reqs[u], n.sup, n.doomed)
      {
        CourseSup(s.reqs[u], s.sup, EvOnDemand(s.clock, a.spawns), s.doomed);
      }
      CourseOpened(s, a.spawns);
    } else {
      assert CourseOk(s.reqs[t], s.sup, s.doomed);
      assert CourseOk(n.reqs[t], s.sup, s.doomed);
    }
  }

  lemma CoursesStop(s: Sys, o: nat, a: StopAct)
    requires CoursesOk(s) && DoomedOk(s) && Inv(s.sup) && GateOk(s) && ShieldOk(s)
    requires o in s.stops && StopEnabled(s, s.stops[o], a)
    ensures CoursesOk(StopStep(s, o, a))
  {
    var n := StopStep(s, o, a);
    if a.Stop? {
      StopFacts(s, s.stops[o], a);
      forall u | u in s.reqs
        ensures CourseOk(s.reqs[u], n.sup, n.doomed)
      {
        CourseSup(s.reqs[u], s.sup, EvStopBegin, s.doomed);
        if s.reqs[u].open {
          NoneOnCourse(s, o, u);
        }
      }
    }
  }

  lemma CoursesEnv(s: Sys, e: Event)
    requires CoursesOk(s) && DoomedOk(s) && Inv(s.sup) && Enabled(s.sup, e)
    ensures CoursesOk(s.(sup := Apply(s.sup, e)))
  {
    forall u | u in s.reqs
      ensures CourseOk(s.reqs[u], Apply(s.sup, e), s.doomed)
    {
      CourseSup(s.reqs[u], s.sup, e, s.doomed);
    }
  }

  // ---- Time ----

  lemma DecisionKept(p: Stopper, doneAt: map<nat, int>, t: nat, at: int, timeout: int)
    requires DecisionOk(p, doneAt, timeout) && t !in doneAt
    ensures DecisionOk(p, doneAt[t := at], timeout)
  {
  }

  /** The completion time is stored. */
  lemma TimesStamp(s: Sys, n: Sys, t: nat)
    requires TimesOk(s) && t in s.reqs
    requires n == s.(reqs := s.reqs[t := s.reqs[t].(stamp := Some(s.clock))], act := s.act.(lastActivity := s.clock))
    ensures TimesOk(n)
  {
    hide DecisionOk;
  }

  /** The slot is given back. */
  lemma TimesRelease(s: Sys, n: Sys, t: nat)
    requires TimesOk(s) && t in s.reqs && s.reqs[t].open && s.reqs[t].stamp.Some? && n.act.lastActivity == s.act.lastActivity
    requires n == s.(reqs := s.reqs[t := s.reqs[t].(open := false)], act := n.act, doneAt := s.doneAt[t := s.reqs[t].stamp.value])
    ensures TimesOk(n)
  {
    hide DecisionOk;
    forall o | o in s.stops
      ensures DecisionOk(s.stops[o], n.doneAt, s.timeout)
    {
      DecisionKept(s.stops[o], s.doneAt, t, s.reqs[t].stamp.value, s.timeout);
    }
  }

  /** Any other step of a request neither opens nor ends a bracket, nor stores a time. */
  lemma TimesOther(s: Sys, n: Sys, t: nat, r: Req)
    requires TimesOk(s) && t in s.reqs && r.open == s.reqs[t].open && r.stamp == s.reqs[t].stamp
    requires n == s.(reqs := s.reqs[t := r], held := n.held, sup := n.sup)
    ensures TimesOk(n)
  {
    hide DecisionOk;
  }

  lemma TimesReq(s: Sys, t: nat, a: ReqAct)
    requires TimesOk(s) && t in s.reqs && ReqEnabled(s, s.reqs[t], a)
    ensures TimesOk(ReqStep(s, t, a))
  {
    hide TimesOk;
    if a.Stamp? {
      TimesStamp(s, ReqStep(s, t, a), t);
    } else if a.Release? {
      TimesRelease(s, ReqStep(s, t, a), t);
    } else {
      TimesOther(s, ReqStep(s, t, a), t, NextReq(s, s.reqs[t], a));
    }
  }

  lemma TimesStop(s: Sys, o: nat, a: StopAct)
    requires TimesOk(s) && o in s.stops && StopEnabled(s, s.stops[o], a)
    ensures TimesOk(StopStep(s, o, a))
  {
    var p := s.stops[o];
    assert DecisionOk(p, s.doneAt, s.timeout);
    assert DecisionOk(NextStop(s, p, a), s.doneAt, s.timeout);
  }

  // ---- All steps ----

  lemma FreshInflight(reqs: map<nat, Req>, t: nat, r: Req)
    requires t !in reqs && r.open
    ensures |InflightSet(reqs[t := r])| == |InflightSet(reqs)| + (if r.kind == KeepAlive then 0 else 1)
  {
    assert InflightSet(reqs[t := r]) == InflightSet(reqs) + (if r.kind == KeepAlive then {} else {t});
  }

  lemma FreshPersistent(reqs: map<nat, Req>, t: nat, r: Req)
    requires t !in reqs && r.open
    ensures |PersistentSet(reqs[t := r])| == |PersistentSet(reqs)| + (if r.kind == KeepAlive then 1 else 0)
  {
    assert PersistentSet(reqs[t := r]) == PersistentSet(reqs) + (if r.kind == KeepAlive then {t} else {});
  }

  lemma FreshHolds(reqs: map<nat, Req>, t: nat, r: Req)
    requires t !in reqs && !r.holding && r.pc == Began
    ensures HoldingSet(reqs[t := r]) == HoldingSet(reqs) && OverSet(reqs[t := r]) == OverSet(reqs)
  {
  }

  lemma ArriveCounts(s: Sys, t: nat, k: Kind)
    requires CountersOk(s) && HoldsOk(s) && t !in s.reqs
    ensures CountersOk(Next(s, Arrive(t, k))) && HoldsOk(Next(s, Arrive(t, k)))
  {
    var r := Req(k, Began, true, None, false);
    FreshInflight(s.reqs, t, r);
    FreshPersistent(s.reqs, t, r);
    FreshHolds(s.reqs, t, r);
  }

  lemma ArriveCourses(s: Sys, t: nat, k: Kind)
    requires BracketsOk(s) && ShieldOk(s) && DoomedOk(s) && CoursesOk(s) && t !in s.reqs
    ensures var n := Next(s, Arrive(t, k)); BracketsOk(n) && ShieldOk(n) && DoomedOk(n) && CoursesOk(n)
  {
  }

  lemma ArriveTimes(s: Sys, t: nat, k: Kind)
    requires Inv(s.sup) && GateOk(s) && TimesOk(s) && t !in s.reqs
    ensures var n := Next(s, Arrive(t, k)); Inv(n.sup) && GateOk(n) && TimesOk(n)
  {
  }

  lemma ArriveKeeps(s: Sys, t: nat, k: Kind)
    requires SysInv(s) && t !in s.reqs
    ensures SysInv(Next(s, Arrive(t, k)))
  {
    hide CountersOk, HoldsOk, BracketsOk, ShieldOk, DoomedOk, CoursesOk, Next;
    ArriveCounts(s, t, k);
    ArriveCourses(s, t, k);
    ArriveTimes(s, t, k);
  }

  lemma ArmKeeps(s: Sys, o: nat, who: StopperKind)
    requires SysInv(s) && o !in s.stops && s.act.gate == None
    ensures SysInv(Next(s, Arm(o, who)))
  {
    GateArm(s, o, who);
  }

  lemma ServeKeeps(s: Sys, t: nat, a: ReqAct)
    requires SysInv(s) && t in s.reqs && ReqEnabled(s, s.reqs[t], a)
    ensures SysInv(ReqStep(s, t, a))
  {
    assert BracketOk(s.reqs[t]);
    CountersReq(s, t, a);
    HoldsReq(s, t, a);
    BracketsReq(s, t, a);
    ShieldReq(s, t, a);
    CoursesReq(s, t, a);
    TimesReq(s, t, a);
    DoomedStep(s, Serve(t, a));
    if a.CallEnsure? {
      InvStep(s.sup, EvOnDemand(s.clock, a.spawns));
    }
  }

  lemma AttemptKeeps(s: Sys, o: nat, a: StopAct)
    requires SysInv(s) && o in s.stops && StopEnabled(s, s.stops[o], a)
    ensures SysInv(StopStep(s, o, a))
  {
    GateStop(s, o, a);
    ShieldStop(s, o, a);
    CoursesStop(s, o, a);
    TimesStop(s, o, a);
    DoomedStep(s, Attempt(o, a));
    if a.Stop? {
      InvStep(s.sup, EvStopBegin);
    }
  }

  lemma EnvKeeps(s: Sys, x: Step)
    requires SysInv(s) && StepEnabled(s, x) && (x.Env? || x.Lease? || x.Elapse?)
    ensures SysInv(Next(s, x))
  {
    DoomedStep(s, x);
    if x.Env? {
      InvStep(s.sup, x.e);
      CoursesEnv(s, x.e);
    }
  }

  lemma SysInvStep(s: Sys, x: Step)
    requires SysInv(s) && StepEnabled(s, x)
    ensures SysInv(Next(s, x))
  {
    match x
    case Arrive(t, k) => ArriveKeeps(s, t, k);
    case Serve(t, a) => ServeKeeps(s, t, a);
    case Arm(o, who) => ArmKeeps(s, o, who);
    case Attempt(o, a) => AttemptKeeps(s, o, a);
    case _ => EnvKeeps(s, x);
  }

  lemma {:induction false} SysInvRun(s: Sys, xs: seq<Step>)
    requires SysInv(s) && CanRun(s, xs)
    ensures SysInv(Run(s, xs))
  {
    if xs != [] {
      SysInvRun(s, xs[..|xs| - 1]);
      SysInvStep(Run(s, xs[..|xs| - 1]), xs[|xs| - 1]);
    }
  }

  ghost predicate Reachable(s: Sys) {
    exists maxHeld: int, timeout: int, clock: nat, xs: seq<Step> ::
      CanRun(Start(maxHeld, timeout, clock), xs) && s == Run(Start(maxHeld, timeout, clock), xs)
  }

  lemma ReachableInv(s: Sys)
    requires Reachable(s)
    ensures SysInv(s)
  {
    var maxHeld: int, timeout: int, clock: nat, xs: seq<Step> :|
      CanRun(Start(maxHeld, timeout, clock), xs) && s == Run(Start(maxHeld, timeout, clock), xs);
    var z := Start(maxHeld, timeout, clock);
    LifecycleRuns.InitOk();
    assert InflightSet(z.reqs) == {} && PersistentSet(z.reqs) == {} && HoldingSet(z.reqs) == {} && OverSet(z.reqs) == {};
    SysInvRun(z, xs);
  }

  // ---- What every reachable state guarantees ----

  /**
   From a successful BeginStop until its gate is cleared, every counted request has not read the
   gate yet, waits on that gate, or is leaving; and the counters were zero under the armed gate.
   */
  lemma GateShelters(s: Sys, o: nat, t: nat)
    requires Reachable(s) && o in s.stops && s.stops[o].clean && Owns(s.stops[o].pc)
    requires t in s.reqs && s.reqs[t].open
    ensures s.act.gate == Some(o)
    ensures s.reqs[t].pc == Began || s.reqs[t].pc == Waiting(o) || s.reqs[t].pc == Leaving
  {
    ReachableInv(s);
    NoneOnCourse(s, o, t);
  }

  lemma ReachableCourses(s: Sys)
    requires Reachable(s)
    ensures BracketsOk(s) && CoursesOk(s)
  {
    ReachableInv(s);
  }

  lemma CourseOfForwarded(s: Sys, t: nat)
    requires BracketsOk(s) && CoursesOk(s) && t in s.reqs && s.reqs[t].kind != Momentary
    ensures s.reqs[t].pc.Forwarding? ==> s.reqs[t].pc.generation !in s.doomed
    ensures s.reqs[t].pc.Cleared? ==> s.sup.generation !in s.doomed
  {
    assert BracketOk(s.reqs[t]) && CourseOk(s.reqs[t], s.sup, s.doomed);
  }

  /**
   A request that is still counted when it is forwarded - every plain request and every keep-alive
   upgrade - goes to a generation no gated stop has begun to stop, and none begins to while it is
   there. This holds although a monitor whose context ends releases its gate before the stop has.
   */
  lemma ForwardedIsNotDoomed(s: Sys, t: nat)
    requires Reachable(s) && t in s.reqs && s.reqs[t].kind != Momentary
    ensures s.reqs[t].pc.Forwarding? ==> s.reqs[t].pc.generation !in s.doomed
    ensures ReqEnabled(s, s.reqs[t], Forward) ==> s.sup.generation !in s.doomed
  {
    ReachableCourses(s);
    CourseOfForwarded(s, t);
  }

  /** The gate has one owner, between its compare-and-swap and its clear; each gate closes exactly once, at its owner's end. */
  lemma GateConservation(s: Sys, o: nat)
    requires Reachable(s)
    ensures s.act.gate == Some(o) <==> o in s.stops && Owns(s.stops[o].pc)
    ensures s.closed[o] <= 1
    ensures s.closed[o] == 1 <==> o in s.stops && s.stops[o].pc == Finished
    ensures forall t :: t in s.reqs && s.reqs[t].pc == Waiting(o) && s.closed[o] == 1 ==> StepEnabled(s, Serve(t, GateOpens))
  {
    ReachableInv(s);
  }

  /** No clear takes away another attempt's gate. */
  lemma ClearIsByOwner(s: Sys, o: nat)
    requires Reachable(s) && o in s.stops && StopEnabled(s, s.stops[o], ClearGate)
    ensures s.act.gate == Some(o)
  {
    ReachableInv(s);
  }

  /** The counters count the open brackets, an upgrade that ends its bracket early included, and never go negative. */
  lemma CounterConservation(s: Sys)
    requires Reachable(s)
    ensures s.act.inflight == |set t | t in s.reqs && s.reqs[t].open && s.reqs[t].kind != KeepAlive|
    ensures s.act.persistent == |set t | t in s.reqs && s.reqs[t].open && s.reqs[t].kind == KeepAlive|
    ensures forall t :: t in s.reqs && s.reqs[t].kind != Momentary && s.reqs[t].pc.Forwarding? ==> s.reqs[t].open
  {
    ReachableInv(s);
    assert InflightSet(s.reqs) == set t | t in s.reqs && s.reqs[t].open && s.reqs[t].kind != KeepAlive;
    assert PersistentSet(s.reqs) == set t | t in s.reqs && s.reqs[t].open && s.reqs[t].kind == KeepAlive;
    assert forall t :: t in s.reqs ==> BracketOk(s.reqs[t]);
  }

  /** No more requests than hold_max_requests are ever past the hold check, though the counter itself may overshoot. */
  lemma HoldLimit(s: Sys)
    requires Reachable(s) && s.maxHeld >= 0
    ensures |set t | t in s.reqs && s.reqs[t].holding| <= s.maxHeld
    ensures s.held - |set t | t in s.reqs && s.reqs[t].holding| == |set t | t in s.reqs && s.reqs[t].pc == OverLimit|
  {
    ReachableInv(s);
    assert HoldingSet(s.reqs) == set t | t in s.reqs && s.reqs[t].holding;
    assert OverSet(s.reqs) == set t | t in s.reqs && s.reqs[t].pc == OverLimit;
  }

  /**
   When the monitor decides to stop, both counters were read as zero under its gate, and the idle
   timeout has passed since the process start it saw and since every request or keep-alive
   upgrade that had finished by then.
   */
  lemma NoEarlyIdleStop(s: Sys, o: nat)
    requires Reachable(s) && o in s.stops && s.stops[o].pc.Decided?
    ensures s.stops[o].clean && s.act.gate == Some(o)
    ensures s.stops[o].pc.now >= s.stops[o].pc.startedAt + s.timeout
    ensures forall t :: t in s.stops[o].seen ==> t in s.doneAt && s.stops[o].pc.now >= s.doneAt[t] + s.timeout
  {
    ReachableInv(s);
    assert DecisionOk(s.stops[o], s.doneAt, s.timeout);
  }

  /** What a stop attempt has seen finish is everything that had finished when it read the second counter as zero. */
  lemma SeenIsEverythingFinished(s: Sys, o: nat, t: nat)
    requires Reachable(s) && o in s.stops && StopEnabled(s, s.stops[o], LoadPersistent) && s.act.persistent == 0
    ensures t in NextStop(s, s.stops[o], LoadPersistent).seen <==> t in s.doneAt
    ensures t in s.reqs && !s.reqs[t].open ==> t in s.doneAt
  {
    ReachableInv(s);
  }

  // ---- The one kind of request that can escape ----

  predicate OnlyStop(s: Sys, who: StopperKind) {
    exists o :: o in s.stops && s.stops.Keys == {o} && s.stops[o].kind == who
  }

  /**
   Some run with this idle timeout lets a request of this kind be forwarded after the one stop there
   is, of this kind, has begun to stop the generation it goes to.
   */
  ghost predicate Escapes(k: Kind, who: StopperKind, timeout: int) {
    exists s: Sys, t: nat ::
      && Reachable(s) && s.timeout == timeout && OnlyStop(s, who)
      && t in s.reqs && s.reqs[t].kind == k && ReqEnabled(s, s.reqs[t], Forward) && s.sup.generation in s.doomed
  }

  lemma Extend(z: Sys, xs: seq<Step>, x: Step)
    requires CanRun(z, xs) && StepEnabled(Run(z, xs), x)
    ensures CanRun(z, xs + [x]) && Run(z, xs + [x]) == Next(Run(z, xs), x)
  {
    hide StepEnabled, Next;
    assert (xs + [x])[..|xs + [x]| - 1] == xs;
  }

  lemma StepFrom(s: Sys, x: Step)
    requires Reachable(s) && StepEnabled(s, x)
    ensures Reachable(Next(s, x))
  {
    var maxHeld: int, timeout: int, clock: nat, xs: seq<Step> :|
      CanRun(Start(maxHeld, timeout, clock), xs) && s == Run(Start(maxHeld, timeout, clock), xs);
    Extend(Start(maxHeld, timeout, clock), xs, x);
    assert CanRun(Start(maxHeld, timeout, clock), xs + [x]);
  }

  lemma RunningState(timeout: int) returns (s: Sys)
    ensures Reachable(s) && s.sup.phase == Running && s.sup.spawnedAt == 1 && s.act == QUIET && s.clock == 1
    ensures s.timeout == timeout && s.reqs == map[] && s.stops == map[]
  {
    var z := Start(1, timeout, 1);
    assert CanRun(z, []) && Run(z, []) == z;
    assert Reachable(z);
    StepFrom(z, Env(EvManual(1, true)));
    var a := Next(z, Env(EvManual(1, true)));
    StepFrom(a, Env(EvProbeOk(1)));
    s := Next(a, Env(EvProbeOk(1)));
  }

  /** The upgrade has seen the project running and given up its slot, but is not handed over yet; then time goes by. */
  lemma UpgradeInTheGap(timeout: int, d: nat) returns (s: Sys)
    ensures Reachable(s) && s.sup.phase == Running && s.sup.spawnedAt == 1 && s.timeout == timeout && s.clock == 1 + d
    ensures s.act == Activity(0, 0, 1, None, 0) && s.stops == map[]
    ensures 0 in s.reqs && s.reqs[0] == Req(Momentary, Cleared, false, Some(1), false)
  {
    hide Reachable;
    s := RunningState(timeout);
    StepFrom(s, Arrive(0, Momentary));
    s := Next(s, Arrive(0, Momentary));
    StepFrom(s, Serve(0, ReadGate));
    s := Next(s, Serve(0, ReadGate));
    StepFrom(s, Serve(0, ReadState));
    s := Next(s, Serve(0, ReadState));
    StepFrom(s, Serve(0, Stamp));
    s := Next(s, Serve(0, Stamp));
    StepFrom(s, Serve(0, Release));
    s := Next(s, Serve(0, Release));
    StepFrom(s, Elapse(d));
    s := Next(s, Elapse(d));
  }

  lemma ArmsInTheGap(timeout: int, d: nat, who: StopperKind) returns (s: Sys)
    ensures Reachable(s) && s.sup.phase == Running && s.sup.spawnedAt == 1 && s.timeout == timeout && s.clock == 1 + d
    ensures 0 in s.reqs && s.reqs[0] == Req(Momentary, Cleared, false, Some(1), false) && s.act.lastActivity == 1
    ensures s.stops.Keys == {0} && s.stops[0].kind == who && s.stops[0].pc == Armed
  {
    hide Reachable;
    s := UpgradeInTheGap(timeout, d);
    StepFrom(s, Arm(0, who));
    s := Next(s, Arm(0, who));
    StepFrom(s, Attempt(0, LoadInflight(1)));
    s := Next(s, Attempt(0, LoadInflight(1)));
    StepFrom(s, Attempt(0, LoadPersistent));
    s := Next(s, Attempt(0, LoadPersistent));
    StepFrom(s, Attempt(0, LoadLease));
    s := Next(s, Attempt(0, LoadLease));
  }

  /** An eviction needs no time at all; the monitor takes the process once the upgrade has been held up for the idle timeout. */
  lemma DecidesInTheGap(timeout: int, who: StopperKind) returns (s: Sys)
    ensures Reachable(s) && s.sup.phase == Running && s.timeout == timeout
    ensures 0 in s.reqs && s.reqs[0] == Req(Momentary, Cleared, false, Some(1), false)
    ensures s.stops.Keys == {0} && s.stops[0].kind == who && StopEnabled(s, s.stops[0], Stop)
  {
    hide Reachable;
    s := ArmsInTheGap(timeout, if timeout > 0 then timeout else 0, who);
    if who == Monitor {
      StepFrom(s, Attempt(0, ReadClock));
      s := Next(s, Attempt(0, ReadClock));
      StepFrom(s, Attempt(0, Snap));
      s := Next(s, Attempt(0, Snap));
      StepFrom(s, Attempt(0, Judge));
      s := Next(s, Attempt(0, Judge));
    }
  }

  lemma MomentaryEscapes(who: StopperKind, timeout: int)
    ensures Escapes(Momentary, who, timeout)
  {
    var s := DecidesInTheGap(timeout, who);
    StepFrom(s, Attempt(0, Stop));
    s := Next(s, Attempt(0, Stop));
    assert 0 in s.stops && s.stops.Keys == {0} && s.stops[0].kind == who;
    assert ReqEnabled(s, s.reqs[0], Forward) && s.sup.generation in s.doomed;
  }

  /**
   The handshake protects exactly the requests that are counted while they are forwarded. An
   upgrade with websockets_keep_alive off gives up its slot just before, and a stop that fits in
   between takes the process from under it, whether it is an eviction's or the idle monitor's.
   */
  lemma OnlyMomentaryEscapes(k: Kind, who: StopperKind, timeout: int)
    ensures Escapes(k, who, timeout) <==> k == Momentary
  {
    if k == Momentary {
      MomentaryEscapes(who, timeout);
    } else if Escapes(k, who, timeout) {
      var s: Sys, t: nat :|
        && Reachable(s) && s.timeout == timeout && OnlyStop(s, who)
        && t in s.reqs && s.reqs[t].kind == k && ReqEnabled(s, s.reqs[t], Forward) && s.sup.generation in s.doomed;
      ForwardedIsNotDoomed(s, t);
    }
  }
}
