/**
 What the handshake must not prevent: requests that go through, requests that are turned away, and
 stops that take place. Every run here is made of one party's own steps.
 */
module GateProgress {
  import opened Options
  import opened Lifecycle
  import LifecycleRuns
  import opened StopGate
  import opened GateSafety
  import opened Accesses

  /** Nobody but request t takes a step. */
  predicate OwnSteps(xs: seq<Step>, t: nat) {
    forall x :: x in xs ==> x.Serve? && x.t == t
  }

  /** Nobody but stop attempt o takes a step. */
  predicate OwnAttempts(xs: seq<Step>, o: nat) {
    forall x :: x in xs ==> x.Attempt? && x.o == o
  }

  /** The process is the same, and everybody else where they were. */
  predicate OnlyRequest(s: Sys, n: Sys, t: nat) {
    && n.sup == s.sup && n.stops == s.stops && t in n.reqs
    && n.reqs == s.reqs[t := n.reqs[t]] && n.act.gate == s.act.gate && n.closed == s.closed
  }

  lemma InvOf(s: Sys)
    requires SysInv(s)
    ensures Inv(s.sup)
  {
  }

  lemma RunsThen(s: Sys, xs: seq<Step>, x: Step)
    requires CanRun(s, xs) && StepEnabled(Run(s, xs), x)
    ensures CanRun(s, xs + [x]) && Run(s, xs + [x]) == Next(Run(s, xs), x)
  {
    Extend(s, xs, x);
  }

  // ---- Being forwarded ----

  lemma EndsThenForwards(s: Sys, t: nat)
    requires t in s.reqs && s.reqs[t].pc == Cleared && s.reqs[t].kind == Momentary && s.reqs[t].open && s.reqs[t].stamp == None
    ensures var xs := [Serve(t, Stamp), Serve(t, Release), Serve(t, Forward)];
      && CanRun(s, xs) && OnlyRequest(s, Run(s, xs), t) && Run(s, xs).reqs[t].pc == Forwarding(s.sup.generation)
      && Run(s, xs).reqs[t].holding == s.reqs[t].holding && Run(s, xs).held == s.held
  {
    hide CanRun, Run;
    RunsTwo(s, Serve(t, Stamp), Serve(t, Release));
    RunsThen(s, [Serve(t, Stamp), Serve(t, Release)], Serve(t, Forward));
    assert [Serve(t, Stamp), Serve(t, Release)] + [Serve(t, Forward)] == [Serve(t, Stamp), Serve(t, Release), Serve(t, Forward)];
  }

  /** A request that is cleared goes on to the process that is there; an upgrade that does not keep it alive ends its bracket first. */
  lemma ClearedIsForwarded(s: Sys, t: nat) returns (xs: seq<Step>)
    requires t in s.reqs && s.reqs[t].pc == Cleared && BracketOk(s.reqs[t])
    ensures OwnSteps(xs, t) && CanRun(s, xs)
    ensures var n := Run(s, xs);
      && OnlyRequest(s, n, t) && n.reqs[t].pc == Forwarding(s.sup.generation)
      && n.reqs[t].holding == s.reqs[t].holding && n.held == s.held
  {
    hide CanRun, Run;
    var forward := Serve(t, Forward);
    if s.reqs[t].kind != Momentary || !s.reqs[t].open {
      xs := [forward];
      RunsOne(s, forward);
    } else if s.reqs[t].stamp == None {
      EndsThenForwards(s, t);
      xs := [Serve(t, Stamp), Serve(t, Release), forward];
    } else {
      RunsTwo(s, Serve(t, Release), forward);
      xs := [Serve(t, Release), forward];
    }
  }

  lemma FirstThen(s: Sys, x: Step, xs: seq<Step>)
    requires StepEnabled(s, x) && CanRun(Next(s, x), xs)
    ensures CanRun(s, [x] + xs) && Run(s, [x] + xs) == Run(Next(s, x), xs)
  {
    RunsOne(s, x);
    RunsOn(s, [x], xs);
  }

  /** A request held for a start that has succeeded can go on to the process, by its own steps alone. */
  lemma StartedIsForwarded(s: Sys, t: nat) returns (xs: seq<Step>)
    requires Reachable(s) && t in s.reqs && s.reqs[t].pc.Awaiting?
    requires s.reqs[t].pc.channel < |s.sup.sent| && s.sup.sent[s.reqs[t].pc.channel] == [Ready]
    ensures OwnSteps(xs, t) && CanRun(s, xs)
    ensures var n := Run(s, xs); OnlyRequest(s, n, t) && n.reqs[t].pc == Forwarding(s.sup.generation) && n.held == s.held
  {
    ReachableCourses(s);
    var n := Next(s, Serve(t, Receive));
    assert BracketOk(s.reqs[t]);
    hide CanRun, Run, Reachable, BracketsOk, CoursesOk;
    var rest := ClearedIsForwarded(n, t);
    FirstThen(s, Serve(t, Receive), rest);
    xs := [Serve(t, Receive)] + rest;
  }

  /** One that finds the project running goes on without being held. */
  lemma RunningIsForwarded(s: Sys, t: nat) returns (xs: seq<Step>)
    requires Reachable(s) && t in s.reqs && s.reqs[t].pc == Passed && s.sup.phase == Running
    ensures OwnSteps(xs, t) && CanRun(s, xs)
    ensures var n := Run(s, xs);
      && OnlyRequest(s, n, t) && n.reqs[t].pc == Forwarding(s.sup.generation)
      && n.held == s.held && !n.reqs[t].holding
  {
    ReachableCourses(s);
    var n := Next(s, Serve(t, ReadState));
    assert BracketOk(s.reqs[t]);
    hide CanRun, Run, Reachable, BracketsOk, CoursesOk;
    var rest := ClearedIsForwarded(n, t);
    FirstThen(s, Serve(t, ReadState), rest);
    xs := [Serve(t, ReadState)] + rest;
  }

  /** It has come as far as that, with no gate in its way, in one step; with one, once that gate has closed. */
  lemma PassesTheGate(s: Sys, t: nat)
    requires t in s.reqs
    ensures s.reqs[t].pc == Began ==>
      && StepEnabled(s, Serve(t, ReadGate))
      && Next(s, Serve(t, ReadGate)).reqs[t].pc == if s.act.gate == None then Passed else Waiting(s.act.gate.value)
    ensures s.reqs[t].pc.Waiting? ==>
      && (StepEnabled(s, Serve(t, GateOpens)) <==> s.closed[s.reqs[t].pc.gate] > 0)
      && (s.closed[s.reqs[t].pc.gate] > 0 ==> Next(s, Serve(t, GateOpens)).reqs[t].pc == Passed)
  {
  }

  // ---- Being held ----

  /** One that finds it not running is held, if there is room, and asks for a start; the answer comes on a channel of its own. */
  lemma ColdIsHeld(s: Sys, t: nat, spawns: bool) returns (xs: seq<Step>)
    requires t in s.reqs && s.reqs[t].pc == Passed && s.sup.phase != Running && s.held < s.maxHeld
    ensures OwnSteps(xs, t) && CanRun(s, xs)
    ensures var n := Run(s, xs);
      && t in n.reqs && n.reqs[t].pc == Awaiting(|s.sup.sent|) && n.reqs[t].holding && n.held == s.held + 1
      && n.sup == EnsureOnDemand(s.sup, s.clock, spawns) && |n.sup.sent| == |s.sup.sent| + 1 && n.clock == s.clock
  {
    hide CanRun, Run;
    RunsTwo(s, Serve(t, ReadState), Serve(t, TryHold));
    var call := Serve(t, CallEnsure(spawns));
    RunsThen(s, [Serve(t, ReadState), Serve(t, TryHold)], call);
    xs := [Serve(t, ReadState), Serve(t, TryHold)] + [call];
  }

  /** Without room it leaves, and the counter is what it was. */
  lemma OverLimitLeaves(s: Sys, t: nat)
    requires t in s.reqs && s.reqs[t].pc == Passed && s.sup.phase != Running && s.held >= s.maxHeld
    ensures var xs := [Serve(t, ReadState), Serve(t, TryHold), Serve(t, Reject)];
      && CanRun(s, xs) && OnlyRequest(s, Run(s, xs), t) && Run(s, xs).reqs[t].pc == Leaving
      && Run(s, xs).held == s.held && Run(s, xs).reqs[t].holding == s.reqs[t].holding
  {
    hide CanRun, Run;
    RunsTwo(s, Serve(t, ReadState), Serve(t, TryHold));
    RunsThen(s, [Serve(t, ReadState), Serve(t, TryHold)], Serve(t, Reject));
    assert [Serve(t, ReadState), Serve(t, TryHold)] + [Serve(t, Reject)] == [Serve(t, ReadState), Serve(t, TryHold), Serve(t, Reject)];
  }

  lemma SpawnIsJoined(was: Sup, now: int)
    requires was.phase == Stopped && !was.retired
    ensures var s, ch := EnsureOnDemand(was, now, true), |was.sent|;
      && s.phase == Starting && s.generation == was.generation + 1 && s.cmd == Some(s.generation) && s.generation in s.probing
      && s.waiters == was.waiters + [ch] && ch < |s.sent|
  {
  }

  lemma ProbeReaches(s: Sup, w: nat)
    requires Inv(s) && s.phase == Starting && s.cmd == Some(s.generation) && s.generation in s.probing && w < |s.waiters|
    ensures Enabled(s, EvProbeOk(s.generation))
    ensures var n := Apply(s, EvProbeOk(s.generation));
      && n.phase == Running && n.generation == s.generation && |n.sent| == |s.sent|
      && s.waiters[w] < |n.sent| && n.sent[s.waiters[w]] == [Ready]
  {
    assert ChannelsOk(s);
    LifecycleRuns.SendAllSettles(s, Ready, w);
    hide Inv;
  }

  lemma ProbeStep(s: Sys, g: nat)
    requires Enabled(s.sup, EvProbeOk(g))
    ensures StepEnabled(s, Env(EvProbeOk(g))) && Next(s, Env(EvProbeOk(g))) == s.(sup := Apply(s.sup, EvProbeOk(g)))
  {
  }

  /** The answer to the one that has been waiting since the start. */
  lemma ProbeAnswers(a: Sys, t: nat, was: Sup)
    requires Reachable(a) && t in a.reqs && a.reqs[t].pc == Awaiting(|was.sent|)
    requires was.phase == Stopped && !was.retired && a.sup == EnsureOnDemand(was, a.clock, true)
    ensures StepEnabled(a, Env(EvProbeOk(a.sup.generation)))
    ensures var b := Next(a, Env(EvProbeOk(a.sup.generation)));
      && b.reqs == a.reqs && b.held == a.held && b.sup.phase == Running && b.sup.generation == was.generation + 1
      && |was.sent| < |b.sup.sent| && b.sup.sent[|was.sent|] == [Ready]
  {
    ReachableInv(a);
    InvOf(a);
    hide Reachable, SysInv, Inv, EnsureOnDemand, Apply, Enabled, StepEnabled, Next;
    SpawnIsJoined(was, a.clock);
    ProbeReaches(a.sup, |was.waiters|);
    ProbeStep(a, a.sup.generation);
  }

  lemma {:induction false} RunsReachable(s: Sys, xs: seq<Step>)
    requires Reachable(s) && CanRun(s, xs)
    ensures Reachable(Run(s, xs))
  {
    if xs != [] {
      RunsReachable(s, xs[..|xs| - 1]);
      StepFrom(Run(s, xs[..|xs| - 1]), xs[|xs| - 1]);
    }
  }

  /** A whole cold start: the project stopped or failed, no backoff to wait for, a spawn and a probe that succeed. */
  lemma ColdStartIsForwarded(s: Sys, t: nat) returns (xs: seq<Step>)
    requires Reachable(s) && t in s.reqs && s.reqs[t].pc == Passed && s.held < s.maxHeld
    requires s.sup.phase == Stopped && !s.sup.retired
    ensures CanRun(s, xs)
    ensures var n := Run(s, xs);
      && t in n.reqs && n.reqs[t].pc == Forwarding(s.sup.generation + 1)
      && n.sup.phase == Running && n.sup.generation == s.sup.generation + 1
  {
    hide CanRun, Run, Reachable, StepEnabled, Next;
    var held := ColdIsHeld(s, t, true);
    var a := Run(s, held);
    RunsReachable(s, held);
    var probe := Env(EvProbeOk(a.sup.generation));
    ProbeAnswers(a, t, s.sup);
    var b := Next(a, probe);
    StepFrom(a, probe);
    var rest := StartedIsForwarded(b, t);
    FirstThen(a, probe, rest);
    RunsOn(s, held, [probe] + rest);
    xs := held + ([probe] + rest);
  }

  // ---- Being refused ----

  lemma AnswerStays(s: Sys, x: Step, ch: nat)
    requires Inv(s.sup) && StepEnabled(s, x) && ch < |s.sup.sent| && s.sup.sent[ch] != []
    ensures ch < |Next(s, x).sup.sent| && Next(s, x).sup.sent[ch] == s.sup.sent[ch]
  {
    match x
    case Serve(t, a) =>
      if a.CallEnsure? {
        LifecycleRuns.AnswersAreFinal(s.sup, EvOnDemand(s.clock, a.spawns), ch);
      }
    case Attempt(o, a) =>
      if a.Stop? {
        LifecycleRuns.AnswersAreFinal(s.sup, EvStopBegin, ch);
      }
    case Env(e) => LifecycleRuns.AnswersAreFinal(s.sup, e, ch);
    case _ =>
  }

  predicate TurnedAway(s: Sys, t: nat, ch: nat) {
    && t in s.reqs && ch < |s.sup.sent| && s.sup.sent[ch] != [] && s.sup.sent[ch][0] != Ready
    && (s.reqs[t].pc == Awaiting(ch) || s.reqs[t].pc == Leaving)
  }

  lemma TurnedAwayStep(s: Sys, x: Step, t: nat, ch: nat)
    requires Inv(s.sup) && StepEnabled(s, x) && TurnedAway(s, t, ch)
    ensures TurnedAway(Next(s, x), t, ch)
  {
    AnswerStays(s, x, ch);
  }

  lemma OneAnswer(s: Sup, ch: nat)
    requires Inv(s) && ch < |s.sent|
    ensures |s.sent[ch]| <= 1
  {
  }

  lemma {:induction false} RefusedRun(s: Sys, t: nat, ch: nat, xs: seq<Step>)
    requires SysInv(s) && TurnedAway(s, t, ch) && CanRun(s, xs)
    ensures TurnedAway(Run(s, xs), t, ch)
  {
    if xs != [] {
      var front, x := xs[..|xs| - 1], xs[|xs| - 1];
      RefusedRun(s, t, ch, front);
      SysInvRun(s, front);
      hide SysInv, StepEnabled, Next, TurnedAway;
      assert Inv(Run(s, front).sup) by { InvOf(Run(s, front)); }
      TurnedAwayStep(Run(s, front), x, t, ch);
    }
  }

  /** A request whose start has failed, or was refused, is never forwarded, whatever happens. */
  lemma {:induction false} RefusedIsNotForwarded(s: Sys, t: nat, ch: nat, xs: seq<Step>)
    requires Reachable(s) && t in s.reqs && s.reqs[t].pc == Awaiting(ch) && ch < |s.sup.sent|
    requires s.sup.sent[ch] != [] && s.sup.sent[ch] != [Ready] && CanRun(s, xs)
    ensures var n := Run(s, xs); t in n.reqs && (n.reqs[t].pc == Awaiting(ch) || n.reqs[t].pc == Leaving)
  {
    ReachableInv(s);
    OneAnswer(s.sup, ch);
    RefusedRun(s, t, ch, xs);
  }

  // ---- Leaving ----

  /** How far a request is from leaving. */
  function Distance(pc: ReqPc): nat {
    match pc
    case Began => 4
    case Passed => 3
    case Cold => 2
    case Cleared => 2
    case Leaving => 0
    case _ => 1
  }

  /** The next step of one that wants to leave. */
  function TowardsLeaving(r: Req): ReqAct
    requires r.pc != Leaving && r.pc != Cleared
  {
    match r.pc
    case Began => ReadGate
    case Passed => ReadState
    case Cold => TryHold
    case OverLimit => Reject
    case Forwarding(_) => Return
    case _ => GiveUp
  }

  lemma StepsTowardsLeaving(s: Sys, t: nat)
    requires t in s.reqs && BracketOk(s.reqs[t]) && s.reqs[t].pc != Leaving && s.reqs[t].pc != Cleared
    requires CourseOk(s.reqs[t], s.sup, s.doomed)
    ensures var x := Serve(t, TowardsLeaving(s.reqs[t]));
      StepEnabled(s, x) && t in Next(s, x).reqs && Distance(Next(s, x).reqs[t].pc) < Distance(s.reqs[t].pc)
  {
  }

  lemma RunsNone(s: Sys)
    ensures CanRun(s, []) && Run(s, []) == s
  {
  }

  /** Wherever it is, a request can come to leave by its own steps. */
  lemma {:induction false} CanLeave(s: Sys, t: nat) returns (xs: seq<Step>)
    requires Reachable(s) && t in s.reqs
    ensures OwnSteps(xs, t) && CanRun(s, xs)
    ensures var n := Run(s, xs); t in n.reqs && n.reqs[t].pc == Leaving
    decreases Distance(s.reqs[t].pc)
  {
    ReachableCourses(s);
    assert BracketOk(s.reqs[t]);
    hide CanRun, Run, Reachable, BracketsOk, CoursesOk;
    if s.reqs[t].pc == Leaving {
      xs := [];
      RunsNone(s);
    } else if s.reqs[t].pc == Cleared {
      xs := ClearedIsForwarded(s, t);
      RunsThen(s, xs, Serve(t, Return));
      xs := xs + [Serve(t, Return)];
    } else {
      var x := Serve(t, TowardsLeaving(s.reqs[t]));
      StepsTowardsLeaving(s, t);
      hide StepEnabled, Next, TowardsLeaving, Distance;
      StepFrom(s, x);
      var rest := CanLeave(Next(s, x), t);
      FirstThen(s, x, rest);
      xs := [x] + rest;
    }
  }

  /** One that is leaving gives back its hold and its bracket, and with it what it added to the counters. */
  lemma LeavesForGood(s: Sys, t: nat) returns (xs: seq<Step>)
    requires t in s.reqs && s.reqs[t].pc == Leaving
    ensures OwnSteps(xs, t) && CanRun(s, xs)
    ensures var n := Run(s, xs); t in n.reqs && !n.reqs[t].open && !n.reqs[t].holding && n.reqs[t].pc == Leaving
  {
    hide CanRun, Run;
    xs := [];
    RunsNone(s);
    var n := s;
    if n.reqs[t].holding {
      RunsThen(s, xs, Serve(t, Unhold));
      xs, n := xs + [Serve(t, Unhold)], Next(n, Serve(t, Unhold));
    }
    if n.reqs[t].open && n.reqs[t].stamp == None {
      RunsThen(s, xs, Serve(t, Stamp));
      xs, n := xs + [Serve(t, Stamp)], Next(n, Serve(t, Stamp));
    }
    if n.reqs[t].open {
      RunsThen(s, xs, Serve(t, Release));
      xs, n := xs + [Serve(t, Release)], Next(n, Serve(t, Release));
    }
  }

  /** So no request is ever stuck: its own steps are enough to end it, with every slot given back. */
  lemma EveryoneCanLeave(s: Sys, t: nat) returns (xs: seq<Step>)
    requires Reachable(s) && t in s.reqs
    ensures OwnSteps(xs, t) && CanRun(s, xs)
    ensures var n := Run(s, xs); t in n.reqs && !n.reqs[t].open && !n.reqs[t].holding && n.reqs[t].pc == Leaving
  {
    var first := CanLeave(s, t);
    var rest := LeavesForGood(Run(s, first), t);
    RunsOn(s, first, rest);
    xs := first + rest;
  }

  // ---- Stopping ----

  lemma AttemptsTwo(s: Sys, o: nat, a: StopAct, b: StopAct)
    requires o in s.stops && StopEnabled(s, s.stops[o], a)
    requires var n := StopStep(s, o, a); StopEnabled(n, n.stops[o], b)
    ensures var xs := [Attempt(o, a), Attempt(o, b)];
      CanRun(s, xs) && Run(s, xs) == StopStep(StopStep(s, o, a), o, b)
  {
    hide CanRun, Run;
    RunsTwo(s, Attempt(o, a), Attempt(o, b));
  }

  /** A stop attempt nobody interferes with goes on exactly if it finds no request, no connection and no unexpired lease. */
  lemma GoesOnIfQuiet(s: Sys, o: nat, at: int) returns (xs: seq<Step>)
    requires o in s.stops && s.stops[o].pc == CheckInflight && at <= s.clock
    ensures OwnAttempts(xs, o) && CanRun(s, xs)
    ensures var n := Run(s, xs);
      && o in n.stops && n == s.(stops := n.stops) && n.stops[o].kind == s.stops[o].kind
      && n.stops[o].pc ==
           if s.act.inflight <= 0 && s.act.persistent <= 0 && s.act.leaseUntil <= at then Armed else Releasing
  {
    hide CanRun, Run;
    var inflight, persistent, lease := Attempt(o, LoadInflight(at)), Attempt(o, LoadPersistent), Attempt(o, LoadLease);
    xs := [inflight];
    RunsOne(s, inflight);
    if s.act.inflight <= 0 {
      RunsThen(s, xs, persistent);
      xs := xs + [persistent];
      if s.act.persistent <= 0 {
        RunsThen(s, xs, lease);
        xs := xs + [lease];
      }
    }
  }

  lemma Snaps(s: Sys, o: nat)
    requires o in s.stops && s.stops[o].pc == Armed && s.stops[o].kind == Monitor
    ensures var xs := [Attempt(o, ReadClock), Attempt(o, Snap)];
      && CanRun(s, xs)
      && Run(s, xs) == s.(stops := s.stops[o := s.stops[o].(
           pc := if s.sup.phase == Running then Snapped(s.clock, s.sup.spawnedAt) else Releasing)])
  {
    hide CanRun, Run;
    RunsTwo(s, Attempt(o, ReadClock), Attempt(o, Snap));
  }

  /**
   An idle monitor that has found nothing under its gate stops a running project if and only if its
   deadline has passed; else it gives up and the project is untouched.
   */
  lemma IdleIsStopped(s: Sys, o: nat) returns (xs: seq<Step>)
    requires Reachable(s) && o in s.stops && s.stops[o].pc == Armed && s.stops[o].kind == Monitor && s.sup.phase == Running
    ensures OwnAttempts(xs, o) && CanRun(s, xs)
    ensures var n, last := Run(s, xs), if s.act.lastActivity > s.sup.spawnedAt then s.act.lastActivity else s.sup.spawnedAt;
      && o in n.stops && n.clock == s.clock && n.reqs == s.reqs
      && if last + s.timeout <= s.clock
         then n.sup.phase == Stopping && n.stops[o].pc == Draining(Some(n.sup.stopDone)) && s.sup.generation in n.doomed
         else n.sup == s.sup && n.stops[o].pc == Releasing && n.doomed == s.doomed
  {
    var judge, stop := Attempt(o, Judge), Attempt(o, Stop);
    hide CanRun, Run, Reachable;
    Snaps(s, o);
    xs := [Attempt(o, ReadClock), Attempt(o, Snap)];
    RunsThen(s, xs, judge);
    xs := xs + [judge];
    if s.act.IdleAt(s.sup.spawnedAt, s.timeout) <= s.clock {
      RunsThen(s, xs, stop);
      xs := xs + [stop];
    }
  }

  /** A project that is no longer running is left alone. */
  lemma StoppedIsLeft(s: Sys, o: nat)
    requires o in s.stops && s.stops[o].pc == Armed && s.stops[o].kind == Monitor && s.sup.phase != Running
    ensures var xs := [Attempt(o, ReadClock), Attempt(o, Snap)];
      CanRun(s, xs) && o in Run(s, xs).stops && Run(s, xs).stops[o].pc == Releasing && Run(s, xs).sup == s.sup
  {
    Snaps(s, o);
  }

  /** An eviction stops whatever is starting or running, at once. */
  lemma EvictionStops(s: Sys, o: nat)
    requires o in s.stops && s.stops[o].pc == Armed && s.stops[o].kind == Eviction && Active(s.sup)
    ensures var stop := Attempt(o, Stop);
      && StepEnabled(s, stop)
      && var n := Next(s, stop);
        n.sup.phase == Stopping && n.stops[o].pc == Draining(Some(n.sup.stopDone)) && s.sup.generation in n.doomed && n.reqs == s.reqs
  {
  }

  /** When the stop is over the gate is taken down and closed: the requests that wait at it go on. */
  lemma StopEnds(s: Sys, o: nat, t: nat)
    requires Reachable(s) && o in s.stops && s.stops[o].pc.Draining?
    requires s.stops[o].pc.stop.Some? ==> s.stops[o].pc.stop.value in s.sup.closed
    requires t in s.reqs && s.reqs[t].pc == Waiting(o)
    ensures var xs := [Attempt(o, StopReturns), Attempt(o, ClearGate), Attempt(o, CloseGate), Serve(t, GateOpens)];
      && CanRun(s, xs)
      && var n := Run(s, xs); t in n.reqs && n.act.gate == None && n.reqs[t].pc == Passed && o in n.stops && n.stops[o].pc == Finished
  {
    var back, clear, close, go := Attempt(o, StopReturns), Attempt(o, ClearGate), Attempt(o, CloseGate), Serve(t, GateOpens);
    hide CanRun, Run, Reachable;
    RunsTwo(s, back, clear);
    var n := Run(s, [back, clear]);
    assert o in n.stops && n.stops[o].pc == Closing && n.act.gate == None && t in n.reqs && n.reqs[t] == s.reqs[t];
    RunsTwo(n, close, go);
    RunsOn(s, [back, clear], [close, go]);
    assert [back, clear] + [close, go] == [back, clear, close, go];
  }
}
