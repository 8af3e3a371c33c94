/**
 What every run of the supervisor guarantees: one answer per startup request, isolation of
 process generations, one owner per stop, no spawn after retirement, and retry backoff.
 */
module LifecycleRuns {
  import opened Options
  import opened Backoff
  import opened Lifecycle

  lemma InitOk()
    ensures Inv(INIT)
  {
  }

  lemma Reachable(es: seq<Event>)
    requires Feasible(INIT, es)
    ensures Inv(Exec(INIT, es))
  {
    InitOk();
    InvRun(INIT, es);
  }

  // ---- One answer per startup channel ----

  /**
   In every reachable state a channel handed out by EnsureStarted or EnsureStartedOnDemand has
   been sent exactly one value, or none and it is queued exactly once; a send therefore never
   meets a full buffer. Waiters exist only while a startup is in flight.
   */
  lemma ExactlyOneAnswer(es: seq<Event>, ch: nat)
    requires Feasible(INIT, es) && ch < |Exec(INIT, es).sent|
    ensures var s := Exec(INIT, es);
      && |s.sent[ch]| <= 1
      && (s.sent[ch] == [] <==> Queued(s)[ch] == 1)
      && (s.sent[ch] != [] <==> Queued(s)[ch] == 0)
      && (s.waiters != [] ==> s.phase == Starting)
  {
    Reachable(es);
  }

  lemma EnsureGrows(s: Sup, now: int, spawns: bool, ch: nat)
    requires ch < |s.sent|
    ensures |s.sent| <= |Ensure(s, now, spawns).sent| && s.sent[ch] == Ensure(s, now, spawns).sent[ch]
  {
  }

  lemma SentGrows(s: Sup, e: Event, ch: nat)
    requires Inv(s) && Enabled(s, e) && ch < |s.sent|
    ensures |s.sent| <= |Apply(s, e).sent|
    ensures s.sent[ch] <= Apply(s, e).sent[ch]
  {
    match e
    case EvStopBegin => SendAllTally(s.sent, s.waiters, Failure(StoppedWhileStarting), ch);
    case EvProbeOk(g) => SendAllTally(s.sent, s.waiters, Ready, ch);
    case EvDelivered(i) => SendAllTally(s.sent, [s.owed[i].channel], Failure(s.owed[i].reason), ch);
    case EvManual(now, spawns) => EnsureGrows(s.(failures := 0, nextRetryAt := None), now, spawns, ch);
    case EvOnDemand(now, spawns) => EnsureGrows(s, now, spawns, ch);
    case _ =>
  }

  /** A sent answer is never withdrawn or followed by another. */
  lemma AnswersAreFinal(s: Sup, e: Event, ch: nat)
    requires Inv(s) && Enabled(s, e) && ch < |s.sent| && s.sent[ch] != []
    ensures ch < |Apply(s, e).sent| && Apply(s, e).sent[ch] == s.sent[ch]
  {
    InvStep(s, e);
    SentGrows(s, e, ch);
  }

  lemma OpenedReadyMeansRunning(s: Sup, now: int, spawns: bool, ch: nat)
    requires ch < |Ensure(s, now, spawns).sent|
    requires Ready in Ensure(s, now, spawns).sent[ch] && (ch < |s.sent| ==> Ready !in s.sent[ch])
    ensures Ensure(s, now, spawns).phase == Running
  {
  }

  /** Success is only ever reported at a moment the project is running. */
  lemma ReadyMeansRunning(s: Sup, e: Event, ch: nat)
    requires Inv(s) && Enabled(s, e) && ch < |Apply(s, e).sent|
    requires Ready in Apply(s, e).sent[ch] && (ch < |s.sent| ==> Ready !in s.sent[ch])
    ensures Apply(s, e).phase == Running
  {
    match e
    case EvManual(now, spawns) => OpenedReadyMeansRunning(s.(failures := 0, nextRetryAt := None), now, spawns, ch);
    case EvOnDemand(now, spawns) =>
      if !Suppressed(s, now) {
        OpenedReadyMeansRunning(s, now, spawns, ch);
      }
    case EvStopBegin => SendAllTally(s.sent, s.waiters, Failure(StoppedWhileStarting), ch);
    case EvDelivered(i) => SendAllTally(s.sent, [s.owed[i].channel], Failure(s.owed[i].reason), ch);
    case _ =>
  }

  lemma {:induction false} Prepend(s: Sup, e: Event, es: seq<Event>)
    requires Enabled(s, e) && Feasible(Apply(s, e), es)
    ensures Feasible(s, [e] + es) && Exec(s, [e] + es) == Exec(Apply(s, e), es)
    decreases |es|
  {
    var all := [e] + es;
    if es == [] {
      assert all[..0] == [];
      assert Feasible(s, []) && Exec(s, []) == s;
    } else {
      Prepend(s, e, es[..|es| - 1]);
      assert all[..|all| - 1] == [e] + es[..|es| - 1];
    }
  }

  lemma DeliveredNow(s: Sup, i: nat)
    requires Inv(s) && Enabled(s, EvDelivered(i))
    ensures var es, o := [EvDelivered(i)], s.owed[i];
      Feasible(s, es) && o.channel < |Exec(s, es).sent| && Exec(s, es).sent[o.channel] == [Failure(o.reason)]
  {
    var o := s.owed[i];
    assert Channels(s.owed)[i] == o.channel && o.channel in Queued(s);
    SendAllTally(s.sent, [o.channel], Failure(o.reason), o.channel);
    Prepend(s, EvDelivered(i), []);
    assert [EvDelivered(i)] + [] == [EvDelivered(i)];
  }

  lemma DeliveredEarlier(s: Sup, i: nat, j: nat)
    requires Inv(s) && j < i < |s.owed| && Enabled(s, EvDelivered(j))
    ensures var t := Apply(s, EvDelivered(j)); Inv(t) && |t.owed| == |s.owed| - 1 && t.owed[i - 1] == s.owed[i]
  {
    InvStep(s, EvDelivered(j));
  }

  lemma {:induction false} FirstOf(owed: seq<Owed>, g: nat, i: nat) returns (j: nat)
    requires i < |owed| && exists k :: 0 <= k < i && owed[k].generation == g
    ensures j < i && owed[j].generation == g && forall k :: 0 <= k < j ==> owed[k].generation != g
  {
    j := 0;
    while owed[j].generation != g
      invariant j < i && forall k :: 0 <= k < j ==> owed[k].generation != g
      decreases i - j
    {
      j := j + 1;
    }
  }

  /** What an exit handler owes, it can send: its earlier sends are never in the way for good. */
  lemma {:induction false} OwedIsDeliverable(s: Sup, i: nat) returns (es: seq<Event>)
    requires Inv(s) && i < |s.owed|
    ensures Feasible(s, es) && s.owed[i].channel < |Exec(s, es).sent|
    ensures Exec(s, es).sent[s.owed[i].channel] == [Failure(s.owed[i].reason)]
    decreases i
  {
    var o := s.owed[i];
    if Enabled(s, EvDelivered(i)) {
      es := [EvDelivered(i)];
      DeliveredNow(s, i);
    } else {
      var j := FirstOf(s.owed, o.generation, i);
      DeliveredEarlier(s, i, j);
      var rest := OwedIsDeliverable(Apply(s, EvDelivered(j)), i - 1);
      es := [EvDelivered(j)] + rest;
      Prepend(s, EvDelivered(j), rest);
    }
  }

  lemma ExitHandsOver(s: Sup, w: nat, now: int)
    requires Inv(s) && w < |s.waiters|
    ensures Enabled(s, EvExited(s.generation, false, now))
    ensures var t := Apply(s, EvExited(s.generation, false, now));
      |s.owed| + w < |t.owed| && t.owed[|s.owed| + w].channel == s.waiters[w]
  {
  }

  lemma WaiterIsAnswerable(s: Sup, w: nat, now: int) returns (es: seq<Event>)
    requires Inv(s) && w < |s.waiters|
    ensures Feasible(s, es) && s.waiters[w] < |Exec(s, es).sent| && |Exec(s, es).sent[s.waiters[w]]| == 1
  {
    var e := EvExited(s.generation, false, now);
    ExitHandsOver(s, w, now);
    InvStep(s, e);
    var rest := OwedIsDeliverable(Apply(s, e), |s.owed| + w);
    es := [e] + rest;
    Prepend(s, e, rest);
  }

  /**
   No waiter is stranded: an unanswered channel always has a live deliverer, so that the
   process's own exit and the sends that follow it are enough to answer it.
   */
  lemma NoWaiterStranded(s: Sup, ch: nat, now: int) returns (es: seq<Event>)
    requires Inv(s) && ch < |s.sent| && s.sent[ch] == []
    ensures Feasible(s, es) && ch < |Exec(s, es).sent| && |Exec(s, es).sent[ch]| == 1
  {
    assert ch in Queued(s);
    if w: nat :| w < |s.waiters| && s.waiters[w] == ch {
      es := WaiterIsAnswerable(s, w, now);
    } else {
      var i: nat :| i < |s.owed| && Channels(s.owed)[i] == ch;
      es := OwedIsDeliverable(s, i);
    }
  }

  // ---- Generations ----

  /**
   A late exit, probe success or startup timeout of an older generation only ends its own
   goroutine: nothing about the current generation changes.
   */
  lemma StaleEventsAreInert(es: seq<Event>, e: Event)
    requires Feasible(INIT, es) && Enabled(Exec(INIT, es), e)
    requires e.EvExited? || e.EvProbeOk? || e.EvProbeTimedOut? || e.EvProbeEnded?
    requires e.generation < Exec(INIT, es).generation
    ensures var s, t := Exec(INIT, es), Apply(Exec(INIT, es), e);
      t == s.(exiting := t.exiting, probing := t.probing)
  {
    Reachable(es);
  }

  /** Starting and running belong to the command spawned last, and its exit handler is still to run. */
  lemma ActiveIsLatest(es: seq<Event>)
    requires Feasible(INIT, es) && Active(Exec(INIT, es))
    ensures var s := Exec(INIT, es); s.cmd == Some(s.generation) && s.generation in s.exiting
  {
    Reachable(es);
  }

  /**
   The project is stopping exactly while one stop is draining, the one later callers join, and
   only that stop's end leaves the phase, always to stopped.
   */
  lemma OneStopOwner(es: seq<Event>, e: Event)
    requires Feasible(INIT, es) && Enabled(Exec(INIT, es), e)
    ensures var s, t := Exec(INIT, es), Apply(Exec(INIT, es), e);
      && (s.phase == Stopping <==> s.draining != {})
      && s.draining <= {s.stopDone}
      && (s.phase == Stopping && t.phase != Stopping ==> e == EvStopDrained(s.stopDone) && t.phase == Stopped)
      && (e.EvStopDrained? ==> s.phase == Stopping && e.stop == s.stopDone)
      && (s.stopDone in s.closed ==> s.phase != Stopping)
  {
    Reachable(es);
  }

  lemma {:induction false} RetiredNeverSpawns(s: Sup, es: seq<Event>)
    requires s.retired && Feasible(s, es)
    ensures Exec(s, es).retired && Exec(s, es).generation == s.generation
  {
    if es != [] {
      RetiredNeverSpawns(s, es[..|es| - 1]);
    }
  }

  /**
   The facts other protocols build on. A spawn raises the generation by one and leaves the
   project starting; without one, no step makes an inactive project active.
   */
  lemma StepFacts(s: Sup, e: Event)
    requires Enabled(s, e)
    ensures var t := Apply(s, e);
      && (t.generation == s.generation || t.generation == s.generation + 1)
      && (t.generation > s.generation ==> t.phase == Starting && (s.phase == Stopped || s.phase == Failed))
      && (t.generation > s.generation ==> e.EvManual? || e.EvOnDemand?)
      && (t.generation == s.generation && Active(t) ==> Active(s))
  {
  }

  // ---- Retry backoff ----

  /** A caller gets a channel of its own, which holds its answer at once. */
  predicate Told(s: Sup, t: Sup, o: Outcome) {
    |t.sent| == |s.sent| + 1 && t.sent[|s.sent|] == [o]
  }

  /** Observable from outside: the project ends up failed, and a startup was in flight, or the caller is told that its spawn failed. */
  predicate StartupFails(s: Sup, e: Event)
    requires Enabled(s, e)
  {
    Apply(s, e).phase == Failed && (s.phase == Starting || Told(s, Apply(s, e), Failure(SpawnFailed)))
  }

  /** The streak of startup failures after an event, given the streak before it. */
  function NextStreak(s: Sup, e: Event, before: nat): nat
    requires Enabled(s, e)
  {
    if StartupFails(s, e) then (if e.EvManual? then 1 else before + 1)
    else if e.EvManual? || (s.phase == Starting && Apply(s, e).phase == Running) then 0
    else before
  }

  /** Startup failures since the last time the project became running or was started by hand. */
  function Streak(es: seq<Event>): nat
    requires Feasible(INIT, es)
  {
    if es == [] then 0 else NextStreak(Exec(INIT, es[..|es| - 1]), es[|es| - 1], Streak(es[..|es| - 1]))
  }

  lemma StreakStep(s: Sup, e: Event)
    requires Inv(s) && Enabled(s, e)
    ensures Apply(s, e).failures == NextStreak(s, e, s.failures)
  {
    match e
    case EvManual(now, spawns) =>
    case EvOnDemand(now, spawns) =>
    case EvExited(g, clean, now) =>
    case _ =>
  }

  lemma {:induction false} StreakIsCounted(es: seq<Event>)
    requires Feasible(INIT, es)
    ensures Exec(INIT, es).failures == Streak(es)
  {
    if es != [] {
      StreakIsCounted(es[..|es| - 1]);
      Reachable(es[..|es| - 1]);
      StreakStep(Exec(INIT, es[..|es| - 1]), es[|es| - 1]);
    }
  }

  /** When an event that reads the clock happens. */
  function TimeOf(e: Event): Option<int> {
    match e
    case EvManual(now, _) => Some(now)
    case EvOnDemand(now, _) => Some(now)
    case EvExited(_, _, now) => Some(now)
    case _ => None
  }

  lemma FailureSchedulesRetry(s: Sup, e: Event)
    requires Inv(s) && Enabled(s, e) && StartupFails(s, e)
    ensures TimeOf(e).Some? && Apply(s, e).phase == Failed && Apply(s, e).failures >= 1
    ensures Apply(s, e).nextRetryAt == Some(TimeOf(e).value + Delay(Apply(s, e).failures))
  {
  }

  lemma {:induction false} HeldBack(s: Sup, es: seq<Event>, limit: int)
    requires Inv(s) && s.phase == Failed && s.nextRetryAt == Some(limit)
    requires Feasible(s, es)
    requires forall e :: e in es ==> !e.EvManual? && (e.EvOnDemand? ==> e.now < limit)
    ensures var t := Exec(s, es);
      Inv(t) && t.phase == Failed && t.nextRetryAt == Some(limit) && t.generation == s.generation
  {
    if es != [] {
      var init, e := es[..|es| - 1], es[|es| - 1];
      assert es == init + [e];
      HeldBack(s, init, limit);
      InvStep(Exec(s, init), e);
    }
  }

  /** A failing step leads to Failed, with the retry after the delay of the streak. */
  lemma FailsUntil(s: Sup, failing: Event, streak: nat)
    requires Inv(s) && s.failures == streak && Enabled(s, failing) && StartupFails(s, failing)
    ensures var t := Apply(s, failing);
      && Inv(t) && t.phase == Failed && TimeOf(failing).Some?
      && t.nextRetryAt == Some(TimeOf(failing).value + Delay(NextStreak(s, failing, streak)))
  {
    StreakStep(s, failing);
    FailureSchedulesRetry(s, failing);
    InvStep(s, failing);
    hide Apply, Inv, Enabled, StartupFails, NextStreak;
  }

  /** Before its retry is due, a failed project refuses to start on demand, and once it is due it starts. */
  lemma RetriesWhenDue(s: Sup, e: Event, limit: int)
    requires s.phase == Failed && s.nextRetryAt == Some(limit) && e.EvOnDemand?
    ensures e.now < limit ==> Apply(s, e) == s.(sent := s.sent + [[BackingOff(limit, s.lastErr)]])
    ensures e.now >= limit && !s.retired && e.spawns ==>
      && Apply(s, e).generation == s.generation + 1 && Apply(s, e).phase == Starting
      && Apply(s, e).sent == s.sent + [[]] && Apply(s, e).waiters == s.waiters + [|s.sent|]
  {
  }

  lemma HeldBackSince(es: seq<Event>, failing: Event, later: seq<Event>, limit: int)
    requires Feasible(INIT, es) && Enabled(Exec(INIT, es), failing) && StartupFails(Exec(INIT, es), failing)
    requires TimeOf(failing).Some? ==> limit == TimeOf(failing).value + Delay(NextStreak(Exec(INIT, es), failing, Streak(es)))
    requires Feasible(Apply(Exec(INIT, es), failing), later)
    requires forall x :: x in later ==> !x.EvManual? && (x.EvOnDemand? ==> x.now < limit)
    ensures var u := Exec(Apply(Exec(INIT, es), failing), later);
      u.phase == Failed && u.nextRetryAt == Some(limit) && u.generation == Exec(INIT, es).generation
  {
    hide Exec, Streak, Apply, Inv, StartupFails, Enabled, NextStreak, Feasible;
    Reachable(es);
    StreakIsCounted(es);
    FailsUntil(Exec(INIT, es), failing, Streak(es));
    StepFacts(Exec(INIT, es), failing);
    HeldBack(Apply(Exec(INIT, es), failing), later, limit);
  }

  /**
   After the n-th consecutive startup failure, at time t, every request made before
   t + min(2^(n-1), 30) seconds is told when the retry is due and starts nothing, whatever else
   happens, unless the project is started by hand meanwhile.
   */
  lemma NoRetryBeforeBackoff(es: seq<Event>, failing: Event, later: seq<Event>, e: Event, limit: int)
    requires Feasible(INIT, es) && Enabled(Exec(INIT, es), failing) && StartupFails(Exec(INIT, es), failing)
    requires TimeOf(failing).Some? ==> limit == TimeOf(failing).value + Delay(NextStreak(Exec(INIT, es), failing, Streak(es)))
    requires Feasible(Apply(Exec(INIT, es), failing), later)
    requires forall x :: x in later ==> !x.EvManual? && (x.EvOnDemand? ==> x.now < limit)
    requires e.EvOnDemand? && e.now < limit
    ensures var u := Exec(Apply(Exec(INIT, es), failing), later);
      && u.generation == Exec(INIT, es).generation
      && Apply(u, e) == u.(sent := u.sent + [[BackingOff(limit, u.lastErr)]])
  {
    HeldBackSince(es, failing, later, limit);
    hide Exec, Streak, Apply, Inv, StartupFails, Enabled, NextStreak, Feasible;
    RetriesWhenDue(Exec(Apply(Exec(INIT, es), failing), later), e, limit);
  }

  /** And from that time on the first request starts it, if it has not been retired and the spawn succeeds. */
  lemma RetryAfterBackoff(es: seq<Event>, failing: Event, later: seq<Event>, e: Event, limit: int)
    requires Feasible(INIT, es) && Enabled(Exec(INIT, es), failing) && StartupFails(Exec(INIT, es), failing)
    requires TimeOf(failing).Some? ==> limit == TimeOf(failing).value + Delay(NextStreak(Exec(INIT, es), failing, Streak(es)))
    requires Feasible(Apply(Exec(INIT, es), failing), later)
    requires forall x :: x in later ==> !x.EvManual? && (x.EvOnDemand? ==> x.now < limit)
    requires e.EvOnDemand? && e.now >= limit && e.spawns && !Exec(Apply(Exec(INIT, es), failing), later).retired
    ensures var u := Exec(Apply(Exec(INIT, es), failing), later);
      && Apply(u, e).generation == Exec(INIT, es).generation + 1 && Apply(u, e).phase == Starting
      && Apply(u, e).sent == u.sent + [[]] && Apply(u, e).waiters == u.waiters + [|u.sent|]
  {
    HeldBackSince(es, failing, later, limit);
    hide Exec, Streak, Apply, Inv, StartupFails, Enabled, NextStreak, Feasible;
    RetriesWhenDue(Exec(Apply(Exec(INIT, es), failing), later), e, limit);
  }

  // ---- What everyone is told ----

  /** When the next start on demand is due after an event, given when it was due before, and the streak after it. */
  function NextDue(s: Sup, e: Event, before: Option<int>, streak: nat): Option<int>
    requires Enabled(s, e)
  {
    if StartupFails(s, e) && TimeOf(e).Some? then Some(TimeOf(e).value + Delay(streak))
    else if e.EvManual? || (s.phase == Starting && Apply(s, e).phase == Running) then None
    else before
  }

  /** When it is due: nothing is, unless a startup has failed since the last readiness or manual start. */
  function Due(es: seq<Event>): Option<int>
    requires Feasible(INIT, es)
  {
    if es == [] then None else NextDue(Exec(INIT, es[..|es| - 1]), es[|es| - 1], Due(es[..|es| - 1]), Streak(es))
  }

  lemma DueOfStart(s: Sup, e: Event)
    requires Enabled(s, e) && !StartupFails(s, e) && (e.EvManual? || e.EvOnDemand?)
    ensures Apply(s, e).nextRetryAt == NextDue(s, e, s.nextRetryAt, Apply(s, e).failures)
  {
  }

  lemma DueStep(s: Sup, e: Event)
    requires Inv(s) && Enabled(s, e)
    ensures Apply(s, e).nextRetryAt == NextDue(s, e, s.nextRetryAt, Apply(s, e).failures)
  {
    hide Inv;
    if StartupFails(s, e) {
      FailureSchedulesRetry(s, e);
    } else if e.EvManual? || e.EvOnDemand? {
      DueOfStart(s, e);
    }
  }

  lemma {:induction false} DueIsScheduled(es: seq<Event>)
    requires Feasible(INIT, es)
    ensures Exec(INIT, es).nextRetryAt == Due(es)
  {
    if es != [] {
      hide Inv, Apply, NextDue, Enabled, Streak;
      DueIsScheduled(es[..|es| - 1]);
      Reachable(es[..|es| - 1]);
      StreakIsCounted(es);
      DueStep(Exec(INIT, es[..|es| - 1]), es[|es| - 1]);
    }
  }

  /** Nothing happens but that the caller is told at once; a manual start forgets the backoff all the same. */
  predicate TellsOnly(s: Sup, t: Sup, e: Event, o: Outcome) {
    && t.sent == s.sent + [[o]] && (e.EvManual? ==> t.nextRetryAt == None && t.failures == 0)
    && t == s.(sent := t.sent, nextRetryAt := t.nextRetryAt, failures := t.failures)
    && (!e.EvManual? ==> t.nextRetryAt == s.nextRetryAt && t.failures == s.failures)
  }

  /** A new process is spawned, and the caller is the first to wait for it. */
  predicate Launches(s: Sup, t: Sup, e: Event)
    requires e.EvManual? || e.EvOnDemand?
  {
    && t.phase == Starting && t.generation == s.generation + 1 && t.cmd == Some(t.generation) && t.spawnedAt == e.now
    && t.sent == s.sent + [[]] && t.waiters == [|s.sent|]
    && t.generation in t.exiting && t.generation in t.probing && t.lastErr == None && t.abortErr == None
  }

  /** The spawn is tried and fails. */
  predicate CannotLaunch(s: Sup, t: Sup, e: Event, failures: nat)
    requires e.EvManual? || e.EvOnDemand?
  {
    && t.phase == Failed && t.generation == s.generation && t.lastErr == Some(SpawnFailed) && t.failures == failures
    && t.sent == s.sent + [[Failure(SpawnFailed)]] && t.nextRetryAt == Some(e.now + Delay(failures))
  }

  lemma AnswersAtOnce(s: Sup, e: Event)
    requires e.EvManual? || e.EvOnDemand?
    ensures s.phase == Running ==> TellsOnly(s, Apply(s, e), e, Ready)
    ensures s.phase == Stopping ==> TellsOnly(s, Apply(s, e), e, IsStopping)
    ensures s.phase == Starting ==>
      Apply(s, e).sent == s.sent + [[]] && Apply(s, e).waiters == s.waiters + [|s.sent|] && Apply(s, e).phase == Starting
  {
  }

  lemma AnswersAtRest(s: Sup, e: Event)
    requires (e.EvManual? || e.EvOnDemand?) && (s.phase == Stopped || s.phase == Failed)
    requires s.waiters == []
    requires e.EvOnDemand? && s.phase == Failed && s.nextRetryAt.Some? ==> e.now >= s.nextRetryAt.value
    ensures s.retired ==> TellsOnly(s, Apply(s, e), e, WasRetired)
    ensures !s.retired && e.spawns ==> Launches(s, Apply(s, e), e)
    ensures !s.retired && !e.spawns ==> CannotLaunch(s, Apply(s, e), e, if e.EvManual? then 1 else s.failures + 1)
  {
  }

  /**
   In every reachable state, what a start by hand or on demand comes to. A running project is ready,
   a startup in flight is joined, a stop in progress is waited out, and otherwise it is started:
   but on demand a failed one only once its retry is due, and a retired one never.
   */
  lemma StartAnswers(es: seq<Event>, e: Event)
    requires Feasible(INIT, es) && (e.EvManual? || e.EvOnDemand?)
    ensures var s, t, due := Exec(INIT, es), Apply(Exec(INIT, es), e), if e.EvManual? then None else Due(es);
      if s.phase == Running then TellsOnly(s, t, e, Ready)
      else if s.phase == Starting then t.phase == Starting && t.sent == s.sent + [[]] && t.waiters == s.waiters + [|s.sent|]
      else if s.phase == Stopping then TellsOnly(s, t, e, IsStopping)
      else if s.phase == Failed && due.Some? && e.now < due.value then TellsOnly(s, t, e, BackingOff(due.value, s.lastErr))
      else if s.retired then TellsOnly(s, t, e, WasRetired)
      else if e.spawns then Launches(s, t, e)
      else CannotLaunch(s, t, e, if e.EvManual? then 1 else Streak(es) + 1)
  {
    Reachable(es);
    DueIsScheduled(es);
    StreakIsCounted(es);
    var s := Exec(INIT, es);
    assert s.phase != Starting ==> s.waiters == [];
    hide Feasible, Exec, Due, Streak, Inv, Launches, CannotLaunch;
    if s.phase == Failed && e.EvOnDemand? && s.nextRetryAt.Some? && e.now < s.nextRetryAt.value {
      RetriesWhenDue(s, e, s.nextRetryAt.value);
    } else {
      hide Apply, TellsOnly;
      if s.phase == Stopped || s.phase == Failed {
        AnswersAtRest(s, e);
      } else {
        AnswersAtOnce(s, e);
      }
    }
  }

  lemma SendAllSettles(s: Sup, o: Outcome, w: nat)
    requires ChannelsOk(s) && w < |s.waiters|
    ensures s.waiters[w] < |s.sent| && SendAll(s.sent, s.waiters, o)[s.waiters[w]] == [o]
  {
    var ch := s.waiters[w];
    assert ch in Queued(s);
    SendAllTally(s.sent, s.waiters, o, ch);
  }

  /** While a project is starting, the reason kept for its exit is that its probe has timed out, exactly if it has. */
  lemma {:induction false} AbortIsTimeout(es: seq<Event>)
    requires Feasible(INIT, es)
    ensures var s := Exec(INIT, es);
      && (forall g: nat :: EvProbeTimedOut(g) in es ==> g <= s.generation)
      && (s.phase == Starting ==>
            s.abortErr == if EvProbeTimedOut(s.generation) in es then Some(NotReadyInTime) else None)
  {
    if es != [] {
      var init, e := es[..|es| - 1], es[|es| - 1];
      assert es == init + [e];
      AbortIsTimeout(init);
      Reachable(init);
      StepFacts(Exec(INIT, init), e);
    }
  }

  /** A project that answers its probe while starting is running, everyone who waits is told so, and nothing is held against it. */
  lemma ProbeReleasesEveryone(es: seq<Event>)
    requires Feasible(INIT, es) && Exec(INIT, es).phase == Starting && EvProbeTimedOut(Exec(INIT, es).generation) !in es
    ensures var s := Exec(INIT, es); var e := EvProbeOk(s.generation);
      && Enabled(s, e)
      && var t := Apply(s, e);
        && t.phase == Running && t.waiters == [] && t.failures == 0 && t.nextRetryAt == None
        && forall w :: 0 <= w < |s.waiters| ==> s.waiters[w] < |t.sent| && t.sent[s.waiters[w]] == [Ready]
  {
    Reachable(es);
    AbortIsTimeout(es);
    var s := Exec(INIT, es);
    forall w | 0 <= w < |s.waiters|
      ensures s.waiters[w] < |s.sent| && SendAll(s.sent, s.waiters, Ready)[s.waiters[w]] == [Ready]
    {
      SendAllSettles(s, Ready, w);
    }
  }

  /** A stop of a starting or running project begins at once, and everyone who waits for the start is told. */
  lemma StopReleasesEveryone(es: seq<Event>)
    requires Feasible(INIT, es) && Active(Exec(INIT, es))
    ensures var s := Exec(INIT, es); var t := Apply(s, EvStopBegin);
      && t.phase == Stopping && t.waiters == [] && t.stopDone == s.stops && Enabled(t, EvStopDrained(s.stops))
      && Apply(t, EvStopDrained(s.stops)).phase == Stopped
      && forall w :: 0 <= w < |s.waiters| ==>
           s.waiters[w] < |t.sent| && t.sent[s.waiters[w]] == [Failure(StoppedWhileStarting)]
  {
    Reachable(es);
    var s := Exec(INIT, es);
    forall w | 0 <= w < |s.waiters|
      ensures s.waiters[w] < |s.sent|
      ensures SendAll(s.sent, s.waiters, Failure(StoppedWhileStarting))[s.waiters[w]] == [Failure(StoppedWhileStarting)]
    {
      SendAllSettles(s, Failure(StoppedWhileStarting), w);
    }
  }

  lemma RunningStep(s: Sup, e: Event)
    requires Inv(s) && Enabled(s, e) && Apply(s, e).phase == Running
    requires s.phase == Running ==> s.nextRetryAt == None && s.failures == 0
    ensures Apply(s, e).nextRetryAt == None && Apply(s, e).failures == 0
  {
  }

  /** A running project is under no backoff. */
  lemma {:induction false} RunningOwesNoRetry(es: seq<Event>)
    requires Feasible(INIT, es) && Exec(INIT, es).phase == Running
    ensures Exec(INIT, es).nextRetryAt == None && Exec(INIT, es).failures == 0
  {
    var init, e := es[..|es| - 1], es[|es| - 1];
    if Exec(INIT, init).phase == Running {
      RunningOwesNoRetry(init);
    }
    Reachable(init);
    RunningStep(Exec(INIT, init), e);
  }

  /** What the exit of its process means for a project, when a startup that fails does so for the reason given. */
  predicate ExitEnds(s: Sup, t: Sup, clean: bool, now: int, why: Reason, failures: nat) {
    && t.cmd == None && t.sent == s.sent && t.generation == s.generation
    && (s.phase == Starting ==>
          && t.phase == Failed && t.lastErr == Some(why) && t.waiters == [] && t.failures == failures
          && t.nextRetryAt == Some(now + Delay(failures))
          && |t.owed| == |s.owed| + |s.waiters| && t.owed[..|s.owed|] == s.owed
          && forall w :: 0 <= w < |s.waiters| ==> t.owed[|s.owed| + w] == Owed(s.generation, s.waiters[w], why))
    && (s.phase == Running ==>
          && t.phase == (if clean then Stopped else Failed) && t.nextRetryAt == None
          && t.lastErr == if clean then None else Some(ExitedUnexpectedly))
    && (s.phase != Starting && s.phase != Running ==> t.phase == s.phase && t.lastErr == s.lastErr)
  }

  lemma ExitStep(s: Sup, clean: bool, now: int)
    requires s.cmd == Some(s.generation) && s.generation in s.exiting
    requires s.phase == Running ==> s.nextRetryAt == None
    ensures var e := EvExited(s.generation, clean, now);
      && Enabled(s, e)
      && ExitEnds(s, Apply(s, e), clean, now, if s.abortErr.Some? then s.abortErr.value else ExitedDuringStartup, s.failures + 1)
  {
  }

  /**
   A process that exits while it is starting has failed, and everyone who waits is owed the reason: that it was
   not ready in time, exactly if its probe has timed out. One that exits while running has failed too, unless it
   exited cleanly, and may be started again at once. While it is being stopped its exit decides nothing.
   */
  lemma ExitDecides(es: seq<Event>, clean: bool, now: int, why: Reason)
    requires Feasible(INIT, es) && Exec(INIT, es).cmd.Some?
    requires why == if EvProbeTimedOut(Exec(INIT, es).generation) in es then NotReadyInTime else ExitedDuringStartup
    ensures var s := Exec(INIT, es); var e := EvExited(s.generation, clean, now);
      Enabled(s, e) && ExitEnds(s, Apply(s, e), clean, now, why, Streak(es) + 1)
  {
    hide Exec, Streak, Feasible, Apply, Enabled;
    Reachable(es);
    AbortIsTimeout(es);
    StreakIsCounted(es);
    if Exec(INIT, es).phase == Running {
      RunningOwesNoRetry(es);
    }
    ExitStep(Exec(INIT, es), clean, now);
  }
}
