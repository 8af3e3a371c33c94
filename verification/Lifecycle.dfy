/**
 The process supervisor as a transition system.

 A state holds the supervisor's fields and the goroutines it has in flight: exit handlers,
 readiness probes, stop finishers, and the sends an exit handler still owes. An event is one
 critical section of the supervisor, or one step such a goroutine takes outside it. The
 process itself is only visible through the events it may cause, in any order.
 */
module Lifecycle {
  import opened Options
  import opened Backoff

  datatype Phase = Stopped | Starting | Running | Stopping | Failed

  datatype Reason =
    | SpawnFailed
    | ExitedDuringStartup
    | NotReadyInTime
    | StoppedWhileStarting
    | ExitedUnexpectedly

  /** What a startup channel yields. */
  datatype Outcome =
    | Ready
    | Failure(reason: Reason)
    | IsStopping
    | WasRetired
    | BackingOff(retryAt: int, last: Option<Reason>)

  /** A send that the exit handler of a generation still owes to one waiter. */
  datatype Owed = Owed(generation: nat, channel: nat, reason: Reason)

  datatype Sup = Sup(
    phase: Phase,
    // The tracked command, by generation: the n-th successful spawn is generation n.
    cmd: Option<nat>,
    spawnedAt: int,
    lastErr: Option<Reason>,
    abortErr: Option<Reason>,
    stopDone: nat,
    waiters: seq<nat>,
    failures: nat,
    nextRetryAt: Option<int>,
    retired: bool,
    // Spawns so far.
    generation: nat,
    // Generations whose exit handler has not run; those whose readiness probe has not returned.
    exiting: set<nat>,
    probing: set<nat>,
    // Stops: how many were begun, which are draining, which only have their channel left to close.
    stops: nat,
    draining: set<nat>,
    drained: set<nat>,
    closed: set<nat>,
    owed: seq<Owed>,
    // Everything ever sent on each startup channel, by channel.
    sent: seq<seq<Outcome>>)

  const INIT: Sup := Sup(
    Stopped, None, 0, None, None, 0, [], 0, None, false, 0, {}, {}, 0, {}, {}, {}, [], [])

  predicate Active(s: Sup) {
    s.phase == Starting || s.phase == Running
  }

  // ---- Transition functions ----

  function SendAll(sent: seq<seq<Outcome>>, ws: seq<nat>, o: Outcome): (r: seq<seq<Outcome>>)
    ensures |r| == |sent|
  {
    if ws == [] then sent
    else
      var rest := SendAll(sent, ws[..|ws| - 1], o);
      var w := ws[|ws| - 1];
      if w < |rest| then rest[w := rest[w] + [o]] else rest
  }

  /** Opens a startup channel that has already been answered. */
  function Answer(s: Sup, o: Outcome): Sup {
    s.(sent := s.sent + [[o]])
  }

  /** Opens a startup channel that joins the startup in flight. */
  function Join(s: Sup): Sup {
    s.(sent := s.sent + [[]], waiters := s.waiters + [|s.sent|])
  }

  function RecordFailure(s: Sup, now: int): Sup {
    s.(failures := s.failures + 1, nextRetryAt := Some(now + Delay(s.failures + 1)))
  }

  function Spawned(s: Sup, now: int): Sup {
    var g := s.generation + 1;
    s.(phase := Starting, cmd := Some(g), spawnedAt := now, lastErr := None, abortErr := None,
       generation := g, exiting := s.exiting + {g}, probing := s.probing + {g})
  }

  function Ensure(s: Sup, now: int, spawns: bool): Sup {
    match s.phase
    case Running => Answer(s, Ready)
    case Starting => Join(s)
    case Stopping => Answer(s, IsStopping)
    case _ =>
      if s.retired then Answer(s, WasRetired)
      else if spawns then Join(Spawned(s, now))
      else Answer(RecordFailure(s.(phase := Failed, lastErr := Some(SpawnFailed)), now), Failure(SpawnFailed))
  }

  predicate Suppressed(s: Sup, now: int) {
    s.phase == Failed && s.nextRetryAt.Some? && now < s.nextRetryAt.value
  }

  function EnsureManual(s: Sup, now: int, spawns: bool): Sup {
    Ensure(s.(failures := 0, nextRetryAt := None), now, spawns)
  }

  function EnsureOnDemand(s: Sup, now: int, spawns: bool): Sup {
    if Suppressed(s, now) then Answer(s, BackingOff(s.nextRetryAt.value, s.lastErr))
    else Ensure(s, now, spawns)
  }

  function StopBegin(s: Sup): Sup {
    if !Active(s) then s
    else
      var t := if s.phase == Starting
               then s.(abortErr := Some(StoppedWhileStarting), waiters := [],
                       sent := SendAll(s.sent, s.waiters, Failure(StoppedWhileStarting)))
               else s;
      t.(phase := Stopping, stopDone := s.stops, stops := s.stops + 1, draining := s.draining + {s.stops})
  }

  function StopDrained(s: Sup, k: nat): Sup {
    s.(phase := Stopped, lastErr := None, draining := s.draining - {k}, drained := s.drained + {k})
  }

  function StopClosed(s: Sup, k: nat): Sup {
    s.(drained := s.drained - {k}, closed := s.closed + {k})
  }

  function Owe(g: nat, ws: seq<nat>, why: Reason): seq<Owed> {
    seq(|ws|, i requires 0 <= i < |ws| => Owed(g, ws[i], why))
  }

  function StartupExited(s: Sup, g: nat, now: int): Sup {
    var why := if s.abortErr.Some? then s.abortErr.value else ExitedDuringStartup;
    RecordFailure(s.(phase := Failed, abortErr := None, lastErr := Some(why),
                     owed := s.owed + Owe(g, s.waiters, why), waiters := []), now)
  }

  function Exited(s: Sup, g: nat, clean: bool, now: int): Sup {
    var t := s.(exiting := s.exiting - {g});
    if s.cmd != Some(g) then t
    else
      var u := t.(cmd := None, spawnedAt := 0);
      match s.phase
      case Starting => StartupExited(u, g, now)
      case Running =>
        if clean then u.(phase := Stopped, lastErr := None)
        else u.(phase := Failed, lastErr := Some(ExitedUnexpectedly))
      case _ => u
  }

  function Delivered(s: Sup, i: nat): Sup
    requires i < |s.owed|
  {
    var o := s.owed[i];
    s.(owed := s.owed[..i] + s.owed[i + 1..], sent := SendAll(s.sent, [o.channel], Failure(o.reason)))
  }

  function ProbeOk(s: Sup, g: nat): Sup {
    var t := s.(probing := s.probing - {g});
    if s.phase == Starting && s.cmd == Some(g)
    then t.(phase := Running, failures := 0, nextRetryAt := None, waiters := [],
            sent := SendAll(s.sent, s.waiters, Ready))
    else t
  }

  function ProbeTimedOut(s: Sup, g: nat): Sup {
    var t := s.(probing := s.probing - {g});
    if s.phase == Starting && s.cmd == Some(g) then t.(abortErr := Some(NotReadyInTime)) else t
  }

  // ---- Events and runs ----

  datatype Event =
    | EvManual(now: int, spawns: bool)
    | EvOnDemand(now: int, spawns: bool)
    | EvRetire
    | EvStopBegin
    | EvStopDrained(stop: nat)
    | EvStopClosed(stop: nat)
    | EvExited(generation: nat, clean: bool, now: int)
    | EvDelivered(index: nat)
    | EvProbeOk(generation: nat)
    | EvProbeTimedOut(generation: nat)
    | EvProbeEnded(generation: nat)

  predicate Enabled(s: Sup, e: Event) {
    match e
    case EvManual(_, _) => true
    case EvOnDemand(_, _) => true
    case EvRetire => true
    case EvStopBegin => true
    case EvStopDrained(k) => k in s.draining
    case EvStopClosed(k) => k in s.drained
    case EvExited(g, _, _) => g in s.exiting
    // One exit handler sends in the order of its list; different handlers interleave.
    case EvDelivered(i) =>
      i < |s.owed| && forall j :: 0 <= j < i ==> s.owed[j].generation != s.owed[i].generation
    case EvProbeOk(g) => g in s.probing
    case EvProbeTimedOut(g) => g in s.probing
    case EvProbeEnded(g) => g in s.probing && g !in s.exiting
  }

  function Apply(s: Sup, e: Event): Sup
    requires Enabled(s, e)
  {
    match e
    case EvManual(now, spawns) => EnsureManual(s, now, spawns)
    case EvOnDemand(now, spawns) => EnsureOnDemand(s, now, spawns)
    case EvRetire => s.(retired := true)
    case EvStopBegin => StopBegin(s)
    case EvStopDrained(k) => StopDrained(s, k)
    case EvStopClosed(k) => StopClosed(s, k)
    case EvExited(g, clean, now) => Exited(s, g, clean, now)
    case EvDelivered(i) => Delivered(s, i)
    case EvProbeOk(g) => ProbeOk(s, g)
    case EvProbeTimedOut(g) => ProbeTimedOut(s, g)
    case EvProbeEnded(g) => s.(probing := s.probing - {g})
  }

  function Exec(s: Sup, es: seq<Event>): Sup
    requires Feasible(s, es)
    decreases |es|, 1
  {
    if es == [] then s else Apply(Exec(s, es[..|es| - 1]), es[|es| - 1])
  }

  predicate Feasible(s: Sup, es: seq<Event>)
    decreases |es|, 0
  {
    es == [] || (Feasible(s, es[..|es| - 1]) && Enabled(Exec(s, es[..|es| - 1]), es[|es| - 1]))
  }

  // ---- The invariant ----

  /** Starting and running always belong to the most recently spawned command, whose exit handler is pending. */
  ghost predicate CommandsOk(s: Sup) {
    && (Active(s) ==> s.cmd == Some(s.generation))
    && (s.cmd.Some? ==> s.cmd.value == s.generation && s.generation in s.exiting)
    && (forall g :: g in s.exiting || g in s.probing ==> 1 <= g <= s.generation)
    && (s.phase == Starting ==> s.generation in s.probing || s.abortErr == Some(NotReadyInTime))
  }

  /** The project is stopping exactly while one stop is draining, the one its callers wait for. */
  ghost predicate StopsOk(s: Sup) {
    && s.draining == (if s.phase == Stopping then {s.stopDone} else {})
    && (forall k: nat :: k in s.draining || k in s.drained || k in s.closed <==> k < s.stops)
    && s.draining !! s.drained && s.draining !! s.closed && s.drained !! s.closed
  }

  function Channels(owed: seq<Owed>): seq<nat> {
    seq(|owed|, i requires 0 <= i < |owed| => owed[i].channel)
  }

  /** Where unanswered channels sit: the supervisor's waiters and what exit handlers owe. */
  function Queued(s: Sup): multiset<nat> {
    multiset(s.waiters) + multiset(Channels(s.owed))
  }

  /** Every channel has been answered once and is queued nowhere, or is unanswered and queued once. */
  ghost predicate ChannelsOk(s: Sup) {
    && (s.waiters != [] ==> s.phase == Starting)
    && (forall ch :: ch in Queued(s) ==> ch < |s.sent|)
    && (forall ch :: 0 <= ch < |s.sent| ==> |s.sent[ch]| + Queued(s)[ch] == 1)
  }

  ghost predicate Inv(s: Sup) {
    CommandsOk(s) && StopsOk(s) && ChannelsOk(s)
  }

  // ---- Preservation ----

  lemma {:induction false} SendAllTally(sent: seq<seq<Outcome>>, ws: seq<nat>, o: Outcome, ch: nat)
    requires ch < |sent|
    ensures |SendAll(sent, ws, o)[ch]| == |sent[ch]| + multiset(ws)[ch]
    ensures sent[ch] <= SendAll(sent, ws, o)[ch]
    ensures forall i :: |sent[ch]| <= i < |SendAll(sent, ws, o)[ch]| ==> SendAll(sent, ws, o)[ch][i] == o
  {
    if ws != [] {
      var init, w := ws[..|ws| - 1], ws[|ws| - 1];
      assert ws == init + [w];
      SendAllTally(sent, init, o, ch);
    }
  }

  lemma EnsureKeepsOwners(s: Sup, now: int, spawns: bool)
    requires CommandsOk(s) && StopsOk(s)
    ensures CommandsOk(Ensure(s, now, spawns)) && StopsOk(Ensure(s, now, spawns))
  {
  }

  lemma CommandsStep(s: Sup, e: Event)
    requires Inv(s) && Enabled(s, e)
    ensures CommandsOk(Apply(s, e))
  {
    match e
    case EvManual(now, spawns) => EnsureKeepsOwners(s.(failures := 0, nextRetryAt := None), now, spawns);
    case EvOnDemand(now, spawns) => EnsureKeepsOwners(s, now, spawns);
    case _ =>
  }

  lemma StopsStep(s: Sup, e: Event)
    requires Inv(s) && Enabled(s, e)
    ensures StopsOk(Apply(s, e))
  {
    match e
    case EvManual(now, spawns) => EnsureKeepsOwners(s.(failures := 0, nextRetryAt := None), now, spawns);
    case EvOnDemand(now, spawns) => EnsureKeepsOwners(s, now, spawns);
    case _ =>
  }

  lemma OwedChannels(owed: seq<Owed>, i: nat)
    requires i < |owed|
    ensures multiset(Channels(owed)) == multiset(Channels(owed[..i] + owed[i + 1..])) + multiset{owed[i].channel}
  {
    var q := Channels(owed);
    assert q == q[..i] + [q[i]] + q[i + 1..];
    assert Channels(owed[..i] + owed[i + 1..]) == q[..i] + q[i + 1..];
  }

  lemma ChannelsAfterOpen(s: Sup, t: Sup, o: seq<Outcome>)
    requires ChannelsOk(s) && t.sent == s.sent + [o] && t.owed == s.owed
    requires if o == [] then t.waiters == s.waiters + [|s.sent|] && t.phase == Starting
             else |o| == 1 && t.waiters == s.waiters && (t.waiters != [] ==> t.phase == Starting)
    ensures ChannelsOk(t)
  {
    assert |s.sent| !in Queued(s);
    assert Queued(t) == if o == [] then Queued(s) + multiset{|s.sent|} else Queued(s);
  }

  lemma ChannelsAfterNotify(s: Sup, t: Sup, o: Outcome)
    requires ChannelsOk(s) && t.waiters == [] && t.owed == s.owed && t.sent == SendAll(s.sent, s.waiters, o)
    ensures ChannelsOk(t)
  {
    assert Queued(s) == multiset(s.waiters) + Queued(t);
    forall ch | ch in Queued(t)
      ensures ch < |t.sent|
    {
      assert ch in Queued(s);
    }
    forall ch | 0 <= ch < |t.sent|
      ensures |t.sent[ch]| + Queued(t)[ch] == 1
    {
      SendAllTally(s.sent, s.waiters, o, ch);
    }
  }

  /** The exit handler takes every waiter of a failed startup with it. */
  lemma ChannelsAfterHandOver(s: Sup, t: Sup, g: nat, why: Reason)
    requires ChannelsOk(s) && t.waiters == [] && t.owed == s.owed + Owe(g, s.waiters, why) && t.sent == s.sent
    ensures ChannelsOk(t)
  {
    assert Channels(t.owed) == Channels(s.owed) + s.waiters;
    assert Queued(t) == Queued(s);
  }

  lemma ChannelsAfterDelivery(s: Sup, i: nat)
    requires ChannelsOk(s) && i < |s.owed|
    ensures ChannelsOk(Delivered(s, i))
  {
    var t, ch0 := Delivered(s, i), s.owed[i].channel;
    OwedChannels(s.owed, i);
    assert Queued(s) == Queued(t) + multiset{ch0};
    assert ch0 in Queued(s);
    forall ch | ch in Queued(t)
      ensures ch < |t.sent|
    {
      assert ch in Queued(s);
    }
    forall ch | 0 <= ch < |t.sent|
      ensures |t.sent[ch]| + Queued(t)[ch] == 1
    {
      SendAllTally(s.sent, [ch0], Failure(s.owed[i].reason), ch);
    }
  }

  lemma ChannelsAfterEnsure(s: Sup, now: int, spawns: bool)
    requires Inv(s)
    ensures ChannelsOk(Ensure(s, now, spawns))
  {
    var t := Ensure(s, now, spawns);
    ChannelsAfterOpen(s, t, t.sent[|s.sent|]);
  }

  lemma ChannelsFrame(s: Sup, t: Sup)
    requires ChannelsOk(s) && t.waiters == s.waiters && t.owed == s.owed && t.sent == s.sent
    requires s.waiters == [] || t.phase == Starting
    ensures ChannelsOk(t)
  {
    assert Queued(t) == Queued(s);
  }

  lemma ChannelsStep(s: Sup, e: Event)
    requires Inv(s) && Enabled(s, e)
    ensures ChannelsOk(Apply(s, e))
  {
    var t := Apply(s, e);
    match e
    case EvManual(now, spawns) =>
      var r := s.(failures := 0, nextRetryAt := None);
      ChannelsFrame(s, r);
      ChannelsAfterEnsure(r, now, spawns);
    case EvOnDemand(now, spawns) =>
      if Suppressed(s, now) {
        ChannelsAfterOpen(s, t, t.sent[|s.sent|]);
      } else {
        ChannelsAfterEnsure(s, now, spawns);
      }
    case EvDelivered(i) => ChannelsAfterDelivery(s, i);
    case EvStopBegin =>
      if s.phase == Starting {
        ChannelsAfterNotify(s, t, Failure(StoppedWhileStarting));
      } else {
        ChannelsFrame(s, t);
      }
    case EvProbeOk(g) =>
      if s.phase == Starting && s.cmd == Some(g) {
        ChannelsAfterNotify(s, t, Ready);
      } else {
        ChannelsFrame(s, t);
      }
    case EvExited(g, _, _) =>
      if s.phase == Starting && s.cmd == Some(g) {
        ChannelsAfterHandOver(s, t, g, t.lastErr.value);
      } else {
        ChannelsFrame(s, t);
      }
    case _ => ChannelsFrame(s, t);
  }

  lemma InvStep(s: Sup, e: Event)
    requires Inv(s) && Enabled(s, e)
    ensures Inv(Apply(s, e))
  {
    CommandsStep(s, e);
    StopsStep(s, e);
    ChannelsStep(s, e);
  }

  lemma {:induction false} InvRun(s: Sup, es: seq<Event>)
    requires Inv(s) && Feasible(s, es)
    ensures Inv(Exec(s, es))
  {
    if es != [] {
      InvRun(s, es[..|es| - 1]);
      InvStep(Exec(s, es[..|es| - 1]), es[|es| - 1]);
    }
  }
}
