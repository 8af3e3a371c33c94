/**
 The supervisor object: the fields the daemon mutates under the supervisor's lock, and the
 methods that mutate them. Each method is one critical section, and its effect is exactly the
 matching event of Lifecycle, whose invariant (Lifecycle.Inv) every call therefore keeps.
 */
module Supervisor {
  import opened Options
  import opened Backoff
  import opened Lifecycle

  /** Goroutines in flight and channels handed out: what the object started but does not store in a field. */
  datatype Background = Background(
    generation: nat,
    exiting: set<nat>,
    probing: set<nat>,
    stops: nat,
    draining: set<nat>,
    drained: set<nat>,
    closed: set<nat>,
    owed: seq<Owed>,
    sent: seq<seq<Outcome>>)
  {
    /** A fresh channel nothing has been sent on yet. */
    function Open(): Background {
      this.(sent := sent + [[]])
    }

    /** A fresh channel that already holds its answer. */
    function Answer(o: Outcome): Background {
      this.(sent := sent + [[o]])
    }

    /** Sends on a channel that this object handed out. */
    function Send(ch: nat, o: Outcome): Background {
      if ch < |sent| then this.(sent := sent[ch := sent[ch] + [o]]) else this
    }
  }

  class Supervisor {
    // The lock-free mirror of phase that the proxy reads on every request.
    var atomicState: Phase
    var phase: Phase
    var cmd: Option<nat>
    var spawnedAt: int
    var lastErr: Option<Reason>
    var abortErr: Option<Reason>
    var stopDone: nat
    var waiters: seq<nat>
    var consecutiveFailures: nat
    var nextRetryAt: Option<int>
    var retired: bool
    var bg: Background

    function View(): Sup
      reads this
    {
      Sup(phase, cmd, spawnedAt, lastErr, abortErr, stopDone, waiters, consecutiveFailures, nextRetryAt, retired,
          bg.generation, bg.exiting, bg.probing, bg.stops, bg.draining, bg.drained, bg.closed, bg.owed, bg.sent)
    }

    ghost predicate Mirrored()
      reads this
    {
      atomicState == phase
    }

    constructor ()
      ensures View() == INIT && Mirrored()
    {
      atomicState, phase := Stopped, Stopped;
      cmd, spawnedAt, lastErr, abortErr, stopDone, waiters := None, 0, None, None, 0, [];
      consecutiveFailures, nextRetryAt, retired := 0, None, false;
      bg := Background(0, {}, {}, 0, {}, {}, {}, [], []);
    }

    /** The proxy's fast path: no lock, yet never out of step with the phase. */
    method State() returns (p: Phase)
      requires Mirrored()
      ensures p == View().phase
    {
      p := atomicState;
    }

    method SetState(p: Phase)
      modifies this`phase, this`atomicState
      ensures phase == p && Mirrored()
    {
      phase := p;
      atomicState := p;
    }

    method RecordStartFailure(now: int)
      modifies this`consecutiveFailures, this`nextRetryAt
      ensures consecutiveFailures == old(consecutiveFailures) + 1
      ensures nextRetryAt == Some(now + Delay(consecutiveFailures))
    {
      consecutiveFailures := consecutiveFailures + 1;
      var d := BackoffDelay(consecutiveFailures);
      nextRetryAt := Some(now + d);
    }

    method NotifyWaiters(o: Outcome)
      modifies this`waiters, this`bg
      ensures waiters == [] && bg == old(bg).(sent := SendAll(old(bg.sent), old(waiters), o))
    {
      for i := 0 to |waiters|
        invariant waiters == old(waiters)
        invariant bg == old(bg).(sent := SendAll(old(bg.sent), waiters[..i], o))
      {
        assert waiters[..i + 1][..i] == waiters[..i];
        bg := bg.Send(waiters[i], o);
      }
      assert waiters[..|waiters|] == waiters;
      waiters := [];
    }

    /** What the operating system answers to the spawn is the parameter. */
    method Spawn(now: int, succeeds: bool) returns (ok: bool)
      modifies this
      ensures ok == succeeds
      ensures ok ==> Mirrored() && View() == Spawned(old(View()), now)
      ensures !ok ==> unchanged(this)
    {
      if !succeeds {
        return false;
      }
      SetState(Starting);
      var g := bg.generation + 1;
      cmd, spawnedAt, lastErr, abortErr := Some(g), now, None, None;
      bg := bg.(generation := g, exiting := bg.exiting + {g}, probing := bg.probing + {g});
      return true;
    }

    /** What a failed spawn leaves, and answers. */
    method RejectStart(now: int)
      modifies this`phase, this`atomicState, this`lastErr, this`consecutiveFailures, this`nextRetryAt, this`bg
      ensures Mirrored()
      ensures var s := old(View());
        View() == Answer(RecordFailure(s.(phase := Failed, lastErr := Some(SpawnFailed)), now), Failure(SpawnFailed))
    {
      SetState(Failed);
      lastErr := Some(SpawnFailed);
      RecordStartFailure(now);
      bg := bg.Answer(Failure(SpawnFailed));
    }

    method EnsureStartedLocked(now: int, succeeds: bool) returns (ch: nat)
      requires Mirrored()
      modifies this
      ensures ch == |old(bg.sent)| && Mirrored()
      ensures View() == Ensure(old(View()), now, succeeds)
    {
      ch := |bg.sent|;
      if phase == Running {
        bg := bg.Answer(Ready);
      } else if phase == Starting {
        bg := bg.Open();
        waiters := waiters + [ch];
      } else if phase == Stopping {
        bg := bg.Answer(IsStopping);
      } else if retired {
        bg := bg.Answer(WasRetired);
      } else {
        var ok := Spawn(now, succeeds);
        if !ok {
          RejectStart(now);
        } else {
          bg := bg.Open();
          waiters := waiters + [ch];
        }
      }
    }

    method EnsureStarted(now: int, succeeds: bool) returns (ch: nat)
      requires Mirrored()
      modifies this
      ensures Mirrored() && ch == |old(bg.sent)|
      ensures View() == EnsureManual(old(View()), now, succeeds)
    {
      consecutiveFailures, nextRetryAt := 0, None;
      ch := EnsureStartedLocked(now, succeeds);
    }

    method EnsureStartedOnDemand(now: int, succeeds: bool) returns (ch: nat)
      requires Mirrored()
      modifies this
      ensures Mirrored() && ch == |old(bg.sent)|
      ensures View() == EnsureOnDemand(old(View()), now, succeeds)
    {
      if phase == Failed && nextRetryAt.Some? && now < nextRetryAt.value {
        ch := |bg.sent|;
        bg := bg.Answer(BackingOff(nextRetryAt.value, lastErr));
        return;
      }
      ch := EnsureStartedLocked(now, succeeds);
    }

    method Retire()
      modifies this`retired
      ensures View() == old(View()).(retired := true)
    {
      retired := true;
    }

    /** Returns the channel that closes once the stop has finished; None when nothing is running. */
    method StopAsync() returns (done: Option<nat>)
      requires Mirrored()
      modifies this
      ensures Mirrored() && View() == StopBegin(old(View()))
      ensures done == if View().phase == Stopping then Some(stopDone) else None
    {
      if phase == Stopped || phase == Failed {
        return None;
      }
      if phase == Stopping {
        return Some(stopDone);
      }
      if phase == Starting {
        abortErr := Some(StoppedWhileStarting);
        NotifyWaiters(Failure(StoppedWhileStarting));
      }
      SetState(Stopping);
      stopDone := bg.stops;
      bg := bg.(stops := bg.stops + 1, draining := bg.draining + {bg.stops});
      return Some(stopDone);
    }

    /** The end of a stop: the whole process group is gone, or its drain timed out. */
    method FinishStop(k: nat)
      modifies this
      ensures Mirrored() && View() == StopDrained(old(View()), k)
    {
      SetState(Stopped);
      lastErr := None;
      bg := bg.(draining := bg.draining - {k}, drained := bg.drained + {k});
    }

    method CloseStopDone(k: nat)
      modifies this`bg
      ensures View() == StopClosed(old(View()), k)
    {
      bg := bg.(drained := bg.drained - {k}, closed := bg.closed + {k});
    }

    /** The process died before it became ready: its waiters leave with the exit handler. */
    method FailStartup(g: nat, now: int)
      modifies this
      ensures Mirrored() && View() == StartupExited(old(View()), g, now)
    {
      var reason := if abortErr.Some? then abortErr.value else ExitedDuringStartup;
      bg := bg.(owed := bg.owed + Owe(g, waiters, reason));
      waiters, abortErr, lastErr := [], None, Some(reason);
      SetState(Failed);
      RecordStartFailure(now);
    }

    /** The exit handler's critical section; the sends it owes follow in DeliverFailure. */
    method HandleExit(g: nat, clean: bool, now: int)
      requires Mirrored()
      modifies this
      ensures Mirrored() && View() == Exited(old(View()), g, clean, now)
    {
      bg := bg.(exiting := bg.exiting - {g});
      if cmd != Some(g) {
        return;
      }
      cmd, spawnedAt := None, 0;
      if phase == Starting {
        FailStartup(g, now);
      } else if phase == Running {
        SetState(if clean then Stopped else Failed);
        lastErr := if clean then None else Some(ExitedUnexpectedly);
      }
    }

    method DeliverFailure(i: nat)
      requires i < |bg.owed|
      modifies this`bg
      ensures View() == Delivered(old(View()), i)
    {
      var o := bg.owed[i];
      assert SendAll(bg.sent, [], Failure(o.reason)) == bg.sent && [o.channel][..0] == [];
      bg := bg.(owed := bg.owed[..i] + bg.owed[i + 1..]).Send(o.channel, Failure(o.reason));
    }

    method ProbeSucceeded(g: nat)
      requires Mirrored()
      modifies this
      ensures Mirrored() && View() == ProbeOk(old(View()), g)
    {
      bg := bg.(probing := bg.probing - {g});
      if phase == Starting && cmd == Some(g) {
        SetState(Running);
        consecutiveFailures, nextRetryAt := 0, None;
        NotifyWaiters(Ready);
      }
    }

    method ProbeTimeout(g: nat)
      modifies this`bg, this`abortErr
      ensures View() == ProbeTimedOut(old(View()), g)
    {
      bg := bg.(probing := bg.probing - {g});
      if phase == Starting && cmd == Some(g) {
        abortErr := Some(NotReadyInTime);
      }
    }
  }
}
