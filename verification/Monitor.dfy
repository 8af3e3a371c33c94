/**
 One wake-up of a project's idle monitor, run without interference: what it decides and does.
 The interleavings of its parts with everything else are the subject of StopGate.
 */
module IdleMonitor {
  import opened Options
  import opened Idle
  import opened Lifecycle
  import opened Supervisor

  const WAKE_SLACK: int := 10_000_000

  class Monitor {
    const proc: Supervisor
    const tracker: Tracker
    const timeout: int
    const interval: int

    constructor (proc: Supervisor, tracker: Tracker, timeout: int, interval: int)
      ensures this.proc == proc && this.tracker == tracker && this.timeout == timeout && this.interval == interval
    {
      this.proc, this.tracker, this.timeout, this.interval := proc, tracker, timeout, interval;
    }

    /** Running, not parked, past its deadline, and with no other stop under way. */
    predicate Due(sup: Sup, act: Activity, now: int) {
      && sup.phase == Running && sup.cmd.Some?
      && !act.IsParked(now) && act.IdleAt(sup.spawnedAt, timeout) <= now
      && act.gate == None
    }

    /**
     A tick up to the moment it waits: it begins to stop the project if and only if that is due at the
     first clock reading, and then its gate stays armed; otherwise it touches neither the project nor
     the tracker's activity, and when only time is missing it sleeps just past the deadline.
     */
    method Tick(first: int, second: int, third: int) returns (sleep: int, pending: Option<nat>)
      requires proc.Mirrored() && tracker.Valid() && first <= second <= third
      modifies proc, tracker
      ensures proc.Mirrored() && tracker.Valid()
      ensures pending.Some? <==> old(Due(proc.View(), tracker.View(), first))
      ensures proc.View() == if pending.Some? then StopBegin(old(proc.View())) else old(proc.View())
      ensures tracker.View() == if pending.Some? then old(tracker.View()).(gate := pending) else old(tracker.View())
      ensures pending.Some? ==> proc.View().phase == Stopping && sleep == interval && tracker.closed == old(tracker.closed)
      ensures old(proc.View().phase == Running && proc.View().cmd.Some? && !tracker.View().IsParked(first)) ==>
        var at := old(tracker.View()).IdleAt(old(proc.spawnedAt), timeout);
        first < at ==> first + sleep == at + WAKE_SLACK
    {
      var state := proc.State();
      if state != Running {
        return interval, None;
      }
      var parked := tracker.Parked(first);
      if parked || proc.cmd == None {
        return interval, None;
      }
      var at := tracker.Deadline(proc.spawnedAt, timeout);
      if at - first > 0 {
        return at - first + WAKE_SLACK, None;
      }
      var ok, gate := tracker.BeginStop(second);
      if !ok {
        return interval, None;
      }
      sleep, pending := Reevaluate(gate, third);
    }

    /**
     The second half of a tick, under the armed gate: a manual stop or restart may have come in
     between, so the project is judged afresh. Unless a stop begins, the gate is given back.
     */
    method Reevaluate(gate: nat, now: int) returns (sleep: int, pending: Option<nat>)
      requires proc.Mirrored() && tracker.Valid() && tracker.gate == Some(gate)
      modifies proc, tracker
      ensures proc.Mirrored() && tracker.Valid()
      ensures pending.Some? <==>
        old(proc.View().phase == Running && proc.View().cmd.Some? && tracker.View().IdleAt(proc.spawnedAt, timeout) <= now)
      ensures pending.Some? ==> pending.value == gate && sleep == interval && tracker.closed == old(tracker.closed)
      ensures tracker.View() == old(tracker.View()).(gate := pending)
      ensures proc.View() == if pending.Some? then StopBegin(old(proc.View())) else old(proc.View())
    {
      var at := tracker.Deadline(proc.spawnedAt, timeout);
      if proc.phase != Running || proc.cmd == None {
        tracker.Release(gate);
        return interval, None;
      }
      if at > now {
        tracker.Release(gate);
        return at - now + WAKE_SLACK, None;
      }
      var done := proc.StopAsync();
      return interval, Some(gate);
    }

    /** The end of a tick that has waited for its stop, or for its context to end: requests held by the gate go on. */
    method Finish(gate: nat)
      requires tracker.Valid() && tracker.gate == Some(gate)
      modifies tracker
      ensures tracker.Valid() && tracker.View() == old(tracker.View()).(gate := None)
      ensures tracker.closed == old(tracker.closed) + multiset{gate}
    {
      tracker.Release(gate);
    }
  }
}
