/**
 A project's activity tracker. Activity is the value behind its atomic fields; Tracker is the object,
 whose methods run their atomic accesses in one go. Each access by itself is a step of StopGate, and
 Accesses shows that without interference the steps do what the methods ensure.
 */
module Idle {
  import opened Options

  datatype Activity = Activity(
    inflight: int,
    persistent: int,
    // The completion time of the most recent finished work, 0 before any.
    lastActivity: int,
    // The stop that has armed its gate, if any.
    gate: Option<nat>,
    leaseUntil: int)
  {
    predicate Leased(now: int) {
      leaseUntil > now
    }

    predicate IsParked(now: int) {
      inflight > 0 || persistent > 0 || Leased(now)
    }

    /** When the project may be idle-stopped. */
    function IdleAt(startedAt: int, timeout: int): int {
      (if lastActivity > startedAt then lastActivity else startedAt) + timeout
    }
  }

  const QUIET := Activity(0, 0, 0, None, 0)

  class Tracker {
    var inflight: int
    var persistent: int
    var lastActivity: int
    var gate: Option<nat>
    var leaseUntil: int
    // Gate channels made so far, and how often each was closed.
    var gates: nat
    var closed: multiset<nat>

    function View(): Activity
      reads this
    {
      Activity(inflight, persistent, lastActivity, gate, leaseUntil)
    }

    ghost predicate Valid()
      reads this
    {
      && inflight >= 0 && persistent >= 0
      && (gate.Some? ==> gate.value < gates)
      // Every gate but the armed one has been closed exactly once.
      && forall g: nat :: closed[g] == if g < gates && gate != Some(g) then 1 else 0
    }

    constructor ()
      ensures Valid() && View() == QUIET
    {
      inflight, persistent, lastActivity, gate, leaseUntil := 0, 0, 0, None, 0;
      gates, closed := 0, multiset{};
    }

    method RequestBegan()
      requires Valid()
      modifies this`inflight
      ensures Valid() && inflight == old(inflight) + 1
    {
      inflight := inflight + 1;
    }

    /** The completion time is published before the slot is given back. */
    method RequestEnded(now: int)
      requires Valid() && inflight > 0
      modifies this`inflight, this`lastActivity
      ensures Valid() && inflight == old(inflight) - 1 && lastActivity == now
    {
      lastActivity := now;
      inflight := inflight - 1;
    }

    method PersistentOpened()
      requires Valid()
      modifies this`persistent
      ensures Valid() && persistent == old(persistent) + 1
    {
      persistent := persistent + 1;
    }

    method PersistentClosed(now: int)
      requires Valid() && persistent > 0
      modifies this`persistent, this`lastActivity
      ensures Valid() && persistent == old(persistent) - 1 && lastActivity == now
    {
      lastActivity := now;
      persistent := persistent - 1;
    }

    method Lease(now: int, ttl: int) returns (until: int)
      requires Valid()
      modifies this`leaseUntil
      ensures Valid() && leaseUntil == until == now + ttl
    {
      until := now + ttl;
      leaseUntil := until;
    }

    method Parked(now: int) returns (parked: bool)
      ensures parked == View().IsParked(now)
      ensures parked <==> inflight > 0 || persistent > 0 || leaseUntil > now
    {
      parked := inflight > 0;
      if !parked {
        parked := persistent > 0;
      }
      if !parked {
        parked := leaseUntil > now;
      }
    }

    method Deadline(startedAt: int, timeout: int) returns (at: int)
      ensures at == View().IdleAt(startedAt, timeout)
      ensures at >= startedAt + timeout && at >= lastActivity + timeout
      ensures at == startedAt + timeout || at == lastActivity + timeout
    {
      var base := startedAt;
      if lastActivity > base {
        base := lastActivity;
      }
      at := base + timeout;
    }

    /**
     Arms the gate and only then looks for activity, undoing the arm when there is any.
     With no interference a stop may begin exactly when no other holds the gate and nothing
     parks the project; a refused attempt leaves nothing armed and its own gate closed.
     */
    method BeginStop(now: int) returns (ok: bool, g: nat)
      requires Valid()
      modifies this`gate, this`gates, this`closed
      ensures Valid()
      ensures ok <==> old(gate) == None && !old(View()).IsParked(now)
      ensures ok <==> old(gate) == None && old(inflight) <= 0 && old(persistent) <= 0 && old(leaseUntil) <= now
      ensures ok ==> g == old(gates) && gate == Some(g) && closed == old(closed)
      ensures !ok ==> gate == old(gate)
    {
      g := gates;
      gates := gates + 1;
      if gate != None {
        // The channel of a lost race is garbage, not armed: it counts as closed.
        closed := closed + multiset{g};
        return false, g;
      }
      gate := Some(g);
      var parked := Parked(now);
      if parked {
        gate := None;
        closed := closed + multiset{g};
        return false, g;
      }
      return true, g;
    }

    /** What the owner of a successful BeginStop calls once, when its stop has finished. */
    method Release(g: nat)
      requires Valid() && gate == Some(g)
      modifies this`gate, this`closed
      ensures Valid() && gate == None && closed == old(closed) + multiset{g}
    {
      gate := None;
      closed := closed + multiset{g};
    }
  }
}
