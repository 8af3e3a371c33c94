/**
 The two views of the tracker agree: what its methods do in one go is what the single accesses of the
 handshake do when nothing comes in between.
 */
module Accesses {
  import opened Options
  import opened Idle
  import opened StopGate
  import GateSafety

  /** Looking stops at the first activity found. */
  function Looked(act: Activity, o: nat, at: int): seq<Step> {
    [Attempt(o, LoadInflight(at))]
    + if act.inflight > 0 then []
      else [Attempt(o, LoadPersistent)] + if act.persistent > 0 then [] else [Attempt(o, LoadLease)]
  }

  /** The accesses of one BeginStop that finds no other gate: arm, look for activity, and undo the arm when there is any. */
  function Attempted(act: Activity, o: nat, who: StopperKind, at: int): seq<Step> {
    [Arm(o, who)] + Looked(act, o, at)
    + if act.IsParked(at) then [Attempt(o, ClearGate), Attempt(o, CloseGate)] else []
  }

  /** Running one list after the other. */
  lemma {:induction false} RunsOn(s: Sys, xs: seq<Step>, ys: seq<Step>)
    requires CanRun(s, xs) && CanRun(Run(s, xs), ys)
    ensures CanRun(s, xs + ys) && Run(s, xs + ys) == Run(Run(s, xs), ys)
    decreases |ys|
  {
    hide StepEnabled, Next;
    if ys == [] {
      assert xs + ys == xs;
    } else {
      var last := |ys| - 1;
      RunsOn(s, xs, ys[..last]);
      assert (xs + ys)[..|xs + ys| - 1] == xs + ys[..last];
    }
  }

  lemma RunsOne(s: Sys, x: Step)
    requires StepEnabled(s, x)
    ensures CanRun(s, [x]) && Run(s, [x]) == Next(s, x)
  {
    assert CanRun(s, []) && Run(s, []) == s;
    GateSafety.Extend(s, [], x);
    assert [] + [x] == [x];
  }

  lemma RunsTwo(s: Sys, x: Step, y: Step)
    requires StepEnabled(s, x) && StepEnabled(Next(s, x), y)
    ensures CanRun(s, [x, y]) && Run(s, [x, y]) == Next(Next(s, x), y)
  {
    RunsOne(s, x);
    GateSafety.Extend(s, [x], y);
    assert [x] + [y] == [x, y];
  }

  /** s with attempt o at pc, and gate and closes as given. */
  predicate OnlyAttempt(s: Sys, n: Sys, o: nat, gate: Option<nat>, closed: multiset<nat>) {
    o in n.stops && n == s.(stops := s.stops[o := n.stops[o]], act := s.act.(gate := gate), closed := closed)
  }

  lemma Looks(s: Sys, o: nat, at: int)
    requires o in s.stops && s.stops[o].pc == CheckInflight && at <= s.clock
    ensures CanRun(s, Looked(s.act, o, at))
    ensures var n := Run(s, Looked(s.act, o, at));
      OnlyAttempt(s, n, o, s.act.gate, s.closed) && n.stops[o].pc == if s.act.IsParked(at) then Releasing else Armed
  {
    hide Run, CanRun;
    var load, more, lease := Attempt(o, LoadInflight(at)), Attempt(o, LoadPersistent), Attempt(o, LoadLease);
    RunsOne(s, load);
    if s.act.inflight > 0 {
      assert Looked(s.act, o, at) == [load];
    } else {
      RunsTwo(s, load, more);
      if s.act.persistent > 0 {
        assert Looked(s.act, o, at) == [load, more];
      } else {
        var n := Run(s, [load, more]);
        GateSafety.Extend(s, [load, more], lease);
        assert Looked(s.act, o, at) == [load, more] + [lease];
      }
    }
  }

  lemma LooksTheSame(a: Activity, b: Activity, o: nat, at: int)
    requires a.(gate := None) == b.(gate := None)
    ensures Looked(a, o, at) == Looked(b, o, at) && (a.IsParked(at) <==> b.IsParked(at))
  {
  }

  lemma Undoes(s: Sys, o: nat)
    requires o in s.stops && s.stops[o].pc == Releasing
    ensures var xs := [Attempt(o, ClearGate), Attempt(o, CloseGate)];
      && CanRun(s, xs) && OnlyAttempt(s, Run(s, xs), o, None, s.closed + multiset{o}) && Run(s, xs).stops[o].pc == Finished
  {
    hide Run, CanRun;
    RunsTwo(s, Attempt(o, ClearGate), Attempt(o, CloseGate));
  }

  /**
   Uninterrupted, the accesses do to activity, gate and closes what BeginStop ensures: the attempt is
   armed if and only if nothing parks the project, and a refused one has given back its own gate.
   */
  lemma BeginStopIsItsAccesses(s: Sys, o: nat, who: StopperKind, at: int)
    requires o !in s.stops && at <= s.clock && s.act.gate == None
    ensures CanRun(s, Attempted(s.act, o, who, at))
    ensures var n := Run(s, Attempted(s.act, o, who, at)); var ok := !s.act.IsParked(at);
      && OnlyAttempt(s, n, o, if ok then Some(o) else None, if ok then s.closed else s.closed + multiset{o})
      && n.stops[o].pc == if ok then Armed else Finished
  {
    hide Run, CanRun, Looked;
    var arm, look, undo := [Arm(o, who)], Looked(s.act, o, at), [Attempt(o, ClearGate), Attempt(o, CloseGate)];
    RunsOne(s, Arm(o, who));
    var a := Run(s, arm);
    Looks(a, o, at);
    LooksTheSame(a.act, s.act, o, at);
    RunsOn(s, arm, look);
    var b := Run(s, arm + look);
    if s.act.IsParked(at) {
      Undoes(b, o);
      RunsOn(s, arm + look, undo);
    } else {
      assert arm + look + [] == arm + look;
    }
  }

  /** A request's end stores its time first and gives its slot back second, as RequestEnded and PersistentClosed ensure. */
  lemma EndIsItsAccesses(s: Sys, t: nat)
    requires t in s.reqs && MayEnd(s.reqs[t]) && s.reqs[t].stamp == None
    ensures var xs := [Serve(t, Stamp), Serve(t, Release)];
      && CanRun(s, xs)
      && Run(s, xs) == s.(reqs := s.reqs[t := s.reqs[t].(stamp := Some(s.clock), open := false)],
                          act := Counter(s.act, s.reqs[t].kind, -1).(lastActivity := s.clock), doneAt := s.doneAt[t := s.clock])
  {
    hide Run, CanRun;
    RunsTwo(s, Serve(t, Stamp), Serve(t, Release));
  }
}
