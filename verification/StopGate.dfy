/**
 The stop-gate protocol: any number of requests and stop attempts on one tracker, over one
 supervisor, with every atomic access of either side a step of its own.

 A request raises its counter and then reads the gate; a stop publishes its gate and then reads
 the counters. Everything else that may happen to the process - manual starts and stops, exits,
 probes, starts made on behalf of others - is a Lifecycle event at any point.
 */
module StopGate {
  import opened Options
  import opened Idle
  import opened Lifecycle
  import LifecycleRuns

  /** A plain request, an upgrade that keeps the project alive, or one that only counts until it is forwarded. */
  datatype Kind = Plain | KeepAlive | Momentary

  datatype ReqPc =
    | Began                       // counted; the gate is not read yet
    | Waiting(gate: nat)          // saw a gate and waits for it to close
    | Passed                      // may look at the project's state
    | Cold                        // saw it not running
    | OverLimit                   // one too many held requests
    | Admitted                    // held
    | Awaiting(channel: nat)      // held for a startup's outcome
    | Cleared                     // about to be forwarded
    | Forwarding(generation: nat) // handed to the process of that generation
    | Leaving

  datatype Req = Req(kind: Kind, pc: ReqPc, open: bool, stamp: Option<int>, holding: bool)

  datatype StopperKind = Monitor | Eviction

  datatype StopPc =
    | CheckInflight
    | CheckPersistent(at: int)
    | CheckLease(at: int)
    | Armed
    | Clocked(now: int)
    | Snapped(now: int, startedAt: int)
    | Decided(now: int, startedAt: int)
    | Draining(stop: Option<nat>)
    | Releasing
    | Closing
    | Finished

  /** clean: both counters were read as zero under the armed gate; seen: the requests finished by then. */
  datatype Stopper = Stopper(kind: StopperKind, pc: StopPc, clean: bool, seen: set<nat>)

  datatype Sys = Sys(
    maxHeld: int,
    timeout: int,
    clock: int,
    act: Activity,
    held: int,
    sup: Sup,
    reqs: map<nat, Req>,
    stops: map<nat, Stopper>,
    // History: closes per gate, completion times, and the generations a gated stop has begun to stop.
    closed: multiset<nat>,
    doneAt: map<nat, int>,
    doomed: set<nat>)

  function Start(maxHeld: int, timeout: int, clock: int): Sys {
    Sys(maxHeld, timeout, clock, QUIET, 0, INIT, map[], map[], multiset{}, map[], {})
  }

  // ---- Steps ----

  datatype ReqAct =
    | ReadGate | GateOpens | ReadState | TryHold | Reject
    | CallEnsure(spawns: bool)
    | Receive | GiveUp | Forward | Return | Unhold | Stamp | Release

  datatype StopAct =
    | LoadInflight(at: int)
    | LoadPersistent | LoadLease | ReadClock | Snap | Judge | Stop | StopReturns | ClearGate | CloseGate

  datatype Step =
    | Arrive(t: nat, kind: Kind)
    | Serve(t: nat, req: ReqAct)
    | Arm(o: nat, who: StopperKind)
    | Attempt(o: nat, stop: StopAct)
    | Env(e: Event)
    | Lease(until: int)
    | Elapse(d: nat)

  /** A request may end its bracket when it leaves, and a momentary upgrade also just before it is forwarded. */
  predicate MayEnd(r: Req) {
    r.open && ((r.pc == Leaving && !r.holding) || (r.pc == Cleared && r.kind == Momentary))
  }

  predicate ReqEnabled(s: Sys, r: Req, a: ReqAct) {
    match a
    case ReadGate => r.pc == Began
    case GateOpens => r.pc.Waiting? && s.closed[r.pc.gate] > 0
    case ReadState => r.pc == Passed
    case TryHold => r.pc == Cold
    case Reject => r.pc == OverLimit
    case CallEnsure(_) => r.pc == Admitted
    case Receive => r.pc.Awaiting? && r.pc.channel < |s.sup.sent| && s.sup.sent[r.pc.channel] != []
    // The client goes away, the hold limit expires, or the start is refused a slot.
    case GiveUp => r.pc.Waiting? || r.pc.Admitted? || r.pc.Awaiting?
    case Forward => r.pc == Cleared && (r.kind == Momentary ==> !r.open)
    case Return => r.pc.Forwarding?
    case Unhold => r.pc == Leaving && r.holding
    case Stamp => MayEnd(r) && r.stamp == None
    case Release => MayEnd(r) && r.stamp.Some?
  }

  function NextReq(s: Sys, r: Req, a: ReqAct): Req
    requires ReqEnabled(s, r, a)
  {
    match a
    case ReadGate => r.(pc := if s.act.gate.Some? then Waiting(s.act.gate.value) else Passed)
    case GateOpens => r.(pc := Passed)
    case ReadState => r.(pc := if s.sup.phase == Running then Cleared else Cold)
    case TryHold => if s.held + 1 > s.maxHeld then r.(pc := OverLimit) else r.(pc := Admitted, holding := true)
    case Reject => r.(pc := Leaving)
    case CallEnsure(_) => r.(pc := Awaiting(|s.sup.sent|))
    case Receive => r.(pc := if s.sup.sent[r.pc.channel][0] == Ready then Cleared else Leaving)
    case GiveUp => r.(pc := Leaving)
    case Forward => r.(pc := Forwarding(s.sup.generation))
    case Return => r.(pc := Leaving)
    case Unhold => r.(holding := false)
    case Stamp => r.(stamp := Some(s.clock))
    case Release => r.(open := false)
  }

  function Counter(act: Activity, k: Kind, d: int): Activity {
    if k == KeepAlive then act.(persistent := act.persistent + d) else act.(inflight := act.inflight + d)
  }

  function ReqStep(s: Sys, t: nat, a: ReqAct): Sys
    requires t in s.reqs && ReqEnabled(s, s.reqs[t], a)
  {
    var r := s.reqs[t];
    s.(reqs := s.reqs[t := NextReq(s, r, a)],
       act := if a.Stamp? then s.act.(lastActivity := s.clock) else if a.Release? then Counter(s.act, r.kind, -1) else s.act,
       held := if a.TryHold? then s.held + 1 else if a.Reject? || a.Unhold? then s.held - 1 else s.held,
       sup := if a.CallEnsure? then EnsureOnDemand(s.sup, s.clock, a.spawns) else s.sup,
       doneAt := if a.Release? then s.doneAt[t := r.stamp.value] else s.doneAt)
  }

  predicate StopEnabled(s: Sys, p: Stopper, a: StopAct) {
    match a
    case LoadInflight(at) => p.pc == CheckInflight && at <= s.clock
    case LoadPersistent => p.pc.CheckPersistent?
    case LoadLease => p.pc.CheckLease?
    case ReadClock => p.pc == Armed && p.kind == Monitor
    case Snap => p.pc.Clocked?
    case Judge => p.pc.Snapped?
    case Stop => p.pc.Decided? || (p.pc == Armed && p.kind == Eviction)
    // The monitor stops waiting when its context ends; an eviction waits for the stop.
    case StopReturns => p.pc.Draining? && (p.kind == Eviction && p.pc.stop.Some? ==> p.pc.stop.value in s.sup.closed)
    case ClearGate => p.pc == Releasing
    case CloseGate => p.pc == Closing
  }

  function NextStop(s: Sys, p: Stopper, a: StopAct): Stopper
    requires StopEnabled(s, p, a)
  {
    match a
    case LoadInflight(at) => p.(pc := if s.act.inflight > 0 then Releasing else CheckPersistent(at))
    case LoadPersistent =>
      if s.act.persistent > 0 then p.(pc := Releasing) else p.(pc := CheckLease(p.pc.at), seen := s.doneAt.Keys)
    case LoadLease => if s.act.Leased(p.pc.at) then p.(pc := Releasing) else p.(pc := Armed, clean := true)
    case ReadClock => p.(pc := Clocked(s.clock))
    case Snap => p.(pc := if s.sup.phase == Running then Snapped(p.pc.now, s.sup.spawnedAt) else Releasing)
    case Judge =>
      p.(pc := if s.act.IdleAt(p.pc.startedAt, s.timeout) > p.pc.now then Releasing else Decided(p.pc.now, p.pc.startedAt))
    case Stop => p.(pc := Draining(if StopBegin(s.sup).phase == Stopping then Some(StopBegin(s.sup).stopDone) else None))
    case StopReturns => p.(pc := Releasing)
    case ClearGate => p.(pc := Closing)
    case CloseGate => p.(pc := Finished)
  }

  function StopStep(s: Sys, o: nat, a: StopAct): Sys
    requires o in s.stops && StopEnabled(s, s.stops[o], a)
  {
    s.(stops := s.stops[o := NextStop(s, s.stops[o], a)],
       act := if a.ClearGate? then s.act.(gate := None) else s.act,
       closed := if a.CloseGate? then s.closed + multiset{o} else s.closed,
       sup := if a.Stop? then StopBegin(s.sup) else s.sup,
       doomed := if a.Stop? && Active(s.sup) then s.doomed + {s.sup.generation} else s.doomed)
  }

  predicate StepEnabled(s: Sys, x: Step) {
    match x
    case Arrive(t, _) => t !in s.reqs
    case Serve(t, a) => t in s.reqs && ReqEnabled(s, s.reqs[t], a)
    case Arm(o, _) => o !in s.stops && s.act.gate == None
    case Attempt(o, a) => o in s.stops && StopEnabled(s, s.stops[o], a)
    case Env(e) => Enabled(s.sup, e) && (LifecycleRuns.TimeOf(e).Some? ==> LifecycleRuns.TimeOf(e).value == s.clock)
    case Lease(_) => true
    case Elapse(_) => true
  }

  function Next(s: Sys, x: Step): Sys
    requires StepEnabled(s, x)
  {
    match x
    case Arrive(t, k) => s.(reqs := s.reqs[t := Req(k, Began, true, None, false)], act := Counter(s.act, k, 1))
    case Serve(t, a) => ReqStep(s, t, a)
    case Arm(o, who) =>
      s.(stops := s.stops[o := Stopper(who, CheckInflight, false, {})], act := s.act.(gate := Some(o)))
    case Attempt(o, a) => StopStep(s, o, a)
    case Env(e) => s.(sup := Apply(s.sup, e))
    case Lease(until) => s.(act := s.act.(leaseUntil := until))
    case Elapse(d) => s.(clock := s.clock + d)
  }

  function Run(s: Sys, xs: seq<Step>): Sys
    requires CanRun(s, xs)
    decreases |xs|, 1
  {
    if xs == [] then s else Next(Run(s, xs[..|xs| - 1]), xs[|xs| - 1])
  }

  predicate CanRun(s: Sys, xs: seq<Step>)
    decreases |xs|, 0
  {
    xs == [] || (CanRun(s, xs[..|xs| - 1]) && StepEnabled(Run(s, xs[..|xs| - 1]), xs[|xs| - 1]))
  }

  // ---- The invariant ----

  /** Between its compare-and-swap and its clear, a stop attempt owns the gate. */
  predicate Owns(pc: StopPc) {
    !pc.Closing? && !pc.Finished?
  }

  function InflightSet(reqs: map<nat, Req>): set<nat> {
    set t | t in reqs && reqs[t].open && reqs[t].kind != KeepAlive
  }

  function PersistentSet(reqs: map<nat, Req>): set<nat> {
    set t | t in reqs && reqs[t].open && reqs[t].kind == KeepAlive
  }

  function HoldingSet(reqs: map<nat, Req>): set<nat> {
    set t | t in reqs && reqs[t].holding
  }

  function OverSet(reqs: map<nat, Req>): set<nat> {
    set t | t in reqs && reqs[t].pc == OverLimit
  }

  ghost predicate CountersOk(s: Sys) {
    s.act.inflight == |InflightSet(s.reqs)| && s.act.persistent == |PersistentSet(s.reqs)|
  }

  ghost predicate HoldsOk(s: Sys) {
    && s.held == |HoldingSet(s.reqs)| + |OverSet(s.reqs)|
    && (|HoldingSet(s.reqs)| <= s.maxHeld || HoldingSet(s.reqs) == {})
  }

  /** Where a stop attempt is in its own code. */
  predicate AttemptOk(p: Stopper) {
    && (p.pc.CheckInflight? || p.pc.CheckPersistent? || p.pc.CheckLease? ==> !p.clean)
    && (p.pc.Armed? || p.pc.Clocked? || p.pc.Snapped? || p.pc.Decided? || p.pc.Draining? ==> p.clean)
    && (p.pc.Clocked? || p.pc.Snapped? || p.pc.Decided? ==> p.kind == Monitor)
  }

  /** The gate is armed exactly while its one owner is at work, and closes once, when the owner is done. */
  ghost predicate GateOk(s: Sys) {
    && (forall o :: o in s.stops ==> AttemptOk(s.stops[o]) && (Owns(s.stops[o].pc) <==> s.act.gate == Some(o)))
    && (s.act.gate.Some? ==> s.act.gate.value in s.stops)
    && (forall o: nat :: s.closed[o] == if o in s.stops && s.stops[o].pc == Finished then 1 else 0)
  }

  /** Where a request is in its own code: counted until it may be forwarded, unless it is momentary. */
  predicate BracketOk(r: Req) {
    && (!r.open ==> r.pc == Leaving || (r.kind == Momentary && (r.pc == Cleared || r.pc.Forwarding?)))
    && (r.stamp.Some? && r.open ==> MayEnd(r))
    && (r.holding ==> r.pc.Admitted? || r.pc.Awaiting? || r.pc.Cleared? || r.pc.Forwarding? || r.pc.Leaving?)
  }

  ghost predicate BracketsOk(s: Sys) {
    forall t :: t in s.reqs ==> BracketOk(s.reqs[t])
  }

  predicate PastInflight(p: Stopper) {
    Owns(p.pc) && (p.clean || p.pc.CheckPersistent? || p.pc.CheckLease?)
  }

  predicate PastPersistent(p: Stopper) {
    Owns(p.pc) && (p.clean || p.pc.CheckLease?)
  }

  /** Not read the gate yet, waiting on gate o, or on its way out without having been forwarded. */
  predicate Sheltered(r: Req, o: nat) {
    r.pc == Began || r.pc == Waiting(o) || r.pc == Leaving
  }

  /** Once the owner of gate o has read a counter as zero, nothing that counter counts is on its way to the process. */
  ghost predicate Shields(reqs: map<nat, Req>, p: Stopper, o: nat) {
    && (PastInflight(p) ==> forall t :: t in reqs && reqs[t].open && reqs[t].kind != KeepAlive ==> Sheltered(reqs[t], o))
    && (PastPersistent(p) ==> forall t :: t in reqs && reqs[t].open && reqs[t].kind == KeepAlive ==> Sheltered(reqs[t], o))
  }

  ghost predicate ShieldOk(s: Sys) {
    s.act.gate.Some? && s.act.gate.value in s.stops ==> Shields(s.reqs, s.stops[s.act.gate.value], s.act.gate.value)
  }

  /** A generation a gated stop has begun to stop is over, or at least no longer starting or running. */
  ghost predicate DoomedOk(s: Sys) {
    forall g :: g in s.doomed ==> g <= s.sup.generation && (g == s.sup.generation ==> !Active(s.sup))
  }

  /** Where a counted request is headed is not doomed. */
  predicate CourseOk(r: Req, sup: Sup, doomed: set<nat>) {
    match r.pc
    case Awaiting(ch) =>
      ch < |sup.sent| && (r.open && (sup.sent[ch] == [] || sup.sent[ch][0] == Ready) ==> sup.generation !in doomed)
    case Cleared => r.open ==> sup.generation !in doomed
    case Forwarding(g) => g <= sup.generation && (r.open ==> g !in doomed)
    case _ => true
  }

  ghost predicate CoursesOk(s: Sys) {
    forall t :: t in s.reqs ==> CourseOk(s.reqs[t], s.sup, s.doomed)
  }

  /** A decision to stop postdates, by the idle timeout, the process start and everything it saw finish. */
  ghost predicate DecisionOk(p: Stopper, doneAt: map<nat, int>, timeout: int) {
    && p.seen <= doneAt.Keys
    && (p.pc.Decided? ==>
          && p.pc.now >= p.pc.startedAt + timeout
          && forall t :: t in p.seen ==> p.pc.now >= doneAt[t] + timeout)
  }

  /** Completion times reach lastActivity before the counter drops. */
  ghost predicate TimesOk(s: Sys) {
    && 0 <= s.act.lastActivity <= s.clock
    && (forall t :: t in s.doneAt <==> t in s.reqs && !s.reqs[t].open)
    && (forall t :: t in s.doneAt ==> s.doneAt[t] <= s.act.lastActivity)
    && (forall t :: t in s.reqs && s.reqs[t].stamp.Some? ==> s.reqs[t].stamp.value <= s.act.lastActivity)
    && (forall o :: o in s.stops ==> DecisionOk(s.stops[o], s.doneAt, s.timeout))
  }

  ghost predicate SysInv(s: Sys) {
    && Inv(s.sup) && CountersOk(s) && HoldsOk(s) && GateOk(s) && BracketsOk(s)
    && ShieldOk(s) && DoomedOk(s) && CoursesOk(s) && TimesOk(s)
  }
}
