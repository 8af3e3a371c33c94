/**
 All interleavings of requests for worktrees: each critical section and each wait a step of its own,
 with the project table changing under the resolver's hands at any time.
 */
module ResolverRuns {
  import opened Options
  import opened Resolving
  import opened Sets

  datatype Pc =
    | Arrived
    | Crowded                 // one request too many is waiting
    | Admitted
    | Waiting(call: nat)      // for a resolution another request leads
    | Leading(call: nat)      // materialising
    | Settled(call: nat)      // the outcome is in the call, not on record yet
    | Recorded(call: nat)     // on record; the waiting requests are not released yet
    | Answered(from: Option<nat>, result: Option<Result>)
    | Gone

  datatype Caller = Caller(name: string, pc: Pc)

  /** What materialising comes to. */
  datatype Verdict = Rejects | Fails(reason: string) | Registers(id: nat)

  datatype Sys = Sys(
    maxHeld: int, clock: int, held: int,
    shared: Shared,
    results: map<nat, Result>,
    closed: set<nat>,
    callers: map<nat, Caller>,
    // The project table, as far as names go.
    table: map<string, nat>,
    // History: who leads each call, and when resolutions began and ended.
    leaders: map<nat, nat>,
    log: seq<Mark>)

  function Start(maxHeld: int, clock: int, table: map<string, nat>): Sys {
    Sys(maxHeld, clock, 0, FRESH, map[], {}, map[], table, map[], [])
  }

  datatype Act = Hold | TurnAway | Look | Settle(verdict: Verdict) | Record | Release | Receive | GiveUp | Leave

  datatype Step =
    | Arrive(t: nat, name: string)
    | Do(t: nat, act: Act)
    // A reload, a drop or another entry changes the table.
    | Table(table: map<string, nat>)
    | Elapse(d: nat)

  predicate ActEnabled(s: Sys, c: Caller, a: Act) {
    match a
    case Hold => c.pc == Arrived
    case TurnAway => c.pc == Crowded
    case Look => c.pc == Admitted
    case Settle(_) => c.pc.Leading?
    case Record => c.pc.Settled? && c.pc.call in s.results
    case Release => c.pc.Recorded? && c.pc.call in s.results
    case Receive => c.pc.Waiting? && c.pc.call in s.closed && c.pc.call in s.results
    case GiveUp => c.pc.Waiting?
    case Leave => c.pc.Answered?
  }

  predicate Enabled(s: Sys, e: Step) {
    match e
    case Arrive(t, _) => t !in s.callers
    case Do(t, a) => t in s.callers && ActEnabled(s, s.callers[t], a)
    case Table(_) => true
    case Elapse(_) => true
  }

  /** Registration refuses a name that is taken. */
  function Outcome(s: Sys, name: string, v: Verdict): Result {
    match v
    case Rejects => NoWorktree
    case Fails(reason) => Unavailable(reason)
    case Registers(id) => if name in s.table then Unavailable("name taken") else Handler(id)
  }

  function Moved(s: Sys, t: nat, pc: Pc): Sys
    requires t in s.callers
  {
    s.(callers := s.callers[t := s.callers[t].(pc := pc)])
  }

  function AfterLook(s: Sys, t: nat): Sys
    requires t in s.callers
  {
    var name := s.callers[t].name;
    match Enters(s.shared, name, s.clock)
    case Joins(c) => Moved(s, t, Waiting(c))
    case BacksOff(reason) => Moved(s, t, Answered(None, Some(Unavailable(reason))))
    case Leads(c) =>
      Moved(s, t, Leading(c)).(shared := AfterEnter(s.shared, name, s.clock),
                               leaders := s.leaders[c := t], log := s.log + [Began(name, s.clock)])
  }

  function NextDo(s: Sys, t: nat, a: Act): Sys
    requires t in s.callers && ActEnabled(s, s.callers[t], a)
  {
    var c := s.callers[t];
    match a
    case Hold => Moved(s, t, if s.held + 1 > s.maxHeld then Crowded else Admitted).(held := s.held + 1)
    case TurnAway => Moved(s, t, Gone).(held := s.held - 1)
    case Look => AfterLook(s, t)
    case Settle(v) =>
      var r := Outcome(s, c.name, v);
      Moved(s, t, Settled(c.pc.call)).(results := s.results[c.pc.call := r],
                                       table := if r.Handler? then s.table[c.name := r.id] else s.table)
    case Record =>
      var r := s.results[c.pc.call];
      Moved(s, t, Recorded(c.pc.call)).(shared := AfterRecord(s.shared, c.name, r, s.clock),
                                        log := s.log + [Ended(c.name, r, s.clock)])
    case Release => Moved(s, t, Answered(Some(c.pc.call), Some(s.results[c.pc.call]))).(closed := s.closed + {c.pc.call})
    case Receive => Moved(s, t, Answered(Some(c.pc.call), Some(s.results[c.pc.call])))
    case GiveUp => Moved(s, t, Answered(None, None))
    case Leave => Moved(s, t, Gone).(held := s.held - 1)
  }

  function Next(s: Sys, e: Step): Sys
    requires Enabled(s, e)
  {
    match e
    case Arrive(t, name) => s.(callers := s.callers[t := Caller(name, Arrived)])
    case Do(t, a) => NextDo(s, t, a)
    case Table(table) => s.(table := table)
    case Elapse(d) => s.(clock := s.clock + d)
  }

  predicate CanRun(s: Sys, es: seq<Step>)
    decreases |es|
  {
    es == [] || (Enabled(s, es[0]) && CanRun(Next(s, es[0]), es[1..]))
  }

  function Run(s: Sys, es: seq<Step>): Sys
    requires CanRun(s, es)
    decreases |es|
  {
    if es == [] then s else Run(Next(s, es[0]), es[1..])
  }

  // ---- What every step keeps ----

  predicate InFlight(pc: Pc) {
    pc.Leading? || pc.Settled?
  }

  predicate LedBy(s: Sys, c: nat) {
    c in s.leaders && s.leaders[c] in s.callers
  }

  /** The call is t's, and not closed yet. */
  predicate IsLeader(s: Sys, t: nat, c: nat) {
    c in s.leaders && s.leaders[c] == t && c !in s.closed
  }

  /** A caller is where its call says it can be. */
  predicate CallerOk(s: Sys, t: nat)
    requires t in s.callers
  {
    var name, pc := s.callers[t].name, s.callers[t].pc;
    match pc
    case Leading(c) => IsLeader(s, t, c) && name in s.shared.calls && s.shared.calls[name] == c
    case Settled(c) => IsLeader(s, t, c) && name in s.shared.calls && s.shared.calls[name] == c && c in s.results
    case Recorded(c) => IsLeader(s, t, c) && c in s.results
    case Waiting(c) => LedBy(s, c) && s.callers[s.leaders[c]].name == name
    case Answered(c, r) => c.Some? ==>
      && c.value in s.closed && c.value in s.results && r == Some(s.results[c.value])
      && LedBy(s, c.value) && s.callers[s.leaders[c.value]].name == name
    case _ => true
  }

  /** A call is led by one caller, who is still at it until the call is closed, and has left its outcome then. */
  predicate CallOk(s: Sys, c: nat)
    requires c in s.leaders
  {
    && c < s.shared.nextCall && LedBy(s, c)
    && (c !in s.closed ==>
          var pc := s.callers[s.leaders[c]].pc; (pc == Leading(c) || pc == Settled(c) || pc == Recorded(c)))
    && (c in s.closed ==> c in s.results)
  }

  /** n is in flight, and the one at it is the leader of its call. */
  predicate NameOk(s: Sys, n: string)
    requires n in s.shared.calls
  {
    var c := s.shared.calls[n];
    LedBy(s, c) && s.callers[s.leaders[c]].name == n
    && (s.callers[s.leaders[c]].pc == Leading(c) || s.callers[s.leaders[c]].pc == Settled(c))
  }

  ghost predicate FlightOk(s: Sys) {
    && (forall t :: t in s.callers ==> CallerOk(s, t))
    && (forall c :: c in s.leaders ==> CallOk(s, c))
    && (forall c :: c in s.closed ==> c in s.leaders)
    && (forall n :: n in s.shared.calls ==> NameOk(s, n))
  }

  /** A caller that is not at work on a call. */
  predicate Idle(pc: Pc) {
    !pc.Leading? && !pc.Settled? && !pc.Recorded?
  }

  lemma QuietCaller(s: Sys, t: nat, pc: Pc, u: nat)
    requires t in s.callers && u in s.callers && u != t && CallerOk(s, u)
    ensures CallerOk(Moved(s, t, pc), u)
  {
  }

  lemma QuietCall(s: Sys, t: nat, pc: Pc, c: nat)
    requires t in s.callers && Idle(s.callers[t].pc) && c in s.leaders && CallOk(s, c)
    ensures CallOk(Moved(s, t, pc), c)
  {
  }

  lemma QuietName(s: Sys, t: nat, pc: Pc, n: string)
    requires t in s.callers && Idle(s.callers[t].pc) && n in s.shared.calls && NameOk(s, n)
    ensures NameOk(Moved(s, t, pc), n)
  {
  }

  /** A move of a caller that is not at work on a call concerns nobody else. */
  lemma QuietMove(s: Sys, t: nat, pc: Pc)
    requires FlightOk(s) && t in s.callers && Idle(s.callers[t].pc) && CallerOk(Moved(s, t, pc), t)
    ensures FlightOk(Moved(s, t, pc))
  {
    var v := Moved(s, t, pc);
    hide CallerOk, CallOk, NameOk;
    forall u | u in v.callers
      ensures CallerOk(v, u)
    {
      if u != t {
        QuietCaller(s, t, pc, u);
      }
    }
    forall c | c in v.leaders
      ensures CallOk(v, c)
    {
      QuietCall(s, t, pc, c);
    }
    forall n | n in v.shared.calls
      ensures NameOk(v, n)
    {
      QuietName(s, t, pc, n);
    }
  }

  /** The next call's number is not in use yet. */
  lemma NewCall(s: Sys)
    requires FlightOk(s)
    ensures s.shared.nextCall !in s.leaders && s.shared.nextCall !in s.closed
  {
    assert s.shared.nextCall in s.leaders ==> CallOk(s, s.shared.nextCall);
  }

  lemma LeadCaller(s: Sys, t: nat, u: nat)
    requires t in s.callers && s.callers[t].pc == Admitted && Enters(s.shared, s.callers[t].name, s.clock).Leads?
    requires s.shared.nextCall !in s.leaders && s.shared.nextCall !in s.closed
    requires u in s.callers && CallerOk(s, u)
    ensures CallerOk(AfterLook(s, t), u)
  {
  }

  lemma LeadCall(s: Sys, t: nat, c: nat)
    requires t in s.callers && s.callers[t].pc == Admitted && Enters(s.shared, s.callers[t].name, s.clock).Leads?
    requires s.shared.nextCall !in s.leaders && s.shared.nextCall !in s.closed
    requires c in s.leaders ==> CallOk(s, c)
    requires c in AfterLook(s, t).leaders
    ensures CallOk(AfterLook(s, t), c)
  {
  }

  lemma LeadKeeps(s: Sys, t: nat)
    requires FlightOk(s) && t in s.callers && s.callers[t].pc == Admitted && Enters(s.shared, s.callers[t].name, s.clock).Leads?
    ensures FlightOk(AfterLook(s, t))
  {
    var v := AfterLook(s, t);
    NewCall(s);
    forall u | u in v.callers
      ensures CallerOk(v, u)
    {
      LeadCaller(s, t, u);
    }
    forall c | c in v.leaders
      ensures CallOk(v, c)
    {
      LeadCall(s, t, c);
    }
  }

  lemma LeaderCaller(s: Sys, t: nat, a: Act, u: nat)
    requires t in s.callers && ActEnabled(s, s.callers[t], a) && (a.Settle? || a.Record? || a.Release?)
    requires CallerOk(s, t) && CallOk(s, s.callers[t].pc.call)
    requires u in s.callers && CallerOk(s, u)
    ensures CallerOk(NextDo(s, t, a), u)
  {
  }

  lemma LeaderCall(s: Sys, t: nat, a: Act, c: nat)
    requires t in s.callers && ActEnabled(s, s.callers[t], a) && (a.Settle? || a.Record? || a.Release?)
    requires CallerOk(s, t) && c in s.leaders && CallOk(s, c)
    ensures c in NextDo(s, t, a).leaders && CallOk(NextDo(s, t, a), c)
  {
  }

  lemma LeaderName(s: Sys, t: nat, a: Act, n: string)
    requires t in s.callers && ActEnabled(s, s.callers[t], a) && (a.Settle? || a.Record? || a.Release?)
    requires CallerOk(s, t) && (n in s.shared.calls ==> NameOk(s, n))
    requires n in NextDo(s, t, a).shared.calls
    ensures NameOk(NextDo(s, t, a), n)
  {
  }

  lemma LeaderKeeps(s: Sys, t: nat, a: Act)
    requires FlightOk(s) && t in s.callers && ActEnabled(s, s.callers[t], a) && (a.Settle? || a.Record? || a.Release?)
    ensures FlightOk(NextDo(s, t, a))
  {
    var v := NextDo(s, t, a);
    assert CallerOk(s, t) && CallOk(s, s.callers[t].pc.call);
    assert v.callers.Keys == s.callers.Keys && v.leaders == s.leaders;
    assert a.Release? ==> v.closed == s.closed + {s.callers[t].pc.call};
    assert !a.Release? ==> v.closed == s.closed;
    hide NextDo, CallerOk, CallOk, NameOk;
    forall u | u in v.callers
      ensures CallerOk(v, u)
    {
      LeaderCaller(s, t, a, u);
    }
    forall c | c in v.leaders
      ensures CallOk(v, c)
    {
      LeaderCall(s, t, a, c);
    }
    forall n | n in v.shared.calls
      ensures NameOk(v, n)
    {
      LeaderName(s, t, a, n);
    }
  }

  // ---- Held requests ----

  predicate Inside(pc: Pc) {
    !pc.Arrived? && !pc.Gone?
  }

  function InsideSet(callers: map<nat, Caller>): set<nat> {
    set t | t in callers && Inside(callers[t].pc)
  }

  function AdmittedSet(callers: map<nat, Caller>): set<nat> {
    set t | t in callers && Inside(callers[t].pc) && !callers[t].pc.Crowded?
  }

  ghost predicate HeldOk(s: Sys) {
    && s.held == |InsideSet(s.callers)|
    && (|AdmittedSet(s.callers)| <= s.maxHeld || AdmittedSet(s.callers) == {})
  }

  lemma InsideAfter(callers: map<nat, Caller>, t: nat, c: Caller)
    ensures InsideSet(callers[t := c]) == if Inside(c.pc) then InsideSet(callers) + {t} else InsideSet(callers) - {t}
  {
  }

  lemma AdmittedAfter(callers: map<nat, Caller>, t: nat, c: Caller)
    ensures AdmittedSet(callers[t := c]) ==
      if Inside(c.pc) && !c.pc.Crowded? then AdmittedSet(callers) + {t} else AdmittedSet(callers) - {t}
  {
  }

  lemma AdmittedAreInside(callers: map<nat, Caller>)
    ensures |AdmittedSet(callers)| <= |InsideSet(callers)|
  {
    Shrinks(AdmittedSet(callers), InsideSet(callers));
  }

  /** Whether the caller counts as waiting changes only when it is counted or discounted. */
  lemma MoveFacts(s: Sys, t: nat, a: Act)
    requires t in s.callers && ActEnabled(s, s.callers[t], a)
    ensures var v := NextDo(s, t, a); var was, now := s.callers[t].pc, v.callers[t].pc;
      && v.callers == s.callers[t := v.callers[t]] && v.maxHeld == s.maxHeld
      && v.held - s.held == (if Inside(now) then 1 else 0) - (if Inside(was) then 1 else 0)
      && (Inside(now) && !now.Crowded? && !(Inside(was) && !was.Crowded?) ==> s.held + 1 <= s.maxHeld)
  {
  }

  lemma HeldKeeps(s: Sys, t: nat, a: Act)
    requires HeldOk(s) && t in s.callers && ActEnabled(s, s.callers[t], a)
    ensures HeldOk(NextDo(s, t, a))
  {
    var v := NextDo(s, t, a);
    MoveFacts(s, t, a);
    InsideAfter(s.callers, t, v.callers[t]);
    AdmittedAfter(s.callers, t, v.callers[t]);
    AdmittedAreInside(s.callers);
  }

  // ---- All steps ----

  ghost predicate LoggedOk(s: Sys) {
    SharedOk(s.shared, s.log) && LogOk(s.log)
  }

  ghost predicate Inv(s: Sys) {
    FlightOk(s) && HeldOk(s) && LoggedOk(s)
  }

  lemma LoggedKeeps(s: Sys, t: nat, a: Act)
    requires LoggedOk(s) && t in s.callers && CallerOk(s, t) && ActEnabled(s, s.callers[t], a)
    ensures LoggedOk(NextDo(s, t, a))
  {
    var name := s.callers[t].name;
    if a == Look && Enters(s.shared, name, s.clock).Leads? {
      EnterKeeps(s.shared, s.log, name, s.clock);
    } else if a == Record {
      RecordKeeps(s.shared, s.log, name, s.results[s.callers[t].pc.call], s.clock);
    }
  }

  lemma JoinKeeps(s: Sys, t: nat)
    requires FlightOk(s) && t in s.callers && s.callers[t].pc == Admitted && !Enters(s.shared, s.callers[t].name, s.clock).Leads?
    ensures FlightOk(AfterLook(s, t))
  {
    var name := s.callers[t].name;
    assert name in s.shared.calls ==> NameOk(s, name);
    QuietMove(s, t, AfterLook(s, t).callers[t].pc);
  }

  lemma OnlyHeld(s: Sys, v: Sys)
    requires FlightOk(s) && v == s.(held := v.held)
    ensures FlightOk(v)
  {
  }

  lemma QuietDo(s: Sys, t: nat, a: Act)
    requires FlightOk(s) && t in s.callers && CallerOk(s, t) && ActEnabled(s, s.callers[t], a)
    requires a.Hold? || a.TurnAway? || a.Receive? || a.GiveUp? || a.Leave?
    ensures FlightOk(NextDo(s, t, a))
  {
    var v := NextDo(s, t, a);
    QuietMove(s, t, v.callers[t].pc);
    OnlyHeld(Moved(s, t, v.callers[t].pc), v);
  }

  lemma FlightKeeps(s: Sys, t: nat, a: Act)
    requires FlightOk(s) && t in s.callers && ActEnabled(s, s.callers[t], a)
    ensures FlightOk(NextDo(s, t, a))
  {
    if a.Settle? || a.Record? || a.Release? {
      LeaderKeeps(s, t, a);
    } else if a == Look {
      if Enters(s.shared, s.callers[t].name, s.clock).Leads? {
        LeadKeeps(s, t);
      } else {
        JoinKeeps(s, t);
      }
    } else {
      assert CallerOk(s, t);
      QuietDo(s, t, a);
    }
  }

  lemma ArriveFlight(s: Sys, t: nat, name: string)
    requires FlightOk(s) && t !in s.callers
    ensures FlightOk(Next(s, Arrive(t, name)))
  {
    var v := Next(s, Arrive(t, name));
    forall u | u in v.callers
      ensures CallerOk(v, u)
    {
      assert u != t ==> CallerOk(s, u);
    }
    forall c | c in v.leaders
      ensures CallOk(v, c)
    {
      assert CallOk(s, c);
    }
    forall n | n in v.shared.calls
      ensures NameOk(v, n)
    {
      assert NameOk(s, n);
    }
  }

  lemma LoggedArrive(s: Sys, v: Sys)
    requires LoggedOk(s) && v.shared == s.shared && v.log == s.log
    ensures LoggedOk(v)
  {
  }

  lemma ArriveKeeps(s: Sys, t: nat, name: string)
    requires Inv(s) && t !in s.callers
    ensures Inv(Next(s, Arrive(t, name)))
  {
    hide FlightOk, LoggedOk;
    ArriveFlight(s, t, name);
    InsideAfter(s.callers, t, Caller(name, Arrived));
    AdmittedAfter(s.callers, t, Caller(name, Arrived));
    LoggedArrive(s, Next(s, Arrive(t, name)));
  }

  lemma AroundKeeps(s: Sys, v: Sys)
    requires Inv(s) && v == s.(table := v.table, clock := v.clock)
    ensures Inv(v)
  {
    forall u | u in v.callers
      ensures CallerOk(v, u)
    {
      assert CallerOk(s, u);
    }
    forall c | c in v.leaders
      ensures CallOk(v, c)
    {
      assert CallOk(s, c);
    }
    forall n | n in v.shared.calls
      ensures NameOk(v, n)
    {
      assert NameOk(s, n);
    }
  }

  lemma DoKeeps(s: Sys, t: nat, a: Act)
    requires Inv(s) && t in s.callers && ActEnabled(s, s.callers[t], a)
    ensures Inv(NextDo(s, t, a))
  {
    assert CallerOk(s, t);
    hide CallerOk, CallOk, NameOk, NextDo, FlightOk, HeldOk, LoggedOk;
    FlightKeeps(s, t, a);
    HeldKeeps(s, t, a);
    LoggedKeeps(s, t, a);
  }

  lemma StepKeeps(s: Sys, e: Step)
    requires Inv(s) && Enabled(s, e)
    ensures Inv(Next(s, e))
  {
    match e
    case Arrive(t, name) => ArriveKeeps(s, t, name);
    case Do(t, a) => DoKeeps(s, t, a);
    case Table(_) => AroundKeeps(s, Next(s, e));
    case Elapse(_) => AroundKeeps(s, Next(s, e));
  }

  lemma {:induction false} RunKeeps(s: Sys, es: seq<Step>)
    requires Inv(s) && CanRun(s, es)
    ensures Inv(Run(s, es))
    decreases |es|
  {
    if es != [] {
      StepKeeps(s, es[0]);
      RunKeeps(Next(s, es[0]), es[1..]);
    }
  }

  predicate Reaches(maxHeld: int, clock: int, table: map<string, nat>, es: seq<Step>, s: Sys) {
    CanRun(Start(maxHeld, clock, table), es) && Run(Start(maxHeld, clock, table), es) == s
  }

  /** What some run from an idle resolver leads to. */
  ghost predicate Reachable(s: Sys) {
    exists maxHeld, clock, table, es :: Reaches(maxHeld, clock, table, es, s)
  }

  lemma ReachableInv(s: Sys)
    requires Reachable(s)
    ensures Inv(s)
  {
    var maxHeld, clock, table, es :| Reaches(maxHeld, clock, table, es, s);
    RunKeeps(Start(maxHeld, clock, table), es);
  }

  // ---- What that means ----

  /** Two requests never materialise the same worktree at once. */
  lemma SingleFlight(s: Sys, t: nat, u: nat)
    requires Reachable(s) && t in s.callers && u in s.callers && s.callers[t].name == s.callers[u].name
    requires InFlight(s.callers[t].pc) && InFlight(s.callers[u].pc)
    ensures t == u
  {
    ReachableInv(s);
    assert CallerOk(s, t) && CallerOk(s, u);
  }

  /**
   What a request finds. While another one is at work on the same worktree it waits for that one's call; after a
   failure it is told why until the backoff is over; and in every other case it sets to work itself, at once.
   */
  lemma LookFinds(s: Sys, t: nat)
    requires Reachable(s) && t in s.callers && s.callers[t].pc == Admitted
    ensures var v, name := Next(s, Do(t, Look)), s.callers[t].name;
      && (forall u :: u in s.callers && s.callers[u].name == name && InFlight(s.callers[u].pc) ==>
            v == Moved(s, t, Waiting(s.callers[u].pc.call)))
      && ((forall u :: u in s.callers && s.callers[u].name == name ==> !InFlight(s.callers[u].pc)) ==>
            var due := RetryAt(s.log, name);
            if due.Some? && s.clock < due.value then
              LastReason(s.log, name).Some? && v == Moved(s, t, Answered(None, Some(Unavailable(LastReason(s.log, name).value))))
            else v.callers[t].pc.Leading? && v.log == s.log + [Began(name, s.clock)])
  {
    ReachableInv(s);
    var name := s.callers[t].name;
    assert forall u :: u in s.callers ==> CallerOk(s, u);
    assert name in s.shared.calls ==> NameOk(s, name);
    assert SharedOk(s.shared, s.log);
    EntersByLog(s.shared, s.log, name, s.clock);
    assert Flying(s.log, name) <==> name in s.shared.calls;
    hide Reachable, Inv, SharedOk, LogOk, Flying, RetryAt, LastReason, Enters;
  }

  /** A request is let in to wait exactly as long as fewer than the limit are inside; one too many is turned away. */
  lemma HoldAdmits(s: Sys, t: nat)
    requires Reachable(s) && t in s.callers && s.callers[t].pc == Arrived
    ensures var v := Next(s, Do(t, Hold));
      if |InsideSet(s.callers)| < s.maxHeld then v.callers[t].pc == Admitted
      else Enabled(v, Do(t, TurnAway)) && Next(v, Do(t, TurnAway)).callers[t].pc == Gone
  {
    ReachableInv(s);
  }

  /** What materialising came to reaches the request that did it, by its own steps, and is there for all who wait. */
  lemma LeaderAnswers(s: Sys, t: nat, verdict: Verdict)
    requires t in s.callers && s.callers[t].pc.Leading?
    ensures var c, name, es := s.callers[t].pc.call, s.callers[t].name, [Do(t, Settle(verdict)), Do(t, Record), Do(t, Release)];
      && CanRun(s, es)
      && var v := Run(s, es);
        && t in v.callers && v.callers[t].pc.Answered? && v.callers[t].pc.from == Some(c)
        && (forall u :: u in s.callers && s.callers[u].pc == Waiting(c) ==>
              u in v.callers && ActEnabled(v, v.callers[u], Receive)
              && Next(v, Do(u, Receive)).callers[u].pc == v.callers[t].pc)
        && match verdict
          case Rejects => v.callers[t].pc.result == Some(NoWorktree) && v.table == s.table
          case Fails(why) => v.callers[t].pc.result == Some(Unavailable(why)) && v.table == s.table
          case Registers(id) =>
            if name in s.table then v.callers[t].pc.result.Some? && v.callers[t].pc.result.value.Unavailable? && v.table == s.table
            else v.callers[t].pc.result == Some(Handler(id)) && v.table == s.table[name := id]
  {
    var settle, record, release := Do(t, Settle(verdict)), Do(t, Record), Do(t, Release);
    var a := Next(s, settle);
    var b := Next(a, record);
    var v := Next(b, release);
    assert [settle, record, release][1..] == [record, release] && [record, release][1..] == [release] && [release][1..] == [];
    assert CanRun(v, []) && Run(v, []) == v;
    assert CanRun(b, [release]) && Run(b, [release]) == v;
    assert CanRun(a, [record, release]) && Run(a, [record, release]) == v;
  }

  /** Everyone whom a resolution releases asked for the same worktree and gets what its leader got. */
  lemma SharedOutcome(s: Sys, t: nat, u: nat)
    requires Reachable(s) && t in s.callers && u in s.callers
    requires s.callers[t].pc.Answered? && s.callers[u].pc.Answered? && s.callers[t].pc.from.Some?
    requires s.callers[t].pc.from == s.callers[u].pc.from
    ensures s.callers[t].name == s.callers[u].name && s.callers[t].pc.result == s.callers[u].pc.result
  {
    ReachableInv(s);
    assert CallerOk(s, t) && CallerOk(s, u);
  }

  /** A request that waits has either been released, or its resolution is still being led, by a request that can go on. */
  lemma NobodyForgotten(s: Sys, t: nat)
    requires Reachable(s) && t in s.callers && s.callers[t].pc.Waiting?
    ensures var c := s.callers[t].pc.call;
      if c in s.closed then ActEnabled(s, s.callers[t], Receive)
      else
        c in s.leaders && s.leaders[c] in s.callers
        && (ActEnabled(s, s.callers[s.leaders[c]], Settle(Rejects)) || ActEnabled(s, s.callers[s.leaders[c]], Record)
            || ActEnabled(s, s.callers[s.leaders[c]], Release))
  {
    ReachableInv(s);
    assert CallerOk(s, t);
    var c := s.callers[t].pc.call;
    assert CallOk(s, c) && CallerOk(s, s.leaders[c]);
  }

  /** The count on record is that of the failures in a row, and there is a record exactly while there are any. */
  lemma FailuresAreCounted(s: Sys, name: string)
    requires Reachable(s)
    ensures name in s.shared.failures <==> Streak(s.log, name) > 0
    ensures name in s.shared.failures ==> s.shared.failures[name].count == Streak(s.log, name)
  {
    ReachableInv(s);
  }

  lemma {:induction false} LogOkAt(log: seq<Mark>, i: nat)
    requires LogOk(log) && i < |log|
    ensures MarkOk(log[..i], log[i])
    decreases |log|
  {
    if i < |log| - 1 {
      LogOkAt(log[..|log| - 1], i);
      assert log[..|log| - 1][..i] == log[..i];
    }
  }

  /** In every run, a resolution begins with none of the same worktree in flight, and not before the backoff of earlier failures. */
  lemma BackoffIsKept(s: Sys, i: nat)
    requires Reachable(s) && i < |s.log| && s.log[i].Began?
    ensures var name, before := s.log[i].name, s.log[..i];
      !Flying(before, name) && (RetryAt(before, name).Some? ==> RetryAt(before, name).value <= s.log[i].at)
  {
    ReachableInv(s);
    LogOkAt(s.log, i);
  }

  /** As long as nobody else changes the table. */
  predicate OnlyRequests(es: seq<Step>) {
    forall e :: e in es ==> !e.Table?
  }

  predicate GivenOnce(base: Sys, s: Sys, c: nat)
    requires c in s.results
  {
    LedBy(s, c)
    && var n := s.callers[s.leaders[c]].name;
      s.results[c].Handler? ==> n !in base.table && n in s.table && s.table[n] == s.results[c].id
  }

  /** Since base, rows have only been added, and every project given out is the one now registered, under a name that was free. */
  ghost predicate Given(base: Sys, s: Sys) {
    && (forall n :: n in base.table ==> n in s.table && s.table[n] == base.table[n])
    && (forall c :: c in s.results && c !in base.results ==> GivenOnce(base, s, c))
  }

  /** Whoever leads a call still does, and asks for the same name. */
  ghost predicate SameLeaders(s: Sys, v: Sys) {
    forall c :: c in s.leaders && LedBy(s, c) ==>
      LedBy(v, c) && v.leaders[c] == s.leaders[c] && v.callers[v.leaders[c]].name == s.callers[s.leaders[c]].name
  }

  lemma OnlyMoves(s: Sys, t: nat, a: Act)
    requires t in s.callers && ActEnabled(s, s.callers[t], a)
    ensures exists pc :: NextDo(s, t, a).callers == s.callers[t := s.callers[t].(pc := pc)]
  {
    var pc := NextDo(s, t, a).callers[t].pc;
    assert NextDo(s, t, a).callers == s.callers[t := s.callers[t].(pc := pc)];
  }

  lemma NamesStay(s: Sys, e: Step)
    requires Enabled(s, e)
    ensures forall t :: t in s.callers ==> t in Next(s, e).callers && Next(s, e).callers[t].name == s.callers[t].name
  {
    if e.Do? {
      OnlyMoves(s, e.t, e.act);
      hide NextDo;
    }
  }

  lemma LeadersGrow(s: Sys, e: Step)
    requires Enabled(s, e) && forall c :: c in s.leaders ==> c < s.shared.nextCall
    ensures forall c :: c in s.leaders ==> c in Next(s, e).leaders && Next(s, e).leaders[c] == s.leaders[c]
  {
  }

  lemma LeadersStay(s: Sys, e: Step)
    requires FlightOk(s) && Enabled(s, e)
    ensures SameLeaders(s, Next(s, e))
  {
    assert forall c :: c in s.leaders ==> CallOk(s, c);
    hide FlightOk, Next, Enabled;
    NamesStay(s, e);
    LeadersGrow(s, e);
  }

  lemma OtherStep(s: Sys, e: Step)
    requires Enabled(s, e) && !e.Table? && !(e.Do? && e.act.Settle?)
    ensures Next(s, e).table == s.table && Next(s, e).results == s.results
  {
  }

  lemma GivenFrame(base: Sys, s: Sys, v: Sys)
    requires Given(base, s) && SameLeaders(s, v) && v.table == s.table && v.results == s.results
    ensures Given(base, v)
  {
    assert forall c :: c in s.results && c !in base.results ==> GivenOnce(base, s, c);
  }

  lemma GivenSettle(base: Sys, s: Sys, t: nat, verdict: Verdict)
    requires Given(base, s) && t in s.callers && s.callers[t].pc.Leading? && CallerOk(s, t)
    requires SameLeaders(s, NextDo(s, t, Settle(verdict)))
    ensures Given(base, NextDo(s, t, Settle(verdict)))
  {
    var v := NextDo(s, t, Settle(verdict));
    forall c | c in v.results && c !in base.results
      ensures GivenOnce(base, v, c)
    {
      assert c in s.results ==> GivenOnce(base, s, c);
    }
  }

  lemma GivenStep(base: Sys, s: Sys, e: Step)
    requires FlightOk(s) && Given(base, s) && Enabled(s, e) && !e.Table?
    ensures Given(base, Next(s, e))
  {
    LeadersStay(s, e);
    if e.Do? && e.act.Settle? {
      assert CallerOk(s, e.t);
      GivenSettle(base, s, e.t, e.act.verdict);
    } else {
      OtherStep(s, e);
      hide FlightOk, SameLeaders, Given, Next;
      GivenFrame(base, s, Next(s, e));
    }
  }

  lemma {:induction false} GivenRun(base: Sys, s: Sys, es: seq<Step>)
    requires Inv(s) && Given(base, s) && CanRun(s, es) && OnlyRequests(es)
    ensures Given(base, Run(s, es))
    decreases |es|
  {
    if es != [] {
      StepKeeps(s, es[0]);
      GivenStep(base, s, es[0]);
      GivenRun(base, Next(s, es[0]), es[1..]);
    }
  }

  /**
   While nobody but requests changes the table, a registered project is never displaced, a name that
   is registered is given out to no further request, and two calls for one name never give out two
   projects.
   */
  lemma RegisteredOnce(s: Sys, es: seq<Step>, c: nat, d: nat)
    requires Reachable(s) && CanRun(s, es) && OnlyRequests(es)
    ensures var v := Run(s, es);
      && (forall n :: n in s.table ==> n in v.table && v.table[n] == s.table[n])
      && (c in v.results && c !in s.results && v.results[c].Handler? ==>
            LedBy(v, c) && v.callers[v.leaders[c]].name !in s.table)
      && (c in v.results && d in v.results && c !in s.results && d !in s.results
          && v.results[c].Handler? && v.results[d].Handler? && LedBy(v, c) && LedBy(v, d)
          && v.callers[v.leaders[c]].name == v.callers[v.leaders[d]].name ==>
            v.results[c] == v.results[d])
  {
    ReachableInv(s);
    GivenRun(s, s, es);
    var v := Run(s, es);
    assert c in v.results && c !in s.results ==> GivenOnce(s, v, c);
    assert d in v.results && d !in s.results ==> GivenOnce(s, v, d);
  }

  /** Requests waiting for a resolution never exceed the limit. */
  lemma WaitingLimit(s: Sys)
    requires Reachable(s)
    ensures |AdmittedSet(s.callers)| <= s.maxHeld || AdmittedSet(s.callers) == {}
    ensures s.held == |InsideSet(s.callers)|
  {
    ReachableInv(s);
  }
}
