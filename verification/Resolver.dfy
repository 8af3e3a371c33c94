/**
 The resolver of a wildcard entry: one resolution per worktree at a time, its outcome shared by all
 who wait, and none retried before its backoff has passed; over any interleaving of its callers.
 */
module Resolving {
  import opened Options
  import opened Backoff

  /** A handler, the answer that there is no such worktree, or a failure worth retrying later. */
  datatype Result = Handler(id: nat) | NoWorktree | Unavailable(reason: string)

  datatype Failure = Failure(reason: string, count: nat, retryAt: int)

  /** What the resolver's mutex guards. */
  datatype Shared = Shared(calls: map<string, nat>, failures: map<string, Failure>, nextCall: nat)

  datatype Entered = Joins(call: nat) | BacksOff(reason: string) | Leads(call: nat)

  const FRESH: Shared := Shared(map[], map[], 0)

  // ---- The two critical sections ----

  function Enters(s: Shared, name: string, now: int): Entered {
    if name in s.calls then Joins(s.calls[name])
    else if name in s.failures && now < s.failures[name].retryAt then BacksOff(s.failures[name].reason)
    else Leads(s.nextCall)
  }

  function AfterEnter(s: Shared, name: string, now: int): Shared {
    if Enters(s, name, now).Leads? then s.(calls := s.calls[name := s.nextCall], nextCall := s.nextCall + 1) else s
  }

  function AfterRecord(s: Shared, name: string, r: Result, now: int): Shared {
    var left := s.(calls := s.calls - {name});
    if !r.Unavailable? then left.(failures := s.failures - {name})
    else
      var n := (if name in s.failures then s.failures[name].count else 0) + 1;
      left.(failures := s.failures[name := Failure(r.reason, n, now + Delay(n))])
  }

  class Resolver {
    var calls: map<string, nat>
    var failures: map<string, Failure>
    var nextCall: nat

    function View(): Shared
      reads this
    {
      Shared(calls, failures, nextCall)
    }

    constructor ()
      ensures View() == FRESH
    {
      calls, failures, nextCall := map[], map[], 0;
    }

    /** Joins the resolution in flight, reports a failure that is still fresh, or leads a new resolution. */
    method Enter(name: string, now: int) returns (e: Entered)
      modifies this`calls, this`nextCall
      ensures e == Enters(old(View()), name, now) && View() == AfterEnter(old(View()), name, now)
    {
      if name in calls {
        return Joins(calls[name]);
      }
      if name in failures && now < failures[name].retryAt {
        return BacksOff(failures[name].reason);
      }
      e := Leads(nextCall);
      calls := calls[name := nextCall];
      nextCall := nextCall + 1;
    }

    /** Ends a resolution: a failure counts up and sets the time of the next attempt, anything else forgets. */
    method Record(name: string, r: Result, now: int)
      modifies this`calls, this`failures
      ensures View() == AfterRecord(old(View()), name, r, now)
    {
      calls := calls - {name};
      if !r.Unavailable? {
        failures := failures - {name};
        return;
      }
      var n := 1;
      if name in failures {
        n := failures[name].count + 1;
      }
      var d := ResolveBackoff(n);
      failures := failures[name := Failure(r.reason, n, now + d)];
    }
  }

  // ---- What happened, as a log ----

  datatype Mark = Began(name: string, at: int) | Ended(name: string, result: Result, at: int)

  /** Failures of name in a row, up to the end of the log. */
  function Streak(log: seq<Mark>, name: string): nat {
    if log == [] then 0
    else
      var rest, m := log[..|log| - 1], log[|log| - 1];
      if m.Began? || m.name != name then Streak(rest, name)
      else if m.result.Unavailable? then Streak(rest, name) + 1
      else 0
  }

  /** When name may be tried again, if its last resolution failed. */
  function RetryAt(log: seq<Mark>, name: string): Option<int> {
    if log == [] then None
    else
      var rest, m := log[..|log| - 1], log[|log| - 1];
      if m.Began? || m.name != name then RetryAt(rest, name)
      else if m.result.Unavailable? then Some(m.at + Delay(Streak(log, name)))
      else None
  }

  /** Why its last resolution failed, if it did. */
  function LastReason(log: seq<Mark>, name: string): Option<string> {
    if log == [] then None
    else
      var m := log[|log| - 1];
      if m.Began? || m.name != name then LastReason(log[..|log| - 1], name)
      else if m.result.Unavailable? then Some(m.result.reason)
      else None
  }

  /** A resolution of name has begun and not ended. */
  predicate Flying(log: seq<Mark>, name: string) {
    log != [] &&
    if log[|log| - 1].name == name then log[|log| - 1].Began? else Flying(log[..|log| - 1], name)
  }

  /** One at a time, and none before its time. */
  predicate MarkOk(log: seq<Mark>, m: Mark) {
    match m
    case Began(name, at) => !Flying(log, name) && (RetryAt(log, name).Some? ==> RetryAt(log, name).value <= at)
    case Ended(name, _, _) => Flying(log, name)
  }

  predicate LogOk(log: seq<Mark>) {
    log == [] || (LogOk(log[..|log| - 1]) && MarkOk(log[..|log| - 1], log[|log| - 1]))
  }

  /** The shared state is what the log says. */
  ghost predicate SharedOk(s: Shared, log: seq<Mark>) {
    && (forall n: string :: n in s.calls <==> Flying(log, n))
    && (forall n: string :: n in s.failures <==> Streak(log, n) > 0)
    && (forall n :: n in s.failures ==> s.failures[n].count == Streak(log, n) && RetryAt(log, n) == Some(s.failures[n].retryAt))
    && (forall n :: n in s.failures ==> LastReason(log, n) == Some(s.failures[n].reason))
  }

  lemma {:induction false} RetryAfterFailure(log: seq<Mark>, name: string)
    ensures RetryAt(log, name).Some? <==> Streak(log, name) > 0
  {
    if log != [] {
      RetryAfterFailure(log[..|log| - 1], name);
    }
  }

  /**
   What a request for name meets, as the log has it: the resolution in flight, or the failure still to be waited
   out, or nothing, so that it leads a new resolution. A failure whose time is over keeps nobody from trying again.
   */
  lemma EntersByLog(s: Shared, log: seq<Mark>, name: string, now: int)
    requires SharedOk(s, log)
    ensures Flying(log, name) ==> name in s.calls && Enters(s, name, now) == Joins(s.calls[name])
    ensures !Flying(log, name) && RetryAt(log, name).Some? && now < RetryAt(log, name).value ==>
      LastReason(log, name).Some? && Enters(s, name, now) == BacksOff(LastReason(log, name).value)
    ensures !Flying(log, name) && (RetryAt(log, name) == None || RetryAt(log, name).value <= now) ==>
      Enters(s, name, now) == Leads(s.nextCall)
  {
    RetryAfterFailure(log, name);
  }

  lemma Appended(log: seq<Mark>, m: Mark)
    ensures (log + [m])[..|log + [m]| - 1] == log
  {
  }

  lemma EnterKeeps(s: Shared, log: seq<Mark>, name: string, now: int)
    requires SharedOk(s, log) && LogOk(log) && Enters(s, name, now).Leads?
    ensures SharedOk(AfterEnter(s, name, now), log + [Began(name, now)]) && LogOk(log + [Began(name, now)])
  {
    Appended(log, Began(name, now));
    RetryAfterFailure(log, name);
    assert MarkOk(log, Began(name, now));
    var longer := log + [Began(name, now)];
    forall n: string
      ensures Streak(longer, n) == Streak(log, n) && RetryAt(longer, n) == RetryAt(log, n)
      ensures LastReason(longer, n) == LastReason(log, n)
      ensures Flying(longer, n) <==> n == name || Flying(log, n)
    {
    }
  }

  /** The end of a resolution of one worktree changes nothing about the others. */
  lemma EndedElsewhere(log: seq<Mark>, name: string, r: Result, now: int, n: string)
    requires n != name
    ensures var longer := log + [Ended(name, r, now)];
      && Streak(longer, n) == Streak(log, n) && RetryAt(longer, n) == RetryAt(log, n)
      && LastReason(longer, n) == LastReason(log, n) && (Flying(longer, n) <==> Flying(log, n))
  {
    Appended(log, Ended(name, r, now));
  }

  lemma EndedHere(log: seq<Mark>, name: string, r: Result, now: int)
    ensures var longer := log + [Ended(name, r, now)];
      && !Flying(longer, name)
      && if r.Unavailable? then
           && Streak(longer, name) == Streak(log, name) + 1 && LastReason(longer, name) == Some(r.reason)
           && RetryAt(longer, name) == Some(now + Delay(Streak(log, name) + 1))
         else Streak(longer, name) == 0 && RetryAt(longer, name) == None && LastReason(longer, name) == None
  {
    Appended(log, Ended(name, r, now));
  }

  lemma RecordShares(s: Shared, log: seq<Mark>, name: string, r: Result, now: int)
    requires SharedOk(s, log)
    ensures SharedOk(AfterRecord(s, name, r, now), log + [Ended(name, r, now)])
  {
    EndedHere(log, name, r, now);
    forall n: string | n != name
      ensures var longer := log + [Ended(name, r, now)];
        && Streak(longer, n) == Streak(log, n) && RetryAt(longer, n) == RetryAt(log, n)
        && LastReason(longer, n) == LastReason(log, n) && (Flying(longer, n) <==> Flying(log, n))
    {
      EndedElsewhere(log, name, r, now, n);
    }
    hide Streak, RetryAt, LastReason, Flying;
  }

  lemma RecordKeeps(s: Shared, log: seq<Mark>, name: string, r: Result, now: int)
    requires SharedOk(s, log) && LogOk(log) && name in s.calls
    ensures SharedOk(AfterRecord(s, name, r, now), log + [Ended(name, r, now)]) && LogOk(log + [Ended(name, r, now)])
  {
    RecordShares(s, log, name, r, now);
    Appended(log, Ended(name, r, now));
    assert MarkOk(log, Ended(name, r, now));
    hide AfterRecord, Streak, RetryAt, LastReason, Flying;
  }
}
