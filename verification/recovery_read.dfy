/** A read retried every five seconds until it succeeds or is cancelled. */
module RecoveryRead {
  import opened Runs

  /** The closure's variables, and a history: reads started and callbacks made. */
  datatype Loop = Loop(inFlight: bool, timer: bool, complete: bool, aborted: bool,
                       started: nat, successes: nat, errors: nat)

  /** The read settles, the timer fires, or the caller cancels. A caller may cancel from inside
      `onError`, and `onError` may throw. */
  datatype Event =
    | Resolves
    | Rejects(cancels: bool, throws: bool)
    | TimerFires
    | Cancel

  const STARTED := Loop(true, false, false, false, 1, 0, 0)

  function CancelNow(s: Loop): Loop { s.(aborted := true, timer := false) }

  function Next(s: Loop, e: Event): Loop {
    match e
    case Resolves =>
      if !s.inFlight then s
      else if s.aborted || s.complete then s.(inFlight := false)
      else s.(inFlight := false, complete := true, successes := s.successes + 1)
    case Rejects(cancels, throws) =>
      if !s.inFlight then s
      else if s.aborted then s.(inFlight := false)
      else
        var told := s.(inFlight := false, errors := s.errors + 1);
        var after := if cancels then CancelNow(told) else told;
        if throws then after else after.(timer := true)
    case TimerFires => if !s.timer then s else s.(timer := false, inFlight := true, started := s.started + 1)
    case Cancel => CancelNow(s)
  }

  function RunAll(s: Loop, events: seq<Event>): Loop { RunOf(Next, s, events) }

  ghost predicate Inv(s: Loop) {
    && !(s.inFlight && s.timer)
    && (s.complete ==> !s.inFlight && !s.timer)
    && s.successes == (if s.complete then 1 else 0)
    && (!s.aborted ==> s.started == s.errors + s.successes + (if s.inFlight then 1 else 0))
  }

  /** Nothing is lost: while neither done nor cancelled, a read is in flight or the next is armed. */
  ghost predicate Alive(s: Loop) { s.complete || s.aborted || s.inFlight || s.timer }

  lemma {:induction false} RunKeepsInv(s: Loop, events: seq<Event>)
    requires Inv(s)
    ensures Inv(RunAll(s, events))
    decreases |events|
  {
    if events != [] {
      RunKeepsInv(s, events[..|events| - 1]);
    }
  }

  /** Over any run at most one read is in flight or one retry armed, never both, every settled
      read was reported once, and there is at most one success, after which nothing more starts. */
  lemma {:induction false} OneReadAtATime(events: seq<Event>)
    ensures var s := RunAll(STARTED, events);
            && !(s.inFlight && s.timer) && s.successes <= 1
            && (s.successes == 1 ==> !s.inFlight && !s.timer)
            && (!s.aborted ==> s.started == s.errors + s.successes + (if s.inFlight then 1 else 0))
  {
    RunKeepsInv(STARTED, events);
  }

  /** It keeps trying exactly as long as `onError` does not throw. */
  lemma {:induction false} KeepsTrying(events: seq<Event>)
    requires forall e <- events :: e.Rejects? ==> !e.throws
    ensures Alive(RunAll(STARTED, events))
    decreases |events|
  {
    if events != [] {
      assert events[|events| - 1] in events;
      assert forall e <- events[..|events| - 1] :: e in events;
      KeepsTrying(events[..|events| - 1]);
    }
  }

  /** As long as nobody cancels it is not aborted, from its start on: every value in flight is
      delivered, every error reported. */
  lemma {:induction false} NotAbortedByItself(events: seq<Event>)
    requires forall e <- events :: !e.Cancel? && (e.Rejects? ==> !e.cancels)
    ensures var s := RunAll(STARTED, events);
            && !s.aborted
            && (s.inFlight ==> Next(s, Resolves).successes == 1
                               && forall throws :: Next(s, Rejects(false, throws)).errors == s.errors + 1)
    decreases |events|
  {
    RunKeepsInv(STARTED, events);
    if events != [] {
      assert events[|events| - 1] in events;
      assert forall e <- events[..|events| - 1] :: e in events;
      NotAbortedByItself(events[..|events| - 1]);
    }
  }

  /** What a settled read comes to while nobody cancelled: a value is delivered, once and for
      good; an error is reported, and the next read starts when its timer fires. */
  lemma SettlingReports(s: Loop, cancels: bool, throws: bool)
    requires Inv(s) && s.inFlight && !s.aborted
    ensures var t := Next(s, Resolves);
            t.successes == 1 && t.complete && t.errors == s.errors && t.started == s.started && !t.aborted
    ensures var t := Next(s, Rejects(cancels, throws));
            && t.errors == s.errors + 1 && t.successes == s.successes && !t.inFlight && !t.complete
            && (t.aborted <==> cancels) && t.started == s.started
    ensures var t := Next(Next(s, Rejects(false, false)), TimerFires);
            t.inFlight && t.started == s.started + 1 && !t.timer && !t.aborted
  {
  }

  /** Nothing else starts a read or makes a callback: what is not in flight does not settle, and a
      timer that is not armed does not fire. */
  lemma NothingElseReports(s: Loop, e: Event)
    ensures (e.Resolves? || e.Rejects?) && !s.inFlight ==> Next(s, e) == s
    ensures e.TimerFires? && !s.timer ==> Next(s, e) == s
    ensures Next(s, Cancel) == s.(aborted := true, timer := false)
    ensures s.aborted && s.inFlight && (e.Resolves? || e.Rejects?) ==> Next(s, e) == s.(inFlight := false)
  {
  }

  lemma ThrowingOnErrorStopsIt(s: Loop, cancels: bool, throws: bool)
    requires Inv(s) && s.inFlight && !s.aborted
    ensures Alive(Next(s, Rejects(cancels, throws))) <==> !throws || cancels
  {
  }

  /** After a cancel, from wherever it came, no callback is ever made, and at most one more read
      starts. */
  lemma {:induction false} CancelIsQuiet(s: Loop, events: seq<Event>)
    requires Inv(s) && s.aborted
    ensures var t := RunAll(s, events);
            && t.aborted && t.successes == s.successes && t.errors == s.errors
            && t.started + (if t.timer then 1 else 0) <= s.started + (if s.timer then 1 else 0)
    decreases |events|
  {
    if events != [] {
      CancelIsQuiet(s, events[..|events| - 1]);
      RunKeepsInv(s, events[..|events| - 1]);
    }
  }

  /** That read starts exactly when the cancel came from inside `onError`: the retry is armed
      after it. A cancel from outside leaves nothing armed. */
  lemma {:induction false} CancelInsideOnErrorArms(s: Loop, throws: bool)
    requires Inv(s) && s.inFlight && !s.aborted
    ensures Next(s, Rejects(true, throws)).aborted
    ensures Next(s, Rejects(true, throws)).timer <==> !throws
    ensures Next(Next(s, Rejects(true, throws)), TimerFires).started == s.started + (if throws then 0 else 1)
    ensures !Next(s, Cancel).timer
  {
  }

  /** `retryRecoveryRead`: its closure. */
  class RetryingRead {
    var inFlight: bool
    var timer: bool
    var complete: bool
    var aborted: bool
    ghost var started: nat
    ghost var successes: nat
    ghost var errors: nat

    ghost function State(): Loop
      reads this
    {
      Loop(inFlight, timer, complete, aborted, started, successes, errors)
    }

    constructor ()
      ensures State() == STARTED
    {
      inFlight, timer, complete, aborted := true, false, false, false;
      started, successes, errors := 1, 0, 0;
    }

    method CancelRead()
      modifies this
      ensures State() == Next(old(State()), Cancel)
    {
      aborted := true;
      timer := false;
    }

    method ReadResolved()
      requires inFlight
      modifies this
      ensures State() == Next(old(State()), Resolves)
    {
      inFlight := false;
      if aborted || complete {
        return;
      }
      complete := true;
      successes := successes + 1;
    }

    /** `cancels` and `throws` are what the caller's `onError` does. */
    method ReadRejected(cancels: bool, throws: bool)
      requires inFlight
      modifies this
      ensures State() == Next(old(State()), Rejects(cancels, throws))
    {
      inFlight := false;
      if aborted {
        return;
      }
      errors := errors + 1;
      if cancels {
        CancelRead();
      }
      if throws {
        return;
      }
      timer := true;
    }

    method TimerFired()
      requires timer
      modifies this
      ensures State() == Next(old(State()), TimerFires)
    {
      timer := false;
      inFlight, started := true, started + 1;
    }
  }
}
