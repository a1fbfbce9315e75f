/** Waiting for a manual payment to settle: a poll with no timeout, whose only outcomes are the
    backend's. */
module Settlement {
  import opened Common

  datatype State = AwaitingPayment | PaymentUnknown | PaymentFailed | Cancelled | Expired | Escalated | Other

  datatype AttemptState = AttemptFailed | AttemptExpired | AttemptEscalated | AttemptOther

  datatype View = View(order: Option<nat>, state: State, attempt: Option<AttemptState>)

  /** What a request came to. `Transient` is an unreachable backend, a 429 or a 5xx; `Definite`
      is any other failure, and the abort of the wait. */
  datatype Reply<T> = Got(value: T) | Transient | Definite

  /** One turn of the loop: what the read came to, what a reconciliation would come to, and the
      clock when one is considered, when it has succeeded, and when slowness is considered. */
  datatype Poll = Poll(view: Reply<View>, reconciled: Reply<()>, considered: nat, done: nat, checked: nat)

  datatype Result = Waiting | Confirmed(order: nat) | Review | Failed(state: State) | Thrown

  const POLL_MS := 1500
  const SLOW_MS := 40_000
  const RETRY_CAP_MS := 10_000
  const RECONCILE_MS := 15_000

  predicate IsEscalated(v: View) {
    v.order.None? && (v.state.Escalated? || v.attempt == Some(AttemptEscalated))
  }

  /** States the backend itself calls finished. */
  predicate IsFailed(v: View) {
    v.state in {PaymentFailed, Cancelled, Expired} || v.attempt in {Some(AttemptFailed), Some(AttemptExpired)}
  }

  // ---------------------------------------------------------------- what a trace of polls means

  predicate MayReconcile(p: Poll) {
    p.view.Got? && p.view.value.order.None? && !IsEscalated(p.view.value)
    && p.view.value.state in {AwaitingPayment, PaymentUnknown}
  }

  /** When the last reconciliation of the first `k` polls succeeded. */
  function LastSuccess(trace: seq<Poll>, k: nat): Option<nat>
    requires k <= |trace|
    decreases k, 0
  {
    if k == 0 then None
    else if Asked(trace, k - 1) && trace[k - 1].reconciled.Got? then Some(trace[k - 1].done)
    else LastSuccess(trace, k - 1)
  }

  /** Poll `k` reconciles: it may, and the last success is fifteen seconds ago. */
  predicate Asked(trace: seq<Poll>, k: nat)
    requires k < |trace|
    decreases k, 1
  {
    MayReconcile(trace[k])
    && (LastSuccess(trace, k).None? || trace[k].considered >= LastSuccess(trace, k).value + RECONCILE_MS)
  }

  /** A poll came to nothing for a reason that passes; `due` is whether it reconciles. */
  predicate Faults(p: Poll, due: bool) {
    p.view.Transient? || (due && MayReconcile(p) && p.reconciled.Transient?)
  }

  /** How a poll ends the wait, if it does. */
  function EndOf(p: Poll, due: bool): Option<Result> {
    match p.view
    case Transient => None
    case Definite => Some(Thrown)
    case Got(v) =>
      if IsEscalated(v) then Some(Review)
      else if due && MayReconcile(p) && p.reconciled.Definite? then Some(Thrown)
      else if due && MayReconcile(p) && p.reconciled.Transient? then None
      else if v.order.Some? then Some(Confirmed(v.order.value))
      else if IsFailed(v) then Some(Failed(v.state))
      else None
  }

  predicate Faulty(trace: seq<Poll>, k: nat, reconcile: bool)
    requires k < |trace|
  {
    Faults(trace[k], reconcile && Asked(trace, k))
  }

  function Ends(trace: seq<Poll>, k: nat, reconcile: bool): Option<Result>
    requires k < |trace|
  {
    EndOf(trace[k], reconcile && Asked(trace, k))
  }

  /** How many polls just before `k` were faulty in a row. */
  function Streak(trace: seq<Poll>, k: nat, reconcile: bool): nat
    requires k <= |trace|
  {
    if k == 0 || !Faulty(trace, k - 1, reconcile) then 0 else Streak(trace, k - 1, reconcile) + 1
  }

  function Backoff(failures: nat): (d: nat)
    ensures POLL_MS <= d <= RETRY_CAP_MS
  {
    if failures == 0 then POLL_MS else Min(RETRY_CAP_MS, Backoff(failures - 1) * 2)
  }

  /** How long the wait sleeps after poll `k`. */
  function SleepAfter(trace: seq<Poll>, k: nat, reconcile: bool): (d: nat)
    requires k < |trace|
    ensures POLL_MS <= d <= RETRY_CAP_MS
  {
    if Faulty(trace, k, reconcile) then Backoff(Streak(trace, k, reconcile)) else POLL_MS
  }

  predicate IsSlow(trace: seq<Poll>, k: nat, start: nat, reconcile: bool)
    requires k < |trace|
  {
    !Faulty(trace, k, reconcile) && trace[k].checked >= start + SLOW_MS
  }

  // ---------------------------------------------------------------- what the wait reports

  /** The first `n` polls did not end the wait. */
  ghost predicate Undecided(trace: seq<Poll>, n: nat, reconcile: bool) {
    n <= |trace| && forall k :: 0 <= k < n ==> Ends(trace, k, reconcile).None?
  }

  /** Notices alternate, the first being a loss; an odd number leaves the connection lost. */
  ghost predicate Alternate(notices: seq<bool>) { forall i :: 0 <= i < |notices| ==> notices[i] == (i % 2 == 1) }

  ghost predicate SleptWell(trace: seq<Poll>, n: nat, reconcile: bool, sleeps: seq<nat>) {
    n == |sleeps| <= |trace| && forall k :: 0 <= k < n ==> sleeps[k] == SleepAfter(trace, k, reconcile)
  }

  /** Slowness is announced at the first slow poll of the first `n`, and only there. */
  ghost predicate AnnouncedOnce(trace: seq<Poll>, n: nat, start: nat, reconcile: bool, slow: Option<nat>) {
    && n <= |trace|
    && (slow.Some? ==> slow.value < n && IsSlow(trace, slow.value, start, reconcile))
    && (forall k :: 0 <= k < n && IsSlow(trace, k, start, reconcile) ==> slow.Some? && slow.value <= k)
  }

  /** The successful reconciliations of the first `n` polls, in order. */
  ghost predicate ReconciledAt(trace: seq<Poll>, n: nat, reconciled: seq<nat>) {
    && n <= |trace|
    && (forall i :: 0 <= i < |reconciled| ==> reconciled[i] < n)
    && (forall i, j :: 0 <= i < j < |reconciled| ==> reconciled[i] < reconciled[j])
    && (forall k :: 0 <= k < n ==> (k in reconciled <==> Asked(trace, k) && trace[k].reconciled.Got?))
  }

  /** Is the connection lost after the first `n` polls? */
  predicate Lost(trace: seq<Poll>, n: nat, reconcile: bool)
    requires n <= |trace|
  {
    n > 0 && Faulty(trace, n - 1, reconcile)
  }

  /** How often the connection came or went during the first `n` polls. */
  function Changes(trace: seq<Poll>, n: nat, reconcile: bool): nat
    requires n <= |trace|
  {
    if n == 0 then 0
    else Changes(trace, n - 1, reconcile)
         + (if Lost(trace, n - 1, reconcile) != Lost(trace, n, reconcile) then 1 else 0)
  }

  lemma {:induction false} ChangesParity(trace: seq<Poll>, n: nat, reconcile: bool)
    requires n <= |trace|
    ensures Changes(trace, n, reconcile) % 2 == 1 <==> Lost(trace, n, reconcile)
  {
    if n > 0 {
      ChangesParity(trace, n - 1, reconcile);
    }
  }

  function NextReconciliation(trace: seq<Poll>, n: nat, reconcile: bool): nat
    requires n <= |trace|
  {
    if reconcile && LastSuccess(trace, n).Some? then LastSuccess(trace, n).value + RECONCILE_MS else 0
  }

  lemma {:induction false} AlternateExtends(notices: seq<bool>, online: bool)
    requires Alternate(notices) && online == (|notices| % 2 == 1)
    ensures Alternate(notices + [online])
  {
  }

  lemma {:induction false} SleptMore(trace: seq<Poll>, n: nat, reconcile: bool, sleeps: seq<nat>)
    requires SleptWell(trace, n, reconcile, sleeps) && n < |trace|
    ensures SleptWell(trace, n + 1, reconcile, sleeps + [SleepAfter(trace, n, reconcile)])
  {
  }

  lemma {:induction false} AnnouncedMore(trace: seq<Poll>, n: nat, start: nat, reconcile: bool, slow: Option<nat>)
    requires AnnouncedOnce(trace, n, start, reconcile, slow) && n < |trace|
    ensures AnnouncedOnce(trace, n + 1, start, reconcile,
                          if slow.None? && IsSlow(trace, n, start, reconcile) then Some(n) else slow)
  {
  }

  lemma {:induction false} ReconciledMore(trace: seq<Poll>, n: nat, reconciled: seq<nat>)
    requires ReconciledAt(trace, n, reconciled) && n < |trace|
    ensures ReconciledAt(trace, n + 1, if Asked(trace, n) && trace[n].reconciled.Got? then reconciled + [n]
                         else reconciled)
  {
    var r := if Asked(trace, n) && trace[n].reconciled.Got? then reconciled + [n] else reconciled;
    assert n !in reconciled;
    forall k | 0 <= k < n + 1 ensures k in r <==> Asked(trace, k) && trace[k].reconciled.Got? {
      assert k in r <==> k in reconciled || (k == n && |r| > |reconciled|);
    }
  }

  // ---------------------------------------------------------------- the loop

  /** The body of the `try`: read, and reconcile if it is time. */
  method PollOnce(p: Poll, reconcile: bool, next: nat) returns (end: Option<Result>, fault: bool, succeeded: bool)
    ensures var due := reconcile && p.considered >= next;
            && fault == Faults(p, due) && succeeded == (due && MayReconcile(p) && p.reconciled.Got?)
            && end == EndOf(p, due)
  {
    end, fault, succeeded := None, false, false;
    if p.view.Transient? {
      fault := true;
      return;
    }
    if p.view.Definite? {
      end := Some(Thrown);
      return;
    }
    var view := p.view.value;
    if view.order.None? && (view.state.Escalated? || view.attempt == Some(AttemptEscalated)) {
      end := Some(Review);
      return;
    }
    if reconcile && view.order.None? && p.considered >= next && view.state in {AwaitingPayment, PaymentUnknown} {
      if p.reconciled.Definite? {
        end := Some(Thrown);
        return;
      }
      if p.reconciled.Transient? {
        fault := true;
        return;
      }
      succeeded := true;
    }
    if view.order.Some? {
      end := Some(Confirmed(view.order.value));
    } else if IsFailed(view) {
      end := Some(Failed(view.state));
    }
  }

  /** The loop's variables, and what it has reported, after `n` polls. */
  datatype Progress = Progress(disconnected: bool, retryDelay: nat, nextReconciliation: nat, notices: seq<bool>,
                               slow: Option<nat>, sleeps: seq<nat>, reconciled: seq<nat>)

  ghost predicate After(trace: seq<Poll>, n: nat, start: nat, reconcile: bool, p: Progress) {
    && Undecided(trace, n, reconcile)
    && Alternate(p.notices) && |p.notices| == Changes(trace, n, reconcile)
    && p.disconnected == Lost(trace, n, reconcile) && p.retryDelay == Backoff(Streak(trace, n, reconcile))
    && p.nextReconciliation == NextReconciliation(trace, n, reconcile)
    && SleptWell(trace, n, reconcile, p.sleeps) && AnnouncedOnce(trace, n, start, reconcile, p.slow)
    && (if reconcile then ReconciledAt(trace, n, p.reconciled) else p.reconciled == [])
  }

  /** What the clock and the variables say is what the trace says. */
  lemma {:induction false} DueIsAsked(trace: seq<Poll>, n: nat, reconcile: bool)
    requires n < |trace|
    ensures var due := reconcile && trace[n].considered >= NextReconciliation(trace, n, reconcile);
            && Faults(trace[n], due) == Faulty(trace, n, reconcile) && EndOf(trace[n], due) == Ends(trace, n, reconcile)
            && (due && MayReconcile(trace[n]) <==> reconcile && Asked(trace, n))
  {
  }

  /** How the loop's variables follow the trace. */
  lemma {:induction false} NextVariables(trace: seq<Poll>, n: nat, reconcile: bool)
    requires n < |trace|
    ensures var fault, was := Faulty(trace, n, reconcile), Lost(trace, n, reconcile);
            && Lost(trace, n + 1, reconcile) == fault
            && Changes(trace, n + 1, reconcile) == Changes(trace, n, reconcile) + (if fault == was then 0 else 1)
            && Backoff(Streak(trace, n + 1, reconcile)) ==
                 (if fault then Min(RETRY_CAP_MS, Backoff(Streak(trace, n, reconcile)) * 2) else POLL_MS)
            && SleepAfter(trace, n, reconcile) == (if fault then Backoff(Streak(trace, n, reconcile)) else POLL_MS)
            && NextReconciliation(trace, n + 1, reconcile) ==
                 if reconcile && Asked(trace, n) && trace[n].reconciled.Got? then trace[n].done + RECONCILE_MS
                 else NextReconciliation(trace, n, reconcile)
  {
  }

  lemma {:induction false} NextNotices(trace: seq<Poll>, n: nat, reconcile: bool, notices: seq<bool>)
    requires n < |trace| && Alternate(notices) && |notices| == Changes(trace, n, reconcile)
    ensures var fault := Faulty(trace, n, reconcile);
            var more := if fault == Lost(trace, n, reconcile) then notices else notices + [!fault];
            Alternate(more) && |more| == Changes(trace, n + 1, reconcile)
  {
    NextVariables(trace, n, reconcile);
    ChangesParity(trace, n, reconcile);
    if Faulty(trace, n, reconcile) != Lost(trace, n, reconcile) {
      AlternateExtends(notices, !Faulty(trace, n, reconcile));
    }
  }

  /** The connection after a poll: a notice only if it changed. */
  function Noticed(p: Progress, fault: bool): Progress {
    p.(disconnected := fault, notices := if fault == p.disconnected then p.notices else p.notices + [!fault],
       retryDelay := if fault then Min(RETRY_CAP_MS, p.retryDelay * 2) else POLL_MS)
  }

  function Reconciled(p: Progress, n: nat, succeeded: bool, done: nat): Progress {
    if succeeded then p.(nextReconciliation := done + RECONCILE_MS, reconciled := p.reconciled + [n]) else p
  }

  function Slept(p: Progress, n: nat, fault: bool, late: bool): Progress {
    p.(sleeps := p.sleeps + [if fault then p.retryDelay else POLL_MS],
       slow := if p.slow.None? && !fault && late then Some(n) else p.slow)
  }

  /** A poll that did not end the wait leads to the next turn. */
  lemma {:induction false} NextTurn(trace: seq<Poll>, n: nat, start: nat, reconcile: bool, p: Progress)
    requires n < |trace| && After(trace, n, start, reconcile, p) && Ends(trace, n, reconcile).None?
    ensures var fault := Faulty(trace, n, reconcile);
            var succeeded := reconcile && Asked(trace, n) && trace[n].reconciled.Got?;
            After(trace, n + 1, start, reconcile,
                  Noticed(Slept(Reconciled(p, n, succeeded, trace[n].done), n, fault,
                                trace[n].checked >= start + SLOW_MS),
                          fault))
  {
    NextVariables(trace, n, reconcile);
    NextNotices(trace, n, reconcile, p.notices);
    SleptMore(trace, n, reconcile, p.sleeps);
    AnnouncedMore(trace, n, start, reconcile, p.slow);
    if reconcile {
      ReconciledMore(trace, n, p.reconciled);
    }
  }

  /** What has been reported when the wait is over, or the trace is. */
  ghost predicate Reported(trace: seq<Poll>, start: nat, reconcile: bool, result: Result, used: nat, p: Progress) {
    && Undecided(trace, |p.sleeps|, reconcile)
    && (if result.Waiting? then used == |p.sleeps| == |trace|
        else used == |p.sleeps| + 1 <= |trace| && Ends(trace, |p.sleeps|, reconcile) == Some(result))
    && Alternate(p.notices)
    && |p.notices| == Changes(trace, |p.sleeps|, reconcile)
                      + (if (result.Confirmed? || result.Failed?) && Lost(trace, |p.sleeps|, reconcile) then 1 else 0)
    && SleptWell(trace, |p.sleeps|, reconcile, p.sleeps) && AnnouncedOnce(trace, |p.sleeps|, start, reconcile, p.slow)
    && (if reconcile then ReconciledAt(trace, used, p.reconciled) else p.reconciled == [])
  }

  /** A poll that ends the wait: escalation and other failures leave at once, the rest first
      report that the connection is back. */
  lemma {:induction false} LastTurn(trace: seq<Poll>, n: nat, start: nat, reconcile: bool, p: Progress, result: Result)
    requires n < |trace| && After(trace, n, start, reconcile, p) && Ends(trace, n, reconcile) == Some(result)
    ensures var succeeded := reconcile && Asked(trace, n) && trace[n].reconciled.Got?;
            var q := Reconciled(p, n, succeeded, trace[n].done);
            Reported(trace, start, reconcile, result, n + 1,
                     if result.Confirmed? || result.Failed? then Noticed(q, false) else q)
  {
    if reconcile {
      ReconciledMore(trace, n, p.reconciled);
    }
    ChangesParity(trace, n, reconcile);
    OrderConfirms(trace[n], reconcile && Asked(trace, n));
    if p.disconnected {
      AlternateExtends(p.notices, true);
    }
  }

  /** `onConnectionChange`, if the connection did change, and the next delay. */
  method NoteConnection(now: Progress, fault: bool) returns (next: Progress)
    ensures next == Noticed(now, fault)
  {
    next := now;
    if fault {
      if !next.disconnected {
        next := next.(notices := next.notices + [false]);
      }
      next := next.(disconnected := true, retryDelay := Min(RETRY_CAP_MS, next.retryDelay * 2));
    } else {
      if next.disconnected {
        next := next.(notices := next.notices + [true]);
      }
      next := next.(disconnected := false, retryDelay := POLL_MS);
    }
  }

  /** `onSlow`, if it is late and was never said, and the pause before the next poll. */
  method Sleep(now: Progress, n: nat, fault: bool, late: bool) returns (next: Progress)
    ensures next == Slept(now, n, fault, late)
  {
    next := now;
    if !fault && next.slow.None? && late {
      next := next.(slow := Some(n));
    }
    next := next.(sleeps := next.sleeps + [if fault then next.retryDelay else POLL_MS]);
  }

  /** `awaitSettlement` over a trace of polls, of which `used` were made. */
  method AwaitSettlement(trace: seq<Poll>, start: nat, reconcile: bool)
    returns (result: Result, used: nat, report: Progress)
    ensures Reported(trace, start, reconcile, result, used, report)
  {
    result, used, report := Waiting, 0, Progress(false, POLL_MS, 0, [], None, [], []);
    while used < |trace|
      invariant result.Waiting? && After(trace, used, start, reconcile, report)
      decreases |trace| - used
    {
      var p := trace[used];
      DueIsAsked(trace, used, reconcile);
      var end, fault, succeeded := PollOnce(p, reconcile, report.nextReconciliation);
      if end.None? {
        NextTurn(trace, used, start, reconcile, report);
      } else {
        LastTurn(trace, used, start, reconcile, report, end.value);
      }
      if succeeded {
        report := report.(nextReconciliation := p.done + RECONCILE_MS, reconciled := report.reconciled + [used]);
      }
      if end.Some? {
        if !end.value.Review? && !end.value.Thrown? {
          report := NoteConnection(report, false);
        }
        result, used := end.value, used + 1;
        return;
      }
      report := Sleep(report, used, fault, p.checked >= start + SLOW_MS);
      report := NoteConnection(report, fault);
      used := used + 1;
    }
  }

  // ---------------------------------------------------------------- what that promises

  /** How a poll ends the wait: an order confirms, whatever else the view says, and nothing else confirms;
      without an order, review is for escalation and failure for a state the backend calls
      finished; a fault that passes decides nothing. */
  lemma {:induction false} OrderConfirms(p: Poll, due: bool)
    ensures (exists o :: EndOf(p, due) == Some(Confirmed(o))) <==> p.view.Got? && p.view.value.order.Some?
    ensures p.view.Got? && p.view.value.order.Some? ==> EndOf(p, due) == Some(Confirmed(p.view.value.order.value))
    ensures EndOf(p, due) == Some(Review) <==> p.view.Got? && IsEscalated(p.view.value)
    ensures (exists f :: EndOf(p, due) == Some(Failed(f))) ==> p.view.value.order.None? && IsFailed(p.view.value)
    ensures Faults(p, due) ==> EndOf(p, due).None?
    ensures EndOf(p, due) != Some(Waiting)
  {
    if p.view.Got? && p.view.value.order.Some? {
      assert EndOf(p, due) == Some(Confirmed(p.view.value.order.value));
    }
  }

  /** What one poll comes to, in the fields of what it read. A view with an order confirms; without
      one an escalated state or attempt is for the merchant; a state the backend calls finished,
      of the checkout or of its attempt, is a failure; anything else goes on. The reconciliation in
      between, of a checkout that awaits payment or does not know, can fault or throw. */
  lemma {:induction false} PollIsTable(p: Poll, due: bool)
    ensures p.view.Transient? ==> EndOf(p, due).None? && Faults(p, due)
    ensures p.view.Definite? ==> EndOf(p, due) == Some(Thrown) && !Faults(p, due)
    ensures p.view.Got? ==>
              var v := p.view.value;
              var escalated := v.state == Escalated || v.attempt == Some(AttemptEscalated);
              var reconciles := due && v.order.None? && !escalated
                                && (v.state == AwaitingPayment || v.state == PaymentUnknown);
              var failed := v.state == PaymentFailed || v.state == Cancelled || v.state == Expired
                            || v.attempt == Some(AttemptFailed) || v.attempt == Some(AttemptExpired);
              && (Faults(p, due) <==> reconciles && p.reconciled.Transient?)
              && EndOf(p, due) == (if v.order.Some? then Some(Confirmed(v.order.value))
                                   else if escalated then Some(Review)
                                   else if reconciles && p.reconciled.Definite? then Some(Thrown)
                                   else if failed && !(reconciles && p.reconciled.Transient?) then Some(Failed(v.state))
                                   else None)
  {
  }

  /** When a poll reconciles: the checkout awaits payment or does not know, it has no order and is not
      escalated, and fifteen seconds went by since the last reconciliation that succeeded. */
  lemma {:induction false} AskedIff(trace: seq<Poll>, k: nat)
    requires k < |trace|
    ensures Asked(trace, k) <==>
              && trace[k].view.Got? && trace[k].view.value.order.None?
              && trace[k].view.value.state in {AwaitingPayment, PaymentUnknown}
              && trace[k].view.value.attempt != Some(AttemptEscalated)
              && forall j :: 0 <= j < k && Succeeded(trace, j) && (forall i :: j < i < k ==> !Succeeded(trace, i)) ==>
                   trace[k].considered >= trace[j].done + 15_000
  {
    LastSuccessIs(trace, k);
  }

  ghost predicate Succeeded(trace: seq<Poll>, j: nat)
    requires j < |trace|
  {
    Asked(trace, j) && trace[j].reconciled.Got?
  }

  ghost predicate IsLastSuccess(trace: seq<Poll>, j: nat, k: nat)
    requires k <= |trace|
  {
    j < k && Succeeded(trace, j) && forall i :: j < i < k ==> !Succeeded(trace, i)
  }

  lemma {:induction false} LastSuccessIs(trace: seq<Poll>, k: nat)
    requires k <= |trace|
    ensures match LastSuccess(trace, k)
            case None => forall j :: 0 <= j < k ==> !Succeeded(trace, j)
            case Some(done) => exists j: nat :: IsLastSuccess(trace, j, k) && done == trace[j].done
  {
    if k > 0 {
      if Succeeded(trace, k - 1) {
        assert IsLastSuccess(trace, k - 1, k);
      } else {
        LastSuccessIs(trace, k - 1);
        if LastSuccess(trace, k - 1).Some? {
          var j: nat :| IsLastSuccess(trace, j, k - 1) && LastSuccess(trace, k - 1).value == trace[j].done;
          assert IsLastSuccess(trace, j, k);
        }
      }
    }
  }

  /** The sleep after a poll, and when slowness is announced: 1.5 seconds after a poll that did not
      fault, the delay of the table after one that did, by the faults just before it; and slow is a
      poll that did not fault forty seconds after the wait began. */
  lemma {:induction false} SleepsAndSlowness(trace: seq<Poll>, k: nat, start: nat, reconcile: bool, n: nat)
    requires k < |trace| && n <= k && (forall i :: k - n <= i < k ==> Faulty(trace, i, reconcile))
    requires n < k ==> !Faulty(trace, k - n - 1, reconcile)
    ensures SleepAfter(trace, k, reconcile) == if Faulty(trace, k, reconcile) then Backoff(n) else 1500
    ensures IsSlow(trace, k, start, reconcile) <==> !Faulty(trace, k, reconcile) && trace[k].checked >= start + 40_000
  {
    StreakIs(trace, k, reconcile, n);
  }

  lemma {:induction false} StreakIs(trace: seq<Poll>, k: nat, reconcile: bool, n: nat)
    requires n <= k <= |trace| && (forall i :: k - n <= i < k ==> Faulty(trace, i, reconcile))
    requires n < k ==> !Faulty(trace, k - n - 1, reconcile)
    ensures Streak(trace, k, reconcile) == n
  {
    if n > 0 {
      StreakIs(trace, k - 1, reconcile, n - 1);
    }
  }

  lemma {:induction false} OrderEnds(trace: seq<Poll>, reconcile: bool, k: nat)
    requires k < |trace| && trace[k].view.Got? && trace[k].view.value.order.Some?
    ensures Ends(trace, k, reconcile) == Some(Confirmed(trace[k].view.value.order.value))
  {
    OrderConfirms(trace[k], reconcile && Asked(trace, k));
  }

  /** The first view with an order is where a wait that reaches it ends, and confirmed is how. */
  lemma {:induction false} FirstOrderEndsTheWait(trace: seq<Poll>, reconcile: bool, n: nat, result: Result, k: nat)
    requires Undecided(trace, n, reconcile) && n < |trace| && Ends(trace, n, reconcile) == Some(result)
    requires k <= n && trace[k].view.Got? && trace[k].view.value.order.Some?
    ensures k == n && result == Confirmed(trace[k].view.value.order.value)
  {
    OrderEnds(trace, reconcile, k);
  }

  /** The clock never runs backwards over the trace. */
  ghost predicate Monotone(trace: seq<Poll>) {
    && (forall k :: 0 <= k < |trace| ==> trace[k].considered <= trace[k].done <= trace[k].checked)
    && (forall k, l :: 0 <= k < l < |trace| ==> trace[k].checked <= trace[l].considered)
  }

  lemma {:induction false} LastSuccessIsLater(trace: seq<Poll>, n: nat, k: nat)
    requires Monotone(trace) && k < n <= |trace| && Asked(trace, k) && trace[k].reconciled.Got?
    ensures LastSuccess(trace, n).Some? && LastSuccess(trace, n).value >= trace[k].done
  {
    if Asked(trace, n - 1) && trace[n - 1].reconciled.Got? {
      if k < n - 1 {
        assert trace[k].checked <= trace[n - 1].considered;
      }
    } else {
      LastSuccessIsLater(trace, n - 1, k);
    }
  }

  /** Successful reconciliations are at least fifteen seconds apart. */
  lemma {:induction false} ReconciliationsAreApart(trace: seq<Poll>, n: nat, reconciled: seq<nat>, i: nat, j: nat)
    requires Monotone(trace) && ReconciledAt(trace, n, reconciled) && i < j < |reconciled|
    ensures trace[reconciled[j]].considered >= trace[reconciled[i]].done + 15_000
  {
    assert reconciled[i] in reconciled && reconciled[j] in reconciled;
    LastSuccessIsLater(trace, reconciled[j], reconciled[i]);
  }

  /** The retry delay doubles from 1.5 seconds to ten. */
  lemma BackoffTable()
    ensures Backoff(0) == 1500 && Backoff(1) == 3000 && Backoff(2) == 6000
    ensures forall n :: n >= 3 ==> Backoff(n) == 10_000
  {
    assert Backoff(0) == 1500 && Backoff(1) == 3000 && Backoff(2) == 6000;
    forall n | n >= 3 ensures Backoff(n) == 10_000 {
      BackoffCaps(n);
    }
  }

  lemma {:induction false} BackoffCaps(n: nat)
    requires n >= 3
    ensures Backoff(n) == 10_000
  {
    if n == 3 {
      assert Backoff(2) == 6000 by {
        assert Backoff(1) == 3000;
      }
    } else {
      BackoffCaps(n - 1);
    }
  }
}
