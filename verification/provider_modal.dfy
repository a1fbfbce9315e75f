/** Opening the payment provider's modal: one live checkout, one outcome for each open, and the
    surfaces the provider leaves in the document. */
module ProviderModal {
  import opened Common
  import opened Runs

  datatype Outcome = Reported(payment: nat) | Dismissed | Failed(code: nat)

  datatype Result = Pending | Resolved(outcome: Outcome) | Rejected

  /** One provider instance with its promise; `fired` is a history of every outcome reported. */
  datatype Modal = Modal(order: nat, settled: bool, result: Result, escapeArmed: bool, button: bool, windowArmed: bool,
                         fired: seq<Outcome>)

  datatype Active = Active(order: nat, modal: nat)

  /** What a call to open got: its own modal, another call's, or an error. */
  datatype Got = Own(modal: nat) | Shared(modal: nat) | Refused

  datatype Call = Call(order: nat, got: Got)

  /** The module's variable, the provider's containers in document order (is each one
      interactive?), and a history of modals and calls. */
  datatype Page = Page(active: Option<Active>, containers: seq<bool>, modals: seq<Modal>, calls: seq<Call>)

  datatype Remaining = Unlimited | Left | Gone

  /** How the provider's own `open` behaves: it may build a container, report an outcome before
      it returns, or throw. */
  datatype Provider = Provider(creates: bool, during: Option<Outcome>, throws: bool)

  datatype Event =
    | Open(order: nat, remaining: Remaining, provider: Provider)
    | Fires(modal: nat, outcome: Outcome)
    | EscapeTimer(modal: nat)
    | PressReturn(modal: nat)
    | WindowTimer(modal: nat)
    | Finally(modal: nat)

  const EMPTY := Page(None, [], [], [])

  function All(interactive: bool, n: nat): seq<bool> { seq(n, _ => interactive) }

  /** `keepOneInteractiveSurface`: every container but the last is put out of the way. */
  function KeepOne(containers: seq<bool>): seq<bool> {
    if containers == [] then [] else All(false, |containers| - 1) + [containers[|containers| - 1]]
  }

  /** The first outcome wins; cleaning up stops the timers and removes the button. */
  function Settle(m: Modal, outcome: Outcome): Modal {
    var m := m.(fired := m.fired + [outcome]);
    if m.settled then m
    else m.(settled := true, escapeArmed := false, button := false, windowArmed := false,
            result := if m.result.Pending? then Resolved(outcome) else m.result)
  }

  /** A fresh instance after its `open` was asked for. */
  function Started(order: nat, remaining: Remaining, provider: Provider): Modal {
    var made := Modal(order, false, Pending, false, false, false, []);
    if remaining.Gone? then Settle(made, Dismissed)
    else
      var m := if provider.during.Some? then Settle(made, provider.during.value) else made;
      if provider.throws then m.(result := if m.result.Pending? then Rejected else m.result)
      else m.(windowArmed := remaining.Left?, escapeArmed := !m.settled)
  }

  function Surfaces(containers: seq<bool>, remaining: Remaining, provider: Provider): seq<bool> {
    if remaining.Gone? then containers
    else
      var shown := if provider.creates then containers + [true] else containers;
      if provider.throws then shown else KeepOne(shown)
  }

  /** After the script has loaded: every neutralised surface is restored first. */
  function OpenNext(s: Page, order: nat, remaining: Remaining, provider: Provider): Page {
    var s := s.(containers := All(true, |s.containers|));
    if s.active.Some? then
      var got := if s.active.value.order == order then Shared(s.active.value.modal) else Refused;
      s.(calls := s.calls + [Call(order, got)])
    else
      Page(Some(Active(order, |s.modals|)), Surfaces(s.containers, remaining, provider),
           s.modals + [Started(order, remaining, provider)], s.calls + [Call(order, Own(|s.modals|))])
  }

  /** The buyer, or the deadline, leaves: the modal is dismissed and every surface put away. */
  function Leave(s: Page, m: nat): Page
    requires m < |s.modals|
  {
    s.(modals := s.modals[m := Settle(s.modals[m], Dismissed)], containers := All(false, |s.containers|))
  }

  function Next(s: Page, e: Event): Page {
    match e
    case Open(order, remaining, provider) => OpenNext(s, order, remaining, provider)
    case Fires(m, outcome) =>
      if m >= |s.modals| then s else s.(modals := s.modals[m := Settle(s.modals[m], outcome)])
    case EscapeTimer(m) =>
      if m >= |s.modals| || !s.modals[m].escapeArmed then s
      else s.(modals := s.modals[m := s.modals[m].(escapeArmed := false, button := true)])
    case PressReturn(m) => if m >= |s.modals| || !s.modals[m].button then s else Leave(s, m)
    case WindowTimer(m) =>
      if m >= |s.modals| || !s.modals[m].windowArmed then s
      else Leave(s.(modals := s.modals[m := s.modals[m].(windowArmed := false)]), m)
    case Finally(m) =>
      if m >= |s.modals| || s.modals[m].result.Pending? || s.active.None? || s.active.value.modal != m then s
      else s.(active := None)
  }

  function RunAll(s: Page, events: seq<Event>): Page { RunOf(Next, s, events) }

  // ---------------------------------------------------------------- invariants

  ghost predicate ModalOk(m: Modal) {
    && (m.settled ==> !m.result.Pending?)
    && (!m.settled ==> m.fired == [] && !m.result.Resolved?)
    && (m.result.Resolved? ==> m.fired != [] && m.result.outcome == m.fired[0])
    && (m.escapeArmed || m.button ==> m.result.Pending?)
  }

  ghost predicate Inv(s: Page) {
    && (forall i :: 0 <= i < |s.modals| ==> ModalOk(s.modals[i]))
    && (s.active.Some? ==>
          s.active.value.modal < |s.modals| && s.modals[s.active.value.modal].order == s.active.value.order)
    && (forall i :: 0 <= i < |s.modals| && s.modals[i].result.Pending? ==> s.active.Some? && s.active.value.modal == i)
    && (forall c <- s.calls :: !c.got.Refused? ==> c.got.modal < |s.modals| && s.modals[c.got.modal].order == c.order)
  }

  lemma {:induction false} SettleKeepsOk(m: Modal, outcome: Outcome)
    requires ModalOk(m)
    ensures ModalOk(Settle(m, outcome)) && !Settle(m, outcome).result.Pending? && Settle(m, outcome).order == m.order
    ensures !m.result.Pending? ==> Settle(m, outcome).result == m.result
    ensures m.result.Pending? ==> Settle(m, outcome).result == Resolved(outcome)
  {
  }

  lemma {:induction false} StartedIsOk(order: nat, remaining: Remaining, provider: Provider)
    ensures ModalOk(Started(order, remaining, provider)) && Started(order, remaining, provider).order == order
  {
  }

  /** Replacing a modal by a later state of it. */
  lemma {:induction false} UpdateKeepsInv(s: Page, i: nat, m: Modal, containers: seq<bool>)
    requires Inv(s) && i < |s.modals| && ModalOk(m) && m.order == s.modals[i].order
    requires m.result.Pending? ==> s.modals[i].result.Pending?
    ensures Inv(s.(modals := s.modals[i := m], containers := containers))
  {
  }

  lemma {:induction false} NextKeepsInv(s: Page, e: Event)
    requires Inv(s)
    ensures Inv(Next(s, e))
  {
    match e
    case Open(order, remaining, provider) => StartedIsOk(order, remaining, provider);
    case Fires(m, outcome) =>
      if m < |s.modals| {
        SettleKeepsOk(s.modals[m], outcome);
        UpdateKeepsInv(s, m, Settle(s.modals[m], outcome), s.containers);
      }
    case EscapeTimer(m) =>
      if m < |s.modals| && s.modals[m].escapeArmed {
        UpdateKeepsInv(s, m, s.modals[m].(escapeArmed := false, button := true), s.containers);
      }
    case PressReturn(m) =>
      if m < |s.modals| && s.modals[m].button {
        SettleKeepsOk(s.modals[m], Dismissed);
        UpdateKeepsInv(s, m, Settle(s.modals[m], Dismissed), All(false, |s.containers|));
      }
    case WindowTimer(m) =>
      if m < |s.modals| && s.modals[m].windowArmed {
        var left := s.modals[m].(windowArmed := false);
        SettleKeepsOk(left, Dismissed);
        UpdateKeepsInv(s, m, Settle(left, Dismissed), All(false, |s.containers|));
        assert s.modals[m := left][m := Settle(left, Dismissed)] == s.modals[m := Settle(left, Dismissed)];
      }
    case Finally(m) =>
  }

  lemma {:induction false} RunKeepsInv(s: Page, events: seq<Event>)
    requires Inv(s)
    ensures Inv(RunAll(s, events))
    decreases |events|
  {
    if events != [] {
      RunKeepsInv(s, events[..|events| - 1]);
      NextKeepsInv(RunAll(s, events[..|events| - 1]), events[|events| - 1]);
    }
  }

  // ---------------------------------------------------------------- one live checkout

  /** Over any interleaving of opens, provider events, timers and clicks, at most one promise is
      unresolved, and it is the active checkout's. */
  lemma {:induction false} OneUnresolved(events: seq<Event>)
    ensures var s := RunAll(EMPTY, events);
            && (forall i, j :: 0 <= i < j < |s.modals| ==> !s.modals[i].result.Pending? || !s.modals[j].result.Pending?)
            && (forall i :: 0 <= i < |s.modals| && s.modals[i].result.Pending? ==>
                  s.active == Some(Active(s.modals[i].order, i)))
  {
    RunKeepsInv(EMPTY, events);
  }

  /** While a checkout is active a second open starts nothing: the same order gets the same
      modal, whose order it is, and another order is refused. */
  lemma {:induction false} SecondOpenStartsNothing(s: Page, order: nat, remaining: Remaining, provider: Provider)
    requires Inv(s) && s.active.Some?
    ensures var t := OpenNext(s, order, remaining, provider);
            && t.modals == s.modals && t.active == s.active && |t.calls| == |s.calls| + 1
            && (var c := t.calls[|s.calls|];
                && c.order == order && (c.got.Refused? <==> s.modals[s.active.value.modal].order != order)
                && (!c.got.Refused? ==> c.got == Shared(s.active.value.modal)))
  {
  }

  /** A result never changes again, */
  lemma {:induction false} ResultIsFinal(s: Page, events: seq<Event>, i: nat)
    requires Inv(s) && i < |s.modals| && !s.modals[i].result.Pending?
    ensures var t := RunAll(s, events); i < |t.modals| && t.modals[i].result == s.modals[i].result
    decreases |events|
  {
    if events != [] {
      ResultIsFinal(s, events[..|events| - 1], i);
      RunKeepsInv(s, events[..|events| - 1]);
      StepKeepsResult(RunAll(s, events[..|events| - 1]), events[|events| - 1], i);
    }
  }

  lemma {:induction false} StepKeepsResult(s: Page, e: Event, i: nat)
    requires Inv(s) && i < |s.modals| && !s.modals[i].result.Pending?
    ensures i < |Next(s, e).modals| && Next(s, e).modals[i].result == s.modals[i].result
  {
    match e
    case Fires(m, outcome) => if m < |s.modals| { SettleKeepsOk(s.modals[m], outcome); }
    case PressReturn(m) => if m < |s.modals| { SettleKeepsOk(s.modals[m], Dismissed); }
    case WindowTimer(m) => if m < |s.modals| { SettleKeepsOk(s.modals[m].(windowArmed := false), Dismissed); }
    case _ =>
  }

  /** and it is the first outcome that was reported. */
  lemma {:induction false} FirstOutcomeWins(events: seq<Event>, i: nat)
    requires i < |RunAll(EMPTY, events).modals|
    ensures var m := RunAll(EMPTY, events).modals[i];
            && (m.result.Resolved? ==> m.fired != [] && m.result == Resolved(m.fired[0]))
            && (m.result.Pending? ==> m.fired == [])
  {
    RunKeepsInv(EMPTY, events);
  }

  /** What a new modal looks like when its open returns: dismissed unopened if no time is left; else
      resolved if an outcome came during the open, rejected if that threw before one came, pending
      otherwise. Only a pending one can be left by the buyer, and the deadline is armed whenever
      there is one and the open returned. */
  lemma {:induction false} NewModalIs(s: Page, order: nat, remaining: Remaining, provider: Provider)
    requires s.active.None?
    ensures var t := Next(s, Open(order, remaining, provider)); var m := t.modals[|t.modals| - 1];
            var outcome := if remaining.Gone? then Some(Dismissed) else provider.during;
            var threw := !remaining.Gone? && provider.throws;
            && |t.modals| == |s.modals| + 1 && t.modals[..|s.modals|] == s.modals
            && t.active == Some(Active(order, |s.modals|)) && t.calls == s.calls + [Call(order, Own(|s.modals|))]
            && m.order == order && !m.button && m.settled == outcome.Some?
            && m.fired == (if outcome.Some? then [outcome.value] else [])
            && m.result == (if outcome.Some? then Resolved(outcome.value) else if threw then Rejected else Pending)
            && (m.escapeArmed <==> outcome.None? && !threw)
            && (m.windowArmed <==> remaining.Left? && !threw)
  {
  }

  /** An outcome settles a modal once: the promise, if it is pending, resolves with it, and the timers
      and the button go. Later ones change nothing. No other modal and no surface is touched. */
  lemma {:induction false} OutcomeSettlesOnce(s: Page, m: nat, outcome: Outcome)
    requires m < |s.modals|
    ensures var was := s.modals[m]; var fired := was.fired + [outcome];
            Next(s, Fires(m, outcome)) == s.(modals := s.modals[m :=
              if was.settled then was.(fired := fired)
              else Modal(was.order, true, if was.result.Pending? then Resolved(outcome) else was.result,
                         false, false, false, fired)])
  {
  }

  /** The button appears when its timer fires and never otherwise; pressing it, or the deadline if it
      is armed, dismisses a pending modal and puts every surface out of the way. */
  lemma {:induction false} LeavingIs(s: Page, m: nat)
    requires m < |s.modals|
    ensures Next(s, EscapeTimer(m)) ==
              if s.modals[m].escapeArmed
              then s.(modals := s.modals[m := s.modals[m].(escapeArmed := false, button := true)]) else s
    ensures var t := Next(s, PressReturn(m));
            if !s.modals[m].button then t == s
            else t == Next(s, Fires(m, Dismissed)).(containers := t.containers) && Hidden(s, t)
    ensures var t := Next(s, WindowTimer(m)); var disarmed := s.modals[m].(windowArmed := false);
            if !s.modals[m].windowArmed then t == s
            else && t == Next(s.(modals := s.modals[m := disarmed]), Fires(m, Dismissed)).(containers := t.containers)
                 && Hidden(s, t) && !t.modals[m].windowArmed
  {
  }

  /** The same containers, none of which takes clicks. */
  ghost predicate Hidden(s: Page, t: Page) {
    |t.containers| == |s.containers| && forall i :: 0 <= i < |t.containers| ==> !t.containers[i]
  }

  // ---------------------------------------------------------------- surfaces

  ghost predicate AtMostOneInteractive(containers: seq<bool>) {
    forall i, j :: 0 <= i < j < |containers| ==> !(containers[i] && containers[j])
  }

  /** How many containers an open adds: one if it gets its own modal in time and the provider
      builds it, whether or not its `open` then throws. */
  function Added(s: Page, remaining: Remaining, provider: Provider): nat {
    if s.active.None? && !remaining.Gone? && provider.creates then 1 else 0
  }

  /** After an open at most one container takes clicks exactly when there was none beside the one
      it adds, or it got its own modal and the provider opened it. The restoring comes first: a
      shared, refused, expired or failed open puts every stale container back in the way. */
  lemma {:induction false} OneInteractiveIff(s: Page, order: nat, remaining: Remaining, provider: Provider)
    ensures var t := OpenNext(s, order, remaining, provider);
            AtMostOneInteractive(t.containers) <==>
              || |s.containers| + Added(s, remaining, provider) <= 1
              || (s.active.None? && !remaining.Gone? && !provider.throws)
    ensures var t := OpenNext(s, order, remaining, provider);
            t.containers != [] ==> t.containers[|t.containers| - 1]
  {
    var t := OpenNext(s, order, remaining, provider);
    assert |t.containers| == |s.containers| + Added(s, remaining, provider);
    if |t.containers| > 1 && !(s.active.None? && !remaining.Gone? && !provider.throws) {
      assert t.containers[0] && t.containers[1];
    }
  }

  const BUILDS := Provider(true, None, false)

  const SHOWN := Modal(1, false, Pending, true, false, false, [])
  const LEFT := Modal(1, true, Resolved(Dismissed), false, false, false, [Dismissed])

  lemma {:induction false} FirstVisit()
    ensures RunAll(EMPTY, [Open(1, Unlimited, BUILDS), EscapeTimer(0)])
         == Page(Some(Active(1, 0)), [true], [SHOWN.(escapeArmed := false, button := true)], [Call(1, Own(0))])
  {
    RunOfTwo(Next, EMPTY, Open(1, Unlimited, BUILDS), EscapeTimer(0));
    assert OpenNext(EMPTY, 1, Unlimited, BUILDS) == Page(Some(Active(1, 0)), [true], [SHOWN], [Call(1, Own(0))]);
  }

  lemma {:induction false} LeavingIt(s: Page)
    requires s == Page(Some(Active(1, 0)), [true], [SHOWN.(escapeArmed := false, button := true)], [Call(1, Own(0))])
    ensures RunAll(s, [PressReturn(0), Finally(0)]) == Page(None, [false], [LEFT], [Call(1, Own(0))])
  {
    RunOfTwo(Next, s, PressReturn(0), Finally(0));
    assert s.modals[0].fired + [Dismissed] == [Dismissed];
    assert Settle(s.modals[0], Dismissed) == LEFT;
    assert All(false, 1) == [false];
  }

  lemma {:induction false} OpeningTwice(s: Page)
    requires s == Page(None, [false], [LEFT], [Call(1, Own(0))])
    ensures var t := RunAll(s, [Open(1, Unlimited, BUILDS), Open(1, Unlimited, BUILDS)]);
            |t.modals| == 2 && t.modals[1].result.Pending? && t.containers == [true, true]
  {
    RunOfTwo(Next, s, Open(1, Unlimited, BUILDS), Open(1, Unlimited, BUILDS));
    var t := OpenNext(s, 1, Unlimited, BUILDS);
    assert t.modals == [LEFT, SHOWN] && t.active == Some(Active(1, 1)) && |t.containers| == 2;
  }

  /** Leaving one checkout, opening it again and clicking once more is enough: the second call
      shares the live modal and the first modal's container is back in front of the page. */
  lemma {:induction false} SharedOpenUncoversStaleSurface()
    ensures var s := RunAll(EMPTY, [Open(1, Unlimited, BUILDS), EscapeTimer(0)] + [PressReturn(0), Finally(0)]
                                   + [Open(1, Unlimited, BUILDS), Open(1, Unlimited, BUILDS)]);
            |s.modals| == 2 && s.modals[1].result.Pending? && s.containers == [true, true]
  {
    var a, b, c := [Open(1, Unlimited, BUILDS), EscapeTimer(0)], [PressReturn(0), Finally(0)],
                   [Open(1, Unlimited, BUILDS), Open(1, Unlimited, BUILDS)];
    RunAppend(Next, EMPTY, a, b);
    RunAppend(Next, EMPTY, a + b, c);
    FirstVisit();
    LeavingIt(RunAll(EMPTY, a));
    OpeningTwice(RunAll(EMPTY, a + b));
  }

  // ---------------------------------------------------------------- timers

  /** Runs in which the provider reports nothing before its `open` returns. */
  predicate Later(e: Event) { e.Open? ==> e.provider.during.None? }

  /** In them a timer or button that can still act belongs to the unresolved modal. */
  ghost predicate TimersAreLive(s: Page) {
    forall i :: 0 <= i < |s.modals| && (s.modals[i].escapeArmed || s.modals[i].button || s.modals[i].windowArmed) ==>
      s.modals[i].result.Pending?
  }

  lemma {:induction false} TimersBelongToTheOpenModal(events: seq<Event>)
    requires forall e <- events :: Later(e)
    ensures TimersAreLive(RunAll(EMPTY, events))
    decreases |events|
  {
    if events != [] {
      var before, last := events[..|events| - 1], events[|events| - 1];
      assert last in events && forall e <- before :: e in events;
      TimersBelongToTheOpenModal(before);
      RunKeepsInv(EMPTY, before);
      StepKeepsTimers(RunAll(EMPTY, before), last);
    }
  }

  lemma {:induction false} StepKeepsTimers(s: Page, e: Event)
    requires Inv(s) && TimersAreLive(s) && Later(e)
    ensures TimersAreLive(Next(s, e))
  {
    if e.Open? {
      StartedTimersAreLiveIff(e.order, e.remaining, e.provider);
    }
  }

  /** The window timer is armed without asking whether the modal has settled: it outlives its
      modal exactly when an outcome came during `open` and there is a deadline. */
  lemma {:induction false} StartedTimersAreLiveIff(order: nat, remaining: Remaining, provider: Provider)
    ensures var m := Started(order, remaining, provider);
            && (m.windowArmed && !m.result.Pending? <==> remaining.Left? && provider.during.Some? && !provider.throws)
            && (m.escapeArmed ==> m.result.Pending?) && !m.button
  {
  }

  /** Such a timer puts away the surface of whichever checkout is open when it fires. */
  lemma {:induction false} OutlivingTimerHidesTheNextCheckout(s: Page, i: nat, j: nat)
    requires Inv(s) && i < |s.modals| && j < |s.modals| && i != j
    requires s.modals[i].windowArmed && !s.modals[i].result.Pending? && s.modals[j].result.Pending?
    ensures var t := Next(s, WindowTimer(i));
            t.modals[j].result.Pending? && forall k :: 0 <= k < |t.containers| ==> !t.containers[k]
  {
  }

  // ---------------------------------------------------------------- the module

  /** The module's variables and the document it works on. */
  class Razorpay {
    var activeCheckout: Option<Active>
    var containers: seq<bool>
    var modals: seq<Modal>
    ghost var calls: seq<Call>

    ghost function State(): Page
      reads this
    {
      Page(activeCheckout, containers, modals, calls)
    }

    constructor ()
      ensures State() == EMPTY
    {
      activeCheckout, containers, modals, calls := None, [], [], [];
    }

    method RestoreProviderSurface()
      modifies this`containers
      ensures containers == All(true, |old(containers)|)
    {
      var i := 0;
      while i < |containers|
        invariant i <= |containers| == |old(containers)|
        invariant forall k :: 0 <= k < i ==> containers[k]
      {
        containers := containers[i := true];
        i := i + 1;
      }
    }

    method NeutraliseProviderSurface()
      modifies this`containers
      ensures containers == All(false, |old(containers)|)
    {
      var i := 0;
      while i < |containers|
        invariant i <= |containers| == |old(containers)|
        invariant forall k :: 0 <= k < i ==> !containers[k]
      {
        containers := containers[i := false];
        i := i + 1;
      }
    }

    method KeepOneInteractiveSurface()
      modifies this`containers
      ensures containers == KeepOne(old(containers))
    {
      var i := 0;
      while i + 1 < |containers|
        invariant |containers| == |old(containers)| && (i == 0 || i < |containers|)
        invariant forall k :: 0 <= k < i ==> !containers[k]
        invariant forall k :: i <= k < |containers| ==> containers[k] == old(containers)[k]
      {
        containers := containers[i := false];
        i := i + 1;
      }
    }

    method SettleModal(m: nat, outcome: Outcome)
      requires m < |modals|
      modifies this`modals
      ensures modals == old(modals)[m := Settle(old(modals)[m], outcome)]
    {
      var modal := modals[m].(fired := modals[m].fired + [outcome]);
      if !modal.settled {
        modal := modal.(settled := true);
        modal := modal.(escapeArmed := false, button := false, windowArmed := false);
        if modal.result.Pending? {
          modal := modal.(result := Resolved(outcome));
        }
      }
      modals := modals[m := modal];
    }

    /** The promise's executor: a new instance, asked to open. */
    method StartModal(order: nat, remaining: Remaining, provider: Provider)
      modifies this`modals, this`containers
      ensures modals == old(modals) + [Started(order, remaining, provider)]
      ensures containers == Surfaces(old(containers), remaining, provider)
    {
      var m := |modals|;
      modals := modals + [Modal(order, false, Pending, false, false, false, [])];
      if remaining.Gone? {
        SettleModal(m, Dismissed);
        return;
      }
      if provider.creates {
        containers := containers + [true];
      }
      if provider.during.Some? {
        SettleModal(m, provider.during.value);
      }
      if provider.throws {
        if modals[m].result.Pending? {
          modals := modals[m := modals[m].(result := Rejected)];
        }
        return;
      }
      modals := modals[m := modals[m].(windowArmed := remaining.Left?)];
      KeepOneInteractiveSurface();
      if !modals[m].settled {
        modals := modals[m := modals[m].(escapeArmed := true)];
      }
    }

    /** `openRazorpay` from the moment the script has loaded; `provider` is what its `open` does. */
    method OpenRazorpay(order: nat, remaining: Remaining, provider: Provider) returns (got: Got)
      modifies this
      ensures State() == Next(old(State()), Open(order, remaining, provider))
      ensures calls == old(calls) + [Call(order, got)]
    {
      RestoreProviderSurface();
      if activeCheckout.Some? {
        got := if activeCheckout.value.order == order then Shared(activeCheckout.value.modal) else Refused;
      } else {
        got := Own(|modals|);
        StartModal(order, remaining, provider);
        activeCheckout := Some(Active(order, got.modal));
      }
      calls := calls + [Call(order, got)];
    }

    /** The return button was pressed. */
    method ReturnPressed(m: nat)
      requires m < |modals| && modals[m].button
      modifies this
      ensures State() == Next(old(State()), PressReturn(m))
    {
      SettleModal(m, Dismissed);
      NeutraliseProviderSurface();
    }

    method WindowTimerFired(m: nat)
      requires m < |modals| && modals[m].windowArmed
      modifies this
      ensures State() == Next(old(State()), WindowTimer(m))
    {
      modals := modals[m := modals[m].(windowArmed := false)];
      SettleModal(m, Dismissed);
      NeutraliseProviderSurface();
    }

    /** The `finally` of the call that opened the modal. */
    method OpenFinished(m: nat)
      requires m < |modals| && !modals[m].result.Pending?
      modifies this
      ensures State() == Next(old(State()), Finally(m))
    {
      if activeCheckout.Some? && activeCheckout.value.modal == m {
        activeCheckout := None;
      }
    }
  }
}
