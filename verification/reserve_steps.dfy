/** What each step of a Reserve payment does: mounting, clicking, the answer, polling, and what
    the backend decides. */
module ReserveSteps {
  import opened Common
  import opened Runs
  import opened Idempotency
  import opened ReserveIntent

  // ---------------------------------------------------------------- the backend

  /** The attempt is finished for good. */
  ghost predicate Over(a: Attempt) {
    || (a.status == Captured && a.order)
    || (a.status == Failed && a.allocation == Released)
    || (a.status == Expired && a.allocation == Released)
  }

  /** The checkout's last attempt is finished for good. */
  ghost predicate LastIsOver(b: Backend, checkout: nat) {
    exists i :: 0 <= i < |b.attempts| && b.attempts[i].checkout == checkout && Over(b.attempts[i])
                && forall j :: i < j < |b.attempts| ==> b.attempts[j].checkout != checkout
  }

  lemma {:induction false} SettledIsLastIsOver(b: Backend, checkout: nat)
    ensures Settled(b, checkout) <==> LastIsOver(b, checkout)
  {
    SettledIff(b, checkout);
    if Settled(b, checkout) {
      var i :| 0 <= i < |b.attempts| && Newest(b.attempts, checkout) == Some(i);
      NewestIff(b.attempts, checkout, i);
      assert Over(b.attempts[i]);
    }
  }

  /** The last attempt of the checkout that a payment is under way for. */
  ghost predicate LastLive(attempts: seq<Attempt>, checkout: nat, i: nat) {
    && i < |attempts| && attempts[i].checkout == checkout && attempts[i].status == Live
    && forall j :: i < j < |attempts| ==> attempts[j].checkout != checkout || attempts[j].status != Live
  }

  lemma {:induction false} LiveIff(attempts: seq<Attempt>, checkout: nat, i: nat)
    ensures LiveAttempt(attempts, checkout) == Some(i) <==> LastLive(attempts, checkout, i)
  {
    if attempts != [] {
      LiveIff(attempts[..|attempts| - 1], checkout, i);
    }
  }

  lemma {:induction false} NoneLive(attempts: seq<Attempt>, checkout: nat)
    ensures LiveAttempt(attempts, checkout).None? <==>
              forall a <- attempts :: a.checkout != checkout || a.status != Live
  {
    if attempts != [] {
      NoneLive(attempts[..|attempts| - 1], checkout);
      assert attempts == attempts[..|attempts| - 1] + [attempts[|attempts| - 1]];
    }
  }

  const HEARD := Link(true, false, false, true)

  /** A request under a new key that gets through: while a payment for the checkout is under way it
      is told of it, and otherwise it is admitted as one new live attempt that holds capacity, or
      denied. What was decided is recorded. */
  lemma {:induction false} NewRequestIs(b: Backend, key: nat, request: PayRequest, decision: Decision)
    requires key !in b.records
    ensures var (after, outcome) := Pay(b, key, request, HEARD, decision); var c := request.card.checkout;
            && outcome.Answered? && after.records == b.records[key := Record(request, outcome.answer)]
            && (outcome.answer.Duplicate? <==> exists a <- b.attempts :: a.checkout == c && a.status == Live)
            && (outcome.answer.Duplicate? ==>
                  LastLive(b.attempts, c, outcome.answer.attempt) && after.attempts == b.attempts)
            && (outcome.answer.Admitted? ==>
                  decision.admits && outcome.answer.attempt == |b.attempts|
                  && after.attempts == b.attempts + [Attempt(key, c, Live, Held, false)])
            && (outcome.answer.Denied? ==>
                  !decision.admits && outcome.answer.newCard == decision.newCard && after.attempts == b.attempts)
  {
    NoneLive(b.attempts, request.card.checkout);
    var live := LiveAttempt(b.attempts, request.card.checkout);
    if live.Some? {
      LiveIff(b.attempts, request.card.checkout, live.value);
      assert b.attempts[live.value] in b.attempts;
    }
  }

  /** A used key brings its decision back and does nothing; a request that is not let in does
      nothing either. */
  lemma {:induction false} OtherRequestsAre(b: Backend, key: nat, request: PayRequest, link: Link, decision: Decision)
    ensures key in b.records ==>
              var (after, outcome) := Pay(b, key, request, HEARD, decision);
              && after == b
              && outcome == (if b.records[key].request == request then Answered(b.records[key].answer) else Refused)
    ensures !link.reaches || link.barred || (link.refuses && key !in b.records) ==>
              var (after, outcome) := Pay(b, key, request, link, decision);
              after == b && outcome == (if link.reaches && link.answers then Refused else Unknown)
    ensures !link.answers ==> Pay(b, key, request, link, decision).1 == Unknown
  {
  }

  /** An attempt moves until it is finished for good, and never becomes live again. */
  lemma {:induction false} AttemptsMove(s: System, i: nat, status: Status, allocation: Allocation, order: bool)
    ensures var t, was := Next(s, Evolve(i, status, allocation, order)), s.backend.attempts;
            && t == s.(backend := t.backend) && t.backend.records == s.backend.records
            && |t.backend.attempts| == |was|
            && forall k :: 0 <= k < |was| ==>
                 t.backend.attempts[k] ==
                   if k == i && !Over(was[i]) && (status == Live ==> was[i].status == Live)
                   then Attempt(was[i].key, was[i].checkout, status, allocation, order) else was[k]
  {
  }

  // ---------------------------------------------------------------- the page

  /** The stored intent is read back and is not done with. */
  ghost predicate Outstanding(s: System, e: Event)
    requires e.Mount?
  {
    e.canRead && s.storage.Some? && !(e.settledAnswers && LastIsOver(s.backend, s.storage.value.card.checkout))
  }

  /** Mounting. A new bill can be paid exactly if there is one, the buyer has a permission, and no
      stored intent is outstanding; an outstanding one comes back, as it was stored, exactly if the
      backend could be asked about it and it is for the reviewed bill; and storage is given up
      exactly for an intent that is known to be done with. */
  lemma {:induction false} MountIs(s: System, e: Event)
    requires e.Mount? && s.page.None?
    ensures var t := Next(s, e);
            && t == s.(page := t.page, storage := t.storage) && t.page.Some?
            && (var page := t.page.value;
                && page.reviewed == e.reviewed && page.inFlight.None? && !page.confirmed
                && page.lastFailure.None? && page.handled == 0
                && (page.pending.Some? <==>
                      && Outstanding(s, e) && e.settledAnswers && e.reviewed.Some?
                      && s.storage.value.card.checkout == e.reviewed.value.checkout
                      && s.storage.value.card.hash == e.reviewed.value.hash)
                && (page.pending.Some? ==>
                      && page.pending == s.storage && page.card == Some(s.storage.value.card)
                      && page.authority == Some(s.storage.value.authority))
                && (page.pending.None? ==>
                      && page.card == (if page.authority.Some? then e.reviewed else None)
                      && page.authority == (if e.permissionsAnswer && !Outstanding(s, e) then e.authority else None)))
            && t.storage ==
                 if e.canRead && s.storage.Some? && !Outstanding(s, e) && e.canWrite then None else s.storage
  {
    if s.storage.Some? {
      SettledIsLastIsOver(s.backend, s.storage.value.card.checkout);
    }
  }

  /** Sending: the page's pending intent as it is, or one for the card on screen and the chosen
      permission under a key never used. It is stored first, if storage takes it. */
  ghost predicate Sent(s: System, t: System, canWrite: bool)
    requires s.page.Some?
  {
    var page := s.page.value;
    && t.page.Some? && t.page.value.inFlight.Some? && t.page.value.pending == t.page.value.inFlight
    && (page.pending.Some? ==> t.page.value.inFlight == page.pending && t.minted == s.minted && t.asked == s.asked)
    && (page.pending.None? ==>
          && page.card.Some? && page.authority.Some?
          && t.page.value.inFlight.value == Intent(page.card.value, page.authority.value, s.minted, None)
          && t.minted == s.minted + 1
          && t.asked == s.asked[s.minted := PayRequest(page.card.value, page.authority.value)])
    && t.storage == (if canWrite then t.page.value.inFlight else s.storage)
    && t.backend == s.backend
    && t.page.value == page.(pending := t.page.value.pending, inFlight := t.page.value.inFlight,
                             handled := t.page.value.handled)
  }

  /** The page has what a request needs, and waits for none. */
  ghost predicate CanSend(page: Page) { page.inFlight.None? && page.card.Some? && page.authority.Some? }

  /** The button sends exactly if the page can, and a retry even while the way to pay is blocked. */
  lemma {:induction false} SubmitIs(s: System, blocked: bool, canWrite: bool)
    ensures var t := Next(s, Submit(blocked, canWrite));
            if s.page.Some? && CanSend(s.page.value) && (s.page.value.pending.Some? || !blocked)
            then Sent(s, t, canWrite) && t.page.value.handled == s.page.value.handled
            else t == s
  {
  }

  /** A click from the chat is consumed once. It sends exactly if it is new, nothing is pending or
      blocked, and the card on screen is the reviewed one in hash and version. */
  lemma {:induction false} CommitIs(s: System, request: nat, blocked: bool, canWrite: bool)
    ensures var t := Next(s, Commit(request, blocked, canWrite));
            if s.page.None? || request <= s.page.value.handled || s.page.value.inFlight.Some? then t == s
            else
              var page := s.page.value;
              && t.page.Some? && t.page.value.handled == request
              && if && CanSend(page) && page.pending.None? && !blocked && page.reviewed.Some?
                    && page.card.value.hash == page.reviewed.value.hash
                    && page.card.value.version == page.reviewed.value.version
                 then Sent(s, t, canWrite)
                 else t == s.(page := Some(page.(handled := request)))
  {
  }

  /** An answer. An attempt, new or one already under way, is remembered on the page and in storage;
      a denial ends the intent in both, and shows the new bill if there is one; without an answer
      both keep the intent, to be sent again. */
  lemma {:induction false} AnswerIs(s: System, link: Link, decision: Decision, canWrite: bool)
    ensures var t := Next(s, Arrive(link, decision, canWrite));
            if s.page.None? || s.page.value.inFlight.None? then t == s
            else
              var page, p := s.page.value, s.page.value.inFlight.value;
              var (after, outcome) := Pay(s.backend, p.key, PayRequest(p.card, p.authority), link, decision);
              && t == s.(page := t.page, storage := t.storage, backend := after) && t.page.Some?
              && (!outcome.Answered? ==> t.page.value == page.(inFlight := None) && t.storage == s.storage)
              && (outcome.Answered? && outcome.answer.Denied? ==>
                    && t.storage == (if canWrite then None else s.storage)
                    && t.page.value == page.(inFlight := None, pending := None, card := t.page.value.card)
                    && t.page.value.card ==
                         if outcome.answer.newCard.Some? then outcome.answer.newCard else page.card)
              && (outcome.Answered? && !outcome.answer.Denied? ==>
                    var now := Intent(p.card, p.authority, p.key, Some(outcome.answer.attempt));
                    && t.storage == (if canWrite then Some(now) else s.storage)
                    && t.page.value == page.(inFlight := None, pending := Some(now), lastFailure := None))
  {
  }

  /** A poll. A capture with its order is confirmed once; a failure or expiry is shown once for each
      allocation it is seen with; storage is given up as the one is confirmed, or as the other is
      first seen with its capacity released. Nothing else is touched. */
  lemma {:induction false} PollIs(s: System, answers: bool, canWrite: bool)
    ensures var t := Next(s, Poll(answers, canWrite));
            if s.page.None? || s.page.value.pending.None? || s.page.value.pending.value.attempt.None? || !answers
               || s.page.value.pending.value.attempt.value >= |s.backend.attempts| then t == s
            else
              var page := s.page.value; var a := s.backend.attempts[page.pending.value.attempt.value];
              var confirms := a.status == Captured && a.order && !page.confirmed;
              var fails := (a.status == Failed || a.status == Expired) && page.lastFailure != Some(a.allocation);
              && t == s.(page := t.page, storage := t.storage)
              && t.page == Some(page.(confirmed := page.confirmed || confirms,
                                      lastFailure := if fails then Some(a.allocation) else page.lastFailure))
              && t.storage ==
                   if canWrite && (confirms || (fails && a.allocation == Released)) then None else s.storage
  {
  }

  /** A permission is chosen only before anything is pending, and a page that waits for its answer
      is not taken down. */
  lemma {:induction false} ChoosingAndLeavingAre(s: System, chosen: nat)
    ensures var t := Next(s, Choose(chosen));
            if s.page.Some? && s.page.value.pending.None? && s.page.value.authority.Some?
            then t == s.(page := Some(s.page.value.(authority := Some(chosen)))) else t == s
    ensures Next(s, Unmount) == if s.page.Some? && s.page.value.inFlight.Some? then s else s.(page := None)
  {
  }

  // ---------------------------------------------------------------- a purchase

  /** Where a purchase of this bill stands. */
  ghost predicate Ordered(t: System, card: Card, authority: nat) {
    && t.page.Some? && t.page.value.confirmed && t.storage.None? && |t.backend.attempts| == 1
    && t.backend.attempts[0].checkout == card.checkout && t.backend.attempts[0].key in t.backend.records
    && t.backend.records[t.backend.attempts[0].key].request == PayRequest(card, authority)
  }

  function Opening(card: Card, authority: nat): Event { Mount(Some(card), true, true, true, Some(authority), true) }

  /** A request whose answer was lost, and the page with it. */
  function Lost(card: Card, authority: nat): seq<Event> {
    [Opening(card, authority), Commit(1, false, true)]
    + [Arrive(Link(true, false, false, false), Decision(true, None), true), Unmount]
  }

  function Resumed(card: Card, authority: nat): seq<Event> {
    [Opening(card, authority), Submit(true, true)] + [Arrive(HEARD, Decision(true, None), true)]
  }

  ghost predicate Pressed(s: System, card: Card, authority: nat) {
    var p := Intent(card, authority, 0, None);
    && s.page == Some(Page(Some(card), Some(card), Some(authority), Some(p), Some(p), false, None, 1))
    && s.storage == Some(p) && s.minted == 1 && s.backend == Backend(map[], [])
  }

  /** One attempt under way, stored without it. */
  ghost predicate Unheard(s: System, card: Card, authority: nat) {
    && s.storage == Some(Intent(card, authority, 0, None))
    && s.backend == Backend(map[0 := Record(PayRequest(card, authority), Admitted(0))],
                            [Attempt(0, card.checkout, Live, Held, false)])
  }

  ghost predicate Heard(s: System, card: Card, authority: nat) {
    var p := Intent(card, authority, 0, Some(0));
    && s.page == Some(Page(Some(card), Some(card), Some(authority), Some(p), None, false, None, 0))
    && s.storage == Some(p)
    && s.backend == Backend(map[0 := Record(PayRequest(card, authority), Admitted(0))],
                            [Attempt(0, card.checkout, Live, Held, false)])
  }

  lemma {:induction false} OpenAndPress(card: Card, authority: nat)
    ensures Pressed(Next(Next(System(None, None, 0, Backend(map[], []), map[]), Opening(card, authority)),
                         Commit(1, false, true)), card, authority)
  {
    MountIs(System(None, None, 0, Backend(map[], []), map[]), Opening(card, authority));
  }

  lemma {:induction false} AnswerIsLost(s: System, card: Card, authority: nat)
    requires Pressed(s, card, authority)
    ensures var t := Next(Next(s, Arrive(Link(true, false, false, false), Decision(true, None), true)), Unmount);
            t.page.None? && Unheard(t, card, authority)
  {
  }

  lemma {:induction false} Reopened(s: System, card: Card, authority: nat)
    requires s.page.None? && Unheard(s, card, authority)
    ensures var t := Next(s, Opening(card, authority));
            && Unheard(t, card, authority) && t.page ==
                 Some(Page(Some(card), Some(card), Some(authority), s.storage, None, false, None, 0))
  {
    MountIs(s, Opening(card, authority));
    assert s.backend.attempts[0].status == Live;
  }

  lemma {:induction false} SentAgain(s: System, card: Card, authority: nat)
    requires Unheard(s, card, authority)
    requires s.page == Some(Page(Some(card), Some(card), Some(authority), s.storage, None, false, None, 0))
    ensures Heard(Next(Next(s, Submit(true, true)), Arrive(HEARD, Decision(true, None), true)), card, authority)
  {
    SubmitIs(s, true, true);
  }

  lemma {:induction false} CapturedAndPolled(s: System, card: Card, authority: nat)
    requires Heard(s, card, authority)
    ensures Ordered(Next(Next(s, Evolve(0, Captured, Spent, true)), Poll(true, true)), card, authority)
  {
    PollIs(Next(s, Evolve(0, Captured, Spent, true)), true, true);
  }

  /** Whatever the bill and the permission: a request that was admitted but whose answer was lost,
      sent again by a page mounted later, is one payment; captured, it is confirmed, and storage is
      left empty. */
  lemma {:induction false} LostPurchaseCompletes(card: Card, authority: nat)
    ensures Ordered(RunAll(RunAll(RunAll(System(None, None, 0, Backend(map[], []), map[]), Lost(card, authority)),
                                  Resumed(card, authority)),
                           [Evolve(0, Captured, Spent, true), Poll(true, true)]), card, authority)
  {
    var s0 := System(None, None, 0, Backend(map[], []), map[]);
    var opening, commit := Opening(card, authority), Commit(1, false, true);
    var lose := Arrive(Link(true, false, false, false), Decision(true, None), true);
    RunAppend(Next, s0, [opening, commit], [lose, Unmount]);
    RunOfTwo(Next, s0, opening, commit);
    OpenAndPress(card, authority);
    var s1 := RunAll(s0, [opening, commit]);
    RunOfTwo(Next, s1, lose, Unmount);
    AnswerIsLost(s1, card, authority);
    ResumedAndCaptured(RunAll(s0, Lost(card, authority)), card, authority);
  }

  lemma {:induction false} ResumedAndCaptured(s: System, card: Card, authority: nat)
    requires s.page.None? && Unheard(s, card, authority)
    ensures Ordered(RunAll(RunAll(s, Resumed(card, authority)),
                           [Evolve(0, Captured, Spent, true), Poll(true, true)]), card, authority)
  {
    var opening, submit := Opening(card, authority), Submit(true, true);
    var hear := Arrive(HEARD, Decision(true, None), true);
    assert [opening, submit] + [hear] == [opening, submit, hear];
    RunOfThree(Next, s, opening, submit, hear);
    Reopened(s, card, authority);
    SentAgain(Next(s, opening), card, authority);
    var t := RunAll(s, Resumed(card, authority));
    RunOfTwo(Next, t, Evolve(0, Captured, Spent, true), Poll(true, true));
    CapturedAndPolled(t, card, authority);
  }
}
