/** Reserve Pay: the stored payment intent that lets one purchase survive lost answers, reloads
    and retries without a second payment starting beside it. */
module ReserveIntent {
  import opened Common
  import opened Runs
  import opened Idempotency

  // ---------------------------------------------------------------- the backend

  datatype Status = Live | Captured | Failed | Expired

  datatype Allocation = Held | Spent | Released

  /** A payment attempt, with the key of the request that was admitted. */
  datatype Attempt = Attempt(key: nat, checkout: nat, status: Status, allocation: Allocation, order: bool)

  datatype Card = Card(checkout: nat, version: nat, hash: nat, amount: nat)

  datatype PayRequest = PayRequest(card: Card, authority: nat)

  datatype PayAnswer = Admitted(attempt: nat) | Duplicate(attempt: nat) | Denied(newCard: Option<Card>)

  datatype Backend = Backend(records: map<nat, Record<PayRequest, PayAnswer>>, attempts: seq<Attempt>)

  /** Captured with its order, or finished with its capacity given back. */
  predicate Resolved(a: Attempt) {
    (a.status == Captured && a.order) || (a.status in {Failed, Expired} && a.allocation == Released)
  }

  function Newest(attempts: seq<Attempt>, checkout: nat): (r: Option<nat>)
    ensures r.Some? ==> r.value < |attempts| && attempts[r.value].checkout == checkout
  {
    if attempts == [] then None
    else if attempts[|attempts| - 1].checkout == checkout then Some(|attempts| - 1)
    else Newest(attempts[..|attempts| - 1], checkout)
  }

  /** `reserveRequestSettled`: may an intent for this checkout be discarded? */
  predicate Settled(b: Backend, checkout: nat) {
    var newest := Newest(b.attempts, checkout);
    newest.Some? && Resolved(b.attempts[newest.value])
  }

  function LiveAttempt(attempts: seq<Attempt>, checkout: nat): (r: Option<nat>)
    ensures r.Some? ==>
              r.value < |attempts| && attempts[r.value].checkout == checkout && attempts[r.value].status == Live
  {
    if attempts == [] then None
    else if attempts[|attempts| - 1].checkout == checkout && attempts[|attempts| - 1].status == Live
    then Some(|attempts| - 1)
    else LiveAttempt(attempts[..|attempts| - 1], checkout)
  }

  /** What the kernel decides when it is free to decide. */
  datatype Decision = Decision(admits: bool, newCard: Option<Card>)

  function Decide(key: nat, decision: Decision): (seq<Attempt>, PayRequest) -> (seq<Attempt>, PayAnswer) {
    (attempts: seq<Attempt>, request: PayRequest) =>
      var live := LiveAttempt(attempts, request.card.checkout);
      if live.Some? then (attempts, Duplicate(live.value))
      else if decision.admits then
        (attempts + [Attempt(key, request.card.checkout, Live, Held, false)], Admitted(|attempts|))
      else (attempts, Denied(decision.newCard))
  }

  /** A payment request, by way of its idempotency record. */
  function Pay(b: Backend, key: nat, request: PayRequest, link: Link,
               decision: Decision): (Backend, Outcome<PayAnswer>) {
    var (after, outcome) := Send(Server(b.records, b.attempts, []), key, request, link, Decide(key, decision));
    (Backend(after.records, after.state), outcome)
  }

  // ---------------------------------------------------------------- the page

  datatype Intent = Intent(card: Card, authority: nat, key: nat, attempt: Option<nat>)

  /** The mounted component; `inFlight` is the request `submit` is waiting for. */
  datatype Page = Page(reviewed: Option<Card>, card: Option<Card>, authority: Option<nat>, pending: Option<Intent>,
                       inFlight: Option<Intent>, confirmed: bool, lastFailure: Option<Allocation>, handled: nat)

  /** The page if one is mounted, the tab's storage, the keys minted so far, the backend, and a
      history of what each key was minted for. */
  datatype System = System(page: Option<Page>, storage: Option<Intent>, minted: nat, backend: Backend,
                           asked: map<nat, PayRequest>)

  datatype Event =
    | Mount(reviewed: Option<Card>, canRead: bool, settledAnswers: bool, permissionsAnswer: bool,
            authority: Option<nat>, canWrite: bool)
    | Unmount
    | Choose(chosen: nat)
    | Submit(blocked: bool, canWrite: bool)
    | Commit(request: nat, blocked: bool, canWrite: bool)
    | Arrive(link: Link, decision: Decision, canWrite: bool)
    | Poll(answers: bool, canWrite: bool)
    | Evolve(attempt: nat, status: Status, allocation: Allocation, order: bool)

  function RequestOf(p: Intent): PayRequest { PayRequest(p.card, p.authority) }

  function Save(s: System, p: Option<Intent>, canWrite: bool): System {
    if canWrite then s.(storage := p) else s
  }

  /** Mounting with nothing to recover: read the permissions and show the reviewed bill. */
  function MountFresh(s: System, e: Event): System
    requires e.Mount?
  {
    var blank := Page(e.reviewed, None, None, None, None, false, None, 0);
    s.(page := Some(
      if !e.permissionsAnswer || e.authority.None? then blank
      else blank.(authority := e.authority, card := e.reviewed)))
  }

  function MountPage(s: System, e: Event): System
    requires e.Mount?
  {
    var blank := Page(e.reviewed, None, None, None, None, false, None, 0);
    if !e.canRead || s.storage.None? then MountFresh(s, e)
    else
      var p := s.storage.value;
      if !e.settledAnswers then s.(page := Some(blank))
      else if Settled(s.backend, p.card.checkout) then MountFresh(Save(s, None, e.canWrite), e)
      else if e.reviewed.None? || p.card.checkout != e.reviewed.value.checkout || p.card.hash != e.reviewed.value.hash
      then s.(page := Some(blank))
      else s.(page := Some(blank.(pending := Some(p), card := Some(p.card), authority := Some(p.authority))))
  }

  /** Persist, then send: a pending intent again, or a new one under a new key. */
  function SubmitPage(s: System, blocked: bool, canWrite: bool): System {
    if s.page.None? || s.page.value.inFlight.Some? || s.page.value.card.None? || s.page.value.authority.None?
       || (s.page.value.pending.None? && blocked) then s
    else
      var page := s.page.value;
      var p := if page.pending.Some? then page.pending.value
               else Intent(page.card.value, page.authority.value, s.minted, None);
      var s := if page.pending.Some? then s
               else s.(minted := s.minted + 1, asked := s.asked[p.key := RequestOf(p)]);
      Save(s.(page := Some(page.(pending := Some(p), inFlight := Some(p)))), Some(p), canWrite)
  }

  /** An explicit click is consumed once, whatever comes of it. */
  function CommitPage(s: System, request: nat, blocked: bool, canWrite: bool): System {
    if s.page.None? || request <= s.page.value.handled || s.page.value.inFlight.Some? then s
    else
      var page := s.page.value.(handled := request);
      var s := s.(page := Some(page));
      if page.pending.Some? || blocked || page.card.None? || page.reviewed.None?
         || page.card.value.hash != page.reviewed.value.hash || page.card.value.version != page.reviewed.value.version
      then s
      else SubmitPage(s, blocked, canWrite)
  }

  function ArrivePage(s: System, link: Link, decision: Decision, canWrite: bool): System {
    if s.page.None? || s.page.value.inFlight.None? then s
    else
      var p := s.page.value.inFlight.value;
      var page := s.page.value.(inFlight := None);
      var (backend, outcome) := Pay(s.backend, p.key, RequestOf(p), link, decision);
      var s := s.(backend := backend, page := Some(page));
      if !outcome.Answered? then s
      else if outcome.answer.Denied? then
        Save(s.(page := Some(page.(pending := None,
             card := if outcome.answer.newCard.Some? then outcome.answer.newCard else page.card))), None, canWrite)
      else
        var next := p.(attempt := Some(outcome.answer.attempt));
        Save(s.(page := Some(page.(pending := Some(next), lastFailure := None))), Some(next), canWrite)
  }

  function PollPage(s: System, answers: bool, canWrite: bool): System {
    if s.page.None? || s.page.value.pending.None? || s.page.value.pending.value.attempt.None? || !answers
       || s.page.value.pending.value.attempt.value >= |s.backend.attempts| then s
    else
      var page := s.page.value;
      var a := s.backend.attempts[page.pending.value.attempt.value];
      if a.status == Captured && a.order && !page.confirmed then
        Save(s.(page := Some(page.(confirmed := true))), None, canWrite)
      else if a.status in {Failed, Expired} && page.lastFailure != Some(a.allocation) then
        var s := s.(page := Some(page.(lastFailure := Some(a.allocation))));
        if a.allocation == Released then Save(s, None, canWrite) else s
      else s
  }

  function Next(s: System, e: Event): System {
    match e
    case Mount(_, _, _, _, _, _) => if s.page.Some? then s else MountPage(s, e)
    case Unmount => if s.page.Some? && s.page.value.inFlight.Some? then s else s.(page := None)
    case Choose(chosen) =>
      if s.page.Some? && s.page.value.pending.None? && s.page.value.authority.Some?
      then s.(page := Some(s.page.value.(authority := Some(chosen)))) else s
    case Submit(blocked, canWrite) => SubmitPage(s, blocked, canWrite)
    case Commit(request, blocked, canWrite) => CommitPage(s, request, blocked, canWrite)
    case Arrive(link, decision, canWrite) => ArrivePage(s, link, decision, canWrite)
    case Poll(answers, canWrite) => PollPage(s, answers, canWrite)
    case Evolve(i, status, allocation, order) =>
      if i >= |s.backend.attempts| || Resolved(s.backend.attempts[i])
         || (status == Live && s.backend.attempts[i].status != Live) then s
      else
        var a := s.backend.attempts[i].(status := status, allocation := allocation, order := order);
        s.(backend := s.backend.(attempts := s.backend.attempts[i := a]))
  }

  function RunAll(s: System, events: seq<Event>): System { RunOf(Next, s, events) }

  // ---------------------------------------------------------------- invariants

  /** Attempts and records describe each other; a request is only ever answered about itself. */
  ghost predicate RecordsMatch(b: Backend) {
    && (forall i :: 0 <= i < |b.attempts| ==>
          b.attempts[i].key in b.records && b.records[b.attempts[i].key].answer == Admitted(i)
          && b.records[b.attempts[i].key].request.card.checkout == b.attempts[i].checkout)
    && (forall k <- b.records :: !b.records[k].answer.Duplicate?
          && (b.records[k].answer.Admitted? ==>
                b.records[k].answer.attempt < |b.attempts| && b.attempts[b.records[k].answer.attempt].key == k))
  }

  ghost predicate Known(s: System, p: Intent) {
    && p.key < s.minted && p.key in s.asked && s.asked[p.key] == RequestOf(p)
    && (p.attempt.Some? ==> p.attempt.value < |s.backend.attempts| && s.backend.attempts[p.attempt.value].key == p.key)
  }

  ghost predicate Stored(s: System, key: nat) { s.storage.Some? && s.storage.value.key == key }

  /** Whatever is not resolved is the newest attempt and belongs to the stored intent. */
  ghost predicate UnresolvedIsStored(s: System) {
    forall i :: 0 <= i < |s.backend.attempts| && !Resolved(s.backend.attempts[i]) ==>
      i == |s.backend.attempts| - 1 && Stored(s, s.backend.attempts[i].key)
  }

  ghost predicate PageMatches(s: System, page: Page) {
    && (page.pending.Some? ==>
          && Known(s, page.pending.value)
          && (page.pending.value.key !in s.backend.records ==> Stored(s, page.pending.value.key))
          && (s.storage.Some? ==> s.storage.value.key == page.pending.value.key))
    && (page.inFlight.Some? ==>
          Known(s, page.inFlight.value) && page.pending.Some? && page.pending.value.key == page.inFlight.value.key)
    && (page.card.Some? && page.pending.None? ==> s.storage.None?)
  }

  ghost predicate Inv(s: System) {
    && RecordsMatch(s.backend)
    && (forall k <- s.backend.records :: k < s.minted && k in s.asked && s.backend.records[k].request == s.asked[k])
    && (forall k <- s.asked :: k < s.minted)
    && (s.storage.Some? ==> Known(s, s.storage.value))
    && UnresolvedIsStored(s)
    && (s.page.Some? ==> PageMatches(s, s.page.value))
  }

  /** The tab's storage does what it is asked to. */
  predicate StorageWorks(e: Event) {
    match e
    case Mount(_, canRead, _, _, _, canWrite) => canRead && canWrite
    case Submit(_, canWrite) => canWrite
    case Commit(_, _, canWrite) => canWrite
    case Arrive(_, _, canWrite) => canWrite
    case Poll(_, canWrite) => canWrite
    case _ => true
  }

  ghost predicate Start(s: System) {
    s == System(None, None, 0, Backend(map[], []), map[])
  }

  /** The newest attempt of a checkout is the last one with that checkout. */
  lemma {:induction false} NewestIff(attempts: seq<Attempt>, checkout: nat, i: nat)
    ensures Newest(attempts, checkout) == Some(i) <==>
              && i < |attempts| && attempts[i].checkout == checkout
              && forall j :: i < j < |attempts| ==> attempts[j].checkout != checkout
  {
    if attempts != [] {
      NewestIff(attempts[..|attempts| - 1], checkout, i);
    }
  }

  /** `reserveRequestSettled`: the last attempt of the checkout was captured and has its order, or
      failed or expired and its capacity is released; without an attempt nothing is settled. */
  lemma {:induction false} SettledIff(b: Backend, checkout: nat)
    ensures Settled(b, checkout) <==>
              exists i :: 0 <= i < |b.attempts| && b.attempts[i].checkout == checkout
                && (forall j :: i < j < |b.attempts| ==> b.attempts[j].checkout != checkout)
                && ((b.attempts[i].status == Captured && b.attempts[i].order)
                    || (b.attempts[i].status == Failed && b.attempts[i].allocation == Released)
                    || (b.attempts[i].status == Expired && b.attempts[i].allocation == Released))
  {
    forall i: nat ensures Newest(b.attempts, checkout) == Some(i) <==>
      && i < |b.attempts| && b.attempts[i].checkout == checkout
      && forall j :: i < j < |b.attempts| ==> b.attempts[j].checkout != checkout
    {
      NewestIff(b.attempts, checkout, i);
    }
  }

  /** Mounting and polling agree on when an intent is done with: for the newest attempt of the stored
      intent's checkout, as long as no page has reported it, a mount that reads it back drops the
      intent exactly if a poll of that attempt would. */
  lemma {:induction false} MountDropsWherePollDoes(s: System, bill: Option<Card>, authority: Option<nat>, i: nat,
                                                   page: Page)
    requires s.page.None? && s.storage.Some? && Newest(s.backend.attempts, s.storage.value.card.checkout) == Some(i)
    requires page.pending.Some? && page.pending.value.attempt == Some(i) && !page.confirmed
    requires page.lastFailure != Some(s.backend.attempts[i].allocation)
    ensures Next(s, Mount(bill, true, true, true, authority, true)).storage.None? <==>
              PollPage(s.(page := Some(page)), true, true).storage.None?
  {
  }

  lemma {:induction false} NewestIsLast(attempts: seq<Attempt>, checkout: nat)
    requires attempts != [] && attempts[|attempts| - 1].checkout == checkout
    ensures Newest(attempts, checkout) == Some(|attempts| - 1)
  {
  }

  lemma {:induction false} MountKeepsInv(s: System, e: Event)
    requires Inv(s) && e.Mount? && StorageWorks(e) && s.page.None?
    ensures Inv(MountPage(s, e))
  {
    if s.storage.Some? && s.backend.attempts != [] {
      var last := s.backend.attempts[|s.backend.attempts| - 1];
      if !Resolved(last) {
        NewestIsLast(s.backend.attempts, last.checkout);
      }
    }
  }

  lemma {:induction false} SubmitKeepsInv(s: System, blocked: bool, canWrite: bool)
    requires Inv(s) && canWrite
    ensures Inv(SubmitPage(s, blocked, canWrite))
  {
  }

  lemma {:induction false} PayKeepsInv(s: System, link: Link, decision: Decision)
    requires Inv(s) && s.page.Some? && s.page.value.inFlight.Some?
    ensures var p := s.page.value.inFlight.value;
            var (backend, outcome) := Pay(s.backend, p.key, RequestOf(p), link, decision);
            Inv(s.(backend := backend))
            && (outcome.Answered? ==> p.key in backend.records && backend.records[p.key].answer == outcome.answer)
  {
    var p := s.page.value.inFlight.value;
    var live := LiveAttempt(s.backend.attempts, p.card.checkout);
    if p.key !in s.backend.records && live.Some? {
      assert !Resolved(s.backend.attempts[live.value]);
    }
  }

  lemma {:induction false} ArriveKeepsInv(s: System, link: Link, decision: Decision, canWrite: bool)
    requires Inv(s) && canWrite
    ensures Inv(ArrivePage(s, link, decision, canWrite))
  {
    if s.page.Some? && s.page.value.inFlight.Some? {
      PayKeepsInv(s, link, decision);
    }
  }

  /** A poll leaves the page what it holds; it drops the stored intent only when the attempt of the
      page's own is resolved. */
  lemma {:induction false} PollParts(s: System, answers: bool, canWrite: bool)
    requires s.page.Some?
    ensures var t := PollPage(s, answers, canWrite);
            && t.page.Some? && t == s.(page := t.page, storage := t.storage)
            && t.page.value.pending == s.page.value.pending && t.page.value.inFlight == s.page.value.inFlight
            && t.page.value.card == s.page.value.card
            && (t.storage == s.storage ||
                (&& t.storage.None? && s.page.value.pending.Some? && s.page.value.pending.value.attempt.Some?
                 && s.page.value.pending.value.attempt.value < |s.backend.attempts|
                 && Resolved(s.backend.attempts[s.page.value.pending.value.attempt.value])))
  {
  }

  lemma {:induction false} HeldPageKeepsInv(s: System, page: Page)
    requires Inv(s) && s.page.Some?
    requires page.pending == s.page.value.pending && page.inFlight == s.page.value.inFlight
    requires page.card == s.page.value.card
    ensures Inv(s.(page := Some(page)))
  {
  }

  lemma {:induction false} PollKeepsInv(s: System, answers: bool, canWrite: bool)
    requires Inv(s) && canWrite
    ensures Inv(PollPage(s, answers, canWrite))
  {
    if s.page.Some? {
      PollParts(s, answers, canWrite);
      var t := PollPage(s, answers, canWrite);
      if t.storage == s.storage {
        HeldPageKeepsInv(s, t.page.value);
      } else {
        ResolvedMeansAllResolved(s, s.page.value.pending.value);
        DropKeepsInv(s, t.page.value);
      }
    }
  }

  lemma {:induction false} DropKeepsInv(s: System, page: Page)
    requires Inv(s) && s.page.Some? && s.page.value.pending.Some? && s.page.value.pending.value.attempt.Some?
    requires forall a <- s.backend.attempts :: Resolved(a)
    requires page.pending == s.page.value.pending && page.inFlight == s.page.value.inFlight
    ensures Inv(s.(storage := None, page := Some(page)))
  {
  }

  /** Once the attempt of the page's own intent is resolved, every attempt is. */
  lemma {:induction false} ResolvedMeansAllResolved(s: System, p: Intent)
    requires Inv(s) && s.page.Some? && s.page.value.pending == Some(p) && p.attempt.Some?
    ensures p.attempt.value < |s.backend.attempts|
    ensures Resolved(s.backend.attempts[p.attempt.value]) ==>
              forall i :: 0 <= i < |s.backend.attempts| ==> Resolved(s.backend.attempts[i])
  {
  }

  lemma {:induction false} CommitKeepsInv(s: System, request: nat, blocked: bool, canWrite: bool)
    requires Inv(s) && canWrite
    ensures Inv(CommitPage(s, request, blocked, canWrite))
  {
    if s.page.Some? {
      SubmitKeepsInv(s.(page := Some(s.page.value.(handled := request))), blocked, canWrite);
    }
  }

  lemma {:induction false} EvolveKeepsInv(s: System, e: Event)
    requires Inv(s) && e.Evolve?
    ensures Inv(Next(s, e))
  {
  }

  lemma {:induction false} NextKeepsInv(s: System, e: Event)
    requires Inv(s) && StorageWorks(e)
    ensures Inv(Next(s, e))
  {
    match e
    case Mount(_, _, _, _, _, _) =>
      if s.page.None? {
        MountKeepsInv(s, e);
      }
    case Submit(blocked, canWrite) => SubmitKeepsInv(s, blocked, canWrite);
    case Commit(request, blocked, canWrite) => CommitKeepsInv(s, request, blocked, canWrite);
    case Arrive(link, decision, canWrite) => ArriveKeepsInv(s, link, decision, canWrite);
    case Poll(answers, canWrite) => PollKeepsInv(s, answers, canWrite);
    case Evolve(_, _, _, _) => EvolveKeepsInv(s, e);
    case _ =>
  }

  lemma {:induction false} RunKeepsInv(s: System, events: seq<Event>)
    requires Start(s) && forall e <- events :: StorageWorks(e)
    ensures Inv(RunAll(s, events))
    decreases |events|
  {
    if events != [] {
      var before, last := events[..|events| - 1], events[|events| - 1];
      assert last in events && forall e <- before :: e in events;
      RunKeepsInv(s, before);
      NextKeepsInv(RunAll(s, before), last);
    }
  }

  // ---------------------------------------------------------------- one payment at a time

  /** Over any run of mounts, reloads, submits, lost answers, polls and backend progress in which
      the tab's storage works, two attempts are never both unresolved; the one that is belongs
      to the stored intent, and so does a request in flight that the backend has not recorded. */
  lemma {:induction false} OneUnresolvedPayment(s0: System, events: seq<Event>)
    requires Start(s0) && forall e <- events :: StorageWorks(e)
    ensures var s := RunAll(s0, events);
            && (forall i, j :: 0 <= i < j < |s.backend.attempts| ==>
                  Resolved(s.backend.attempts[i]) || Resolved(s.backend.attempts[j]))
            && (forall a <- s.backend.attempts ::
                  || (a.status == Captured && a.order)
                  || (a.status in {Failed, Expired} && a.allocation == Released)
                  || Stored(s, a.key))
            && (s.page.Some? && s.page.value.inFlight.Some? && s.page.value.inFlight.value.key !in s.backend.records ==>
                  Stored(s, s.page.value.inFlight.value.key))
  {
    RunKeepsInv(s0, events);
  }

  /** A new key is minted only when every earlier attempt is resolved. */
  lemma {:induction false} NewKeyOnlyWhenResolved(s: System, blocked: bool, canWrite: bool)
    requires Inv(s) && SubmitPage(s, blocked, canWrite).minted > s.minted
    ensures forall a <- s.backend.attempts ::
              (a.status == Captured && a.order) || (a.status in {Failed, Expired} && a.allocation == Released)
  {
  }

  /** Sending a stored intent again recovers the recorded answer and starts nothing. */
  lemma {:induction false} RetryRecovers(s: System, link: Link, decision: Decision, canWrite: bool)
    requires Inv(s) && s.page.Some? && s.page.value.inFlight.Some? && link.reaches && !link.barred && link.answers
    requires s.page.value.inFlight.value.key in s.backend.records
    ensures var t, key := ArrivePage(s, link, decision, canWrite), s.page.value.inFlight.value.key;
            && t.backend == s.backend && t.page.Some?
            && (s.backend.records[key].answer.Admitted? ==>
                  t.page.value.pending.Some? && t.page.value.pending.value.key == key
                  && t.page.value.pending.value.attempt == Some(s.backend.records[key].answer.attempt))
            && (s.backend.records[key].answer.Denied? ==> t.page.value.pending.None?)
  {
  }

  /** One click starts at most one payment: its number is spent whatever happened, and a page
      that is recovering an intent never sends on its own. */
  lemma {:induction false} ClickIsSpent(s: System, request: nat, blocked: bool, canWrite: bool)
    requires s.page.Some? && s.page.value.inFlight.None?
    ensures var t := CommitPage(s, request, blocked, canWrite);
            && t.page.Some? && t.page.value.handled >= request
            && (forall again: nat, b: bool, w: bool :: again <= request ==> CommitPage(t, again, b, w) == t)
            && (s.page.value.pending.Some? ==> t.page.value.inFlight.None? && t.minted == s.minted)
  {
  }

  // ---------------------------------------------------------------- what it rests on

  /** In every reachable state the discard at mount is safe: `reserveRequestSettled` looks at the
      newest attempt of the checkout, and when that is resolved everything is. */
  lemma {:induction false} SettledIsSafe(s: System)
    requires Inv(s) && s.storage.Some? && Settled(s.backend, s.storage.value.card.checkout)
    ensures forall a <- s.backend.attempts ::
              (a.status == Captured && a.order) || (a.status in {Failed, Expired} && a.allocation == Released)
  {
    if s.backend.attempts != [] {
      var last := s.backend.attempts[|s.backend.attempts| - 1];
      if !Resolved(last) {
        NewestIsLast(s.backend.attempts, last.checkout);
      }
    }
  }

  // ---------------------------------------------------------------- the component

  /** `ReserveCheckout` with the tab's storage and the backend beside it. */
  class ReserveCheckout {
    var mounted: bool
    var reviewed: Option<Card>
    var card: Option<Card>
    var authority: Option<nat>
    var pending: Option<Intent>
    var inFlight: Option<Intent>
    var confirmed: bool
    var lastFailure: Option<Allocation>
    var handledCommit: nat
    var storage: Option<Intent>
    var minted: nat
    var backend: Backend
    ghost var asked: map<nat, PayRequest>

    ghost function State(): System
      reads this
    {
      System(if mounted
             then Some(Page(reviewed, card, authority, pending, inFlight, confirmed, lastFailure, handledCommit))
             else None, storage, minted, backend, asked)
    }

    constructor ()
      ensures Start(State())
    {
      mounted, reviewed, card, authority, pending, inFlight := false, None, None, None, None, None;
      confirmed, lastFailure, handledCommit := false, None, 0;
      storage, minted, backend, asked := None, 0, Backend(map[], []), map[];
    }

    method SavePending(value: Option<Intent>, canWrite: bool)
      modifies this`storage
      ensures storage == if canWrite then value else old(storage)
    {
      if canWrite {
        storage := value;
      }
    }

    /** A new instance of the component: every piece of its state is fresh. */
    method OpenView(bill: Option<Card>)
      modifies this
      ensures State() == old(State()).(page := Some(Page(bill, None, None, None, None, false, None, 0)))
    {
      mounted := true;
      reviewed, card, authority, pending, inFlight := bill, None, None, None, None;
      confirmed, lastFailure, handledCommit := false, None, 0;
    }

    /** The mount effect: recover a stored intent, or show the reviewed bill. */
    method MountView(bill: Option<Card>, canRead: bool, settledAnswers: bool, permissionsAnswer: bool,
                     available: Option<nat>, canWrite: bool)
      requires !mounted
      modifies this
      ensures State() == Next(old(State()),
                              Mount(bill, canRead, settledAnswers, permissionsAnswer, available, canWrite))
    {
      OpenView(bill);
      if canRead && storage.Some? {
        var p := storage.value;
        if !settledAnswers {
          return;
        }
        if Settled(backend, p.card.checkout) {
          SavePending(None, canWrite);
        } else {
          if bill.None? || p.card.checkout != bill.value.checkout || p.card.hash != bill.value.hash {
            return;
          }
          pending, card, authority := Some(p), Some(p.card), Some(p.authority);
          return;
        }
      }
      if !permissionsAnswer || available.None? {
        return;
      }
      authority := available;
      card := bill;
    }

    method SubmitIntent(blocked: bool, canWrite: bool)
      modifies this
      ensures State() == Next(old(State()), Submit(blocked, canWrite))
    {
      if !mounted || inFlight.Some? || card.None? || authority.None? || (pending.None? && blocked) {
        return;
      }
      var p;
      if pending.Some? {
        p := pending.value;
      } else {
        p := Intent(card.value, authority.value, minted, None);
        asked := asked[minted := RequestOf(p)];
        minted := minted + 1;
      }
      pending := Some(p);
      SavePending(Some(p), canWrite);
      inFlight := Some(p);
    }

    method CommitRequest(request: nat, blocked: bool, canWrite: bool)
      modifies this
      ensures State() == Next(old(State()), Commit(request, blocked, canWrite))
    {
      if !mounted || request <= handledCommit || inFlight.Some? {
        return;
      }
      handledCommit := request;
      if card.None? || pending.Some? || blocked || reviewed.None?
         || card.value.hash != reviewed.value.hash || card.value.version != reviewed.value.version {
        return;
      }
      SubmitIntent(blocked, canWrite);
    }

    /** The answer, or the lack of one, to the request in flight. */
    method Answer(link: Link, decision: Decision, canWrite: bool)
      modifies this
      ensures State() == Next(old(State()), Arrive(link, decision, canWrite))
    {
      if !mounted || inFlight.None? {
        return;
      }
      var p := inFlight.value;
      var (after, outcome) := Pay(backend, p.key, RequestOf(p), link, decision);
      backend := after;
      inFlight := None;
      if !outcome.Answered? {
        return;
      }
      match outcome.answer
      case Denied(newCard) =>
        pending := None;
        SavePending(None, canWrite);
        if newCard.Some? {
          card := newCard;
        }
      case _ =>
        var next := p.(attempt := Some(outcome.answer.attempt));
        pending := Some(next);
        SavePending(Some(next), canWrite);
        lastFailure := None;
    }

    method PollStatus(answers: bool, canWrite: bool)
      modifies this
      ensures State() == Next(old(State()), Poll(answers, canWrite))
    {
      if !mounted || pending.None? || pending.value.attempt.None? || !answers
         || pending.value.attempt.value >= |backend.attempts| {
        return;
      }
      var a := backend.attempts[pending.value.attempt.value];
      if a.status == Captured && a.order && !confirmed {
        confirmed := true;
        SavePending(None, canWrite);
      } else if a.status in {Failed, Expired} && lastFailure != Some(a.allocation) {
        lastFailure := Some(a.allocation);
        if a.allocation == Released {
          SavePending(None, canWrite);
        }
      }
    }
  }
}
