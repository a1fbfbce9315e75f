/** The merchant's refund panel: an approval is stored before it is sent and retried as it was. */
module MerchantRefund {
  import opened Common
  import opened Runs
  import opened Idempotency

  // ---------------------------------------------------------------- the order's refunds

  datatype Status = Pending | Processed | Failed

  /** One refund of the order, with the approval it was admitted for if it is this panel's. */
  datatype Refund = Refund(approval: Option<Approval>, amount: int, status: Status)

  /** What was captured, whether the sale's refund window is still open, and the refunds so far. */
  datatype Book = Book(captured: int, open: bool, refunds: seq<Refund>)

  /** A refund holds its amount until the provider confirms that it failed. */
  function Reserved(refunds: seq<Refund>): int {
    if refunds == [] then 0
    else
      var last := refunds[|refunds| - 1];
      Reserved(refunds[..|refunds| - 1]) + (if last.status == Failed then 0 else last.amount)
  }

  /** The review the merchant is shown. Its hash binds all of it, so it stands for its hash. */
  datatype Review = Review(refundable: int, open: bool)

  function Offer(book: Book): Review {
    Review(if book.open then book.captured - Reserved(book.refunds) else 0, book.open)
  }

  /** What is approved; the case and the reason are fixed for the panel. */
  datatype Approval = Approval(amount: int, review: Review)

  /** The kernel's own rules: one refund in flight, an open window, and no more than remains. */
  predicate Admissible(book: Book, amount: int) {
    && (forall r <- book.refunds :: r.status != Pending)
    && book.open && 0 < amount <= book.captured - Reserved(book.refunds)
  }

  function AddRefund(book: Book, approval: Option<Approval>, amount: int): Book {
    book.(refunds := book.refunds + [Refund(approval, amount, Pending)])
  }

  /** The decision: the kernel's rules, and whatever else the sale's terms say. */
  function Admit(allows: bool): (Book, Approval) -> (Book, bool) {
    (book: Book, body: Approval) =>
      if allows && Admissible(book, body.amount)
      then (AddRefund(book, Some(body), body.amount), true) else (book, false)
  }

  // ---------------------------------------------------------------- the panel

  datatype Intent = Intent(key: nat, body: Approval)

  type Backend = Server<nat, Approval, bool, Book>

  datatype Panel = Panel(review: Option<Review>, pending: Option<Intent>, inFlight: Option<Intent>)

  /** The panel, the tab's storage, the keys minted, the backend, and a history: the keys whose
      answer has been received. */
  datatype System = System(panel: Panel, storage: Option<Intent>, minted: nat, backend: Backend, answered: set<nat>)

  datatype Event =
    | Reload(canRead: bool)
    | Refresh
    | Cancel
    | Approve(amount: Option<int>, canWrite: bool)
    | Arrive(link: Link, allows: bool, definite: bool, canWrite: bool)
    | Settle(refund: nat, failed: bool)
    | Elsewhere(refunded: int)
    | CloseWindow

  const MAX_SAFE: int := 9_007_199_254_740_991

  /** What the panel lets the merchant approve: a positive safe integer the review covers. */
  predicate ValidAmount(review: Option<Review>, amount: Option<int>) {
    review.Some? && amount.Some? && 0 < amount.value <= MAX_SAFE && amount.value <= review.value.refundable
  }

  /** Approving: the pending intent again, or a valid amount under a new key. The intent is
      written first; if storage refuses, the write throws and nothing is sent. */
  function ApproveNext(s: System, amount: Option<int>, canWrite: bool): System {
    if s.panel.inFlight.Some? then s
    else if s.panel.pending.Some? then s.(panel := s.panel.(inFlight := s.panel.pending))
    else if !ValidAmount(s.panel.review, amount) || !canWrite then s
    else
      var intent := Intent(s.minted, Approval(amount.value, s.panel.review.value));
      s.(panel := s.panel.(pending := Some(intent), inFlight := Some(intent)),
         storage := Some(intent), minted := s.minted + 1)
  }

  /** The delivery as the backend sees it: a review that no longer matches is refused by the
      operation, inside the claim. */
  function Delivery(book: Book, p: Intent, link: Link): Link {
    link.(refuses := link.refuses || p.body.review != Offer(book))
  }

  /** Whether the panel takes a refusal as definite. A changed review and a key bound to another
      request always are; a refusal ahead of the record, or by an earlier check of the operation,
      is if its status or title is listed. */
  predicate TakenAsDefinite(link: Link, definite: bool) {
    definite || (!link.barred && !link.refuses)
  }

  /** A decision, and a refusal taken as definite, end the intent; anything else keeps it. The
      stored intent goes first: if storage refuses, that throws and the panel keeps it too. */
  function ArriveNext(s: System, link: Link, allows: bool, definite: bool, canWrite: bool): System {
    if s.panel.inFlight.None? then s
    else
      var p := s.panel.inFlight.value;
      var (backend, outcome) := Send(s.backend, p.key, p.body, Delivery(s.backend.state, p, link), Admit(allows));
      var kept := s.(backend := backend, panel := s.panel.(inFlight := None),
                     answered := if outcome.Answered? then s.answered + {p.key} else s.answered);
      if (outcome.Answered? || (outcome.Refused? && TakenAsDefinite(link, definite))) && canWrite
      then kept.(panel := Panel(None, None, None), storage := None)
      else kept
  }

  /** The provider settles a refund, another surface is admitted one, or the window closes. */
  function EvolveBook(book: Book, e: Event): Book {
    match e
    case Settle(i, failed) =>
      if i >= |book.refunds| || book.refunds[i].status != Pending then book
      else book.(refunds := book.refunds[i := book.refunds[i].(status := if failed then Failed else Processed)])
    case Elsewhere(amount) => if Admissible(book, amount) then AddRefund(book, None, amount) else book
    case CloseWindow => book.(open := false)
    case _ => book
  }

  function Next(s: System, e: Event): System {
    match e
    case Reload(canRead) =>
      if s.panel.inFlight.Some? then s
      else s.(panel := Panel(None, if canRead then s.storage else None, None))
    case Refresh =>
      if s.panel.inFlight.Some? || s.panel.pending.Some? then s
      else s.(panel := s.panel.(review := Some(Offer(s.backend.state))))
    case Cancel =>
      if s.panel.inFlight.Some? || s.panel.pending.Some? then s else s.(panel := s.panel.(review := None))
    case Approve(amount, canWrite) => ApproveNext(s, amount, canWrite)
    case Arrive(link, allows, definite, canWrite) => ArriveNext(s, link, allows, definite, canWrite)
    case _ => s.(backend := s.backend.(state := EvolveBook(s.backend.state, e)))
  }

  function RunAll(s: System, events: seq<Event>): System { RunOf(Next, s, events) }

  // ---------------------------------------------------------------- invariants

  ghost predicate Start(s: System) {
    && s == System(Panel(None, None, None), None, 0, Server(map[], s.backend.state, []), {})
    && s.backend.state.captured >= 0 && s.backend.state.refunds == []
  }

  /** The approvals that were admitted, in the order they ran. */
  ghost function Granted(log: seq<Effect<nat, Approval, Book>>,
                         records: map<nat, Record<Approval, bool>>): seq<Approval>
    requires forall e <- log :: e.key in records
  {
    if log == [] then []
    else
      var e := log[|log| - 1];
      var rest := log[..|log| - 1];
      assert e in log && forall f <- rest :: f in log;
      Granted(rest, records) + (if records[e.key].answer then [e.request] else [])
  }

  /** The refunds of this panel's approvals, in the order they were admitted. */
  ghost function Ours(refunds: seq<Refund>): seq<Approval> {
    if refunds == [] then []
    else
      var last := refunds[|refunds| - 1];
      Ours(refunds[..|refunds| - 1]) + (if last.approval.Some? then [last.approval.value] else [])
  }

  /** The order's refunds are this panel's admitted approvals and other surfaces' refunds. */
  ghost predicate LedgerIsGranted(b: Backend) {
    && (forall e <- b.log :: e.key in b.records)
    && Ours(b.state.refunds) == Granted(b.log, b.records)
    && (forall r <- b.state.refunds :: r.approval.Some? ==> r.amount == r.approval.value.amount)
  }

  /** No more is out than was captured, and at most one refund, the newest, is on its way. */
  ghost predicate Covered(book: Book) {
    && 0 <= Reserved(book.refunds) <= book.captured && (forall r <- book.refunds :: r.amount > 0)
    && forall i :: 0 <= i < |book.refunds| - 1 ==> book.refunds[i].status != Pending
  }

  /** Each approval that was admitted ran on exactly the refunds its merchant had reviewed. */
  ghost predicate AsReviewed(b: Backend) {
    forall e <- b.log :: e.key in b.records && b.records[e.key].answer ==>
      Offer(e.before) == e.request.review && e.before.open && 0 < e.request.amount <= e.request.review.refundable
  }

  /** An intent and the record under its key, if there is one, are about the same approval. */
  ghost predicate Known(s: System, p: Intent) {
    p.key < s.minted && (p.key in s.backend.records ==> s.backend.records[p.key].request == p.body)
  }

  /** Whatever the panel has pending is what the tab has stored. */
  ghost predicate Inv(s: System) {
    && Once(s.backend)
    && (forall k <- s.backend.records :: k < s.minted)
    && (s.storage.Some? ==> Known(s, s.storage.value))
    && (s.panel.pending.Some? ==> s.panel.pending == s.storage)
    && (s.panel.inFlight.Some? ==> s.panel.inFlight == s.panel.pending)
  }

  ghost predicate BookInv(b: Backend) {
    Once(b) && LedgerIsGranted(b) && Covered(b.state) && AsReviewed(b)
  }

  /** Every approval the backend decided was heard of, or is the one stored. */
  ghost predicate NothingForgotten(s: System) {
    forall k <- s.backend.records :: k in s.answered || (s.storage.Some? && s.storage.value.key == k)
  }

  // ---------------------------------------------------------------- the ledger

  lemma {:induction false} GrantedKeeps(log: seq<Effect<nat, Approval, Book>>, a: map<nat, Record<Approval, bool>>,
                                        b: map<nat, Record<Approval, bool>>)
    requires forall e <- log :: e.key in a && e.key in b && a[e.key] == b[e.key]
    ensures Granted(log, a) == Granted(log, b)
  {
    if log != [] {
      assert log[|log| - 1] in log;
      GrantedKeeps(log[..|log| - 1], a, b);
    }
  }

  /** Settling a refund gives back at most its own amount, and leaves whose it is. */
  lemma {:induction false} SettledRefund(refunds: seq<Refund>, i: nat, status: Status)
    requires i < |refunds| && refunds[i].status == Pending && forall r <- refunds :: r.amount > 0
    ensures var after := refunds[i := refunds[i].(status := status)];
            && Ours(after) == Ours(refunds)
            && Reserved(after) == Reserved(refunds) - (if status == Failed then refunds[i].amount else 0)
  {
    var n := |refunds| - 1;
    var after := refunds[i := refunds[i].(status := status)];
    if i == n {
      assert after[..n] == refunds[..n];
    } else {
      SettledRefund(refunds[..n], i, status);
      assert after[..n] == refunds[..n][i := refunds[i].(status := status)];
    }
  }

  lemma {:induction false} ReservedIsNatural(refunds: seq<Refund>)
    requires forall r <- refunds :: r.amount > 0
    ensures Reserved(refunds) >= 0
  {
    if refunds != [] {
      ReservedIsNatural(refunds[..|refunds| - 1]);
    }
  }

  lemma {:induction false} AddedRefund(book: Book, approval: Option<Approval>, amount: int)
    ensures var after := AddRefund(book, approval, amount);
            && Reserved(after.refunds) == Reserved(book.refunds) + amount
            && Ours(after.refunds) == Ours(book.refunds) + (if approval.Some? then [approval.value] else [])
  {
    var after := AddRefund(book, approval, amount);
    assert after.refunds[..|book.refunds|] == book.refunds;
  }

  lemma {:induction false} SettledIsCovered(book: Book, i: nat, status: Status)
    requires Covered(book) && i < |book.refunds| && book.refunds[i].status == Pending && status != Pending
    ensures var after := book.(refunds := book.refunds[i := book.refunds[i].(status := status)]);
            Covered(after) && Ours(after.refunds) == Ours(book.refunds)
  {
    SettledRefund(book.refunds, i, status);
    ReservedIsNatural(book.refunds[i := book.refunds[i].(status := status)]);
  }

  lemma {:induction false} EvolvedIsCovered(book: Book, e: Event)
    requires Covered(book)
    ensures Covered(EvolveBook(book, e)) && Ours(EvolveBook(book, e).refunds) == Ours(book.refunds)
  {
    match e
    case Settle(i, failed) =>
      if i < |book.refunds| && book.refunds[i].status == Pending {
        SettledIsCovered(book, i, if failed then Failed else Processed);
      }
    case Elsewhere(amount) => AddedRefund(book, None, amount);
    case _ =>
  }

  lemma {:induction false} EvolveKeepsBook(b: Backend, e: Event)
    requires BookInv(b)
    ensures BookInv(b.(state := EvolveBook(b.state, e)))
  {
    EvolvedIsCovered(b.state, e);
  }

  lemma {:induction false} GrantedExtends(b: Backend, p: Intent, answer: bool)
    requires Once(b) && p.key !in b.records && forall e <- b.log :: e.key in b.records
    ensures var log, records := b.log + [Effect(p.key, p.body, b.state)], b.records[p.key := Record(p.body, answer)];
            && (forall f <- log :: f.key in records)
            && Granted(log, records) == Granted(b.log, b.records) + (if answer then [p.body] else [])
  {
    var e := Effect(p.key, p.body, b.state);
    var records := b.records[p.key := Record(p.body, answer)];
    GrantedKeeps(b.log, b.records, records);
    assert (b.log + [e])[..|b.log|] == b.log;
    assert (b.log + [e])[|b.log|] == e;
    assert forall f <- b.log + [e] :: f.key in records;
  }

  /** The backend once an approval ran, admitted or not. */
  ghost function Ran(b: Backend, p: Intent, answer: bool): Backend {
    Server(b.records[p.key := Record(p.body, answer)],
           if answer then AddRefund(b.state, Some(p.body), p.body.amount) else b.state,
           b.log + [Effect(p.key, p.body, b.state)])
  }

  lemma {:induction false} HandledIsRan(b: Backend, p: Intent, allows: bool)
    requires p.key !in b.records
    ensures Handle(b, p.key, p.body, false, Admit(allows)).0 == Ran(b, p, allows && Admissible(b.state, p.body.amount))
  {
  }

  lemma {:induction false} RanIsGranted(b: Backend, p: Intent, answer: bool)
    requires Once(b) && LedgerIsGranted(b) && p.key !in b.records
    ensures LedgerIsGranted(Ran(b, p, answer))
  {
    GrantedExtends(b, p, answer);
    AddedRefund(b.state, Some(p.body), p.body.amount);
  }

  lemma {:induction false} RanIsCovered(b: Backend, p: Intent, answer: bool)
    requires Covered(b.state) && (answer ==> Admissible(b.state, p.body.amount))
    ensures Covered(Ran(b, p, answer).state)
  {
    AddedRefund(b.state, Some(p.body), p.body.amount);
  }

  lemma {:induction false} RanIsReviewed(b: Backend, p: Intent, answer: bool)
    requires AsReviewed(b) && Once(b) && p.key !in b.records && p.body.review == Offer(b.state)
    requires answer ==> Admissible(b.state, p.body.amount)
    ensures AsReviewed(Ran(b, p, answer))
  {
    var after := Ran(b, p, answer);
    forall e | e in after.log && e.key in after.records && after.records[e.key].answer
      ensures Offer(e.before) == e.request.review && e.before.open
      ensures 0 < e.request.amount <= e.request.review.refundable
    {
      if e in b.log {
        assert e.key in b.records && e.key != p.key;
      }
    }
  }

  /** An approval that runs. */
  lemma {:induction false} RunKeepsBook(b: Backend, p: Intent, allows: bool)
    requires BookInv(b) && p.key !in b.records && p.body.review == Offer(b.state)
    ensures var after := Handle(b, p.key, p.body, false, Admit(allows)).0;
            LedgerIsGranted(after) && Covered(after.state) && AsReviewed(after)
  {
    var answer := allows && Admissible(b.state, p.body.amount);
    HandledIsRan(b, p, allows);
    RanIsGranted(b, p, answer);
    RanIsCovered(b, p, answer);
    RanIsReviewed(b, p, answer);
  }

  lemma {:induction false} SendKeepsBook(s: System, p: Intent, link: Link, allows: bool)
    requires BookInv(s.backend)
    ensures BookInv(Send(s.backend, p.key, p.body, Delivery(s.backend.state, p, link), Admit(allows)).0)
  {
    SendKeepsOnce(s.backend, p.key, p.body, Delivery(s.backend.state, p, link), Admit(allows));
    if p.key !in s.backend.records && p.body.review == Offer(s.backend.state) {
      RunKeepsBook(s.backend, p, allows);
    }
  }

  lemma {:induction false} NextKeepsBook(s: System, e: Event)
    requires BookInv(s.backend)
    ensures BookInv(Next(s, e).backend)
  {
    match e
    case Arrive(link, allows, _, _) =>
      if s.panel.inFlight.Some? {
        SendKeepsBook(s, s.panel.inFlight.value, link, allows);
      }
    case Settle(_, _) => EvolveKeepsBook(s.backend, e);
    case Elsewhere(_) => EvolveKeepsBook(s.backend, e);
    case CloseWindow => EvolveKeepsBook(s.backend, e);
    case _ =>
  }

  // ---------------------------------------------------------------- every step

  lemma {:induction false} ArriveKeepsInv(s: System, link: Link, allows: bool, definite: bool, canWrite: bool)
    requires Inv(s)
    ensures Inv(ArriveNext(s, link, allows, definite, canWrite))
  {
    if s.panel.inFlight.Some? {
      var p := s.panel.inFlight.value;
      SendKeepsOnce(s.backend, p.key, p.body, Delivery(s.backend.state, p, link), Admit(allows));
    }
  }

  lemma {:induction false} NextKeepsInv(s: System, e: Event)
    requires Inv(s)
    ensures Inv(Next(s, e))
  {
    match e
    case Arrive(link, allows, definite, canWrite) => ArriveKeepsInv(s, link, allows, definite, canWrite);
    case _ =>
  }

  lemma {:induction false} RunKeepsInv(s: System, events: seq<Event>)
    requires Start(s)
    ensures Inv(RunAll(s, events)) && BookInv(RunAll(s, events).backend)
    decreases |events|
  {
    if events != [] {
      RunKeepsInv(s, events[..|events| - 1]);
      NextKeepsInv(RunAll(s, events[..|events| - 1]), events[|events| - 1]);
      NextKeepsBook(RunAll(s, events[..|events| - 1]), events[|events| - 1]);
    }
  }

  // ---------------------------------------------------------------- stored before sent

  /** On every run, storage failing or not: what is in flight is stored, no key runs twice, and
      the order's refunds are exactly this panel's admitted approvals, each once and in order,
      beside those of other surfaces. */
  lemma {:induction false} StoredBeforeSent(s0: System, events: seq<Event>)
    requires Start(s0)
    ensures var s := RunAll(s0, events);
            && (s.panel.inFlight.Some? ==> s.storage == s.panel.inFlight)
            && (forall i, j :: 0 <= i < j < |s.backend.log| ==> s.backend.log[i].key != s.backend.log[j].key)
            && LedgerIsGranted(s.backend)
  {
    RunKeepsInv(s0, events);
  }

  /** However often approvals are sent, reviewed late or crossed by other refunds, what is out
      never exceeds what was captured, only the newest refund can be on its way, and each approval
      that was admitted found the refundable amount its merchant had been shown. */
  lemma {:induction false} NeverOverCapture(s0: System, events: seq<Event>)
    requires Start(s0)
    ensures var s := RunAll(s0, events);
            && Reserved(s.backend.state.refunds) <= s.backend.state.captured
            && (forall i :: 0 <= i < |s.backend.state.refunds| - 1 ==> s.backend.state.refunds[i].status != Pending)
            && AsReviewed(s.backend)
  {
    RunKeepsInv(s0, events);
  }

  /** What the panel does with a press on approve. With a request in flight, nothing; with an approval
      pending, that approval; else a new one exactly if a review is shown, the amount is positive,
      a safe integer and no more than the review says, and storage takes it: for that amount, under
      that review, and under the next key. */
  lemma {:induction false} NewApprovalIff(s: System, amount: Option<int>, canWrite: bool)
    ensures var t := ApproveNext(s, amount, canWrite);
            && (t.minted != s.minted <==>
                  && s.panel.inFlight.None? && s.panel.pending.None? && s.panel.review.Some? && amount.Some?
                  && 1 <= amount.value <= 9_007_199_254_740_991 && amount.value <= s.panel.review.value.refundable
                  && canWrite)
            && (t.minted != s.minted ==>
                  var p := Intent(s.minted, Approval(amount.value, s.panel.review.value));
                  t == s.(minted := s.minted + 1, storage := Some(p),
                          panel := Panel(s.panel.review, Some(p), Some(p))))
            && (t.minted == s.minted ==>
                  t == if s.panel.inFlight.None? && s.panel.pending.Some?
                       then s.(panel := s.panel.(inFlight := s.panel.pending)) else s)
  {
  }

  /** What the refunds of an order leave to refund while its window is open; nothing after that. */
  lemma {:induction false} OfferIsWhatIsLeft(book: Book, amount: int)
    ensures book.refunds == [] ==> Offer(book) == Review(if book.open then book.captured else 0, book.open)
    ensures book.open ==>
              forall approval, status ::
                var more := book.(refunds := book.refunds + [Refund(approval, amount, status)]);
                Offer(more).refundable == Offer(book).refundable - (if status == Failed then 0 else amount)
    ensures !book.open ==> Offer(book) == Review(0, false)
  {
    forall approval, status ensures
      var more := book.refunds + [Refund(approval, amount, status)];
      Reserved(more) == Reserved(book.refunds) - (if status == Failed then 0 else -amount)
    {
      var more := book.refunds + [Refund(approval, amount, status)];
      assert more[..|book.refunds|] == book.refunds;
    }
  }

  /** What becomes of an approval that is delivered. It runs exactly if it gets past the gate and the
      operation's own checks under an unused key and the order can be refunded what it could at its
      review; then it is admitted exactly if no refund is on its way, the window is open, the amount
      fits and the sale's other terms allow it. */
  lemma {:induction false} DeliveredApproval(s: System, link: Link, allows: bool, definite: bool, canWrite: bool)
    requires Inv(s) && s.panel.inFlight.Some?
    ensures var t, p := ArriveNext(s, link, allows, definite, canWrite), s.panel.inFlight.value;
            var book := s.backend.state;
            var runs := link.reaches && !link.barred && !link.refuses && p.key !in s.backend.records
                        && p.body.review == Offer(book);
            var admits := allows && book.open && 0 < p.body.amount <= book.captured - Reserved(book.refunds)
                          && forall r <- book.refunds :: r.status == Processed || r.status == Failed;
            && t.panel.inFlight.None?
            && (!runs ==> t.backend == s.backend)
            && (runs ==> t.backend.records == s.backend.records[p.key := Record(p.body, admits)]
                         && t.backend.state == if admits
                                               then book.(refunds := book.refunds
                                                                     + [Refund(Some(p.body), p.body.amount, Pending)])
                                               else book)
  {
  }

  /** When the panel is done with an approval: storage gives it up, an answer arrives, and it is the
      decision, or a refusal whose status or title is listed, that the review has changed among them. */
  lemma {:induction false} ApprovalEndsIff(s: System, link: Link, allows: bool, definite: bool, canWrite: bool)
    requires Inv(s) && s.panel.inFlight.Some?
    ensures var t, p := ArriveNext(s, link, allows, definite, canWrite), s.panel.inFlight.value;
            && (t.panel.pending.None? <==>
                  && canWrite && link.reaches && link.answers
                  && (definite || (!link.barred && (p.key in s.backend.records || !link.refuses))))
            && (t.panel.pending.None? ==> t.panel == Panel(None, None, None) && t.storage.None?)
            && (t.panel.pending.Some? ==> t.panel == s.panel.(inFlight := None) && t.storage == s.storage)
            && (p.key in t.answered <==>
                  || p.key in s.answered
                  || (&& link.reaches && link.answers && !link.barred
                      && (p.key in s.backend.records || (!link.refuses && p.body.review == Offer(s.backend.state)))))
  {
  }

  /** A mount takes up what storage holds, if it can be read, and shows no review; a review is fetched
      or put away only with nothing pending. Nothing of this happens while a request is in flight. */
  lemma {:induction false} PanelIs(s: System, canRead: bool)
    ensures var t := Next(s, Reload(canRead));
            && t == s.(panel := t.panel)
            && (s.panel.inFlight.Some? ==> t == s)
            && (s.panel.inFlight.None? ==>
                  && t.panel.review.None? && t.panel.inFlight.None?
                  && (canRead ==> t.panel.pending == s.storage) && (!canRead ==> t.panel.pending.None?))
    ensures var t, u := Next(s, Refresh), Next(s, Cancel);
            if s.panel.inFlight.Some? || s.panel.pending.Some? then t == s && u == s
            else
              && t == s.(panel := Panel(Some(Offer(s.backend.state)), None, None))
              && u == s.(panel := Panel(None, None, None))
  {
  }

  /** A pending refund settles once, whole or not at all; a refund from elsewhere is admitted exactly
      when none is on its way, the window is open and it fits; and a closed window stays closed. */
  lemma {:induction false} BookMoves(book: Book, i: nat, failed: bool, amount: int)
    ensures var settled := EvolveBook(book, Settle(i, failed));
            && settled == book.(refunds := settled.refunds) && |settled.refunds| == |book.refunds|
            && forall k :: 0 <= k < |book.refunds| ==>
                 var was := book.refunds[k];
                 settled.refunds[k] == if k == i && was.status == Pending
                                       then Refund(was.approval, was.amount, if failed then Failed else Processed)
                                       else was
    ensures var admitted := EvolveBook(book, Elsewhere(amount));
            if && book.open && 0 < amount <= book.captured - Reserved(book.refunds)
               && forall r <- book.refunds :: r.status == Processed || r.status == Failed
            then admitted == book.(refunds := book.refunds + [Refund(None, amount, Pending)])
            else admitted == book
    ensures var closed := EvolveBook(book, CloseWindow); !closed.open && closed == book.(open := closed.open)
  {
  }

  lemma {:induction false} BookEvents(s: System, e: Event)
    requires e.Settle? || e.Elsewhere? || e.CloseWindow?
    ensures Next(s, e) == s.(backend := s.backend.(state := EvolveBook(s.backend.state, e)))
  {
  }

  /** With an approval pending, approving again, whatever is typed and whatever storage does,
      sends the pending approval under its own key. */
  lemma RetryIsTheSame(s: System, amount: Option<int>, canWrite: bool)
    requires Inv(s) && s.panel.pending.Some? && s.panel.inFlight.None?
    ensures var t := ApproveNext(s, amount, canWrite);
            t.panel.inFlight == s.panel.pending && t.minted == s.minted && t.storage == s.storage
  {
  }

  /** and if that approval had been decided, the answer is the recorded decision, even though the
      review it carries is out of date by then. */
  lemma {:induction false} RetryRecovers(s: System, link: Link, allows: bool, definite: bool, canWrite: bool)
    requires Inv(s) && s.panel.inFlight.Some? && s.panel.inFlight.value.key in s.backend.records
    requires link.reaches && !link.barred && link.answers
    ensures var t, p := ArriveNext(s, link, allows, definite, canWrite), s.panel.inFlight.value;
            && t.backend == s.backend && p.key in t.answered
            && (canWrite ==> t.panel.pending.None? && t.storage.None?)
  {
  }

  // ---------------------------------------------------------------- nothing forgotten

  /** A step forgets an approval that was decided unheard exactly when the panel, holding nothing,
      is let approve over a stored one it could not read back, or takes a refusal ahead of the
      record as definite. */
  ghost predicate Forgets(s: System, e: Event) {
    match e
    case Approve(amount, canWrite) =>
      && Unheard(s) && s.panel.inFlight.None? && s.panel.pending.None?
      && ValidAmount(s.panel.review, amount) && canWrite
    case Arrive(link, _, definite, canWrite) =>
      && s.panel.inFlight.Some? && Unheard(s)
      && link.reaches && link.barred && link.answers && definite && canWrite
    case _ => false
  }

  /** The stored approval was decided, and the panel never heard. */
  ghost predicate Unheard(s: System) {
    s.storage.Some? && s.storage.value.key in s.backend.records && s.storage.value.key !in s.answered
  }

  lemma {:induction false} ArriveForgetsExactly(s: System, link: Link, allows: bool, definite: bool, canWrite: bool)
    requires Inv(s) && NothingForgotten(s) && s.panel.inFlight.Some?
    ensures NothingForgotten(ArriveNext(s, link, allows, definite, canWrite))
            <==> !Forgets(s, Arrive(link, allows, definite, canWrite))
  {
    var p := s.panel.inFlight.value;
    SendKeepsOnce(s.backend, p.key, p.body, Delivery(s.backend.state, p, link), Admit(allows));
    if Forgets(s, Arrive(link, allows, definite, canWrite)) {
      assert p.key in ArriveNext(s, link, allows, definite, canWrite).backend.records;
    }
  }

  lemma {:induction false} ForgetsExactly(s: System, e: Event)
    requires Inv(s) && NothingForgotten(s)
    ensures NothingForgotten(Next(s, e)) <==> !Forgets(s, e)
  {
    match e
    case Arrive(link, allows, definite, canWrite) =>
      if s.panel.inFlight.Some? {
        ArriveForgetsExactly(s, link, allows, definite, canWrite);
      }
    case Approve(_, _) =>
      if Forgets(s, e) {
        assert s.storage.value.key in Next(s, e).backend.records;
      }
    case _ =>
  }

  /** A run in which storage can be read back and no refusal ahead of the record is taken as
      definite. */
  predicate Benign(e: Event) {
    match e
    case Reload(canRead) => canRead
    case Arrive(link, _, definite, _) => !(link.barred && definite)
    case _ => true
  }

  lemma {:induction false} BenignRunForgetsNothing(s0: System, events: seq<Event>)
    requires Start(s0) && forall e <- events :: Benign(e)
    ensures var s := RunAll(s0, events);
            NothingForgotten(s) && (s.storage.Some? ==> s.panel.pending == s.storage)
    decreases |events|
  {
    if events != [] {
      var before, last := events[..|events| - 1], events[|events| - 1];
      assert last in events && forall e <- before :: e in events;
      BenignRunForgetsNothing(s0, before);
      RunKeepsInv(s0, before);
      ForgetsExactly(RunAll(s0, before), last);
    }
  }

  /** In such a run at most one decided approval is unheard, and a new key is made only when
      there is none: never a second approval while the outcome of the first is unknown. */
  lemma {:induction false} OneUnheardApproval(s0: System, events: seq<Event>, amount: Option<int>, canWrite: bool)
    requires Start(s0) && forall e <- events :: Benign(e)
    ensures var s := RunAll(s0, events);
            && (forall k <- s.backend.records, l <- s.backend.records ::
                  k !in s.answered && l !in s.answered ==> k == l)
            && (ApproveNext(s, amount, canWrite).minted > s.minted ==> forall k <- s.backend.records :: k in s.answered)
  {
    BenignRunForgetsNothing(s0, events);
  }

  const LOST := Link(true, false, false, false)
  const BARRED := Link(true, true, false, true)
  const GOOD := Link(true, false, false, true)

  /** Approving `amount` of what is refundable now, and the answer as the link has it. */
  function Approving(amount: int, link: Link): seq<Event> {
    [Refresh, Approve(Some(amount), true), Arrive(link, true, false, true)]
  }

  /** An idle panel's approval is admitted, and the answer is heard or lost. */
  lemma {:induction false} ApprovalIsAdmitted(s: System, amount: int, link: Link)
    requires s.panel.inFlight.None? && s.panel.pending.None? && s.storage.None? && s.minted !in s.backend.records
    requires Admissible(s.backend.state, amount) && amount <= MAX_SAFE && (link == GOOD || link == LOST)
    ensures var t, body := RunAll(s, Approving(amount, link)), Approval(amount, Offer(s.backend.state));
            var p := Some(Intent(s.minted, body));
            && t.backend.state == AddRefund(s.backend.state, Some(body), amount) && t.minted == s.minted + 1
            && t.backend.records == s.backend.records[s.minted := Record(body, true)] && t.panel.inFlight.None?
            && t.answered == (if link.answers then s.answered + {s.minted} else s.answered)
            && t.panel.pending == t.storage == (if link.answers then None else p)
  {
    RunOfThree(Next, s, Refresh, Approve(Some(amount), true), Arrive(link, true, false, true));
    var review := Offer(s.backend.state);
    var p := Intent(s.minted, Approval(amount, review));
    var s1 := s.(panel := s.panel.(review := Some(review)));
    assert Next(s, Refresh) == s1;
    var s2 := s1.(panel := Panel(Some(review), Some(p), Some(p)), storage := Some(p), minted := s.minted + 1);
    assert Next(s1, Approve(Some(amount), true)) == s2;
    assert Admit(true)(s.backend.state, p.body) == (AddRefund(s.backend.state, Some(p.body), amount), true);
  }

  /** The first refund settles, and the retry of its approval is refused ahead of the record. */
  const TURNED_AWAY: seq<Event> := [Settle(0, false), Approve(None, true), Arrive(BARRED, true, true, true)]

  lemma {:induction false} RetryIsTurnedAway(s: System)
    requires s.panel.inFlight.None? && s.panel.pending.Some? && s.backend.state.refunds != []
    requires s.backend.state.refunds[0].status == Pending
    ensures var t, r := RunAll(s, TURNED_AWAY), s.backend.state.refunds;
            && t.panel == Panel(None, None, None) && t.storage.None? && t.minted == s.minted && t.answered == s.answered
            && t.backend == s.backend.(state := s.backend.state.(refunds := r[0 := r[0].(status := Processed)]))
  {
    RunOfThree(Next, s, Settle(0, false), Approve(None, true), Arrive(BARRED, true, true, true));
  }

  /** One refund, settled, that no answer told of. */
  ghost predicate OneForgotten(s: System, captured: int, first: Refund) {
    && s.panel == Panel(None, None, None) && s.storage.None? && s.minted == 1 && s.answered == {}
    && s.backend.records.Keys == {0} && s.backend.state == Book(captured, true, [first])
  }

  lemma {:induction false} RetryForgets(s0: System, amount: int)
    requires Start(s0) && s0.backend.state.open && 0 < amount <= MAX_SAFE && amount <= s0.backend.state.captured
    ensures OneForgotten(RunAll(s0, Approving(amount, LOST) + TURNED_AWAY), s0.backend.state.captured,
                         Refund(Some(Approval(amount, Offer(s0.backend.state))), amount, Processed))
  {
    RunAppend(Next, s0, Approving(amount, LOST), TURNED_AWAY);
    ApprovalIsAdmitted(s0, amount, LOST);
    RetryIsTurnedAway(RunAll(s0, Approving(amount, LOST)));
  }

  lemma {:induction false} ApprovedAgain(s: System, captured: int, first: Refund)
    requires OneForgotten(s, captured, first) && first.status == Processed
    requires 0 < first.amount <= MAX_SAFE && 2 * first.amount <= captured
    ensures var t := RunAll(s, Approving(first.amount, GOOD));
            && |t.backend.state.refunds| == 2 && Reserved(t.backend.state.refunds) == 2 * first.amount
            && t.backend.records.Keys == {0, 1} && t.answered == {1} && t.storage.None? && t.panel.pending.None?
  {
    assert [first][..0] == [];
    assert Reserved([first]) == first.amount;
    ApprovalIsAdmitted(s, first.amount, GOOD);
    AddedRefund(s.backend.state, Some(Approval(first.amount, Offer(s.backend.state))), first.amount);
  }

  /** An answer lost, the refund settled, the retry turned away ahead of the record: the browser
      mount answers 404 while the demo is switched off, and a session may expire between the
      mount's check and the route's. The panel drops the approval, and reviewing afresh the
      merchant approves the same amount again. The order is refunded twice; of the first refund
      nothing was heard, and nothing stored tells. */
  lemma {:induction false} BarredRetryForgets(s0: System, amount: int)
    requires Start(s0) && s0.backend.state.open && 0 < amount <= MAX_SAFE && 2 * amount <= s0.backend.state.captured
    ensures var s := RunAll(s0, Approving(amount, LOST) + TURNED_AWAY + Approving(amount, GOOD));
            && |s.backend.state.refunds| == 2 && Reserved(s.backend.state.refunds) == 2 * amount
            && s.backend.records.Keys == {0, 1} && s.answered == {1} && s.storage.None? && s.panel.pending.None?
  {
    RunAppend(Next, s0, Approving(amount, LOST) + TURNED_AWAY, Approving(amount, GOOD));
    RetryForgets(s0, amount);
    ApprovedAgain(RunAll(s0, Approving(amount, LOST) + TURNED_AWAY), s0.backend.state.captured,
                  Refund(Some(Approval(amount, Offer(s0.backend.state))), amount, Processed));
  }

  // ---------------------------------------------------------------- the component

  /** `MerchantRefund` with the tab's storage and the backend beside it. */
  class MerchantRefund {
    var review: Option<Review>
    var pending: Option<Intent>
    var inFlight: Option<Intent>
    var storage: Option<Intent>
    var minted: nat
    var backend: Backend
    ghost var answered: set<nat>

    ghost function State(): System
      reads this
    {
      System(Panel(review, pending, inFlight), storage, minted, backend, answered)
    }

    constructor (captured: nat, open: bool)
      ensures Start(State())
      ensures backend.state == Book(captured, open, [])
    {
      review, pending, inFlight, storage := None, None, None, None;
      minted, backend, answered := 0, Server(map[], Book(captured, open, []), []), {};
    }

    /** A new mount: the effect reads the stored approval back. */
    method Remount(canRead: bool)
      modifies this
      ensures State() == Next(old(State()), Reload(canRead))
    {
      if inFlight.Some? {
        return;
      }
      review, pending := None, None;
      if canRead && storage.Some? {
        pending := storage;
      }
    }

    method ShowReview()
      modifies this
      ensures State() == Next(old(State()), Refresh)
    {
      if inFlight.None? && pending.None? {
        review := Some(Offer(backend.state));
      }
    }

    method ApproveRefund(approvedMinor: Option<int>, canWrite: bool)
      modifies this
      ensures State() == Next(old(State()), Approve(approvedMinor, canWrite))
    {
      if inFlight.Some? {
        return;
      }
      var intent := pending;
      if intent.None? {
        if review.None? || approvedMinor.None? || approvedMinor.value <= 0 || approvedMinor.value > MAX_SAFE
           || approvedMinor.value > review.value.refundable {
          return;
        }
        if !canWrite {
          return;
        }
        intent := Some(Intent(minted, Approval(approvedMinor.value, review.value)));
        minted := minted + 1;
        storage := intent;
        pending := intent;
      }
      inFlight := intent;
    }

    /** The answer, or the lack of one, to the approval in flight. */
    method Answer(link: Link, allows: bool, definite: bool, canWrite: bool)
      modifies this
      ensures State() == Next(old(State()), Arrive(link, allows, definite, canWrite))
    {
      if inFlight.None? {
        return;
      }
      var p := inFlight.value;
      var (after, outcome) := Send(backend, p.key, p.body, Delivery(backend.state, p, link), Admit(allows));
      backend := after;
      inFlight := None;
      if outcome.Answered? {
        answered := answered + {p.key};
      }
      if outcome.Unknown? || (outcome.Refused? && !TakenAsDefinite(link, definite)) || !canWrite {
        return;
      }
      storage := None;
      pending := None;
      review := None;
    }
  }
}
