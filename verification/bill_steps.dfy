/** What each step of the review screen's build does, and that a build nothing disturbs ends
    with the bill. */
module BillSteps {
  import opened Common
  import opened Runs
  import opened Idempotency
  import opened BasketSignature
  import opened AuthoritativeBill

  // ---------------------------------------------------------------- the backend's carts

  /** A cart that can be edited: it is open, or its checkout can be taken back. */
  ghost predicate Editable(shop: Shop, c: nat) {
    c < |shop.carts| &&
    (shop.carts[c].open
     || exists id: nat ::
          shop.carts[c].checkout == Some(id) && id < |shop.checkouts| && TakenBack(shop.checkouts[id]))
  }

  ghost predicate TakenBack(c: Checkout) {
    c.stage == ApprovalRequired || c.stage == Approved || c.stage == PaymentFailed
  }

  lemma {:induction false} EditableIff(shop: Shop, c: nat)
    requires c < |shop.carts|
    ensures Editable(shop, c) <==> !Stuck(shop, c)
  {
    if !Stuck(shop, c) && !shop.carts[c].open {
      var id := shop.carts[c].checkout.value;
      assert shop.carts[c].checkout == Some(id) && TakenBack(shop.checkouts[id]);
    }
  }

  lemma {:induction false} WithoutCounts(lines: seq<Line>, sku: string, l: Line)
    ensures multiset(Without(lines, sku))[l] == if l.sku == sku then 0 else multiset(lines)[l]
  {
    if lines != [] {
      WithoutCounts(lines[..|lines| - 1], sku, l);
      assert lines == lines[..|lines| - 1] + [lines[|lines| - 1]];
    }
  }

  /** The lines after a line was set: the other SKUs' as they were, this SKU's exactly the new one
      unless its quantity is nought. */
  ghost predicate LineIsIn(was: seq<Line>, line: Line, now: seq<Line>) {
    forall l :: multiset(now)[l] ==
      if l.sku != line.sku then multiset(was)[l] else if l == line && line.quantity > 0 then 1 else 0
  }

  lemma {:induction false} PutIs(lines: seq<Line>, line: Line)
    ensures LineIsIn(lines, line, Put(lines, line))
  {
    forall l ensures multiset(Put(lines, line))[l] ==
                       if l.sku != line.sku then multiset(lines)[l]
                       else if l == line && line.quantity > 0 then 1 else 0
    {
      WithoutCounts(lines, line.sku, l);
    }
  }

  /** A line is set if and only if its quantity is between nought and ninety-nine and the cart can
      be edited. The cart is open again, and the checkout it was closed behind has ended. */
  lemma {:induction false} SetLineIs(shop: Shop, c: nat, line: Line, unavailable: bool)
    ensures var (t, answer) := Execute(unavailable)(shop, SetLine(c, line));
            if !(Editable(shop, c) && 0 <= line.quantity <= 99) then t == shop && Refuses(shop, SetLine(c, line))
            else
              && !Refuses(shop, SetLine(c, line)) && answer == CartIs(c, unavailable)
              && |t.carts| == |shop.carts| && |t.checkouts| == |shop.checkouts|
              && t.carts[c].open && t.carts[c].checkout == shop.carts[c].checkout
              && LineIsIn(shop.carts[c].lines, line, t.carts[c].lines)
              && (forall i :: 0 <= i < |shop.carts| && i != c ==> t.carts[i] == shop.carts[i])
              && (forall id :: 0 <= id < |shop.checkouts| ==>
                    t.checkouts[id] == (if !shop.carts[c].open && shop.carts[c].checkout == Some(id)
                                        then shop.checkouts[id].(stage := Ended) else shop.checkouts[id]))
  {
    if c < |shop.carts| {
      EditableIff(shop, c);
      PutIs(shop.carts[c].lines, line);
    }
  }

  /** A checkout opens if and only if the cart can be edited and holds something. A cart has one
      checkout: opening it again puts its present lines in that checkout's place. */
  lemma {:induction false} OpenCheckoutIs(shop: Shop, c: nat)
    ensures var (t, answer) := Execute(false)(shop, OpenCheckout(c));
            if !(Editable(shop, c) && shop.carts[c].lines != []) then t == shop && Refuses(shop, OpenCheckout(c))
            else
              && !Refuses(shop, OpenCheckout(c)) && answer.CardIs? && answer.lines == shop.carts[c].lines
              && (var id, n := answer.checkout, |shop.checkouts|;
                  && id == (if shop.carts[c].checkout.Some? && shop.carts[c].checkout.value < n
                            then shop.carts[c].checkout.value else n)
                  && |t.checkouts| == (if id == n then n + 1 else n)
                  && t.checkouts[id] == Checkout(c, shop.carts[c].lines, ApprovalRequired)
                  && (forall i :: 0 <= i < n && i != id ==> t.checkouts[i] == shop.checkouts[i])
                  && |t.carts| == |shop.carts|
                  && t.carts[c] == Cart(shop.carts[c].lines, false, Some(id))
                  && (forall i :: 0 <= i < |shop.carts| && i != c ==> t.carts[i] == shop.carts[i]))
  {
    if c < |shop.carts| {
      EditableIff(shop, c);
    }
  }

  /** A used key brings its answer back, a request that is not let in does nothing, and neither does
      one the backend refuses; any other runs and is recorded with its answer. */
  lemma {:induction false} DeliveriesAre(b: Backend, key: nat, m: Mutation, link: Link, unavailable: bool)
    ensures var (after, outcome) := Deliver(b, key, m, link, unavailable);
            && (key in b.records || Refuses(b.state, m) || !link.reaches || link.barred || link.refuses ==> after == b)
            && (key !in b.records && !Refuses(b.state, m) && link.reaches && !link.barred && !link.refuses ==>
                  var (state, answer) := Execute(unavailable)(b.state, m);
                  after.state == state && after.records == b.records[key := Record(m, answer)])
            && outcome == (if !link.reaches || !link.answers then Unknown
                           else if link.barred then Refused
                           else if key in after.records && after.records[key].request == m
                           then Answered(after.records[key].answer) else Refused)
  {
  }

  // ---------------------------------------------------------------- the build's steps

  /** A build walks from the newest checkout on. The keys are those held before exactly if they
      were minted for the same lines; otherwise both are new. */
  lemma {:induction false} BuildStarts(s: System, request: seq<Line>)
    requires Inv(s) && BarFree(request)
    ensures var t, lines := Next(s, Begin(request)), Positive(request);
            && t.build == Some(Build(lines, Walk([], Some(|s.backend.state.checkouts|))))
            && t.shown.None? && t.backend == s.backend && t.held.Some?
            && if s.held.Some? && multiset(s.held.value.basket) == multiset(lines)
               then t.held == s.held && t.minted == s.minted
               else
                 && s.minted <= t.held.value.cart < t.minted && s.minted <= t.held.value.checkout < t.minted
                 && t.held.value.cart != t.held.value.checkout
                 && t.held.value.basket == lines && t.held.value.lines == map[]
  {
    if s.held.Some? {
      SameSignature(s.held.value.basket, Positive(request));
    }
  }

  /** The keys outlive an abort and not a reload: the next build of the same lines goes on under
      them after the one, and under new keys after the other. */
  lemma {:induction false} KeysOutliveAborts(s: System, request: seq<Line>)
    requires Inv(s) && BarFree(request) && s.held.Some? && multiset(s.held.value.basket) == multiset(Positive(request))
    ensures Next(Next(s, Abort), Begin(request)).held == s.held
    ensures var t := Next(Next(s, Reload), Begin(request));
            t.held.Some? && t.held.value.cart >= s.minted && t.held.value.checkout >= s.minted
    ensures Next(s, Abort).build.None? && Next(s, Abort).backend == s.backend
    ensures Next(s, Reload).build.None? && Next(s, Reload).backend == s.backend
    ensures Next(s, Abort).shown == s.shown && Next(s, Reload).shown.None?
  {
    BuildStarts(Next(s, Abort), request);
    BuildStarts(Next(s, Reload), request);
  }

  ghost predicate Decreasing(ids: seq<nat>) { forall i, j :: 0 <= i < j < |ids| ==> ids[i] > ids[j] }

  lemma {:induction false} RowsDecrease(checkouts: seq<Checkout>, from: nat, to: nat)
    requires from <= to <= |checkouts|
    ensures Decreasing(Rows(checkouts, from, to))
  {
    if from < to {
      RowsDecrease(checkouts, from, to - 1);
      var rest := Rows(checkouts, from, to - 1);
      assert forall i :: 0 <= i < |rest| ==> rest[i] in rest;
    }
  }

  /** A row the walk has to read: it is on the page and can be resumed. */
  ghost predicate Listed(shop: Shop, id: nat, from: nat, to: nat) {
    && from <= id < to && id < |shop.checkouts|
    && (shop.checkouts[id].stage == Reserved || shop.checkouts[id].stage == ApprovalRequired)
  }

  ghost predicate AtPage(s: System) {
    s.build.Some? && s.build.value.phase.Walk? && s.build.value.phase.queue == [] && s.build.value.phase.cursor.Some?
  }

  /** A page leaves exactly its resumable rows to read, newest first, and where the next page
      starts; a last page with no such row ends the walk, and a page that fails ends the build. */
  lemma {:induction false} PageIs(s: System, ok: bool, size: nat)
    requires AtPage(s)
    ensures var t, shop := Next(s, List(ok, size)), s.backend.state;
            var to := Min(s.build.value.phase.cursor.value, |shop.checkouts|); var from := Max(0, to - 1 - size);
            && t == s.(build := t.build) && (t.build.Some? <==> ok)
            && (ok ==>
                  && t.build.value.lines == s.build.value.lines
                  && ((t.build.value.phase == OpenCart && from == 0 && forall id: nat :: !Listed(shop, id, from, to))
                      || (&& t.build.value.phase.Walk?
                          && t.build.value.phase.cursor == (if from == 0 then None else Some(from))
                          && Decreasing(t.build.value.phase.queue)
                          && (from > 0 || t.build.value.phase.queue != [])
                          && forall id: nat :: id in t.build.value.phase.queue <==> Listed(shop, id, from, to))))
  {
    var shop := s.backend.state;
    var to := Min(s.build.value.phase.cursor.value, |shop.checkouts|);
    var from := Max(0, to - 1 - size);
    RowsDecrease(shop.checkouts, from, to);
    var rows := Rows(shop.checkouts, from, to);
    assert forall id: nat :: id in rows <==> Listed(shop, id, from, to);
    assert rows != [] ==> rows[0] in rows;
  }

  ghost predicate AtRow(s: System) {
    s.build.Some? && s.build.value.phase.Walk? && s.build.value.phase.queue != []
  }

  /** A row is adopted exactly if it waits for approval and has the wanted lines; any other is
      passed, and the last one of the last page ends the walk. A read that fails ends the build. */
  ghost predicate RowRead(s: System, t: System, ok: bool)
    requires AtRow(s)
  {
    var b := s.build.value;
    var id, rows := b.phase.queue[0], s.backend.state.checkouts;
    if !ok || id >= |rows| then t == s.(build := None)
    else if rows[id].stage == ApprovalRequired && multiset(rows[id].lines) == multiset(b.lines)
    then t == s.(build := None, shown := Some(Bill(b.lines, rows[id].lines, id)))
    else t == s.(build := Some(Build(b.lines, if |b.phase.queue| == 1 && b.phase.cursor.None? then OpenCart
                                              else Walk(b.phase.queue[1..], b.phase.cursor))))
  }

  lemma {:induction false} WantedRow(s: System)
    requires AllClean(s.backend.state) && AtRow(s) && Clean(s.build.value.lines)
    requires s.build.value.phase.queue[0] < |s.backend.state.checkouts|
    ensures var b, found := s.build.value, s.backend.state.checkouts[s.build.value.phase.queue[0]];
            Signature(found.lines) == Signature(b.lines) <==> multiset(found.lines) == multiset(b.lines)
  {
    var found := s.backend.state.checkouts[s.build.value.phase.queue[0]];
    assert found in s.backend.state.checkouts;
    SameSignature(found.lines, s.build.value.lines);
  }

  lemma {:induction false} ReadIsRowRead(s: System, ok: bool)
    requires AtRow(s)
    requires s.build.value.phase.queue[0] < |s.backend.state.checkouts| ==>
               var b, found := s.build.value, s.backend.state.checkouts[s.build.value.phase.queue[0]];
               Signature(found.lines) == Signature(b.lines) <==> multiset(found.lines) == multiset(b.lines)
    ensures RowRead(s, ReadNext(s, ok), ok)
  {
  }

  lemma {:induction false} RowIs(s: System, ok: bool)
    requires AllClean(s.backend.state) && AtRow(s) && Clean(s.build.value.lines)
    ensures RowRead(s, Next(s, Read(ok)), ok)
  {
    if s.build.value.phase.queue[0] < |s.backend.state.checkouts| {
      WantedRow(s);
    }
    ReadIsRowRead(s, ok);
  }

  /** An event that is not the one a build waits for changes nothing. */
  lemma {:induction false} NotItsTurn(s: System, ok: bool, size: nat, link: Link, unavailable: bool)
    ensures !AtPage(s) ==> Next(s, List(ok, size)) == s
    ensures !AtRow(s) ==> Next(s, Read(ok)) == s
    ensures s.build.None? || s.build.value.phase.Walk? ==> Next(s, Call(link, unavailable)) == s
  {
  }

  lemma {:induction false} LostLineEndsTheBuild(s: System, line: Line, link: Link, unavailable: bool)
    requires s.held.Some? && s.build.Some? && s.build.value.phase.Fill? && line.sku in s.held.value.lines
    requires !link.reaches || link.barred || !link.answers
    ensures SendLine(s, line, link, unavailable).build.None? && SendLine(s, line, link, unavailable).shown == s.shown
  {
  }

  /** A call that is not answered ends the build and shows nothing. */
  lemma {:induction false} LostAnswerEndsTheBuild(s: System, link: Link, unavailable: bool)
    requires s.held.Some? && s.build.Some? && !s.build.value.phase.Walk?
    requires !link.reaches || link.barred || !link.answers
    ensures var t := Next(s, Call(link, unavailable)); t.build.None? && t.shown == s.shown
  {
    if s.build.value.phase.Fill? && s.build.value.phase.next < |s.build.value.lines| {
      var line := s.build.value.lines[s.build.value.phase.next];
      LostLineEndsTheBuild(WithLineKey(s, line.sku), line, link, unavailable);
    }
  }

  /** A cart with a line the merchant cannot fulfil is not checked out. */
  lemma {:induction false} UnavailableIsNotCheckedOut(s: System, link: Link, unavailable: bool)
    requires s.held.Some? && s.build.Some? && s.build.value.phase.Fill? && s.build.value.phase.unavailable
    requires s.build.value.phase.next == |s.build.value.lines|
    ensures Next(s, Call(link, unavailable)) == s.(build := None)
  {
  }

  /** A version moves only where it can: not back to waiting once it is past that, and never to
      `Reserved`; only an approved or failed one is put back to wait for approval. */
  lemma {:induction false} LifecycleIs(s: System, id: nat, stage: Stage)
    ensures var t, rows := Next(s, Evolve(id, stage)), s.backend.state.checkouts;
            MovedTo(s, t, id, stage,
                    stage != Reserved
                    && (stage == ApprovalRequired && id < |rows| ==> rows[id].stage in {Reserved, ApprovalRequired}))
    ensures var t, rows := Next(s, Reapprove(id)), s.backend.state.checkouts;
            MovedTo(s, t, id, ApprovalRequired,
                    id < |rows| && (rows[id].stage == Approved || rows[id].stage == PaymentFailed))
  {
  }

  ghost predicate MovedTo(s: System, t: System, id: nat, stage: Stage, may: bool) {
    var rows, now := s.backend.state.checkouts, t.backend.state.checkouts;
    && t == s.(backend := s.backend.(state := s.backend.state.(checkouts := now))) && |now| == |rows|
    && forall i :: 0 <= i < |rows| ==> now[i] == if i == id && may then rows[i].(stage := stage) else rows[i]
  }

  // ---------------------------------------------------------------- an undisturbed build

  const THROUGH := Link(true, false, false, true)

  /** What a build waits for, when nothing fails and everything can be fulfilled. */
  ghost function Due(s: System, size: nat): Event {
    if AtPage(s) then List(true, size) else if AtRow(s) then Read(true) else Call(THROUGH, false)
  }

  ghost function Driven(s: System, size: nat, n: nat): System
    decreases n
  {
    if n == 0 then s else Driven(Next(s, Due(s, size)), size, n - 1)
  }

  /** A resumable checkout has exactly the lines of the build. */
  ghost predicate Found(s: System)
    requires s.build.Some?
  {
    exists id :: 0 <= id < |s.backend.state.checkouts| && Resumable(s.backend.state.checkouts[id].stage)
                 && multiset(s.backend.state.checkouts[id].lines) == multiset(s.build.value.lines)
  }

  /** An earlier answer for this SKU, under a held key, said that something cannot be fulfilled. */
  ghost predicate Told(h: Held, b: Backend, sku: string) {
    LineRecorded(h, b, sku) && b.records[h.lines[sku]].answer.CartIs? && b.records[h.lines[sku]].answer.unavailable
  }

  /** The last line of the build was set before, under a key that is still held, and was answered
      then that something in the cart cannot be fulfilled. */
  ghost predicate ToldUnavailable(s: System)
    requires s.held.Some? && s.build.Some? && s.build.value.lines != []
  {
    Told(s.held.value, s.backend, s.build.value.lines[|s.build.value.lines| - 1].sku)
  }

  /** A build under way whose lines the backend accepts. */
  ghost predicate Buildable(s: System) {
    && s.build.Some? && s.held.Some? && s.shown.None? && s.build.value.lines != []
    && (forall l <- s.build.value.lines :: l.quantity <= 99)
    && match s.build.value.phase
       case Walk(queue, cursor) =>
         && (forall id <- queue :: id < |s.backend.state.checkouts|) && (queue == [] ==> cursor.Some?)
       case OpenCart => true
       case Fill(_, i, told) =>
         i <= |s.build.value.lines| && (i == |s.build.value.lines| ==> (told <==> ToldUnavailable(s)))
  }

  /** The build is over, with a bill for these lines or with none. */
  ghost predicate Over(t: System, lines: seq<Line>, billed: bool) {
    && t.build.None?
    && if billed then t.shown.Some? && t.shown.value.lines == lines && multiset(t.shown.value.card) == multiset(lines)
       else t.shown.None?
  }

  /** After the step the build is over as it should be, or goes on towards the same end. */
  ghost predicate Onward(s: System, t: System)
    requires Buildable(s)
  {
    var billed := Found(s) || !ToldUnavailable(s);
    Over(t, s.build.value.lines, billed)
    || (Buildable(t) && t.build.value.lines == s.build.value.lines
        && (billed <==> Found(t) || !ToldUnavailable(t)) && Before(t, s))
  }

  ghost function Stretch(s: System): nat
    requires s.build.Some?
  {
    if s.build.value.phase.Walk? then 2 else if s.build.value.phase.OpenCart? then 1 else 0
  }

  /** Pages still to list, or lines still to set. */
  ghost function Ahead(s: System): nat
    requires Buildable(s)
  {
    match s.build.value.phase
    case Walk(_, cursor) => if cursor.Some? then cursor.value + 1 else 0
    case OpenCart => 0
    case Fill(_, i, _) => |s.build.value.lines| - i
  }

  ghost function Unread(s: System): nat
    requires s.build.Some?
  {
    if s.build.value.phase.Walk? then |s.build.value.phase.queue| else 0
  }

  ghost predicate Before(t: System, s: System)
    requires Buildable(t) && Buildable(s)
  {
    || Stretch(t) < Stretch(s)
    || (Stretch(t) == Stretch(s) && (Ahead(t) < Ahead(s) || (Ahead(t) == Ahead(s) && Unread(t) < Unread(s))))
  }

  lemma {:induction false} FoundIsMatch(s: System)
    requires Inv(s) && Buildable(s)
    ensures Found(s) <==> !NoMatch(s.backend.state, s.held.value.signature)
  {
    var rows := s.backend.state.checkouts;
    forall id | 0 <= id < |rows|
      ensures Signature(rows[id].lines) == s.held.value.signature <==>
              multiset(rows[id].lines) == multiset(s.build.value.lines)
    {
      assert rows[id] in rows;
      SameSignature(rows[id].lines, s.build.value.lines);
    }
  }

  lemma {:induction false} PageGoesOn(s: System, size: nat)
    requires Buildable(s) && AtPage(s)
    ensures Onward(s, Next(s, List(true, size)))
  {
    PageIs(s, true, size);
    PageLeavesBuildable(s, Next(s, List(true, size)));
  }

  lemma {:induction false} PageLeavesBuildable(s: System, t: System)
    requires Buildable(s) && AtPage(s) && t == s.(build := t.build) && t.build.Some?
    requires t.build.value.lines == s.build.value.lines
    requires var from := Max(0, Min(s.build.value.phase.cursor.value, |s.backend.state.checkouts|) - 1);
             || t.build.value.phase == OpenCart
             || (&& t.build.value.phase.Walk?
                 && (t.build.value.phase.cursor.Some? ==> 0 < t.build.value.phase.cursor.value <= from)
                 && (t.build.value.phase.cursor.None? ==> t.build.value.phase.queue != [])
                 && forall id <- t.build.value.phase.queue :: id < |s.backend.state.checkouts|)
    ensures Onward(s, t)
  {
    assert Found(t) <==> Found(s);
    assert ToldUnavailable(t) <==> ToldUnavailable(s);
    assert Buildable(t);
  }

  lemma {:induction false} RowPasses(s: System, t: System)
    requires Buildable(s) && AtRow(s)
    requires var b := s.build.value;
             t == s.(build := Some(Build(b.lines, if |b.phase.queue| == 1 && b.phase.cursor.None? then OpenCart
                                                  else Walk(b.phase.queue[1..], b.phase.cursor))))
    ensures Onward(s, t)
  {
    var queue := s.build.value.phase.queue;
    assert forall k <- queue[1..] :: k in queue;
    assert ToldUnavailable(t) <==> ToldUnavailable(s);
    assert Found(t) <==> Found(s);
    assert Buildable(t);
  }

  lemma {:induction false} RowGoesOn(s: System)
    requires Inv(s) && Buildable(s) && AtRow(s)
    ensures Onward(s, Next(s, Read(true)))
  {
    RowIs(s, true);
    var b := s.build.value;
    var id, rows := b.phase.queue[0], s.backend.state.checkouts;
    assert id in b.phase.queue;
    if rows[id].stage == ApprovalRequired && multiset(rows[id].lines) == multiset(b.lines) {
      assert Found(s);
    } else {
      RowPasses(s, Next(s, Read(true)));
    }
  }

  /** Opening the cart gets through, and says nothing of any line. */
  lemma {:induction false} CartIsAnswered(h: Held, b: Backend)
    requires HeldOk(h, b)
    ensures var (after, outcome) := Deliver(b, h.cart, CreateCart, THROUGH, false);
            && outcome.Answered? && outcome.answer.CartIs? && !outcome.answer.unavailable
            && after.state.checkouts == b.state.checkouts
            && forall sku :: Told(h, after, sku) <==> Told(h, b, sku)
  {
  }

  lemma {:induction false} CartGoesOn(s: System)
    requires Inv(s) && Buildable(s) && s.build.value.phase.OpenCart?
    ensures Onward(s, CartNext(s, THROUGH))
  {
    CartIsAnswered(s.held.value, s.backend);
    CartLeavesBuildable(s, CartNext(s, THROUGH));
  }

  lemma {:induction false} CartLeavesBuildable(s: System, t: System)
    requires Buildable(s) && s.build.value.phase.OpenCart?
    requires t.held == s.held && t.shown.None? && t.backend.state.checkouts == s.backend.state.checkouts
    requires t.build.Some? && t.build.value.lines == s.build.value.lines
    requires t.build.value.phase.Fill? && t.build.value.phase.next == 0
    requires forall sku :: Told(t.held.value, t.backend, sku) <==> Told(s.held.value, s.backend, sku)
    ensures Onward(s, t)
  {
    assert Found(t) <==> Found(s);
    assert ToldUnavailable(t) <==> ToldUnavailable(s);
    assert Buildable(t);
  }

  /** A line that gets through is answered: with what its record says, or with nothing amiss. */
  lemma {:induction false} LineIsAnswered(h: Held, b: Backend, c: nat, line: Line)
    requires HeldOk(h, b) && CartIsOf(h, b, c) && line in h.basket && line.sku in h.lines && line.quantity <= 99
    ensures var (after, outcome) := Deliver(b, h.lines[line.sku], SetLine(c, line), THROUGH, false);
            && outcome.Answered? && outcome.answer.CartIs? && (outcome.answer.unavailable <==> Told(h, b, line.sku))
            && after.records == (if LineRecorded(h, b, line.sku) then b.records
                                 else b.records[h.lines[line.sku] := Record(SetLine(c, line), CartIs(c, false))])
            && after.state.checkouts == b.state.checkouts
  {
    var i :| 0 <= i < |h.basket| && h.basket[i] == line;
    if LineRecorded(h, b, line.sku) {
      var kept := b.records[h.lines[line.sku]].request.line;
      var j :| 0 <= j < |h.basket| && h.basket[j] == kept;
      assert kept == line;
    } else {
      SetLineIs(b.state, c, line, false);
    }
  }

  /** Setting a line brings no new bad news, and takes none away. */
  lemma {:induction false} ToldStays(h: Held, b: Backend, c: nat, line: Line, sku: string)
    requires HeldOk(h, b) && CartIsOf(h, b, c) && line in h.basket && line.sku in h.lines && line.quantity <= 99
    ensures var after := Deliver(b, h.lines[line.sku], SetLine(c, line), THROUGH, false).0;
            Told(h, after, sku) <==> Told(h, b, sku)
  {
    LineIsAnswered(h, b, c, line);
  }

  lemma {:induction false} FreshKeyTellsNothing(s: System, line: string)
    requires Inv(s) && s.held.Some?
    ensures var u := WithLineKey(s, line);
            u.held.Some? && forall sku :: Told(u.held.value, s.backend, sku) <==> Told(s.held.value, s.backend, sku)
  {
    if line !in s.held.value.lines {
      FreshLineKey(s.held.value, s.backend, line, s.minted);
    }
  }

  /** The state after a line that got through under its key. */
  lemma {:induction false} KeyedLineGetsThrough(u: System, line: Line)
    requires u.held.Some? && u.build.Some? && u.build.value.phase.Fill?
    requires HeldOk(u.held.value, u.backend) && CartIsOf(u.held.value, u.backend, u.build.value.phase.cart)
    requires line in u.held.value.basket && line.sku in u.held.value.lines && line.quantity <= 99
    ensures var t, p := SendLine(u, line, THROUGH, false), u.build.value.phase;
            && t == u.(build := t.build, backend := t.backend)
            && t.build == Some(Build(u.build.value.lines,
                                     Fill(p.cart, p.next + 1, Told(u.held.value, u.backend, line.sku))))
            && t.backend.state.checkouts == u.backend.state.checkouts
            && forall sku :: Told(t.held.value, t.backend, sku) <==> Told(u.held.value, u.backend, sku)
  {
    var c := u.build.value.phase.cart;
    LineIsAnswered(u.held.value, u.backend, c, line);
    var after := SendLine(u, line, THROUGH, false).backend;
    forall sku ensures Told(u.held.value, after, sku) <==> Told(u.held.value, u.backend, sku) {
      ToldStays(u.held.value, u.backend, c, line, sku);
    }
  }

  /** A line of the build once it has its key. */
  ghost predicate Ready(u: System, line: Line) {
    && u.held.Some? && u.build.Some? && u.build.value.phase.Fill?
    && HeldOk(u.held.value, u.backend) && CartIsOf(u.held.value, u.backend, u.build.value.phase.cart)
    && line in u.held.value.basket && line.sku in u.held.value.lines
  }

  lemma {:induction false} LineIsReady(s: System, line: Line)
    requires Inv(s) && s.held.Some? && s.build.Some? && s.build.value.phase.Fill? && line in s.build.value.lines
    ensures var u := WithLineKey(s, line.sku); u == s.(held := u.held, minted := u.minted) && Ready(u, line)
  {
    WithLineKeyKeepsInv(s, line.sku);
    BuildLineIsHeld(s, line);
  }

  lemma {:induction false} ReadyLineGetsThrough(s: System, u: System, line: Line)
    requires u == s.(held := u.held, minted := u.minted) && Ready(u, line) && line.quantity <= 99
    ensures var t, p := SendLine(u, line, THROUGH, false), s.build.value.phase;
            && t == s.(held := u.held, minted := u.minted, build := t.build, backend := t.backend) && u.held.Some?
            && t.build == Some(Build(s.build.value.lines,
                                     Fill(p.cart, p.next + 1, Told(u.held.value, s.backend, line.sku))))
            && t.backend.state.checkouts == s.backend.state.checkouts
            && forall sku :: Told(t.held.value, t.backend, sku) <==> Told(u.held.value, s.backend, sku)
  {
    KeyedLineGetsThrough(u, line);
  }

  lemma {:induction false} LineGetsThrough(s: System, line: Line)
    requires Inv(s) && s.held.Some? && s.build.Some? && s.build.value.phase.Fill?
    requires line in s.build.value.lines && line.quantity <= 99
    ensures var t, p := SendLine(WithLineKey(s, line.sku), line, THROUGH, false), s.build.value.phase;
            && t.build == Some(Build(s.build.value.lines,
                                     Fill(p.cart, p.next + 1, Told(s.held.value, s.backend, line.sku))))
            && t.held.Some? && t.shown == s.shown && t.backend.state.checkouts == s.backend.state.checkouts
            && forall sku :: Told(t.held.value, t.backend, sku) <==> Told(s.held.value, s.backend, sku)
  {
    LineIsReady(s, line);
    ReadyLineGetsThrough(s, WithLineKey(s, line.sku), line);
    FreshKeyTellsNothing(s, line.sku);
  }

  lemma {:induction false} LineGoesOn(s: System, line: Line)
    requires Inv(s) && Buildable(s) && s.build.value.phase.Fill? && s.build.value.phase.next < |s.build.value.lines|
    requires line == s.build.value.lines[s.build.value.phase.next]
    ensures Onward(s, SendLine(WithLineKey(s, line.sku), line, THROUGH, false))
  {
    LineGetsThrough(s, line);
    LineLeavesBuildable(s, SendLine(WithLineKey(s, line.sku), line, THROUGH, false));
  }

  lemma {:induction false} LineLeavesBuildable(s: System, t: System)
    requires Buildable(s) && s.build.value.phase.Fill? && s.build.value.phase.next < |s.build.value.lines|
    requires t.held.Some? && t.shown.None? && t.backend.state.checkouts == s.backend.state.checkouts
    requires var p := s.build.value.phase; var line := s.build.value.lines[p.next];
             t.build == Some(Build(s.build.value.lines,
                                   Fill(p.cart, p.next + 1, Told(s.held.value, s.backend, line.sku))))
    requires forall sku :: Told(t.held.value, t.backend, sku) <==> Told(s.held.value, s.backend, sku)
    ensures Onward(s, t)
  {
    assert Found(t) <==> Found(s);
    assert ToldUnavailable(t) <==> ToldUnavailable(s);
    assert Buildable(t);
  }

  /** The checkout of a full cart is answered with a card. */
  lemma {:induction false} CheckoutIsAnswered(h: Held, b: Backend, c: nat)
    requires HeldOk(h, b) && CartIsOf(h, b, c) && h.basket != [] && forall l <- h.basket :: LineRecorded(h, b, l.sku)
    ensures var outcome := Deliver(b, h.checkout, OpenCheckout(c), THROUGH, false).1;
            outcome.Answered? && outcome.answer.CardIs?
  {
    if h.checkout !in b.records {
      FullCart(h, b, b.state.carts[c]);
      assert multiset(b.state.carts[c].lines)[h.basket[0]] > 0;
      OpenCheckoutIs(b.state, c);
    }
  }

  lemma {:induction false} CheckoutEnds(s: System)
    requires Inv(s) && Buildable(s) && s.build.value.phase.Fill?
    requires s.build.value.phase.next == |s.build.value.lines| && !s.build.value.phase.unavailable
    ensures Over(CheckoutNext(s, THROUGH), s.build.value.lines, true)
  {
    AllRecorded(s);
    assert s.build.value.lines[0] in multiset(s.held.value.basket);
    CheckoutIsAnswered(s.held.value, s.backend, s.build.value.phase.cart);
    CheckoutDelivered(s.held.value, s.backend, s.build.value.phase.cart, THROUGH);
  }

  /** What is called next. */
  lemma {:induction false} CallIs(s: System)
    requires s.held.Some? && s.build.Some? && !s.build.value.phase.Walk?
    ensures Next(s, Call(THROUGH, false)) ==
            if s.build.value.phase.OpenCart? then CartNext(s, THROUGH)
            else if s.build.value.phase.next < |s.build.value.lines| then
              var line := s.build.value.lines[s.build.value.phase.next];
              SendLine(WithLineKey(s, line.sku), line, THROUGH, false)
            else if s.build.value.phase.unavailable then s.(build := None)
            else CheckoutNext(s, THROUGH)
  {
  }

  lemma {:induction false} CallGoesOn(s: System)
    requires Inv(s) && Buildable(s) && !s.build.value.phase.Walk?
    ensures Onward(s, Next(s, Call(THROUGH, false)))
  {
    CallIs(s);
    if s.build.value.phase.OpenCart? {
      CartGoesOn(s);
    } else if s.build.value.phase.next < |s.build.value.lines| {
      LineGoesOn(s, s.build.value.lines[s.build.value.phase.next]);
    } else {
      FoundIsMatch(s);
      if !s.build.value.phase.unavailable {
        CheckoutEnds(s);
      }
    }
  }

  lemma {:induction false} DueGoesOn(s: System, size: nat)
    requires Inv(s) && Buildable(s)
    ensures Onward(s, Next(s, Due(s, size)))
  {
    if AtPage(s) {
      PageGoesOn(s, size);
    } else if AtRow(s) {
      RowGoesOn(s);
    } else {
      CallGoesOn(s);
    }
  }

  lemma {:induction false} DueIsSafe(s: System, size: nat)
    ensures Safe(s, Due(s, size))
  {
  }

  lemma {:induction false} DueKeepsInv(s: System, size: nat)
    requires Inv(s)
    ensures Inv(Next(s, Due(s, size)))
  {
    DueIsSafe(s, size);
    NextKeepsInv(s, Due(s, size));
  }

  /** What a build comes to, driven on. */
  ghost predicate Ends(s: System, size: nat, lines: seq<Line>, billed: bool) {
    exists n: nat :: Over(Driven(s, size, n), lines, billed)
  }

  lemma {:induction false} EndsBack(s: System, size: nat, lines: seq<Line>, billed: bool)
    requires Ends(Next(s, Due(s, size)), size, lines, billed)
    ensures Ends(s, size, lines, billed)
  {
    var n: nat :| Over(Driven(Next(s, Due(s, size)), size, n), lines, billed);
    assert Over(Driven(s, size, n + 1), lines, billed);
  }

  lemma {:induction false} OverEnds(t: System, size: nat, lines: seq<Line>, billed: bool)
    requires Over(t, lines, billed)
    ensures Ends(t, size, lines, billed)
  {
    assert Driven(t, size, 0) == t;
  }

  lemma {:induction false} DueStep(s: System, size: nat) returns (t: System)
    requires Inv(s) && Buildable(s)
    ensures Inv(t) && Onward(s, t)
    ensures forall lines, billed :: Ends(t, size, lines, billed) ==> Ends(s, size, lines, billed)
  {
    t := Next(s, Due(s, size));
    DueGoesOn(s, size);
    DueKeepsInv(s, size);
    forall lines, billed | Ends(t, size, lines, billed) ensures Ends(s, size, lines, billed) {
      EndsBack(s, size, lines, billed);
    }
  }

  lemma {:induction false} BuildRunsOut(s: System, size: nat)
    requires Inv(s) && Buildable(s)
    ensures Ends(s, size, s.build.value.lines, Found(s) || !ToldUnavailable(s))
    decreases Stretch(s), Ahead(s), Unread(s)
  {
    var t := DueStep(s, size);
    var lines, billed := s.build.value.lines, Found(s) || !ToldUnavailable(s);
    if Over(t, lines, billed) {
      OverEnds(t, size, lines, billed);
    } else {
      BuildRunsOut(t, size);
    }
  }

  /** A build whose lists, reads and calls all get through, in pages of any size, ends. It ends
      with the bill for exactly its lines if and only if it finds them in a resumable checkout, or
      the held keys do not bring back an earlier answer that something cannot be fulfilled. */
  lemma {:induction false} UndisturbedBuildEnds(s: System, request: seq<Line>, size: nat)
    requires Inv(s) && BarFree(request) && DistinctSkus(Positive(request)) && Positive(request) != []
    requires forall l <- request :: l.quantity <= 99
    ensures var t := Next(s, Begin(request));
            && t.build.Some? && t.held.Some? && t.build.value.lines == Positive(request)
            && Ends(t, size, Positive(request), Found(t) || !ToldUnavailable(t))
  {
    BuildStarts(s, request);
    NextKeepsInv(s, Begin(request));
    BuildRunsOut(Next(s, Begin(request)), size);
  }
}
