/** What each piece of the cart writer's work does, and that a change nothing disturbs is made. */
module CartSteps {
  import opened Common
  import opened Idempotency
  import opened DurableCart

  const HEARD := Link(true, false, false, true)

  // ---------------------------------------------------------------- the backend

  /** The lines after one SKU was set to a quantity; nought takes the line away. */
  ghost predicate LineSet(was: map<string, int>, sku: string, quantity: int, now: map<string, int>) {
    && (sku in now <==> quantity != 0) && (sku in now ==> now[sku] == quantity)
    && forall k :: k != sku ==> ((k in now <==> k in was) && (k in now ==> now[k] == was[k]))
  }

  /** A line write under a new key that gets through is made, and answered with the whole cart, if
      and only if the cart is known and the quantity is from nought to ninety-nine. */
  lemma {:induction false} LineWriteIs(b: Backend, key: Key, cart: nat, sku: string, quantity: int,
                                       expected: Option<nat>)
    requires key !in b.records
    ensures var request := SetLine(cart, sku, quantity, expected);
            var (after, outcome) := Deliver(b, key, request, HEARD);
            if cart in b.state.carts && 0 <= quantity <= 99 then
              && outcome.Answered? && outcome.answer.cart == cart
              && LineSet(b.state.carts[cart], sku, quantity, outcome.answer.lines)
              && after.state.carts == b.state.carts[cart := outcome.answer.lines] && after.state.next == b.state.next
              && after.records == b.records[key := Record(request, outcome.answer)]
            else after == b && outcome == Refused
  {
  }

  /** A creation under a new key that gets through makes one new cart with nothing in it. */
  lemma {:induction false} CreationIs(b: Backend, key: Key)
    requires key !in b.records
    ensures var (after, outcome) := Deliver(b, key, CreateCart, HEARD); var made := View(b.state.next, map[]);
            && outcome == Answered(made) && after.records == b.records[key := Record(CreateCart, made)]
            && after.state.carts == b.state.carts[b.state.next := map[]] && after.state.next == b.state.next + 1
  {
  }

  /** A used key brings its answer back, a request that is not let in does nothing, and what comes
      of one that is does not depend on whether the answer is heard. */
  lemma {:induction false} OtherDeliveriesAre(b: Backend, key: Key, request: Request, link: Link)
    ensures key in b.records ==>
              var (after, outcome) := Deliver(b, key, request, HEARD);
              && after == b
              && outcome == (if b.records[key].request == request then Answered(b.records[key].answer) else Refused)
    ensures !link.reaches || link.barred || (link.refuses && key !in b.records) ==>
              var (after, outcome) := Deliver(b, key, request, link);
              after == b && outcome == (if link.reaches && link.answers then Refused else Unknown)
    ensures !link.answers ==> Deliver(b, key, request, link).1 == Unknown
    ensures link.reaches && !link.barred && !link.refuses ==>
              Deliver(b, key, request, link).0 == Deliver(b, key, request, HEARD).0
  {
  }

  // ---------------------------------------------------------------- having a cart

  /** A cart was asked for under the creation key: with an answer it is there and the key is spent,
      without one the key stays as it was. */
  ghost predicate AskedToCreate(s: System, t: System, link: Link) {
    var (after, outcome) := Deliver(s.backend, Mine(s.client.createKey), CreateCart, link);
    && t == s.(backend := after, client := t.client)
    && t.client == if outcome.Answered?
                   then s.client.(cart := Some(outcome.answer), createKey := s.client.minted,
                                  minted := s.client.minted + 1)
                   else s.client
  }

  /** The backend names a cart that it has as the buyer's own. */
  ghost predicate HasCurrent(s: System, io: Io) { io.current.Some? && io.current.value in s.backend.state.carts }

  /** Restoring does nothing while a write is pending. It takes up the buyer's open cart; without one
      it leaves an earlier checkout alone, and else creates a cart. A read that fails ends it. */
  lemma {:induction false} RestoreIs(s: System, io: Io)
    ensures var t := RestoreWork(s, io);
            if s.client.pending.Some? || !io.currentAnswers then t == s
            else if HasCurrent(s, io) then
              var view := View(io.current.value, s.backend.state.carts[io.current.value]);
              t == s.(client := s.client.(cart := Some(view)))
            else if !io.listAnswers then t == s
            else if io.hasCheckouts then t == s.(client := s.client.(cart := None))
            else AskedToCreate(s, t, io.create)
  {
  }

  /** A change has a cart to work on: the one it holds, the buyer's open one, or a new one. */
  lemma {:induction false} EnsureIs(s: System, io: Io)
    ensures var t := EnsureCart(s, io);
            if s.client.cart.Some? || !io.currentAnswers then t == s
            else if HasCurrent(s, io) then
              var view := View(io.current.value, s.backend.state.carts[io.current.value]);
              t == s.(client := s.client.(cart := Some(view)))
            else AskedToCreate(s, t, io.create)
  {
  }

  /** A new cart is asked for under one key until an answer comes, and not while a write is pending. */
  lemma {:induction false} NewCartIs(s: System, io: Io)
    ensures var t := NewCartWork(s, io);
            if s.client.pending.Some? then t == s
            else
              var key := if s.client.newKey.Some? then s.client.newKey.value else s.client.minted;
              var (after, outcome) := Deliver(s.backend, Mine(key), CreateCart, io.create);
              && t == s.(backend := after, client := t.client)
              && t.client.minted == s.client.minted + (if s.client.newKey.Some? then 0 else 1)
              && t.client == s.client.(minted := t.client.minted,
                                       newKey := if outcome.Answered? then None else Some(key),
                                       cart := if outcome.Answered? then Some(outcome.answer) else s.client.cart)
  {
  }

  // ---------------------------------------------------------------- a change

  /** The proposal may be applied to this cart. */
  ghost predicate Applies(proposal: Option<Proposal>, cart: nat) {
    proposal.Some? ==>
      && (proposal.value.cartId == None || proposal.value.cartId == Some(cart))
      && (proposal.value.blockedBy == "" || proposal.value.blockedBy == "no_basket")
  }

  /** A change asks for nothing while a write is pending, by no whole number or by nought, without a
      cart, when the cart cannot be read, or for a proposal that does not apply to it; the cart as
      read is taken up. Else it makes one write, of the quantity that the proposal names or that the
      line has with the change, not below nought. */
  lemma {:induction false} ChangeIs(s: System, sku: string, delta: real, proposal: Option<Proposal>, io: Io)
    ensures var t, u := ChangeWork(s, sku, delta, proposal, io), EnsureCart(s, io);
            if s.client.pending.Some? || delta != delta.Floor as real || delta == 0.0 then t == s
            else if u.client.cart.None? || !io.readAnswers || u.client.cart.value.cart !in u.backend.state.carts
            then t == u
            else
              var cart := u.client.cart.value.cart; var lines := u.backend.state.carts[cart];
              var before := if sku in lines then lines[sku] else 0;
              var v := u.(client := u.client.(cart := Some(View(cart, lines))));
              if !Applies(proposal, cart) then t == v
              else
                && t.client.pending == Some(t.asked[u.client.minted].op)
                && t.client.sending && t.client.minted == u.client.minted + 1
                && t == v.(client := v.client.(pending := t.client.pending, sending := true, minted := t.client.minted),
                           asked := v.asked[u.client.minted := t.asked[u.client.minted]])
                && (var op := t.client.pending.value;
                    && op.cart == cart && op.sku == sku && op.key == u.client.minted
                    && op.expected == (if proposal.Some? then proposal.value.binding else None)
                    && (proposal.Some? && proposal.value.absolute.Some? ==>
                          op.quantity == proposal.value.absolute.value)
                    && (proposal.None? || proposal.value.absolute.None? ==>
                          op.quantity as real == if before as real + delta < 0.0 then 0.0 else before as real + delta))
  {
  }

  /** A retry sends the pending write again, if there is one. */
  lemma {:induction false} RetryIs(s: System)
    ensures RetryWork(s) == if s.client.pending.None? then s else s.(client := s.client.(sending := true))
  {
  }

  /** How a write ends: its answer is the cart from now on, a definite refusal leaves the cart as it
      was, and both are the end of it; with neither it stays pending, as it is. */
  lemma {:induction false} WriteEnds(s: System, link: Link)
    ensures var t := Next(s, Arrive(link));
            if !s.client.sending || s.client.pending.None? then t == s
            else
              var op := s.client.pending.value;
              var (after, outcome) :=
                Deliver(s.backend, Mine(op.key), SetLine(op.cart, op.sku, op.quantity, op.expected), link);
              && t.backend == after && t.asked == s.asked && t.sent == s.sent + [op.key]
              && t.client == s.client.(sending := false, pending := if outcome.Unknown? then s.client.pending else None,
                                       cart := if outcome.Answered? then Some(outcome.answer) else s.client.cart)
  {
  }

  /** The queue is worked off one call at a time, each to its end. */
  lemma {:induction false} QueueIs(s: System, call: Call, io: Io)
    ensures Next(s, Enqueue(call)).client.queue == s.client.queue + [call]
    ensures Next(s, Enqueue(call)) == s.(client := s.client.(queue := s.client.queue + [call]))
    ensures s.client.sending || s.client.queue == [] ==> Next(s, Begin(io)) == s
    ensures !s.client.sending && s.client.queue != [] ==>
              Next(s, Begin(io)) == Work(s.(client := s.client.(queue := s.client.queue[1..])), s.client.queue[0], io)
  {
  }

  /** Somebody else's request does at the backend what it would do there under any key of theirs, and
      nothing to the client. */
  lemma {:induction false} ElsewhereIs(s: System, n: nat, request: Request)
    requires Theirs(n) !in s.backend.records && request.SetLine?
    ensures var t := Next(s, Elsewhere(n, request, HEARD));
            && t == s.(backend := t.backend)
            && if request.cart in s.backend.state.carts && 0 <= request.quantity <= 99
               then request.cart in t.backend.state.carts
                    && LineSet(s.backend.state.carts[request.cart], request.sku, request.quantity,
                               t.backend.state.carts[request.cart])
               else t.backend == s.backend
  {
    LineWriteIs(s.backend, Theirs(n), request.cart, request.sku, request.quantity, request.expected);
  }

  /** A change of the cart at hand that gets through: the cart is written and shown with the line at
      its quantity and the change, or not at all where that is more than ninety-nine; either way
      nothing is left pending. */
  lemma {:induction false} ChangeCompletes(s: System, sku: string, delta: int, io: Io)
    requires Inv(s) && s.client.pending.None? && !s.client.sending && s.client.cart.Some? && delta != 0
    requires s.client.cart.value.cart in s.backend.state.carts && io.readAnswers
    requires s.client.queue == [Change(sku, delta as real, None)] && Mine(s.client.minted) !in s.backend.records
    ensures var t := Next(Next(s, Begin(io)), Arrive(HEARD)); var cart := s.client.cart.value.cart;
            var lines := s.backend.state.carts[cart]; var before := if sku in lines then lines[sku] else 0;
            && t.client.pending.None? && !t.client.sending && t.client.queue == [] && t.client.cart.Some?
            && t.client.cart.value == View(cart, t.backend.state.carts[cart])
            && if before + delta <= 99
               then LineSet(lines, sku, Max(0, before + delta), t.backend.state.carts[cart])
               else t.backend == s.backend
  {
    var u := Next(s, Begin(io));
    var cart := s.client.cart.value.cart;
    var lines := s.backend.state.carts[cart];
    var before := if sku in lines then lines[sku] else 0;
    var taken := s.(client := s.client.(queue := []));
    ChangeIs(taken, sku, delta as real, None, io);
    assert u == ChangeWork(taken, sku, delta as real, None, io);
    assert (delta as real).Floor == delta;
    LineWriteIs(s.backend, Mine(s.client.minted), cart, sku, Max(0, before + delta), None);
    WriteEnds(u, HEARD);
  }
}
