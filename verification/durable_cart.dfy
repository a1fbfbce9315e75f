/** The one serialized writer of the shopping cart, over an unreliable network. */
module DurableCart {
  import opened Common
  import opened Runs
  import opened Idempotency

  // ---------------------------------------------------------------- the shop

  /** Idempotency keys: this client's, by the order in which it minted them, and anybody else's. */
  datatype Key = Mine(n: nat) | Theirs(n: nat)

  datatype Request = CreateCart | SetLine(cart: nat, sku: string, quantity: int, expected: Option<nat>)

  datatype View = View(cart: nat, lines: map<string, int>)

  datatype Shop = Shop(carts: map<nat, map<string, int>>, next: nat)

  type Backend = Server<Key, Request, View, Shop>

  const MAX_LINE_QUANTITY := 99

  function Quantity(lines: map<string, int>, sku: string): int { if sku in lines then lines[sku] else 0 }

  function WithLine(lines: map<string, int>, sku: string, quantity: int): map<string, int> {
    if quantity == 0 then lines - {sku} else lines[sku := quantity]
  }

  function Run(shop: Shop, request: Request): (Shop, View) {
    match request
    case CreateCart => (Shop(shop.carts[shop.next := map[]], shop.next + 1), View(shop.next, map[]))
    case SetLine(cart, sku, quantity, _) =>
      var lines := WithLine(if cart in shop.carts then shop.carts[cart] else map[], sku, quantity);
      (shop.(carts := shop.carts[cart := lines]), View(cart, lines))
  }

  /** An unknown cart and a quantity out of range are refused whatever the network does. */
  function Deliver(backend: Backend, key: Key, request: Request, link: Link): (Backend, Outcome<View>) {
    var invalid := request.SetLine? &&
      (request.cart !in backend.state.carts || !(0 <= request.quantity <= MAX_LINE_QUANTITY));
    Send(backend, key, request, link.(refuses := link.refuses || invalid), Run)
  }

  // ---------------------------------------------------------------- the client

  datatype Proposal = Proposal(cartId: Option<nat>, blockedBy: string, absolute: Option<int>, binding: Option<nat>)

  datatype Call = Restore | Change(sku: string, delta: real, proposal: Option<Proposal>) | Retry | NewCart

  datatype Operation = Operation(cart: nat, sku: string, quantity: int, key: nat, expected: Option<nat>)

  /** The fields of the class; `minted` counts the keys made so far, `sending` says that the work
      at the head of the queue has reached its cart write. */
  datatype Client = Client(cart: Option<View>, queue: seq<Call>, pending: Option<Operation>,
                           createKey: nat, newKey: Option<nat>, minted: nat, sending: bool)

  /** What was asked for under a key: the operation, and what the shop held when it was made. */
  datatype Intent = Intent(op: Operation, delta: int, absolute: Option<int>, seen: int)

  /** Client and backend, and a history: the intents by key, and the keys of the cart writes in
      the order they were sent. */
  datatype System = System(client: Client, backend: Backend, asked: map<nat, Intent>, sent: seq<nat>)

  /** The answers to the reads of one piece of work, and the fate of the cart it may create. */
  datatype Io = Io(currentAnswers: bool, current: Option<nat>, listAnswers: bool, hasCheckouts: bool,
                   create: Link, readAnswers: bool)

  datatype Event =
    | Enqueue(call: Call)
    | Begin(io: Io)
    | Arrive(link: Link)
    | Elsewhere(n: nat, request: Request, link: Link)

  function Target(intent: Intent, quantity: int): int {
    if intent.absolute.Some? then intent.absolute.value else Max(0, quantity + intent.delta)
  }

  function RequestOf(op: Operation): Request { SetLine(op.cart, op.sku, op.quantity, op.expected) }

  function CurrentCart(s: System, io: Io): Option<View> {
    if io.current.Some? && io.current.value in s.backend.state.carts
    then Some(View(io.current.value, s.backend.state.carts[io.current.value])) else None
  }

  /** Create a cart under the held key; only an answer lets the key go. */
  function CreateEmpty(s: System, link: Link): System {
    var (backend, outcome) := Deliver(s.backend, Mine(s.client.createKey), CreateCart, link);
    if outcome.Answered? then
      s.(backend := backend, client := s.client.(cart := Some(outcome.answer),
         createKey := s.client.minted, minted := s.client.minted + 1))
    else s.(backend := backend)
  }

  function RestoreWork(s: System, io: Io): System {
    if s.client.pending.Some? || !io.currentAnswers then s
    else if CurrentCart(s, io).Some? then s.(client := s.client.(cart := CurrentCart(s, io)))
    else if !io.listAnswers then s
    else if io.hasCheckouts then s.(client := s.client.(cart := None))
    else CreateEmpty(s, io.create)
  }

  /** Have a cart to work on, if the backend lets us. */
  function EnsureCart(s: System, io: Io): System {
    if s.client.cart.Some? || !io.currentAnswers then s
    else if CurrentCart(s, io).Some? then s.(client := s.client.(cart := CurrentCart(s, io)))
    else CreateEmpty(s, io.create)
  }

  predicate Unsuitable(proposal: Proposal, cart: nat) {
    (proposal.cartId.Some? && proposal.cartId.value != cart) || proposal.blockedBy !in {"", "no_basket"}
  }

  function ChangeWork(s: System, sku: string, delta: real, proposal: Option<Proposal>, io: Io): System {
    if s.client.pending.Some? || delta != delta.Floor as real || delta == 0.0 then s
    else
      var s := EnsureCart(s, io);
      if s.client.cart.None? || !io.readAnswers || s.client.cart.value.cart !in s.backend.state.carts then s
      else
        var cart := s.client.cart.value.cart;
        var lines := s.backend.state.carts[cart];
        var s := s.(client := s.client.(cart := Some(View(cart, lines))));
        if proposal.Some? && Unsuitable(proposal.value, cart) then s
        else
          var absolute := if proposal.Some? then proposal.value.absolute else None;
          var before := Quantity(lines, sku);
          var quantity := if absolute.Some? then absolute.value else Max(0, before + delta.Floor);
          var op := Operation(cart, sku, quantity, s.client.minted,
                              if proposal.Some? then proposal.value.binding else None);
          s.(client := s.client.(pending := Some(op), minted := s.client.minted + 1, sending := true),
             asked := s.asked[op.key := Intent(op, delta.Floor, absolute, before)])
  }

  function NewCartWork(s: System, io: Io): System {
    if s.client.pending.Some? then s
    else
      var s := if s.client.newKey.Some? then s
               else s.(client := s.client.(newKey := Some(s.client.minted), minted := s.client.minted + 1));
      var (backend, outcome) := Deliver(s.backend, Mine(s.client.newKey.value), CreateCart, io.create);
      if outcome.Answered? then
        s.(backend := backend, client := s.client.(newKey := None, cart := Some(outcome.answer)))
      else s.(backend := backend)
  }

  function RetryWork(s: System): System {
    if s.client.pending.Some? then s.(client := s.client.(sending := true)) else s
  }

  /** The cart write at the end of `change` and of `retry`. */
  function ExecuteWork(s: System, link: Link): System
    requires s.client.pending.Some?
  {
    var op := s.client.pending.value;
    var (backend, outcome) := Deliver(s.backend, Mine(op.key), RequestOf(op), link);
    var s := s.(backend := backend, sent := s.sent + [op.key], client := s.client.(sending := false));
    match outcome
    case Answered(view) => s.(client := s.client.(pending := None, cart := Some(view)))
    case Refused => s.(client := s.client.(pending := None))
    case Unknown => s
  }

  function Work(s: System, call: Call, io: Io): System {
    match call
    case Restore => RestoreWork(s, io)
    case Change(sku, delta, proposal) => ChangeWork(s, sku, delta, proposal, io)
    case Retry => RetryWork(s)
    case NewCart => NewCartWork(s, io)
  }

  function Next(s: System, e: Event): System {
    match e
    case Enqueue(call) => s.(client := s.client.(queue := s.client.queue + [call]))
    case Begin(io) =>
      if s.client.sending || s.client.queue == [] then s
      else
        var call := s.client.queue[0];
        Work(s.(client := s.client.(queue := s.client.queue[1..])), call, io)
    case Arrive(link) => if s.client.sending && s.client.pending.Some? then ExecuteWork(s, link) else s
    case Elsewhere(n, request, link) => s.(backend := Deliver(s.backend, Theirs(n), request, link).0)
  }

  function RunAll(s: System, events: seq<Event>): System { RunOf(Next, s, events) }

  // ---------------------------------------------------------------- invariants

  ghost predicate KeysInOrder(s: System) {
    && s.client.createKey < s.client.minted && s.client.createKey !in s.asked
    && (s.client.newKey.Some? ==> s.client.newKey.value < s.client.minted && s.client.newKey.value !in s.asked)
    && (forall k <- s.asked :: k < s.client.minted && s.asked[k].op.key == k)
    && (forall k <- s.asked :: s.asked[k].op.quantity == Target(s.asked[k], s.asked[k].seen))
    && (s.client.pending.Some? ==>
          s.client.pending.value.key in s.asked && s.asked[s.client.pending.value.key].op == s.client.pending.value)
    && (s.client.sending ==> s.client.pending.Some?)
  }

  /** Cart writes go out key by key: one key, and its retries, before the next one. */
  ghost predicate OneKeyAtATime(s: System) {
    && (forall i, j :: 0 <= i <= j < |s.sent| ==> s.sent[i] <= s.sent[j])
    && (forall k <- s.sent :: k in s.asked)
    && (s.client.pending.Some? ==> forall k <- s.sent :: k <= s.client.pending.value.key)
  }

  /** What ran under this client's keys is what it asked for. */
  ghost predicate LogMatches(s: System) {
    forall e <- s.backend.log :: e.key.Mine? ==>
      e.key.n < s.client.minted &&
      if e.key.n in s.asked then e.key.n in s.sent && e.request == RequestOf(s.asked[e.key.n].op)
      else e.request == CreateCart
  }

  ghost predicate Inv(s: System) {
    Once(s.backend) && KeysInOrder(s) && OneKeyAtATime(s) && LogMatches(s)
  }

  ghost predicate Start(s: System) {
    && s.client == Client(None, [], None, 0, None, 1, false) && s.asked == map[] && s.sent == []
    && Once(s.backend) && (forall e <- s.backend.log :: e.key.Theirs?)
    && (forall c <- s.backend.state.carts :: c < s.backend.state.next)
  }

  lemma {:induction false} DeliverKeepsOnce(backend: Backend, key: Key, request: Request, link: Link)
    requires Once(backend)
    ensures var (after, outcome) := Deliver(backend, key, request, link);
            && Once(after)
            && (after == backend ||
                (key !in backend.records && after.log == backend.log + [Effect(key, request, backend.state)]
                 && after.state == Run(backend.state, request).0 && after.records.Keys == backend.records.Keys + {key}))
            && (outcome.Answered? ==> key in after.records && after.records[key] == Record(request, outcome.answer))
  {
    var invalid := request.SetLine? &&
      (request.cart !in backend.state.carts || !(0 <= request.quantity <= MAX_LINE_QUANTITY));
    SendKeepsOnce(backend, key, request, link.(refuses := link.refuses || invalid), Run);
  }

  /** The invariant survives any delivery whose effect, if it runs, is one this client accounts for. */
  lemma {:induction false} BackendKeepsInv(s: System, key: Key, request: Request, link: Link)
    requires Inv(s)
    requires key.Mine? ==>
               key.n < s.client.minted &&
               if key.n in s.asked then key.n in s.sent && request == RequestOf(s.asked[key.n].op)
               else request == CreateCart
    ensures Inv(s.(backend := Deliver(s.backend, key, request, link).0))
  {
    DeliverKeepsOnce(s.backend, key, request, link);
  }

  lemma {:induction false} CreateEmptyKeepsInv(s: System, link: Link)
    requires Inv(s)
    ensures Inv(CreateEmpty(s, link))
  {
    BackendKeepsInv(s, Mine(s.client.createKey), CreateCart, link);
  }

  lemma {:induction false} MintKeepsInv(s: System)
    requires Inv(s) && s.client.newKey.None?
    ensures Inv(s.(client := s.client.(newKey := Some(s.client.minted), minted := s.client.minted + 1)))
  {
  }

  lemma {:induction false} NewCartKeepsInv(s: System, io: Io)
    requires Inv(s)
    ensures Inv(NewCartWork(s, io))
  {
    if s.client.newKey.None? {
      MintKeepsInv(s);
    }
    var t := if s.client.newKey.Some? then s
             else s.(client := s.client.(newKey := Some(s.client.minted), minted := s.client.minted + 1));
    BackendKeepsInv(t, Mine(t.client.newKey.value), CreateCart, io.create);
  }

  lemma {:induction false} EnsureCartKeepsInv(s: System, io: Io)
    requires Inv(s)
    ensures var t := EnsureCart(s, io);
            Inv(t) && t.client.pending == s.client.pending && t.client.sending == s.client.sending
  {
    CreateEmptyKeepsInv(s, io.create);
  }

  lemma {:induction false} ChangeKeepsInv(s: System, sku: string, delta: real, proposal: Option<Proposal>, io: Io)
    requires Inv(s) && !s.client.sending
    ensures Inv(ChangeWork(s, sku, delta, proposal, io))
  {
    EnsureCartKeepsInv(s, io);
    var u := ChangeWork(s, sku, delta, proposal, io);
    if u.client.sending {
      IntendKeepsInv(EnsureCart(s, io), u);
    }
  }

  /** Making a new intent under a fresh key. */
  lemma {:induction false} IntendKeepsInv(t: System, u: System)
    requires Inv(t) && t.client.pending.None?
    requires u.client.pending.Some? && u.client.sending && u.client.minted == t.client.minted + 1
    requires var op := u.client.pending.value;
             op.key == t.client.minted && u.asked.Keys == t.asked.Keys + {op.key} && u.asked[op.key].op == op
             && op.quantity == Target(u.asked[op.key], u.asked[op.key].seen)
    requires forall k <- t.asked :: u.asked[k] == t.asked[k]
    requires u.backend == t.backend && u.sent == t.sent
    requires u.client.createKey == t.client.createKey && u.client.newKey == t.client.newKey
    ensures Inv(u)
  {
    assert forall k <- u.sent :: k in t.asked && k < t.client.minted;
  }

  lemma {:induction false} SendingKeepsInv(s: System)
    requires Inv(s) && s.client.pending.Some?
    ensures Inv(s.(sent := s.sent + [s.client.pending.value.key], client := s.client.(sending := false)))
  {
    var op := s.client.pending.value;
    var t := s.(sent := s.sent + [op.key], client := s.client.(sending := false));
    forall i | 0 <= i < |s.sent| ensures s.sent[i] <= op.key {
      assert s.sent[i] in s.sent;
    }
    assert forall k <- s.sent :: k in t.sent;
  }

  lemma {:induction false} ExecuteKeepsInv(s: System, link: Link)
    requires Inv(s) && s.client.pending.Some?
    ensures Inv(ExecuteWork(s, link))
  {
    var op := s.client.pending.value;
    SendingKeepsInv(s);
    var t := s.(sent := s.sent + [op.key], client := s.client.(sending := false));
    assert t.sent[|s.sent|] in t.sent;
    BackendKeepsInv(t, Mine(op.key), RequestOf(op), link);
  }

  lemma {:induction false} BeginKeepsInv(s: System, call: Call, io: Io)
    requires Inv(s) && !s.client.sending
    ensures Inv(Work(s, call, io))
  {
    match call
    case Restore => CreateEmptyKeepsInv(s, io.create);
    case Change(sku, delta, proposal) => ChangeKeepsInv(s, sku, delta, proposal, io);
    case Retry =>
    case NewCart => NewCartKeepsInv(s, io);
  }

  /** Exactly once under loss: the invariant holds in every reachable state, for every queue of
      calls, every pattern of lost requests and answers, and other writers anywhere between. */
  lemma {:induction false} NextKeepsInv(s: System, e: Event)
    requires Inv(s)
    ensures Inv(Next(s, e))
  {
    match e
    case Enqueue(_) =>
    case Begin(io) =>
      if !s.client.sending && s.client.queue != [] {
        BeginKeepsInv(s.(client := s.client.(queue := s.client.queue[1..])), s.client.queue[0], io);
      }
    case Arrive(link) =>
      if s.client.sending {
        ExecuteKeepsInv(s, link);
      }
    case Elsewhere(n, request, link) => BackendKeepsInv(s, Theirs(n), request, link);
  }

  lemma {:induction false} RunKeepsInv(s: System, events: seq<Event>)
    requires Start(s)
    ensures Inv(RunAll(s, events))
    decreases |events|
  {
    if events != [] {
      RunKeepsInv(s, events[..|events| - 1]);
      NextKeepsInv(RunAll(s, events[..|events| - 1]), events[|events| - 1]);
    }
  }

  // ---------------------------------------------------------------- exactly once

  /** In every reachable state: no key has taken effect twice; the cart writes were sent one key
      at a time; what took effect under a key is what was asked for under it, with the quantity
      that follows from what the client read; and a pending change is the newest one asked for. */
  lemma {:induction false} EachChangeAtMostOnce(s0: System, events: seq<Event>)
    requires Start(s0)
    ensures var s := RunAll(s0, events);
            && (forall i, j :: 0 <= i < j < |s.backend.log| ==> s.backend.log[i].key != s.backend.log[j].key)
            && (forall i, j, k :: 0 <= i <= j <= k < |s.sent| && s.sent[i] == s.sent[k] ==> s.sent[j] == s.sent[i])
            && (forall e <- s.backend.log :: e.key.Mine? && e.key.n in s.asked ==>
                  && e.key.n in s.sent
                  && e.request == RequestOf(s.asked[e.key.n].op)
                  && e.request.quantity == Target(s.asked[e.key.n], s.asked[e.key.n].seen))
            && (s.client.pending.Some? ==> forall k <- s.sent :: k <= s.client.pending.value.key)
  {
    RunKeepsInv(s0, events);
  }

  /** The outcome the client sees of its pending write. */
  function Reply(s: System, link: Link): Outcome<View>
    requires s.client.pending.Some?
  {
    Deliver(s.backend, Mine(s.client.pending.value.key), RequestOf(s.client.pending.value), link).1
  }

  ghost predicate Applied(s: System, key: Key) { exists e <- s.backend.log :: e.key == key }

  /** A write that is answered has taken effect, once, as it was asked for, and is forgotten. */
  lemma {:induction false} AnsweredMeansApplied(s: System, link: Link)
    requires Inv(s) && s.client.pending.Some? && Reply(s, link).Answered?
    ensures var t, op := ExecuteWork(s, link), s.client.pending.value;
            && t.client.pending.None? && Applied(t, Mine(op.key))
            && forall e <- t.backend.log :: e.key == Mine(op.key) ==> e.request == RequestOf(op)
  {
    var op := s.client.pending.value;
    DeliverKeepsOnce(s.backend, Mine(op.key), RequestOf(op), link);
    ExecuteKeepsInv(s, link);
  }

  /** A refusal leaves the backend as it was, and comes from ahead of the record if the key has
      one. */
  lemma {:induction false} RefusedChangesNothing(s: System, link: Link)
    requires Inv(s) && s.client.pending.Some? && Reply(s, link).Refused?
    ensures var t, key := ExecuteWork(s, link), Mine(s.client.pending.value.key);
            && t.client.pending.None? && t.backend == s.backend && link.reaches && link.answers
            && (Applied(s, key) ==> link.barred)
  {
    var op := s.client.pending.value;
    DeliverKeepsOnce(s.backend, Mine(op.key), RequestOf(op), link);
    if Applied(s, Mine(op.key)) {
      var e :| e in s.backend.log && e.key == Mine(op.key);
      assert e.request == RequestOf(op);
    }
  }

  /** The source takes a 4xx for proof that nothing was written. Of the first send of a key that
      is right, whoever refused it. */
  lemma {:induction false} FirstRefusalIsDefinite(s: System, link: Link)
    requires Inv(s) && s.client.pending.Some? && Reply(s, link).Refused?
    requires s.client.pending.value.key !in s.sent
    ensures !Applied(ExecuteWork(s, link), Mine(s.client.pending.value.key))
  {
    RefusedChangesNothing(s, link);
  }

  /** A lost answer is recovered by any retry that gets through, without a second effect. */
  lemma {:induction false} RetryRecovers(s: System, link: Link)
    requires Inv(s) && s.client.pending.Some? && Mine(s.client.pending.value.key) in s.backend.records
    requires link.reaches && !link.barred && link.answers
    ensures var t := ExecuteWork(s, link);
            t.client.pending.None? && t.backend == s.backend
            && t.client.cart == Some(s.backend.records[Mine(s.client.pending.value.key)].answer)
  {
    var key := Mine(s.client.pending.value.key);
    var e :| e in s.backend.log && e.key == key;
  }

  // ---------------------------------------------------------------- what the client has heard

  predicate Sends(s: System, e: Event, key: nat) {
    e.Arrive? && s.client.sending && s.client.pending.Some? && s.client.pending.value.key == key
  }

  /** The step delivers the pending write of this key, a quantity the shop takes, and loses the
      answer. */
  predicate LosesAnswer(s: System, e: Event, key: nat) {
    Sends(s, e, key) && 0 <= s.client.pending.value.quantity <= MAX_LINE_QUANTITY
    && e.link.reaches && !e.link.barred && !e.link.refuses && !e.link.answers
  }

  /** The step answers the pending write of this key. */
  predicate Hears(s: System, e: Event, key: nat) { Sends(s, e, key) && Reply(s, e.link).Answered? }

  ghost predicate LostAnswer(s0: System, events: seq<Event>, key: nat) {
    exists i :: 0 <= i < |events| && LosesAnswer(RunAll(s0, events[..i]), events[i], key)
  }

  ghost predicate Heard(s0: System, events: seq<Event>, key: nat) {
    exists i :: 0 <= i < |events| && Hears(RunAll(s0, events[..i]), events[i], key)
  }

  lemma {:induction false} HistoryStep(s0: System, before: seq<Event>, e: Event, key: nat)
    ensures LostAnswer(s0, before + [e], key) <==>
              LostAnswer(s0, before, key) || LosesAnswer(RunAll(s0, before), e, key)
    ensures Heard(s0, before + [e], key) <==> Heard(s0, before, key) || Hears(RunAll(s0, before), e, key)
  {
    var events := before + [e];
    assert events[..|before|] == before && events[|before|] == e;
    assert forall i :: 0 <= i < |before| ==> events[i] == before[i] && events[..i] == before[..i];
  }

  /** The cart of a pending write exists. */
  ghost predicate CartExists(s: System) {
    s.client.pending.Some? ==> s.client.pending.value.cart in s.backend.state.carts
  }

  lemma {:induction false} CartsStay(backend: Backend, key: Key, request: Request, link: Link)
    ensures forall c <- backend.state.carts :: c in Deliver(backend, key, request, link).0.state.carts
  {
  }

  lemma {:induction false} NextKeepsCart(s: System, e: Event)
    requires Inv(s) && CartExists(s)
    ensures CartExists(Next(s, e))
  {
    match e
    case Arrive(link) =>
      if s.client.pending.Some? {
        CartsStay(s.backend, Mine(s.client.pending.value.key), RequestOf(s.client.pending.value), link);
      }
    case Elsewhere(n, request, link) => CartsStay(s.backend, Theirs(n), request, link);
    case _ =>
  }

  /** Sending the pending write applies it exactly if it is answered, or carried and unanswered,
      or was applied before. */
  lemma {:induction false} SendApplies(s: System, link: Link)
    requires Inv(s) && CartExists(s) && s.client.sending
    ensures var key := s.client.pending.value.key;
            Applied(ExecuteWork(s, link), Mine(key)) <==>
              Applied(s, Mine(key)) || LosesAnswer(s, Arrive(link), key) || Hears(s, Arrive(link), key)
  {
    var op := s.client.pending.value;
    DeliverKeepsOnce(s.backend, Mine(op.key), RequestOf(op), link);
    var after := Deliver(s.backend, Mine(op.key), RequestOf(op), link).0;
    if after != s.backend {
      assert after.log[|s.backend.log|].key == Mine(op.key);
      assert after.log[|s.backend.log|] in after.log;
    }
    if Mine(op.key) in s.backend.records {
      var e :| e in s.backend.log && e.key == Mine(op.key);
    }
    if Hears(s, Arrive(link), op.key) {
      AnsweredMeansApplied(s, link);
    }
  }

  /** What was applied stays, and only carts were created, or somebody else's writes added. */
  ghost predicate OnlyCreates(before: Backend, after: Backend) {
    && (forall x <- before.log :: x in after.log)
    && (forall x <- after.log :: x in before.log || x.key.Theirs? || x.request == CreateCart)
  }

  lemma {:induction false} CreationOnlyCreates(backend: Backend, key: Key, link: Link)
    ensures OnlyCreates(backend, Deliver(backend, key, CreateCart, link).0)
  {
  }

  lemma {:induction false} WorkOnlyCreates(s: System, call: Call, io: Io)
    ensures OnlyCreates(s.backend, Work(s, call, io).backend)
  {
    match call
    case Restore => CreationOnlyCreates(s.backend, Mine(s.client.createKey), io.create);
    case Change(_, _, _) => CreationOnlyCreates(s.backend, Mine(s.client.createKey), io.create);
    case Retry =>
    case NewCart =>
      var key := if s.client.newKey.Some? then s.client.newKey.value else s.client.minted;
      CreationOnlyCreates(s.backend, Mine(key), io.create);
  }

  lemma {:induction false} TheirsOnlyAdds(backend: Backend, n: nat, request: Request, link: Link)
    ensures OnlyCreates(backend, Deliver(backend, Theirs(n), request, link).0)
  {
  }

  /** No other step applies a change of this client. */
  lemma {:induction false} OthersApplyNothing(s: System, e: Event, key: nat)
    requires Inv(s) && Inv(Next(s, e)) && key in Next(s, e).asked && !(e.Arrive? && s.client.sending)
    ensures Applied(Next(s, e), Mine(key)) <==> Applied(s, Mine(key))
  {
    var t := Next(s, e);
    match e
    case Begin(io) =>
      if !s.client.sending && s.client.queue != [] {
        WorkOnlyCreates(s.(client := s.client.(queue := s.client.queue[1..])), s.client.queue[0], io);
      }
    case Elsewhere(n, request, link) => TheirsOnlyAdds(s.backend, n, request, link);
    case _ =>
    OnlyCreatesAppliesNothing(s, t, key);
  }

  lemma {:induction false} OnlyCreatesAppliesNothing(s: System, t: System, key: nat)
    requires Inv(t) && key in t.asked && OnlyCreates(s.backend, t.backend)
    ensures Applied(t, Mine(key)) <==> Applied(s, Mine(key))
  {
    if Applied(t, Mine(key)) {
      var x :| x in t.backend.log && x.key == Mine(key);
      assert x in s.backend.log;
    }
    if Applied(s, Mine(key)) {
      var x :| x in s.backend.log && x.key == Mine(key);
      assert x in t.backend.log;
    }
  }

  /** Sending one key applies no other. */
  lemma {:induction false} SendAppliesNoOther(s: System, link: Link, key: nat)
    requires Inv(s) && s.client.sending && key != s.client.pending.value.key
    ensures Applied(ExecuteWork(s, link), Mine(key)) <==> Applied(s, Mine(key))
  {
    var op := s.client.pending.value;
    DeliverKeepsOnce(s.backend, Mine(op.key), RequestOf(op), link);
    LogOfOther(s.backend, Deliver(s.backend, Mine(op.key), RequestOf(op), link).0, Mine(op.key), Mine(key));
  }

  lemma {:induction false} LogOfOther(before: Backend, after: Backend, sent: Key, key: Key)
    requires sent != key && (after == before
                             || (|after.log| == |before.log| + 1 && after.log[..|before.log|] == before.log
                                                 && after.log[|before.log|].key == sent))
    ensures (exists e <- after.log :: e.key == key) <==> (exists e <- before.log :: e.key == key)
  {
    if after != before {
      assert after.log == before.log + [after.log[|before.log|]];
      assert forall e <- before.log :: e in after.log;
    }
  }

  lemma {:induction false} AppliedStep(s: System, e: Event, key: nat)
    requires Inv(s) && Inv(Next(s, e)) && CartExists(s) && key in Next(s, e).asked
    ensures Applied(Next(s, e), Mine(key)) <==>
              Applied(s, Mine(key)) || LosesAnswer(s, e, key) || Hears(s, e, key)
  {
    if e.Arrive? && s.client.sending {
      if s.client.pending.value.key == key {
        SendApplies(s, e.link);
      } else {
        SendAppliesNoOther(s, e.link, key);
      }
    } else {
      OthersApplyNothing(s, e, key);
    }
  }

  /** Over any run: a change has taken effect if and only if some send of it was answered, or was
      carried there and only its answer lost. */
  lemma {:induction false} AppliedIff(s0: System, events: seq<Event>, key: nat)
    requires Start(s0) && key in RunAll(s0, events).asked
    ensures Applied(RunAll(s0, events), Mine(key)) <==> Heard(s0, events, key) || LostAnswer(s0, events, key)
    decreases |events|
  {
    if events != [] {
      var before, e := events[..|events| - 1], events[|events| - 1];
      assert events == before + [e];
      HistoryStep(s0, before, e, key);
      AppliedAfter(s0, before, e, key);
      if key in RunAll(s0, before).asked {
        AppliedIff(s0, before, key);
      } else {
        NotAskedYet(s0, before, key);
      }
    }
  }

  lemma {:induction false} AppliedAfter(s0: System, before: seq<Event>, e: Event, key: nat)
    requires Start(s0) && key in Next(RunAll(s0, before), e).asked
    ensures var s := RunAll(s0, before);
            Applied(Next(s, e), Mine(key)) <==>
              (key in s.asked && Applied(s, Mine(key))) || LosesAnswer(s, e, key) || Hears(s, e, key)
  {
    var s := RunAll(s0, before);
    RunKeepsInv(s0, before);
    NextKeepsInv(s, e);
    CartsExist(s0, before);
    AppliedStep(s, e, key);
    if key !in s.asked {
      NewlyAsked(s, e, key);
    }
  }

  /** A change that is asked for in this step has a new key. */
  lemma {:induction false} NewlyAsked(s: System, e: Event, key: nat)
    requires Inv(s) && key in Next(s, e).asked && key !in s.asked
    ensures key >= s.client.minted && !Applied(s, Mine(key)) && Next(s, e).client.pending.Some?
    ensures Next(s, e).client.pending.value.key == key && s.client.pending.None?
  {
  }

  lemma {:induction false} CartsExist(s0: System, events: seq<Event>)
    requires Start(s0)
    ensures CartExists(RunAll(s0, events))
    decreases |events|
  {
    if events != [] {
      CartsExist(s0, events[..|events| - 1]);
      RunKeepsInv(s0, events[..|events| - 1]);
      NextKeepsCart(RunAll(s0, events[..|events| - 1]), events[|events| - 1]);
    }
  }

  lemma {:induction false} AskedStays(s: System, e: Event, key: nat)
    requires key in s.asked
    ensures key in Next(s, e).asked
  {
  }

  /** What was not asked was neither sent nor applied. */
  lemma {:induction false} NotAskedYet(s0: System, events: seq<Event>, key: nat)
    requires Start(s0) && key !in RunAll(s0, events).asked
    ensures !Heard(s0, events, key) && !LostAnswer(s0, events, key)
    decreases |events|
  {
    if events != [] {
      var before, e := events[..|events| - 1], events[|events| - 1];
      assert events == before + [e];
      RunKeepsInv(s0, before);
      if key in RunAll(s0, before).asked {
        AskedStays(RunAll(s0, before), e, key);
      } else {
        NotAskedYet(s0, before, key);
        HistoryStep(s0, before, e, key);
      }
    }
  }

  /** While a write is pending nothing else of this client reaches the backend, the creation of a
      cart included. */
  lemma {:induction false} OnlyPendingIsSent(s: System, e: Event)
    requires Inv(s) && s.client.pending.Some? && !e.Elsewhere?
    ensures var op := s.client.pending.value;
            Next(s, e).backend == s.backend
            || (Sends(s, e, op.key) && Next(s, e).backend == Deliver(s.backend, Mine(op.key), RequestOf(op), e.link).0)
  {
  }

  /** A pending write was never answered. */
  lemma {:induction false} PendingIsUnheard(s0: System, events: seq<Event>, key: nat)
    requires Start(s0) && RunAll(s0, events).client.pending.Some? && RunAll(s0, events).client.pending.value.key == key
    ensures !Heard(s0, events, key)
    decreases |events|
  {
    if events != [] {
      var before, e := events[..|events| - 1], events[|events| - 1];
      var s := RunAll(s0, before);
      assert events == before + [e];
      RunKeepsInv(s0, before);
      HistoryStep(s0, before, e, key);
      if s.client.pending.Some? && s.client.pending.value.key == key {
        PendingIsUnheard(s0, before, key);
      } else {
        NewPendingIsNew(s, e);
        NotAskedYet(s0, before, key);
      }
    }
  }

  lemma {:induction false} NewPendingIsNew(s: System, e: Event)
    requires Inv(s) && Next(s, e).client.pending.Some? && Next(s, e).client.pending != s.client.pending
    ensures Next(s, e).client.pending.value.key !in s.asked && s.client.pending.None?
  {
  }

  /** In any run a refusal means that nothing was written if and only if no earlier send of the
      same write was carried there with its answer lost. */
  lemma {:induction false} RefusedMeansUnappliedIff(s0: System, events: seq<Event>, link: Link)
    requires Start(s0)
    requires var s := RunAll(s0, events); s.client.pending.Some? && Reply(s, link).Refused?
    ensures var s := RunAll(s0, events);
            var key := s.client.pending.value.key;
            && ExecuteWork(s, link).client.pending.None?
            && (!Applied(ExecuteWork(s, link), Mine(key)) <==> !LostAnswer(s0, events, key))
            && (LostAnswer(s0, events, key) ==> link.barred)
  {
    var s := RunAll(s0, events);
    RunKeepsInv(s0, events);
    RefusedChangesNothing(s, link);
    AppliedIff(s0, events, s.client.pending.value.key);
    PendingIsUnheard(s0, events, s.client.pending.value.key);
  }

  /** A change that took effect, was never answered, and is no longer pending. */
  ghost predicate Forgotten(s0: System, events: seq<Event>, key: nat) {
    var s := RunAll(s0, events);
    && key in s.asked && Applied(s, Mine(key)) && !Heard(s0, events, key)
    && !(s.client.pending.Some? && s.client.pending.value.key == key)
  }

  /** After an answer to this write was lost, the step resends it and gets a refusal from ahead
      of the record. */
  ghost predicate DropsApplied(s0: System, before: seq<Event>, e: Event, key: nat) {
    && Sends(RunAll(s0, before), e, key) && LostAnswer(s0, before, key)
    && e.link.reaches && e.link.barred && e.link.answers
  }

  /** Exactly such a step forgets a change. */
  lemma {:induction false} ForgetsExactly(s0: System, before: seq<Event>, e: Event, key: nat)
    requires Start(s0)
    ensures Forgotten(s0, before + [e], key) <==> Forgotten(s0, before, key) || DropsApplied(s0, before, e, key)
  {
    var s, events := RunAll(s0, before), before + [e];
    assert events[..|events| - 1] == before;
    RunKeepsInv(s0, before);
    HistoryStep(s0, before, e, key);
    if key in s.asked {
      AskedStays(s, e, key);
      AppliedIff(s0, before, key);
      AppliedIff(s0, events, key);
      if Sends(s, e, key) {
        PendingIsUnheard(s0, before, key);
        SendingEnds(s, e.link);
      } else {
        PendingMoves(s, e, key);
      }
    } else if key in Next(s, e).asked {
      NewlyAsked(s, e, key);
    }
  }

  /** How the pending write comes out of a send. */
  lemma {:induction false} SendingEnds(s: System, link: Link)
    requires Inv(s) && s.client.sending
    ensures var t, key := ExecuteWork(s, link), s.client.pending.value.key;
            && (t.client.pending.Some? <==> Reply(s, link).Unknown?)
            && (t.client.pending.Some? ==> t.client.pending == s.client.pending)
            && (Applied(s, Mine(key)) ==> (Reply(s, link).Refused? <==> link.reaches && link.barred && link.answers))
            && (Reply(s, link).Refused? ==> link.answers)
  {
    var op := s.client.pending.value;
    if Applied(s, Mine(op.key)) {
      var e :| e in s.backend.log && e.key == Mine(op.key);
      assert e.request == RequestOf(op);
    }
  }

  lemma {:induction false} PendingMoves(s: System, e: Event, key: nat)
    requires Inv(s) && key in s.asked && !Sends(s, e, key)
    ensures var t := Next(s, e);
            (t.client.pending.Some? && t.client.pending.value.key == key)
            <==> (s.client.pending.Some? && s.client.pending.value.key == key)
  {
  }

  /** A run in which no refusal comes from ahead of the record forgets nothing: every change that
      took effect was answered, or is the one pending. */
  lemma {:induction false} BenignRunForgetsNothing(s0: System, events: seq<Event>, key: nat)
    requires Start(s0) && forall e <- events :: e.Arrive? ==> !e.link.barred
    ensures !Forgotten(s0, events, key)
    decreases |events|
  {
    if events == [] {
      assert RunAll(s0, events) == s0;
    } else {
      var before, e := events[..|events| - 1], events[|events| - 1];
      assert events == before + [e] && e in events && forall x <- before :: x in events;
      BenignRunForgetsNothing(s0, before, key);
      ForgetsExactly(s0, before, e, key);
    }
  }

  const NEW := System(Client(None, [], None, 0, None, 1, false), Server(map[], Shop(map[], 0), []), map[], [])
  const CARRIED := Link(true, false, false, true)
  const LOST := Link(true, false, false, false)
  const BARRED := Link(true, true, false, true)
  const WORKING := Io(true, None, true, false, CARRIED, true)
  const ADD_ONE := Change("a", 1.0, None)

  /** One of "a" is wanted in cart 0, under key 2. */
  ghost predicate WantsOne(s: System) {
    && s.client.pending == Some(Operation(0, "a", 1, 2, None)) && s.client.queue == [] && s.client.minted == 3
    && s.asked.Keys == {2} && s.client.sending
  }

  lemma {:induction false} ChangeIsSent()
    ensures var s := RunAll(NEW, [Enqueue(ADD_ONE), Begin(WORKING)]);
            WantsOne(s) && s.backend.state.carts == map[0 := map[]] && Mine(2) !in s.backend.records
  {
    RunOfTwo(Next, NEW, Enqueue(ADD_ONE), Begin(WORKING));
    assert [] + [ADD_ONE] == [ADD_ONE] && [ADD_ONE][1..] == [];
    var t := CreateEmpty(NEW, CARRIED);
    assert t.client.cart == Some(View(0, map[])) && t.backend.state.carts == map[0 := map[]] && t.client.minted == 2;
    assert 1.0 == (1.0).Floor as real && (1.0).Floor == 1;
    assert EnsureCart(NEW, WORKING) == t;
  }

  lemma {:induction false} AnswerIsLost(s: System)
    requires WantsOne(s) && s.backend.state.carts == map[0 := map[]] && Mine(2) !in s.backend.records
    ensures var t := RunAll(s, [Arrive(LOST), Enqueue(Retry)]);
            && t.client.pending == s.client.pending && !t.client.sending && t.client.queue == [Retry]
            && t.asked == s.asked && Mine(2) in t.backend.records && Applied(t, Mine(2))
            && t.backend.state.carts == map[0 := map["a" := 1]]
  {
    RunOfTwo(Next, s, Arrive(LOST), Enqueue(Retry));
    var t := Next(Next(s, Arrive(LOST)), Enqueue(Retry));
    assert t.backend.log[|s.backend.log|].key == Mine(2);
    assert t.backend.log[|s.backend.log|] in t.backend.log;
  }

  lemma {:induction false} RetryIsBarred(s: System)
    requires s.client.pending == Some(Operation(0, "a", 1, 2, None)) && !s.client.sending && s.client.queue == [Retry]
    requires s.asked.Keys == {2} && Applied(s, Mine(2))
    ensures var t := RunAll(s, [Begin(WORKING), Arrive(BARRED)]);
            t.client.pending.None? && t.backend == s.backend && t.asked == s.asked
  {
    RunOfTwo(Next, s, Begin(WORKING), Arrive(BARRED));
    assert [Retry][1..] == [];
  }

  /** A change whose answer is lost, and a retry that is refused ahead of the record: the client
      drops the change as refused, and the cart holds it. */
  lemma {:induction false} BarredRetryForgets()
    ensures Start(NEW)
    ensures var s := RunAll(NEW, [Enqueue(ADD_ONE), Begin(WORKING)] + [Arrive(LOST), Enqueue(Retry)]
                                 + [Begin(WORKING), Arrive(BARRED)]);
            && s.client.pending.None? && 2 in s.asked && Applied(s, Mine(2))
            && s.backend.state.carts == map[0 := map["a" := 1]]
  {
    var change, lose, retry := [Enqueue(ADD_ONE), Begin(WORKING)], [Arrive(LOST), Enqueue(Retry)],
                               [Begin(WORKING), Arrive(BARRED)];
    RunAppend(Next, NEW, change, lose);
    RunAppend(Next, NEW, change + lose, retry);
    ChangeIsSent();
    AnswerIsLost(RunAll(NEW, change));
    RetryIsBarred(RunAll(NEW, change + lose));
  }

  // ---------------------------------------------------------------- a single writer

  ghost predicate Quiet(events: seq<Event>) { forall e <- events :: !e.Elsewhere? }

  /** How much of the intent's product the shop holds. */
  function Held(shop: Shop, op: Operation): int {
    if op.cart in shop.carts then Quantity(shop.carts[op.cart], op.sku) else 0
  }

  ghost predicate Undisturbed(s: System) {
    && (forall c <- s.backend.state.carts :: c < s.backend.state.next)
    && (s.client.pending.Some? && s.client.pending.value.key in s.asked
        && Mine(s.client.pending.value.key) !in s.backend.records ==>
          Held(s.backend.state, s.client.pending.value) == s.asked[s.client.pending.value.key].seen)
    && (forall e <- s.backend.log :: e.key.Mine? && e.key.n in s.asked ==>
          Held(e.before, s.asked[e.key.n].op) == s.asked[e.key.n].seen)
  }

  lemma CreationKeepsHeld(shop: Shop, op: Operation)
    requires shop.next !in shop.carts
    ensures Held(Run(shop, CreateCart).0, op) == Held(shop, op)
  {
  }

  /** A cart that is created disturbs no line that an intent is about. */
  lemma {:induction false} CreatedIsQuiet(s: System, key: nat, after: Backend)
    requires Inv(s) && Undisturbed(s) && key !in s.asked
    requires after.log == s.backend.log + [Effect(Mine(key), CreateCart, s.backend.state)]
    requires after.state == Run(s.backend.state, CreateCart).0
    requires after.records.Keys == s.backend.records.Keys + {Mine(key)}
    ensures Undisturbed(s.(backend := after))
  {
    if s.client.pending.Some? {
      CreationKeepsHeld(s.backend.state, s.client.pending.value);
    }
    forall e | e in after.log && e.key.Mine? && e.key.n in s.asked
      ensures Held(e.before, s.asked[e.key.n].op) == s.asked[e.key.n].seen
    {
      assert e in s.backend.log;
    }
  }

  lemma {:induction false} CreationIsQuiet(s: System, key: nat, link: Link)
    requires Inv(s) && Undisturbed(s) && key !in s.asked
    ensures Undisturbed(s.(backend := Deliver(s.backend, Mine(key), CreateCart, link).0))
  {
    DeliverKeepsOnce(s.backend, Mine(key), CreateCart, link);
    var after := Deliver(s.backend, Mine(key), CreateCart, link).0;
    if after != s.backend {
      CreatedIsQuiet(s, key, after);
    }
  }

  lemma {:induction false} ChangeIsQuiet(s: System, sku: string, delta: real, proposal: Option<Proposal>, io: Io)
    requires Inv(s) && Undisturbed(s) && !s.client.sending
    ensures Undisturbed(ChangeWork(s, sku, delta, proposal, io))
  {
    EnsureCartKeepsInv(s, io);
    EnsureIsQuiet(s, io);
    var u := ChangeWork(s, sku, delta, proposal, io);
    if u.client.sending {
      IntendIsQuiet(EnsureCart(s, io), u);
    }
  }

  lemma {:induction false} EnsureIsQuiet(s: System, io: Io)
    requires Inv(s) && Undisturbed(s)
    ensures Undisturbed(EnsureCart(s, io))
  {
    CreationIsQuiet(s, s.client.createKey, io.create);
  }

  lemma {:induction false} IntendIsQuiet(t: System, u: System)
    requires Inv(t) && Undisturbed(t) && t.client.pending.None? && u.client.pending.Some?
    requires var op := u.client.pending.value;
             op.key == t.client.minted && u.asked.Keys == t.asked.Keys + {op.key}
             && Held(u.backend.state, op) == u.asked[op.key].seen
    requires (forall k <- t.asked :: u.asked[k] == t.asked[k]) && u.backend == t.backend
    ensures Undisturbed(u)
  {
  }

  lemma {:induction false} ExecuteIsQuiet(s: System, link: Link)
    requires Inv(s) && Undisturbed(s) && s.client.pending.Some?
    ensures Undisturbed(ExecuteWork(s, link))
  {
    var op := s.client.pending.value;
    DeliverKeepsOnce(s.backend, Mine(op.key), RequestOf(op), link);
  }

  lemma {:induction false} NewCartIsQuiet(t: System, io: Io)
    requires Inv(t) && Undisturbed(t)
    ensures Undisturbed(NewCartWork(t, io))
  {
    var u := if t.client.newKey.Some? then t
             else t.(client := t.client.(newKey := Some(t.client.minted), minted := t.client.minted + 1));
    CreationIsQuiet(u, u.client.newKey.value, io.create);
  }

  lemma {:induction false} WorkIsQuiet(t: System, call: Call, io: Io)
    requires Inv(t) && Undisturbed(t) && !t.client.sending
    ensures Undisturbed(Work(t, call, io))
  {
    match call
    case Restore => CreationIsQuiet(t, t.client.createKey, io.create);
    case Change(sku, delta, proposal) => ChangeIsQuiet(t, sku, delta, proposal, io);
    case Retry =>
    case NewCart => NewCartIsQuiet(t, io);
  }

  lemma {:induction false} NextIsQuiet(s: System, e: Event)
    requires Inv(s) && Undisturbed(s) && !e.Elsewhere?
    ensures Undisturbed(Next(s, e))
  {
    if e.Begin? && !s.client.sending && s.client.queue != [] {
      WorkIsQuiet(s.(client := s.client.(queue := s.client.queue[1..])), s.client.queue[0], e.io);
    } else if e.Arrive? && s.client.sending {
      ExecuteIsQuiet(s, e.link);
    }
  }

  /** With no other writer, each change that takes effect, at once or through any number of
      retries, leaves the line at what the request meant at that very moment. */
  lemma {:induction false} SingleWriterIsExact(s0: System, events: seq<Event>)
    requires Start(s0) && Quiet(events)
    ensures var s := RunAll(s0, events);
            Inv(s) && Undisturbed(s) &&
            forall e <- s.backend.log :: e.key.Mine? && e.key.n in s.asked ==>
              var intent := s.asked[e.key.n];
              e.request == RequestOf(intent.op) && e.request.quantity == Target(intent, Held(e.before, intent.op))
    decreases |events|
  {
    RunKeepsInv(s0, events);
    if events != [] {
      var before, last := events[..|events| - 1], events[|events| - 1];
      assert last in events && forall e <- before :: e in events;
      SingleWriterIsExact(s0, before);
      RunKeepsInv(s0, before);
      NextIsQuiet(RunAll(s0, before), last);
    }
  }

  /** With other writers it is right exactly when the quantity was absolute, or the line holds
      what was read, or both would be clamped to nothing. */
  lemma {:induction false} WriteIsRightIff(s: System, e: Effect<Key, Request, Shop>)
    requires Inv(s) && e in s.backend.log && e.key.Mine? && e.key.n in s.asked
    ensures e.request.SetLine?
    ensures var intent := s.asked[e.key.n];
            var now := Held(e.before, intent.op);
            (e.request.quantity == Target(intent, now)
             <==> intent.absolute.Some? || now == intent.seen
                  || (now + intent.delta <= 0 && intent.seen + intent.delta <= 0))
  {
  }

  // ---------------------------------------------------------------- what was called for

  /** What a call of `change` asks for, when the cart it reads is this one. */
  ghost predicate IsFor(intent: Intent, call: Call, cart: View) {
    && call.Change? && intent.op.sku == call.sku && intent.delta as real == call.delta && intent.delta != 0
    && intent.op.cart == cart.cart && intent.seen == (if call.sku in cart.lines then cart.lines[call.sku] else 0)
    && (call.proposal.None? ==> intent.absolute.None? && intent.op.expected.None?)
    && (call.proposal.Some? ==>
          && intent.absolute == call.proposal.value.absolute && intent.op.expected == call.proposal.value.binding
          && (call.proposal.value.cartId.Some? ==> call.proposal.value.cartId.value == cart.cart)
          && (call.proposal.value.blockedBy == "" || call.proposal.value.blockedBy == "no_basket"))
    && intent.op.quantity == (if intent.absolute.Some? then intent.absolute.value
                              else if intent.seen + intent.delta < 0 then 0 else intent.seen + intent.delta)
  }

  /** A key is asked for something only by the call at the head of the queue, a `change`, and then
      for what that call says about the cart as it is read. */
  lemma {:induction false} AskedIsCalled(s: System, e: Event, key: nat)
    requires key in Next(s, e).asked && (key in s.asked ==> Next(s, e).asked[key] != s.asked[key])
    ensures e.Begin? && !s.client.sending && s.client.queue != [] && s.client.pending.None?
    ensures var t := Next(s, e);
            && t.client.cart.Some? && t.client.cart.value.cart in t.backend.state.carts
            && t.client.cart.value.lines == t.backend.state.carts[t.client.cart.value.cart]
            && IsFor(t.asked[key], s.client.queue[0], t.client.cart.value)
            && t.client.queue == s.client.queue[1..] && t.client.pending == Some(t.asked[key].op)
  {
  }

  /** A suitable change that has its cart and an answer to its read is asked for: nothing is left
      undone by the client. */
  lemma {:induction false} SuitableChangeIsAsked(s: System, io: Io)
    requires Inv(s) && !s.client.sending && s.client.pending.None? && s.client.queue != [] && s.client.queue[0].Change?
    requires var call := s.client.queue[0]; call.delta == call.delta.Floor as real && call.delta != 0.0
    requires s.client.cart.Some? && s.client.cart.value.cart in s.backend.state.carts && io.readAnswers
    requires var proposal := s.client.queue[0].proposal;
             proposal.Some? ==>
               && (proposal.value.cartId.Some? ==> proposal.value.cartId.value == s.client.cart.value.cart)
               && (proposal.value.blockedBy == "" || proposal.value.blockedBy == "no_basket")
    ensures var t := Next(s, Begin(io));
            t.client.sending && t.asked.Keys == s.asked.Keys + {s.client.minted} && s.client.minted !in s.asked
  {
  }

  /** The calls that were queued, in order. */
  function Calls(events: seq<Event>): seq<Call> {
    if events == [] then []
    else
      var e := events[|events| - 1];
      Calls(events[..|events| - 1]) + (if e.Enqueue? then [e.call] else [])
  }

  /** How many of them were taken from the queue. */
  function Taken(s0: System, events: seq<Event>): int { |Calls(events)| - |RunAll(s0, events).client.queue| }

  /** The call each key was asked by, as its place among the calls. */
  ghost function CallOf(s0: System, events: seq<Event>): map<nat, int> {
    if events == [] then map[]
    else
      var before := events[..|events| - 1];
      var made := CallOf(s0, before);
      map k | k in RunAll(s0, events).asked :: if k in made then made[k] else Taken(s0, before)
  }

  lemma {:induction false} QueueStep(s: System, e: Event)
    ensures var t := Next(s, e);
            t.client.queue == (if e.Enqueue? then s.client.queue + [e.call]
                               else if e.Begin? && !s.client.sending && s.client.queue != [] then s.client.queue[1..]
                               else s.client.queue)
  {
  }

  /** Calls are taken in the order in which they were queued. */
  lemma {:induction false} QueueIsTheRest(s0: System, events: seq<Event>)
    requires Start(s0)
    ensures 0 <= Taken(s0, events) <= |Calls(events)|
    ensures RunAll(s0, events).client.queue == Calls(events)[Taken(s0, events)..]
    ensures events != [] ==> Taken(s0, events[..|events| - 1]) <= Taken(s0, events)
    decreases |events|
  {
    if events != [] {
      var before, e := events[..|events| - 1], events[|events| - 1];
      QueueIsTheRest(s0, before);
      QueueStep(RunAll(s0, before), e);
    }
  }

  ghost predicate IsAsked(intent: Intent, call: Call) { exists cart :: IsFor(intent, call, cart) }

  /** Each key was asked for what its call says, of the cart as it was then. */
  ghost predicate AskedByCalls(asked: map<nat, Intent>, calls: seq<Call>, made: map<nat, int>, taken: int) {
    && made.Keys == asked.Keys && 0 <= taken <= |calls|
    && (forall k <- made :: 0 <= made[k] < taken && IsAsked(asked[k], calls[made[k]]))
    && (forall k, l :: k in made && l in made && k < l ==> made[k] < made[l])
  }

  lemma {:induction false} NothingAsked(asked: map<nat, Intent>, calls: seq<Call>, made: map<nat, int>, taken: int,
                                        more: seq<Call>, later: int)
    requires AskedByCalls(asked, calls, made, taken) && calls <= more && taken <= later <= |more|
    ensures AskedByCalls(asked, more, made, later)
  {
  }

  lemma {:induction false} OneAsked(asked: map<nat, Intent>, calls: seq<Call>, made: map<nat, int>, taken: int,
                                    key: nat, intent: Intent)
    requires AskedByCalls(asked, calls, made, taken) && taken < |calls| && IsAsked(intent, calls[taken])
    requires forall k <- asked :: k < key
    ensures AskedByCalls(asked[key := intent], calls, made[key := taken], taken + 1)
  {
  }

  /** The next key, asked by the call that is taken. */
  lemma {:induction false} NewKeyIsCalled(s: System, e: Event) returns (key: nat)
    requires Inv(s) && Next(s, e).asked != s.asked
    ensures var t := Next(s, e);
            && e.Begin? && s.client.queue != [] && t.client.queue == s.client.queue[1..]
            && key in t.asked && t.asked == s.asked[key := t.asked[key]] && (forall k <- s.asked :: k < key)
            && IsAsked(t.asked[key], s.client.queue[0])
  {
    var t := Next(s, e);
    AskedGrows(s, e);
    key :| key in t.asked && (key in s.asked ==> t.asked[key] != s.asked[key]);
    AskedIsCalled(s, e, key);
    assert IsFor(t.asked[key], s.client.queue[0], t.client.cart.value);
  }

  lemma {:induction false} NewKeyTakesCall(asked: map<nat, Intent>, after: map<nat, Intent>, calls: seq<Call>,
                                           made: map<nat, int>, taken: int, key: nat)
    requires AskedByCalls(asked, calls, made, taken) && taken < |calls| && (forall k <- asked :: k < key)
    requires key in after && after == asked[key := after[key]] && IsAsked(after[key], calls[taken])
    ensures AskedByCalls(after, calls, map k | k in after :: if k in made then made[k] else taken, taken + 1)
  {
    OneAsked(asked, calls, made, taken, key, after[key]);
    assert (map k | k in after :: if k in made then made[k] else taken) == made[key := taken];
  }

  lemma {:induction false} QuietStep(s: System, e: Event, calls: seq<Call>, made: map<nat, int>, taken: int)
    requires AskedByCalls(s.asked, calls, made, taken) && s.client.queue == calls[taken..]
    requires Next(s, e).asked == s.asked
    ensures var more := calls + (if e.Enqueue? then [e.call] else []);
            AskedByCalls(s.asked, more, made, |more| - |Next(s, e).client.queue|)
  {
    var more := calls + (if e.Enqueue? then [e.call] else []);
    QueueStep(s, e);
    NothingAsked(s.asked, calls, made, taken, more, |more| - |Next(s, e).client.queue|);
  }

  lemma {:induction false} AskedStep(s: System, e: Event, calls: seq<Call>, made: map<nat, int>, taken: int)
    requires Inv(s) && AskedByCalls(s.asked, calls, made, taken) && s.client.queue == calls[taken..]
    ensures var t := Next(s, e);
            var more := calls + (if e.Enqueue? then [e.call] else []);
            var next := map k | k in t.asked :: if k in made then made[k] else taken;
            AskedByCalls(t.asked, more, next, |more| - |t.client.queue|)
  {
    var t := Next(s, e);
    if t.asked == s.asked {
      QuietStep(s, e, calls, made, taken);
      assert (map k | k in t.asked :: if k in made then made[k] else taken) == made;
    } else {
      var key := NewKeyIsCalled(s, e);
      assert calls[taken] == s.client.queue[0];
      NewKeyTakesCall(s.asked, t.asked, calls, made, taken, key);
    }
  }

  /** At most one more key, the next one; what was asked stays. */
  ghost predicate OneMoreAsked(s: System, t: System) {
    && (forall k <- s.asked :: k in t.asked && t.asked[k] == s.asked[k] && k < s.client.minted)
    && (forall k <- t.asked :: k in s.asked || k >= s.client.minted)
    && (forall k, l :: k in t.asked && l in t.asked && k !in s.asked && l !in s.asked ==> k == l)
  }

  lemma {:induction false} WorkAsksOnce(s: System, call: Call, io: Io)
    requires forall k <- s.asked :: k < s.client.minted
    ensures OneMoreAsked(s, Work(s, call, io))
  {
    if call.Change? {
      assert EnsureCart(s, io).asked == s.asked && EnsureCart(s, io).client.minted >= s.client.minted;
    }
  }

  lemma {:induction false} AskedGrows(s: System, e: Event)
    requires Inv(s)
    ensures OneMoreAsked(s, Next(s, e))
  {
    if e.Begin? && s.client.queue != [] {
      WorkAsksOnce(s.(client := s.client.(queue := s.client.queue[1..])), s.client.queue[0], e.io);
    }
  }

  lemma {:induction false} KeysAreCalls(s0: System, events: seq<Event>)
    requires Start(s0)
    ensures AskedByCalls(RunAll(s0, events).asked, Calls(events), CallOf(s0, events), Taken(s0, events))
    decreases |events|
  {
    if events != [] {
      var before, e := events[..|events| - 1], events[|events| - 1];
      KeysAreCalls(s0, before);
      RunKeepsInv(s0, before);
      QueueIsTheRest(s0, before);
      AskedStep(RunAll(s0, before), e, Calls(before), CallOf(s0, before), Taken(s0, before));
    }
  }

  /** Over any run without another writer, each line write that takes effect is that of one call of
      `change`, no two of the same call and in the order of the calls; it is to the call's SKU, and
      leaves the line at the absolute quantity the call names or else at what it holds at that very
      moment with the call's delta, not below zero. */
  lemma {:induction false} EachCallIsExact(s0: System, events: seq<Event>)
    requires Start(s0) && Quiet(events)
    ensures var s := RunAll(s0, events); var calls, origin := Calls(events), CallOf(s0, events);
            && (forall e <- s.backend.log :: e.key.Mine? && e.request.SetLine? ==>
                  e.key.n in origin && 0 <= origin[e.key.n] < |calls| && IsWritten(e, calls[origin[e.key.n]]))
            && (forall k, l :: k in origin && l in origin && k < l ==> origin[k] < origin[l])
  {
    var s := RunAll(s0, events);
    var calls, origin := Calls(events), CallOf(s0, events);
    SingleWriterIsExact(s0, events);
    KeysAreCalls(s0, events);
    forall e | e in s.backend.log && e.key.Mine? && e.request.SetLine?
      ensures e.key.n in origin && 0 <= origin[e.key.n] < |calls| && IsWritten(e, calls[origin[e.key.n]])
    {
      assert e.key.n in s.asked;
      var cart :| IsFor(s.asked[e.key.n], calls[origin[e.key.n]], cart);
    }
  }

  /** The effect is what the call asks for, on what the line held then. */
  ghost predicate IsWritten(e: Effect<Key, Request, Shop>, call: Call)
    requires e.request.SetLine?
  {
    && call.Change?
    && var lines := if e.request.cart in e.before.carts then e.before.carts[e.request.cart] else map[];
       var held := if call.sku in lines then lines[call.sku] else 0;
       && e.request.sku == call.sku
       && (if call.proposal.Some? && call.proposal.value.absolute.Some?
           then e.request.quantity == call.proposal.value.absolute.value
           else if held as real + call.delta < 0.0 then e.request.quantity == 0
           else e.request.quantity as real == held as real + call.delta)
  }

  // ---------------------------------------------------------------- the class

  /** `DurableCart` over the modelled backend. The four public methods queue their work; `Begin`
      runs the work at the head of the queue up to its cart write and `Arrive` is that write. */
  class DurableCart {
    var cart: Option<View>
    var queue: seq<Call>
    var pending: Option<Operation>
    var createKey: nat
    var newKey: Option<nat>
    var minted: nat
    var sending: bool
    var backend: Backend
    ghost var asked: map<nat, Intent>
    ghost var sent: seq<nat>

    ghost function State(): System
      reads this
    {
      System(Client(cart, queue, pending, createKey, newKey, minted, sending), backend, asked, sent)
    }

    constructor (backend: Backend)
      requires Once(backend) && (forall e <- backend.log :: e.key.Theirs?)
      requires forall c <- backend.state.carts :: c < backend.state.next
      ensures Start(State()) && this.backend == backend
    {
      cart, queue, pending := None, [], None;
      createKey, newKey, minted, sending := 0, None, 1, false;
      this.backend := backend;
      asked, sent := map[], [];
    }

    method IdempotencyKey() returns (key: nat)
      modifies this`minted
      ensures key == old(minted) && minted == old(minted) + 1
    {
      key := minted;
      minted := minted + 1;
    }

    method Serialize(call: Call)
      modifies this`queue
      ensures State() == Next(old(State()), Enqueue(call))
    {
      queue := queue + [call];
    }

    method CreateEmptyCart(link: Link) returns (created: Option<View>)
      modifies this`backend, this`createKey, this`minted
      ensures created.Some? ==> State().(client := State().client.(cart := created)) == CreateEmpty(old(State()), link)
      ensures created.None? ==> State() == CreateEmpty(old(State()), link)
      ensures created.Some? <==> Deliver(old(backend), Mine(old(createKey)), CreateCart, link).1.Answered?
    {
      var (after, outcome) := Deliver(backend, Mine(createKey), CreateCart, link);
      backend := after;
      match outcome
      case Answered(view) =>
        createKey := IdempotencyKey();
        created := Some(view);
      case _ => created := None;
    }

    method Current(io: Io) returns (view: Option<View>)
      ensures view == CurrentCart(State(), io)
    {
      view := None;
      if io.current.Some? && io.current.value in backend.state.carts {
        view := Some(View(io.current.value, backend.state.carts[io.current.value]));
      }
    }

    method RestoreNow(io: Io)
      modifies this
      ensures State() == RestoreWork(old(State()), io)
    {
      if pending.Some? || !io.currentAnswers {
        return;
      }
      var current := Current(io);
      if current.Some? {
        cart := current;
        return;
      }
      if !io.listAnswers {
        return;
      }
      if io.hasCheckouts {
        cart := None;
      } else {
        var created := CreateEmptyCart(io.create);
        if created.Some? {
          cart := created;
        }
      }
    }

    /** Adopt the open cart or create one; without either the change ends here. */
    method HaveCart(io: Io)
      modifies this
      ensures State() == EnsureCart(old(State()), io)
    {
      if cart.Some? || !io.currentAnswers {
        return;
      }
      var current := Current(io);
      if current.None? {
        current := CreateEmptyCart(io.create);
      }
      if current.Some? {
        cart := current;
      }
    }

    method ChangeNow(sku: string, delta: real, proposal: Option<Proposal>, io: Io)
      modifies this
      ensures State() == ChangeWork(old(State()), sku, delta, proposal, io)
    {
      if pending.Some? || delta != delta.Floor as real || delta == 0.0 {
        return;
      }
      HaveCart(io);
      if cart.None? {
        return;
      }
      var id := cart.value.cart;
      if !io.readAnswers || id !in backend.state.carts {
        return;
      }
      var lines := backend.state.carts[id];
      cart := Some(View(id, lines));
      if proposal.Some? && Unsuitable(proposal.value, id) {
        return;
      }
      var before := Quantity(lines, sku);
      var absolute := if proposal.Some? then proposal.value.absolute else None;
      var quantity := if absolute.Some? then absolute.value else Max(0, before + delta.Floor);
      var key := IdempotencyKey();
      var op := Operation(id, sku, quantity, key, if proposal.Some? then proposal.value.binding else None);
      pending := Some(op);
      sending := true;
      asked := asked[key := Intent(op, delta.Floor, absolute, before)];
    }

    method RetryNow()
      modifies this`sending
      ensures State() == RetryWork(old(State()))
    {
      if pending.Some? {
        sending := true;
      }
    }

    method NewCartNow(io: Io)
      modifies this
      ensures State() == NewCartWork(old(State()), io)
    {
      if pending.Some? {
        return;
      }
      if newKey.None? {
        var key := IdempotencyKey();
        newKey := Some(key);
      }
      var (after, outcome) := Deliver(backend, Mine(newKey.value), CreateCart, io.create);
      backend := after;
      if outcome.Answered? {
        newKey := None;
        cart := Some(outcome.answer);
      }
    }

    /** Run the work at the head of the queue, unless a cart write is under way. */
    method Begin(io: Io)
      modifies this
      ensures State() == Next(old(State()), Event.Begin(io))
    {
      if sending || queue == [] {
        return;
      }
      var call := queue[0];
      queue := queue[1..];
      match call
      case Restore => RestoreNow(io);
      case Change(sku, delta, proposal) => ChangeNow(sku, delta, proposal, io);
      case Retry => RetryNow();
      case NewCart => NewCartNow(io);
    }

    method Arrive(link: Link)
      modifies this
      ensures State() == Next(old(State()), Event.Arrive(link))
    {
      if !sending || pending.None? {
        return;
      }
      var op := pending.value;
      sent := sent + [op.key];
      sending := false;
      var (after, outcome) := Deliver(backend, Mine(op.key), RequestOf(op), link);
      backend := after;
      match outcome
      case Answered(view) =>
        pending := None;
        cart := Some(view);
      case Refused =>
        pending := None;
      case Unknown =>
    }
  }
}
