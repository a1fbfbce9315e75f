/** The review screen's bill: one resumable checkout for each basket, over any builds, retries,
    basket switches and lost answers. */
module AuthoritativeBill {
  import opened Common
  import opened Runs
  import opened Idempotency
  import opened BasketSignature

  // ---------------------------------------------------------------- the backend

  datatype Stage = Reserved | ApprovalRequired | Approved | PaymentFailed | Moving | Ended

  /** The stages in which a buyer can still be shown a card and act on it. */
  predicate Resumable(stage: Stage) { stage in {Reserved, ApprovalRequired} }

  datatype Cart = Cart(lines: seq<Line>, open: bool, checkout: Option<nat>)

  datatype Checkout = Checkout(cart: nat, lines: seq<Line>, stage: Stage)

  datatype Shop = Shop(carts: seq<Cart>, checkouts: seq<Checkout>)

  datatype Mutation = CreateCart | SetLine(cart: nat, line: Line) | OpenCheckout(cart: nat)

  datatype Answer = CartIs(cart: nat, unavailable: bool) | CardIs(checkout: nat, lines: seq<Line>)

  type Backend = Server<nat, Mutation, Answer, Shop>

  const MAX_LINE_QUANTITY := 99

  /** A closed cart can be taken back only from a checkout nothing is moving behind. */
  predicate Stuck(shop: Shop, cart: nat)
    requires cart < |shop.carts|
  {
    var c := shop.carts[cart];
    !c.open && (c.checkout.None? || c.checkout.value >= |shop.checkouts|
                || shop.checkouts[c.checkout.value].stage !in {ApprovalRequired, Approved, PaymentFailed})
  }

  predicate Refuses(shop: Shop, m: Mutation) {
    match m
    case CreateCart => false
    case SetLine(c, line) => c >= |shop.carts| || !(0 <= line.quantity <= MAX_LINE_QUANTITY) || Stuck(shop, c)
    case OpenCheckout(c) => c >= |shop.carts| || Stuck(shop, c) || shop.carts[c].lines == []
  }

  function Reopen(shop: Shop, cart: nat): (r: Shop)
    requires cart < |shop.carts| && !Stuck(shop, cart)
    ensures |r.carts| == |shop.carts| && |r.checkouts| == |shop.checkouts|
  {
    var c := shop.carts[cart];
    if c.open then shop
    else
      var id := c.checkout.value;
      Shop(shop.carts[cart := c.(open := true)], shop.checkouts[id := shop.checkouts[id].(stage := Ended)])
  }

  function Without(lines: seq<Line>, sku: string): (r: seq<Line>)
    ensures forall l :: l in r <==> l in lines && l.sku != sku
  {
    if lines == [] then []
    else
      var rest := Without(lines[..|lines| - 1], sku);
      if lines[|lines| - 1].sku == sku then rest else rest + [lines[|lines| - 1]]
  }

  /** A line set to an absolute quantity. */
  function Put(lines: seq<Line>, line: Line): seq<Line> {
    Without(lines, line.sku) + (if line.quantity > 0 then [line] else [])
  }

  function Execute(unavailable: bool): (Shop, Mutation) -> (Shop, Answer) {
    (shop: Shop, m: Mutation) =>
      if Refuses(shop, m) then (shop, CartIs(0, false))
      else match m
        case CreateCart => (shop.(carts := shop.carts + [Cart([], true, None)]), CartIs(|shop.carts|, false))
        case SetLine(c, line) =>
          var shop := Reopen(shop, c);
          (shop.(carts := shop.carts[c := shop.carts[c].(lines := Put(shop.carts[c].lines, line))]),
           CartIs(c, unavailable))
        case OpenCheckout(c) => OpenCheckoutOn(Reopen(shop, c), c)
  }

  /** A cart has one checkout: opening it again supersedes its lines. */
  function OpenCheckoutOn(shop: Shop, c: nat): (Shop, Answer)
    requires c < |shop.carts|
  {
    var cart := shop.carts[c];
    var made := Checkout(c, cart.lines, ApprovalRequired);
    if cart.checkout.Some? && cart.checkout.value < |shop.checkouts| then
      (Shop(shop.carts[c := cart.(open := false)], shop.checkouts[cart.checkout.value := made]),
       CardIs(cart.checkout.value, cart.lines))
    else
      (Shop(shop.carts[c := cart.(open := false, checkout := Some(|shop.checkouts|))], shop.checkouts + [made]),
       CardIs(|shop.checkouts|, cart.lines))
  }

  function Deliver(b: Backend, key: nat, m: Mutation, link: Link, unavailable: bool): (Backend, Outcome<Answer>) {
    Send(b, key, m, link.(refuses := link.refuses || Refuses(b.state, m)), Execute(unavailable))
  }

  // ---------------------------------------------------------------- the hook

  /** The keys of one basket; `basket` remembers which lines they were minted for. */
  datatype Held = Held(signature: string, cart: nat, lines: map<string, nat>, checkout: nat, basket: seq<Line>)

  /** Where a build is: walking the pages (the rows of the page still to read, and where the
      next page starts), opening the cart, or filling it and checking it out. */
  datatype Phase =
    | Walk(queue: seq<nat>, cursor: Option<nat>)
    | OpenCart
    | Fill(cart: nat, next: nat, unavailable: bool)

  datatype Build = Build(lines: seq<Line>, phase: Phase)

  /** A card for these lines, and the checkout it is the card of. */
  datatype Bill = Bill(lines: seq<Line>, card: seq<Line>, checkout: nat)

  /** `shown` is the bill on screen. */
  datatype System = System(held: Option<Held>, minted: nat, build: Option<Build>, shown: Option<Bill>, backend: Backend)

  datatype Event =
    | Begin(request: seq<Line>)
    | Abort
    | Reload
    | List(ok: bool, size: nat)
    | Read(ok: bool)
    | Call(link: Link, unavailable: bool)
    | Evolve(checkout: nat, stage: Stage)
    | Reapprove(checkout: nat)

  function BeginNext(s: System, request: seq<Line>): System {
    var lines := Positive(request);
    var build := Some(Build(lines, Walk([], Some(|s.backend.state.checkouts|))));
    if s.held.Some? && s.held.value.signature == Signature(lines) then s.(build := build, shown := None)
    else s.(held := Some(Held(Signature(lines), s.minted, map[], s.minted + 1, lines)),
            minted := s.minted + 2, build := build, shown := None)
  }

  /** The resumable rows of `[from, to)`, newest first. */
  function Rows(checkouts: seq<Checkout>, from: nat, to: nat): (r: seq<nat>)
    requires from <= to <= |checkouts|
    ensures forall id :: id in r <==> from <= id < to && Resumable(checkouts[id].stage)
  {
    if from == to then []
    else
      var rest := Rows(checkouts, from, to - 1);
      if Resumable(checkouts[to - 1].stage) then [to - 1] + rest else rest
  }

  /** A walk that has read every row of the last page found nothing. */
  function Walked(b: Build): Build
    requires b.phase.Walk?
  {
    if b.phase.queue == [] && b.phase.cursor.None? then b.(phase := OpenCart) else b
  }

  /** A page of the list; its size is the server's business. */
  function ListNext(s: System, ok: bool, size: nat): System {
    if s.build.None? || !s.build.value.phase.Walk? then s
    else
      var b := s.build.value;
      if b.phase.queue != [] || b.phase.cursor.None? then s
      else if !ok then s.(build := None)
      else
        var to := Min(b.phase.cursor.value, |s.backend.state.checkouts|);
        var from := Max(0, to - 1 - size);
        var rows := Rows(s.backend.state.checkouts, from, to);
        s.(build := Some(Walked(b.(phase := Walk(rows, if from == 0 then None else Some(from))))))
  }

  /** One row is read in full, as it stands by then. The answer carries a card exactly while the
      checkout waits for approval; the card is adopted if it is for exactly these lines. */
  function ReadNext(s: System, ok: bool): System {
    if s.build.None? || !s.build.value.phase.Walk? || s.build.value.phase.queue == [] then s
    else
      var b := s.build.value;
      var id := b.phase.queue[0];
      if !ok || id >= |s.backend.state.checkouts| then s.(build := None)
      else
        var found := s.backend.state.checkouts[id];
        if found.stage == ApprovalRequired && Signature(found.lines) == Signature(b.lines)
        then s.(build := None, shown := Some(Bill(b.lines, found.lines, id)))
        else s.(build := Some(Walked(b.(phase := b.phase.(queue := b.phase.queue[1..])))))
  }

  function CartNext(s: System, link: Link): System
    requires s.held.Some? && s.build.Some?
  {
    var (backend, outcome) := Deliver(s.backend, s.held.value.cart, CreateCart, link, false);
    s.(backend := backend,
       build := if outcome.Answered? && outcome.answer.CartIs?
                then Some(s.build.value.(phase := Fill(outcome.answer.cart, 0, outcome.answer.unavailable))) else None)
  }

  /** The key of a line is minted once for the basket. */
  function WithLineKey(s: System, sku: string): System
    requires s.held.Some?
  {
    if sku in s.held.value.lines then s
    else s.(held := Some(s.held.value.(lines := s.held.value.lines[sku := s.minted])), minted := s.minted + 1)
  }

  /** The build goes on to the next line, or ends. */
  function AfterLine(b: Build, outcome: Outcome<Answer>): Option<Build>
    requires b.phase.Fill?
  {
    if outcome.Answered? && outcome.answer.CartIs?
    then Some(b.(phase := Fill(b.phase.cart, b.phase.next + 1, outcome.answer.unavailable))) else None
  }

  function SendLine(s: System, line: Line, link: Link, unavailable: bool): System
    requires s.held.Some? && s.build.Some? && s.build.value.phase.Fill? && line.sku in s.held.value.lines
  {
    var (backend, outcome) :=
      Deliver(s.backend, s.held.value.lines[line.sku], SetLine(s.build.value.phase.cart, line), link, unavailable);
    s.(backend := backend, build := AfterLine(s.build.value, outcome))
  }

  function LineNext(s: System, link: Link, unavailable: bool): System
    requires s.held.Some? && s.build.Some? && s.build.value.phase.Fill?
    requires s.build.value.phase.next < |s.build.value.lines|
  {
    var line := s.build.value.lines[s.build.value.phase.next];
    SendLine(WithLineKey(s, line.sku), line, link, unavailable)
  }

  function CheckoutNext(s: System, link: Link): System
    requires s.held.Some? && s.build.Some? && s.build.value.phase.Fill?
  {
    var p := s.build.value.phase;
    var (backend, outcome) := Deliver(s.backend, s.held.value.checkout, OpenCheckout(p.cart), link, false);
    s.(backend := backend, build := None,
       shown := if outcome.Answered? && outcome.answer.CardIs?
                then Some(Bill(s.build.value.lines, outcome.answer.lines, outcome.answer.checkout)) else s.shown)
  }

  /** The mutation a build is waiting for; a failure of any kind ends the build. */
  function CallNext(s: System, link: Link, unavailable: bool): System {
    if s.held.None? || s.build.None? then s
    else match s.build.value.phase
      case Walk(_, _) => s
      case OpenCart => CartNext(s, link)
      case Fill(_, i, missing) =>
        if i < |s.build.value.lines| then LineNext(s, link, unavailable)
        else if missing then s.(build := None)
        else CheckoutNext(s, link)
  }

  /** A checkout's version moves on; no step of its lifecycle makes it resumable again, and none
      leads to `Reserved`: that stage is passed through inside the transaction that opens it. */
  function EvolveNext(s: System, id: nat, stage: Stage): System {
    var shop := s.backend.state;
    if id >= |shop.checkouts| || stage == Reserved || (Resumable(stage) && !Resumable(shop.checkouts[id].stage)) then s
    else
      var moved := shop.checkouts[id].(stage := stage);
      s.(backend := s.backend.(state := shop.(checkouts := shop.checkouts[id := moved])))
  }

  /** An approved checkout is submitted, is found to have changed, and gets a new version that
      waits for approval. */
  function ReapproveNext(s: System, id: nat): System {
    var shop := s.backend.state;
    if id >= |shop.checkouts| || shop.checkouts[id].stage !in {Approved, PaymentFailed} then s
    else
      var again := shop.checkouts[id].(stage := ApprovalRequired);
      s.(backend := s.backend.(state := shop.(checkouts := shop.checkouts[id := again])))
  }

  function Next(s: System, e: Event): System {
    match e
    case Begin(request) => BeginNext(s, request)
    case Abort => s.(build := None)
    case Reload => s.(held := None, build := None, shown := None)
    case List(ok, size) => ListNext(s, ok, size)
    case Read(ok) => ReadNext(s, ok)
    case Call(link, unavailable) => CallNext(s, link, unavailable)
    case Evolve(id, stage) => EvolveNext(s, id, stage)
    case Reapprove(id) => ReapproveNext(s, id)
  }

  function RunAll(s: System, events: seq<Event>): System { RunOf(Next, s, events) }

  // ---------------------------------------------------------------- what is assumed

  predicate DistinctSkus(lines: seq<Line>) {
    forall i, j :: 0 <= i < j < |lines| ==> lines[i].sku != lines[j].sku
  }

  predicate Clean(lines: seq<Line>) { BarFree(lines) && forall l <- lines :: l.quantity > 0 }

  predicate Good(lines: seq<Line>) { Clean(lines) && DistinctSkus(lines) }

  /** A request names each SKU once and none with the separator; and an approved checkout is not
      sent back for approval when another was opened for its lines, or is being built. */
  ghost predicate Safe(s: System, e: Event) {
    match e
    case Begin(request) => BarFree(request) && DistinctSkus(Positive(request))
    case Reapprove(id) =>
      id < |s.backend.state.checkouts| && s.backend.state.checkouts[id].stage in {Approved, PaymentFailed} ==>
        var signature := Signature(s.backend.state.checkouts[id].lines);
        && NoMatch(s.backend.state, signature)
        && (s.build.Some? ==> s.held.Some? && s.held.value.signature != signature)
    case _ => true
  }

  /** Every step of the run was safe when it was taken. */
  ghost predicate SafeRun(s0: System, events: seq<Event>) {
    events == [] ||
    (SafeRun(s0, events[..|events| - 1]) && Safe(RunAll(s0, events[..|events| - 1]), events[|events| - 1]))
  }

  // ---------------------------------------------------------------- invariants

  ghost predicate OneEach(shop: Shop) {
    forall i, j :: 0 <= i < j < |shop.checkouts|
                   && Resumable(shop.checkouts[i].stage) && Resumable(shop.checkouts[j].stage) ==>
      Signature(shop.checkouts[i].lines) != Signature(shop.checkouts[j].lines)
  }

  ghost predicate NoMatch(shop: Shop, signature: string) {
    forall id :: 0 <= id < |shop.checkouts| && Resumable(shop.checkouts[id].stage) ==>
      Signature(shop.checkouts[id].lines) != signature
  }

  /** No checkout is left where the buyer could resume it but is shown no card. */
  ghost predicate NoReserved(shop: Shop) { forall c <- shop.checkouts :: c.stage != Reserved }

  ghost predicate AllClean(shop: Shop) { forall c <- shop.checkouts :: Clean(c.lines) }

  ghost predicate LineRecorded(h: Held, b: Backend, sku: string) {
    sku in h.lines && h.lines[sku] in b.records
  }

  /** The held keys are different keys. */
  ghost predicate KeysDiffer(h: Held) {
    && h.cart != h.checkout
    && (forall k <- h.lines :: h.lines[k] != h.cart && h.lines[k] != h.checkout)
    && (forall k, l :: k in h.lines && l in h.lines && h.lines[k] == h.lines[l] ==> k == l)
  }

  ghost predicate KeysMinted(h: Held, minted: nat) {
    h.cart < minted && h.checkout < minted && forall k <- h.lines :: h.lines[k] < minted
  }

  /** The open cart holds exactly the lines of the basket whose keys have been used. */
  ghost predicate CartHolds(h: Held, b: Backend, cart: Cart) {
    && DistinctSkus(cart.lines) && cart.open && cart.checkout.None?
    && (forall l <- cart.lines :: l in h.basket && LineRecorded(h, b, l.sku))
    && (forall l <- h.basket :: LineRecorded(h, b, l.sku) ==> l in cart.lines)
  }

  /** What the records under the held keys say. */
  ghost predicate LinesRecorded(h: Held, b: Backend, c: nat) {
    forall k :: LineRecorded(h, b, k) ==>
      var r := b.records[h.lines[k]];
      && r.request.SetLine? && r.request.cart == c && r.request.line.sku == k && r.request.line in h.basket
      && r.answer.CartIs?
  }

  ghost predicate CheckoutRecorded(h: Held, b: Backend, c: nat)
    requires h.checkout in b.records
  {
    var r := b.records[h.checkout];
    && r.request == OpenCheckout(c) && r.answer.CardIs? && multiset(r.answer.lines) == multiset(h.basket)
    && forall l <- h.basket :: LineRecorded(h, b, l.sku)
  }

  ghost predicate CartIsOf(h: Held, b: Backend, c: nat) {
    && h.cart in b.records && b.records[h.cart].request == CreateCart
    && b.records[h.cart].answer == CartIs(c, false) && c < |b.state.carts|
  }

  ghost predicate HeldOk(h: Held, b: Backend) {
    && Good(h.basket) && h.signature == Signature(h.basket) && KeysDiffer(h)
    && if h.cart !in b.records then h.checkout !in b.records && forall k :: !LineRecorded(h, b, k)
       else
         var a := b.records[h.cart].answer;
         && a.CartIs? && CartIsOf(h, b, a.cart) && LinesRecorded(h, b, a.cart)
         && if h.checkout in b.records then CheckoutRecorded(h, b, a.cart)
            else CartHolds(h, b, b.state.carts[a.cart])
  }

  /** Every resumable row for these lines is still ahead of the walk. */
  ghost predicate StillAhead(shop: Shop, queue: seq<nat>, cursor: Option<nat>, signature: string) {
    forall id :: 0 <= id < |shop.checkouts| && Resumable(shop.checkouts[id].stage)
                 && id !in queue && (cursor.Some? ==> id >= cursor.value) ==>
      Signature(shop.checkouts[id].lines) != signature
  }

  ghost predicate BuildOk(build: Build, h: Held, b: Backend) {
    && Good(build.lines) && h.signature == Signature(build.lines)
    && match build.phase
       case Walk(queue, cursor) => StillAhead(b.state, queue, cursor, h.signature)
       case OpenCart => NoMatch(b.state, h.signature)
       case Fill(c, i, _) =>
         && NoMatch(b.state, h.signature) && CartIsOf(h, b, c) && i <= |build.lines|
         && forall k :: 0 <= k < i ==> LineRecorded(h, b, build.lines[k].sku)
  }

  ghost predicate Inv(s: System) {
    && OneEach(s.backend.state) && AllClean(s.backend.state) && NoReserved(s.backend.state)
    && (forall k <- s.backend.records :: k < s.minted)
    && (s.held.Some? ==> KeysMinted(s.held.value, s.minted) && HeldOk(s.held.value, s.backend))
    && (s.build.Some? ==> s.held.Some? && BuildOk(s.build.value, s.held.value, s.backend))
    && (s.shown.Some? ==> multiset(s.shown.value.card) == multiset(s.shown.value.lines))
  }

  /** Any shop the buyer's earlier visits may have left, with one resumable checkout for each
      basket. */
  ghost predicate Start(s: System) {
    && s.held.None? && s.minted == 0 && s.build.None? && s.shown.None? && s.backend.records == map[]
    && OneEach(s.backend.state) && AllClean(s.backend.state) && NoReserved(s.backend.state)
  }

  // ---------------------------------------------------------------- baskets

  lemma {:induction false} PositiveIsIdentity(lines: seq<Line>)
    requires forall l <- lines :: l.quantity > 0
    ensures Positive(lines) == lines
  {
    if lines != [] {
      assert lines[|lines| - 1] in lines && forall l <- lines[..|lines| - 1] :: l in lines;
      PositiveIsIdentity(lines[..|lines| - 1]);
      assert lines == lines[..|lines| - 1] + [lines[|lines| - 1]];
    }
  }

  lemma {:induction false} DistinctCounts(xs: seq<Line>, l: Line)
    requires DistinctSkus(xs)
    ensures multiset(xs)[l] == if l in xs then 1 else 0
  {
    if xs != [] {
      var rest, last := xs[..|xs| - 1], xs[|xs| - 1];
      DistinctCounts(rest, l);
      assert xs == rest + [last];
      assert last !in rest;
    }
  }

  lemma {:induction false} SameElements(xs: seq<Line>, ys: seq<Line>)
    requires DistinctSkus(xs) && DistinctSkus(ys) && forall l :: l in xs <==> l in ys
    ensures multiset(xs) == multiset(ys)
  {
    forall l ensures multiset(xs)[l] == multiset(ys)[l] {
      DistinctCounts(xs, l);
      DistinctCounts(ys, l);
    }
  }

  lemma {:induction false} SameSignature(xs: seq<Line>, ys: seq<Line>)
    requires Clean(xs) && Clean(ys)
    ensures Signature(xs) == Signature(ys) <==> multiset(xs) == multiset(ys)
    ensures Signature(xs) == Signature(ys) ==> forall l :: l in xs <==> l in ys
  {
    PositiveIsIdentity(xs);
    PositiveIsIdentity(ys);
    SignatureIsExact(xs, ys);
    if multiset(xs) == multiset(ys) {
      forall l ensures l in xs <==> l in ys {
        assert l in xs <==> l in multiset(xs);
        assert l in ys <==> l in multiset(ys);
      }
    }
  }

  lemma {:induction false} PutKeepsDistinct(lines: seq<Line>, line: Line)
    requires DistinctSkus(lines)
    ensures DistinctSkus(Put(lines, line))
  {
    WithoutKeepsDistinct(lines, line.sku);
  }

  lemma {:induction false} WithoutKeepsDistinct(lines: seq<Line>, sku: string)
    requires DistinctSkus(lines)
    ensures DistinctSkus(Without(lines, sku))
  {
    if lines != [] {
      WithoutKeepsDistinct(lines[..|lines| - 1], sku);
      var r := Without(lines[..|lines| - 1], sku);
      forall i | 0 <= i < |r| ensures r[i].sku != lines[|lines| - 1].sku {
        assert r[i] in r;
        var j :| 0 <= j < |lines| - 1 && lines[j] == r[i];
      }
    }
  }

  // ---------------------------------------------------------------- every step

  lemma {:induction false} BeginKeepsInv(s: System, request: seq<Line>)
    requires Inv(s) && BarFree(request) && DistinctSkus(Positive(request))
    ensures Inv(BeginNext(s, request))
  {
    assert Good(Positive(request));
  }

  lemma {:induction false} ListKeepsInv(s: System, ok: bool, size: nat)
    requires Inv(s)
    ensures Inv(ListNext(s, ok, size))
  {
  }

  lemma {:induction false} DropHead(shop: Shop, queue: seq<nat>, cursor: Option<nat>, signature: string)
    requires StillAhead(shop, queue, cursor, signature) && queue != [] && queue[0] < |shop.checkouts|
    requires !Resumable(shop.checkouts[queue[0]].stage) || Signature(shop.checkouts[queue[0]].lines) != signature
    ensures StillAhead(shop, queue[1..], cursor, signature)
  {
    assert forall id: nat :: id in queue ==> id == queue[0] || id in queue[1..];
  }

  lemma {:induction false} PassedRow(s: System, id: nat)
    requires Inv(s) && s.build.Some? && s.build.value.phase.Walk? && s.build.value.phase.queue != []
    requires id == s.build.value.phase.queue[0] && id < |s.backend.state.checkouts|
    requires s.backend.state.checkouts[id].stage != ApprovalRequired
             || Signature(s.backend.state.checkouts[id].lines) != Signature(s.build.value.lines)
    ensures var b := s.build.value;
            Inv(s.(build := Some(Walked(b.(phase := b.phase.(queue := b.phase.queue[1..]))))))
  {
    var b := s.build.value;
    assert s.backend.state.checkouts[id] in s.backend.state.checkouts;
    DropHead(s.backend.state, b.phase.queue, b.phase.cursor, s.held.value.signature);
  }

  lemma {:induction false} AdoptedRow(s: System, card: seq<Line>, id: nat)
    requires Inv(s) && s.build.Some? && multiset(card) == multiset(s.build.value.lines)
    ensures Inv(s.(build := None, shown := Some(Bill(s.build.value.lines, card, id))))
  {
  }

  lemma {:induction false} MatchingRow(s: System, id: nat)
    requires Inv(s) && s.build.Some? && id < |s.backend.state.checkouts|
    requires Signature(s.backend.state.checkouts[id].lines) == Signature(s.build.value.lines)
    ensures multiset(s.backend.state.checkouts[id].lines) == multiset(s.build.value.lines)
  {
    assert s.backend.state.checkouts[id] in s.backend.state.checkouts;
    SameSignature(s.backend.state.checkouts[id].lines, s.build.value.lines);
  }

  /** What reading a row that is there amounts to. */
  lemma {:induction false} ReadCases(s: System, id: nat)
    requires s.build.Some? && s.build.value.phase.Walk? && s.build.value.phase.queue != []
    requires id == s.build.value.phase.queue[0] && id < |s.backend.state.checkouts|
    ensures var b, found := s.build.value, s.backend.state.checkouts[id];
            ReadNext(s, true) ==
              if found.stage == ApprovalRequired && Signature(found.lines) == Signature(b.lines)
              then s.(build := None, shown := Some(Bill(b.lines, found.lines, id)))
              else s.(build := Some(Walked(b.(phase := b.phase.(queue := b.phase.queue[1..])))))
  {
  }

  lemma {:induction false} ReadRow(s: System, id: nat)
    requires Inv(s) && s.build.Some? && s.build.value.phase.Walk? && s.build.value.phase.queue != []
    requires id == s.build.value.phase.queue[0] && id < |s.backend.state.checkouts|
    ensures Inv(ReadNext(s, true))
  {
    ReadCases(s, id);
    var found := s.backend.state.checkouts[id];
    if found.stage == ApprovalRequired && Signature(found.lines) == Signature(s.build.value.lines) {
      MatchingRow(s, id);
      AdoptedRow(s, found.lines, id);
    } else {
      PassedRow(s, id);
    }
  }

  lemma {:induction false} ReadKeepsInv(s: System, ok: bool)
    requires Inv(s)
    ensures Inv(ReadNext(s, ok))
  {
    if s.build.Some? && s.build.value.phase.Walk? && s.build.value.phase.queue != [] {
      if ok && s.build.value.phase.queue[0] < |s.backend.state.checkouts| {
        ReadRow(s, s.build.value.phase.queue[0]);
      }
    }
  }

  /** Either nothing ran, or the mutation ran under its unused key and is recorded. */
  lemma {:induction false} DeliverCases(b: Backend, key: nat, m: Mutation, link: Link, unavailable: bool)
    ensures var (after, outcome) := Deliver(b, key, m, link, unavailable);
            && (after == b ||
                (&& key !in b.records && !Refuses(b.state, m)
                 && after.state == Execute(unavailable)(b.state, m).0
                 && after.records == b.records[key := Record(m, Execute(unavailable)(b.state, m).1)]))
            && (outcome.Answered? ==> key in after.records && after.records[key] == Record(m, outcome.answer))
  {
  }

  /** `b` after the mutation ran under the unused key. */
  ghost predicate Ran(b: Backend, after: Backend, key: nat, m: Mutation, unavailable: bool) {
    && key !in b.records && !Refuses(b.state, m) && after.state == Execute(unavailable)(b.state, m).0
    && after.records == b.records[key := Record(m, Execute(unavailable)(b.state, m).1)]
  }

  lemma {:induction false} CartRan(h: Held, b: Backend, after: Backend)
    requires HeldOk(h, b) && Ran(b, after, h.cart, CreateCart, false)
    ensures HeldOk(h, after) && CartIsOf(h, after, |b.state.carts|) && after.state.checkouts == b.state.checkouts
  {
    forall k ensures !LineRecorded(h, after, k) {
      assert !LineRecorded(h, b, k);
    }
    assert CartHolds(h, after, after.state.carts[|b.state.carts|]);
  }

  lemma {:induction false} CartKeepsInv(s: System, link: Link)
    requires Inv(s) && s.held.Some? && s.build.Some? && s.build.value.phase.OpenCart?
    ensures Inv(CartNext(s, link))
  {
    var h := s.held.value;
    DeliverCases(s.backend, h.cart, CreateCart, link, false);
    var (after, outcome) := Deliver(s.backend, h.cart, CreateCart, link, false);
    if after != s.backend {
      CartRan(h, s.backend, after);
    }
  }

  /** A key that was never used can be added for a line. */
  lemma {:induction false} FreshLineKey(h: Held, b: Backend, sku: string, key: nat)
    requires HeldOk(h, b) && sku !in h.lines && key !in b.records && KeysMinted(h, key)
    ensures var g := h.(lines := h.lines[sku := key]);
            HeldOk(g, b) && KeysMinted(g, key + 1) && forall k :: LineRecorded(g, b, k) <==> LineRecorded(h, b, k)
  {
    var g := h.(lines := h.lines[sku := key]);
    assert KeysDiffer(g);
    assert forall k :: LineRecorded(h, b, k) ==> g.lines[k] == h.lines[k];
    assert forall k :: LineRecorded(g, b, k) <==> LineRecorded(h, b, k);
  }

  lemma {:induction false} WithLineKeyKeepsInv(s: System, sku: string)
    requires Inv(s) && s.held.Some?
    ensures var t := WithLineKey(s, sku);
            && Inv(t) && t.held.Some? && sku in t.held.value.lines && t.held.value.basket == s.held.value.basket
            && t.build == s.build && t.backend == s.backend
  {
    if sku !in s.held.value.lines {
      FreshLineKey(s.held.value, s.backend, sku, s.minted);
    }
  }

  /** Setting a line whose key is unused, on the basket's own cart. */
  lemma {:induction false} LineRan(h: Held, b: Backend, after: Backend, c: nat, line: Line, unavailable: bool)
    requires HeldOk(h, b) && CartIsOf(h, b, c) && line in h.basket && line.sku in h.lines
    requires Ran(b, after, h.lines[line.sku], SetLine(c, line), unavailable)
    ensures HeldOk(h, after) && CartIsOf(h, after, c) && after.state.checkouts == b.state.checkouts
    ensures forall k :: LineRecorded(h, after, k) <==> LineRecorded(h, b, k) || k == line.sku
  {
    assert !LineRecorded(h, b, line.sku);
    assert h.checkout !in b.records;
    var before, cart := b.state.carts[c], after.state.carts[c];
    assert CartHolds(h, b, before);
    assert forall l <- before.lines :: l.sku != line.sku;
    assert cart == before.(lines := Put(before.lines, line));
    PutKeepsDistinct(before.lines, line);
    assert forall k :: LineRecorded(h, after, k) <==> LineRecorded(h, b, k) || k == line.sku;
    PutHolds(h, b, after, before, line);
    assert LinesRecorded(h, after, c);
  }

  lemma {:induction false} PutHolds(h: Held, b: Backend, after: Backend, cart: Cart, line: Line)
    requires Good(h.basket) && CartHolds(h, b, cart) && line in h.basket && !LineRecorded(h, b, line.sku)
    requires forall k :: LineRecorded(h, after, k) <==> LineRecorded(h, b, k) || k == line.sku
    ensures CartHolds(h, after, cart.(lines := Put(cart.lines, line)))
  {
    PutKeepsDistinct(cart.lines, line);
    forall l | l in h.basket && LineRecorded(h, after, l.sku) ensures l in Put(cart.lines, line) {
      if l.sku == line.sku {
        var i :| 0 <= i < |h.basket| && h.basket[i] == l;
        var j :| 0 <= j < |h.basket| && h.basket[j] == line;
      }
    }
  }

  /** What the delivery of a line leaves, whatever the network did. */
  lemma {:induction false} LineDelivered(h: Held, b: Backend, c: nat, line: Line, link: Link, unavailable: bool)
    requires HeldOk(h, b) && CartIsOf(h, b, c) && line in h.basket && line.sku in h.lines
    ensures var (after, outcome) := Deliver(b, h.lines[line.sku], SetLine(c, line), link, unavailable);
            && HeldOk(h, after) && CartIsOf(h, after, c) && after.state.checkouts == b.state.checkouts
            && (forall k :: LineRecorded(h, b, k) ==> LineRecorded(h, after, k))
            && (forall k <- after.records :: k in b.records || k == h.lines[line.sku])
            && (outcome.Answered? ==> LineRecorded(h, after, line.sku))
  {
    DeliverCases(b, h.lines[line.sku], SetLine(c, line), link, unavailable);
    var (after, outcome) := Deliver(b, h.lines[line.sku], SetLine(c, line), link, unavailable);
    if after != b {
      LineRan(h, b, after, c, line, unavailable);
    }
  }

  /** A delivery that made no checkout, and the build it leaves. */
  lemma {:induction false} DeliveryKeepsInv(s: System, after: Backend, build: Option<Build>)
    requires Inv(s) && s.held.Some? && HeldOk(s.held.value, after) && after.state.checkouts == s.backend.state.checkouts
    requires forall k <- after.records :: k < s.minted
    requires build.Some? ==> BuildOk(build.value, s.held.value, after)
    ensures Inv(s.(backend := after, build := build))
  {
  }

  /** The lines of a build are those of the held basket. */
  lemma {:induction false} BuildLineIsHeld(s: System, line: Line)
    requires Inv(s) && s.held.Some? && s.build.Some? && line in s.build.value.lines
    ensures line in s.held.value.basket
  {
    SameSignature(s.held.value.basket, s.build.value.lines);
  }

  /** What the delivery of the next line leaves. */
  ghost predicate LineDone(s: System, after: Backend, outcome: Outcome<Answer>, sku: string)
    requires s.held.Some? && s.build.Some? && s.build.value.phase.Fill?
  {
    var h := s.held.value;
    && HeldOk(h, after) && CartIsOf(h, after, s.build.value.phase.cart)
    && after.state.checkouts == s.backend.state.checkouts
    && (forall k :: LineRecorded(h, s.backend, k) ==> LineRecorded(h, after, k))
    && (forall k <- after.records :: k < s.minted)
    && (outcome.Answered? ==> LineRecorded(h, after, sku))
  }

  lemma {:induction false} NextLineIsDone(s: System, line: Line, link: Link, unavailable: bool)
    requires Inv(s) && s.held.Some? && s.build.Some? && s.build.value.phase.Fill?
    requires line in s.held.value.basket && line.sku in s.held.value.lines
    ensures var (after, outcome) :=
              Deliver(s.backend, s.held.value.lines[line.sku], SetLine(s.build.value.phase.cart, line), link,
                      unavailable);
            LineDone(s, after, outcome, line.sku)
  {
    LineDelivered(s.held.value, s.backend, s.build.value.phase.cart, line, link, unavailable);
  }

  lemma {:induction false} LineDoneKeepsInv(s: System, after: Backend, outcome: Outcome<Answer>)
    requires Inv(s) && s.held.Some? && s.build.Some? && s.build.value.phase.Fill?
    requires s.build.value.phase.next < |s.build.value.lines|
    requires LineDone(s, after, outcome, s.build.value.lines[s.build.value.phase.next].sku)
    ensures Inv(s.(backend := after, build := AfterLine(s.build.value, outcome)))
  {
    if outcome.Answered? && outcome.answer.CartIs? {
      LineAnswered(s.build.value, s.held.value, s.backend, after, outcome.answer.unavailable);
    }
    DeliveryKeepsInv(s, after, AfterLine(s.build.value, outcome));
  }

  lemma {:induction false} SendLineKeepsInv(s: System, line: Line, link: Link, unavailable: bool)
    requires Inv(s) && s.held.Some? && s.build.Some? && s.build.value.phase.Fill?
    requires s.build.value.phase.next < |s.build.value.lines| && line == s.build.value.lines[s.build.value.phase.next]
    requires line.sku in s.held.value.lines
    ensures Inv(SendLine(s, line, link, unavailable))
  {
    BuildLineIsHeld(s, line);
    NextLineIsDone(s, line, link, unavailable);
    var (after, outcome) :=
      Deliver(s.backend, s.held.value.lines[line.sku], SetLine(s.build.value.phase.cart, line), link, unavailable);
    LineDoneKeepsInv(s, after, outcome);
  }

  lemma {:induction false} OneMoreRecorded(h: Held, b: Backend, after: Backend, lines: seq<Line>, n: nat)
    requires n < |lines| && LineRecorded(h, after, lines[n].sku)
    requires forall k :: 0 <= k < n ==> LineRecorded(h, b, lines[k].sku)
    requires forall k :: LineRecorded(h, b, k) ==> LineRecorded(h, after, k)
    ensures forall k :: 0 <= k < n + 1 ==> LineRecorded(h, after, lines[k].sku)
  {
    forall k | 0 <= k < n + 1 ensures LineRecorded(h, after, lines[k].sku) {
      if k < n {
        assert LineRecorded(h, b, lines[k].sku);
      }
    }
  }

  /** One more line of the build is recorded. */
  lemma {:induction false} LineAnswered(b: Build, h: Held, before: Backend, after: Backend, unavailable: bool)
    requires b.phase.Fill? && BuildOk(b, h, before) && b.phase.next < |b.lines|
    requires LineRecorded(h, after, b.lines[b.phase.next].sku) && CartIsOf(h, after, b.phase.cart)
    requires forall k :: LineRecorded(h, before, k) ==> LineRecorded(h, after, k)
    requires after.state.checkouts == before.state.checkouts
    ensures BuildOk(b.(phase := Fill(b.phase.cart, b.phase.next + 1, unavailable)), h, after)
  {
    OneMoreRecorded(h, before, after, b.lines, b.phase.next);
  }

  lemma {:induction false} LineKeepsInv(s: System, link: Link, unavailable: bool)
    requires Inv(s) && s.held.Some? && s.build.Some? && s.build.value.phase.Fill?
    requires s.build.value.phase.next < |s.build.value.lines|
    ensures Inv(LineNext(s, link, unavailable))
  {
    var line := s.build.value.lines[s.build.value.phase.next];
    WithLineKeyKeepsInv(s, line.sku);
    SendLineKeepsInv(WithLineKey(s, line.sku), line, link, unavailable);
  }

  /** A cart with every line of the basket recorded holds exactly the basket. */
  lemma {:induction false} FullCart(h: Held, b: Backend, cart: Cart)
    requires Good(h.basket) && h.signature == Signature(h.basket)
    requires CartHolds(h, b, cart) && forall l <- h.basket :: LineRecorded(h, b, l.sku)
    ensures multiset(cart.lines) == multiset(h.basket) && Clean(cart.lines) && Signature(cart.lines) == h.signature
  {
    SameElements(cart.lines, h.basket);
    SameSignature(cart.lines, h.basket);
  }

  lemma {:induction false} OneMoreCheckout(shop: Shop, made: Checkout)
    requires OneEach(shop) && AllClean(shop) && NoReserved(shop)
    requires NoMatch(shop, Signature(made.lines)) && Clean(made.lines) && made.stage == ApprovalRequired
    ensures var after := shop.(checkouts := shop.checkouts + [made]);
            OneEach(after) && AllClean(after) && NoReserved(after)
  {
    var n, rows := |shop.checkouts|, shop.checkouts + [made];
    assert forall i :: 0 <= i < n ==> rows[i] == shop.checkouts[i];
    forall i, j | 0 <= i < j < |rows| && Resumable(rows[i].stage) && Resumable(rows[j].stage)
      ensures Signature(rows[i].lines) != Signature(rows[j].lines)
    {
      assert shop.checkouts[i] == rows[i];
      if j < n {
        assert shop.checkouts[j] == rows[j];
      }
    }
  }

  /** What opening the checkout of the basket's open cart does. */
  lemma {:induction false} CheckoutOpens(h: Held, b: Backend, after: Backend, c: nat)
    requires HeldOk(h, b) && CartIsOf(h, b, c) && Ran(b, after, h.checkout, OpenCheckout(c), false)
    ensures CartHolds(h, b, b.state.carts[c])
    ensures after.state.checkouts == b.state.checkouts + [Checkout(c, b.state.carts[c].lines, ApprovalRequired)]
    ensures |after.state.carts| == |b.state.carts|
    ensures after.records == b.records[h.checkout := Record(OpenCheckout(c),
                                                            CardIs(|b.state.checkouts|, b.state.carts[c].lines))]
    ensures forall k :: LineRecorded(h, after, k) <==> LineRecorded(h, b, k)
  {
  }

  /** Opening the checkout of a full cart, when no resumable checkout has these lines. */
  lemma {:induction false} CheckoutRan(h: Held, b: Backend, after: Backend, c: nat)
    requires HeldOk(h, b) && CartIsOf(h, b, c) && forall l <- h.basket :: LineRecorded(h, b, l.sku)
    requires OneEach(b.state) && AllClean(b.state) && NoReserved(b.state) && NoMatch(b.state, h.signature)
    requires Ran(b, after, h.checkout, OpenCheckout(c), false)
    ensures HeldOk(h, after) && OneEach(after.state) && AllClean(after.state) && NoReserved(after.state)
  {
    CheckoutOpens(h, b, after, c);
    FullCart(h, b, b.state.carts[c]);
    OneMoreCheckout(b.state, Checkout(c, b.state.carts[c].lines, ApprovalRequired));
    assert OneEach(after.state) && AllClean(after.state) && NoReserved(after.state);
    assert CheckoutRecorded(h, after, c);
    assert LinesRecorded(h, after, c);
  }

  lemma {:induction false} CheckoutDelivered(h: Held, b: Backend, c: nat, link: Link)
    requires HeldOk(h, b) && CartIsOf(h, b, c) && forall l <- h.basket :: LineRecorded(h, b, l.sku)
    requires OneEach(b.state) && AllClean(b.state) && NoReserved(b.state) && NoMatch(b.state, h.signature)
    ensures var (after, outcome) := Deliver(b, h.checkout, OpenCheckout(c), link, false);
            && HeldOk(h, after) && OneEach(after.state) && AllClean(after.state) && NoReserved(after.state)
            && (forall k <- after.records :: k in b.records || k == h.checkout)
            && (outcome.Answered? ==> outcome.answer.CardIs? && multiset(outcome.answer.lines) == multiset(h.basket))
  {
    DeliverCases(b, h.checkout, OpenCheckout(c), link, false);
    var (after, outcome) := Deliver(b, h.checkout, OpenCheckout(c), link, false);
    if after != b {
      CheckoutRan(h, b, after, c);
    }
    if outcome.Answered? {
      assert CheckoutRecorded(h, after, after.records[h.cart].answer.cart);
    }
  }

  lemma {:induction false} AllRecorded(s: System)
    requires Inv(s) && s.held.Some? && s.build.Some? && s.build.value.phase.Fill?
    requires s.build.value.phase.next == |s.build.value.lines|
    ensures forall l <- s.held.value.basket :: LineRecorded(s.held.value, s.backend, l.sku)
    ensures multiset(s.held.value.basket) == multiset(s.build.value.lines)
  {
    var h, b := s.held.value, s.build.value;
    SameSignature(h.basket, b.lines);
    forall l | l in h.basket ensures LineRecorded(h, s.backend, l.sku) {
      var k :| 0 <= k < |b.lines| && b.lines[k] == l;
    }
  }

  lemma {:induction false} CheckoutKeepsInv(s: System, link: Link)
    requires Inv(s) && s.held.Some? && s.build.Some? && s.build.value.phase.Fill?
    requires s.build.value.phase.next == |s.build.value.lines|
    ensures Inv(CheckoutNext(s, link))
  {
    AllRecorded(s);
    CheckoutDelivered(s.held.value, s.backend, s.build.value.phase.cart, link);
  }

  lemma {:induction false} EvolveKeepsInv(s: System, id: nat, stage: Stage)
    requires Inv(s)
    ensures Inv(EvolveNext(s, id, stage))
  {
    var t := EvolveNext(s, id, stage);
    if t != s {
      assert forall k :: s.held.Some? ==>
        (LineRecorded(s.held.value, t.backend, k) <==> LineRecorded(s.held.value, s.backend, k));
    }
  }

  lemma {:induction false} ReapproveKeepsInv(s: System, id: nat)
    requires Inv(s) && Safe(s, Reapprove(id))
    ensures Inv(ReapproveNext(s, id))
  {
    var t := ReapproveNext(s, id);
    if t != s {
      OneMoreResumable(s.backend.state, id);
      assert forall k :: s.held.Some? ==>
        (LineRecorded(s.held.value, t.backend, k) <==> LineRecorded(s.held.value, s.backend, k));
    }
  }

  /** One more resumable checkout, when none has its lines. */
  lemma {:induction false} OneMoreResumable(shop: Shop, id: nat)
    requires OneEach(shop) && AllClean(shop) && NoReserved(shop) && id < |shop.checkouts|
    requires NoMatch(shop, Signature(shop.checkouts[id].lines))
    ensures var after := shop.(checkouts := shop.checkouts[id := shop.checkouts[id].(stage := ApprovalRequired)]);
            OneEach(after) && AllClean(after) && NoReserved(after)
  {
    var rows := shop.checkouts[id := shop.checkouts[id].(stage := ApprovalRequired)];
    forall i, j | 0 <= i < j < |rows| && Resumable(rows[i].stage) && Resumable(rows[j].stage)
      ensures Signature(rows[i].lines) != Signature(rows[j].lines)
    {
      assert i != id ==> shop.checkouts[i] == rows[i];
      assert j != id ==> shop.checkouts[j] == rows[j];
    }
  }

  lemma {:induction false} CallKeepsInv(s: System, link: Link, unavailable: bool)
    requires Inv(s)
    ensures Inv(CallNext(s, link, unavailable))
  {
    if s.build.Some? {
      match s.build.value.phase
      case Walk(_, _) =>
      case OpenCart => CartKeepsInv(s, link);
      case Fill(_, i, _) =>
        if i < |s.build.value.lines| {
          LineKeepsInv(s, link, unavailable);
        } else {
          CheckoutKeepsInv(s, link);
        }
    }
  }

  lemma {:induction false} NextKeepsInv(s: System, e: Event)
    requires Inv(s) && Safe(s, e)
    ensures Inv(Next(s, e))
  {
    match e
    case Begin(request) => BeginKeepsInv(s, request);
    case List(ok, size) => ListKeepsInv(s, ok, size);
    case Read(ok) => ReadKeepsInv(s, ok);
    case Call(link, unavailable) => CallKeepsInv(s, link, unavailable);
    case Evolve(id, stage) => EvolveKeepsInv(s, id, stage);
    case Reapprove(id) => ReapproveKeepsInv(s, id);
    case _ =>
  }

  /** The step from `s` to `t`. */
  ghost predicate SafeTo(s: System, e: Event, t: System) { t == Next(s, e) && Safe(s, e) }

  lemma {:induction false} SafeRunLast(s0: System, before: seq<Event>, e: Event)
    requires SafeRun(s0, before + [e])
    ensures SafeRun(s0, before) && SafeTo(RunAll(s0, before), e, RunAll(s0, before + [e]))
  {
    assert (before + [e])[..|before|] == before;
  }

  /** What every safe run keeps. */
  ghost predicate Kept(s: System) { Inv(s) && CardOk(s) }

  lemma {:induction false} SafeStep(s: System, e: Event, t: System)
    requires Kept(s) && SafeTo(s, e, t)
    ensures Kept(t)
  {
    NextKeepsInv(s, e);
    NextKeepsCard(s, e);
  }

  lemma {:induction false} StartIsKept(s0: System)
    requires Start(s0)
    ensures Kept(s0)
  {
  }

  lemma {:induction false} RunKeepsInv(s0: System, events: seq<Event>)
    requires Start(s0) && SafeRun(s0, events)
    ensures Kept(RunAll(s0, events))
    decreases |events|
  {
    if events == [] {
      StartIsKept(s0);
    } else {
      var before, e := events[..|events| - 1], events[|events| - 1];
      assert events == before + [e];
      SafeRunLast(s0, before, e);
      RunKeepsInv(s0, before);
      SafeStep(RunAll(s0, before), e, RunAll(s0, events));
    }
  }

  // ---------------------------------------------------------------- one checkout for each basket

  /** Over any builds, retries, basket switches, reloads, aborts and lost answers, no two
      resumable checkouts have the same lines. */
  lemma {:induction false} OneResumableCheckoutPerBasket(s0: System, events: seq<Event>)
    requires Start(s0) && SafeRun(s0, events)
    ensures var rows := RunAll(s0, events).backend.state.checkouts;
            forall i, j :: 0 <= i < j < |rows| && Resumable(rows[i].stage) && Resumable(rows[j].stage) ==>
              multiset(rows[i].lines) != multiset(rows[j].lines)
  {
    RunKeepsInv(s0, events);
    var rows := RunAll(s0, events).backend.state.checkouts;
    forall i, j | 0 <= i < j < |rows| && Resumable(rows[i].stage) && Resumable(rows[j].stage)
      ensures multiset(rows[i].lines) != multiset(rows[j].lines)
    {
      assert rows[i] in rows && rows[j] in rows;
      SameSignature(rows[i].lines, rows[j].lines);
    }
  }

  /** The bill on screen is for exactly the lines that were asked for, whether it was adopted,
      built, or replayed by a key that was still held. */
  lemma {:induction false} BillIsForTheseLines(s0: System, events: seq<Event>)
    requires Start(s0) && SafeRun(s0, events)
    ensures var s := RunAll(s0, events);
            s.shown.Some? ==> multiset(s.shown.value.card) == multiset(s.shown.value.lines)
  {
    RunKeepsInv(s0, events);
  }

  /** A re-approval gives a basket a second resumable checkout exactly when another one was opened
      for it while the first was approved: the walk passes approved checkouts over. */
  lemma {:induction false} ReapprovalKeepsOneIff(s: System, id: nat)
    requires Inv(s) && id < |s.backend.state.checkouts|
             && s.backend.state.checkouts[id].stage in {Approved, PaymentFailed}
    ensures OneEach(ReapproveNext(s, id).backend.state) <==>
              NoMatch(s.backend.state, Signature(s.backend.state.checkouts[id].lines))
  {
    var before, after := s.backend.state, ReapproveNext(s, id).backend.state;
    if OneEach(after) {
      forall j | 0 <= j < |before.checkouts| && Resumable(before.checkouts[j].stage)
        ensures Signature(before.checkouts[j].lines) != Signature(before.checkouts[id].lines)
      {
        var rows := after.checkouts;
        assert rows[j] == before.checkouts[j] && rows[id].stage == ApprovalRequired;
        assert Resumable(rows[j].stage) && Resumable(rows[id].stage);
        if j < id {
          assert Signature(rows[j].lines) != Signature(rows[id].lines);
        } else {
          assert Signature(rows[id].lines) != Signature(rows[j].lines);
        }
      }
    }
  }

  // ---------------------------------------------------------------- can it be acted on?

  /** The card recorded under the held key is of a checkout that has the basket's lines. */
  ghost predicate CardOk(s: System) {
    s.held.Some? && s.held.value.checkout in s.backend.records ==>
      var answer := s.backend.records[s.held.value.checkout].answer;
      answer.CardIs? ==>
        && answer.checkout < |s.backend.state.checkouts|
        && Signature(s.backend.state.checkouts[answer.checkout].lines) == s.held.value.signature
  }

  lemma {:induction false} CartKeepsCard(s: System, link: Link)
    requires Inv(s) && CardOk(s) && s.held.Some? && s.build.Some? && s.build.value.phase.OpenCart?
    ensures CardOk(CartNext(s, link))
  {
    DeliverCases(s.backend, s.held.value.cart, CreateCart, link, false);
    var after := Deliver(s.backend, s.held.value.cart, CreateCart, link, false).0;
    if after != s.backend {
      CartRan(s.held.value, s.backend, after);
    }
  }

  lemma {:induction false} LineKeepsCard(s: System, link: Link, unavailable: bool)
    requires Inv(s) && CardOk(s) && s.held.Some? && s.build.Some? && s.build.value.phase.Fill?
    requires s.build.value.phase.next < |s.build.value.lines|
    ensures CardOk(LineNext(s, link, unavailable))
  {
    var line, c := s.build.value.lines[s.build.value.phase.next], s.build.value.phase.cart;
    WithLineKeyKeepsInv(s, line.sku);
    var u := WithLineKey(s, line.sku);
    SameSignature(u.held.value.basket, u.build.value.lines);
    assert line in u.build.value.lines && line in u.held.value.basket;
    LineDelivered(u.held.value, u.backend, c, line, link, unavailable);
    DeliverCases(u.backend, u.held.value.lines[line.sku], SetLine(c, line), link, unavailable);
    assert u.held.value.lines[line.sku] != u.held.value.checkout;
  }

  /** A checkout call either replays or opens a checkout that waits for approval. */
  lemma {:induction false} CheckoutOutcome(s: System, link: Link)
    requires Inv(s) && s.held.Some? && s.build.Some? && s.build.value.phase.Fill?
    requires s.build.value.phase.next == |s.build.value.lines|
    ensures var h, t := s.held.value, CheckoutNext(s, link);
            t.backend == s.backend ||
            (&& h.checkout !in s.backend.records && h.checkout in t.backend.records
             && |t.backend.state.checkouts| == |s.backend.state.checkouts| + 1
             && (var made := t.backend.state.checkouts[|s.backend.state.checkouts|];
                 && made.stage == ApprovalRequired && Signature(made.lines) == h.signature
                 && t.backend.records[h.checkout].answer == CardIs(|s.backend.state.checkouts|, made.lines)))
  {
    AllRecorded(s);
    var h, c := s.held.value, s.build.value.phase.cart;
    DeliverCases(s.backend, h.checkout, OpenCheckout(c), link, false);
    var after := Deliver(s.backend, h.checkout, OpenCheckout(c), link, false).0;
    if after != s.backend {
      CheckoutOpens(h, s.backend, after, c);
      FullCart(h, s.backend, s.backend.state.carts[c]);
    }
  }

  lemma {:induction false} CallKeepsCard(s: System, link: Link, unavailable: bool)
    requires Inv(s) && CardOk(s)
    ensures CardOk(CallNext(s, link, unavailable))
  {
    if s.held.Some? && s.build.Some? {
      match s.build.value.phase
      case Walk(_, _) =>
      case OpenCart => CartKeepsCard(s, link);
      case Fill(_, i, _) =>
        if i < |s.build.value.lines| {
          LineKeepsCard(s, link, unavailable);
        } else {
          CheckoutOutcome(s, link);
        }
    }
  }

  /** A step that opens no checkout, under the same keys or ones that are new. */
  lemma {:induction false} QuietKeepsCard(s: System, t: System)
    requires CardOk(s) && t.backend.records == s.backend.records
    requires t.held == s.held || (t.held.Some? && t.held.value.checkout !in s.backend.records)
    requires |t.backend.state.checkouts| == |s.backend.state.checkouts|
    requires forall i :: 0 <= i < |s.backend.state.checkouts| ==>
               t.backend.state.checkouts[i].lines == s.backend.state.checkouts[i].lines
    ensures CardOk(t)
  {
  }

  lemma {:induction false} ReadIsQuiet(s: System, e: Event)
    requires e.List? || e.Read? || e.Abort?
    ensures Next(s, e).backend == s.backend && Next(s, e).held == s.held
  {
  }

  lemma {:induction false} OtherKeepsCard(s: System, e: Event)
    requires CardOk(s) && (forall k <- s.backend.records :: k < s.minted) && !e.Call?
    ensures CardOk(Next(s, e))
  {
    match e
    case Begin(request) => QuietKeepsCard(s, BeginNext(s, request));
    case Reload =>
    case Evolve(id, stage) => QuietKeepsCard(s, EvolveNext(s, id, stage));
    case Reapprove(id) => QuietKeepsCard(s, ReapproveNext(s, id));
    case _ => ReadIsQuiet(s, e);
  }

  lemma {:induction false} NextKeepsCard(s: System, e: Event)
    requires Inv(s) && CardOk(s)
    ensures CardOk(Next(s, e))
  {
    if e.Call? {
      CallKeepsCard(s, e.link, e.unavailable);
    } else {
      OtherKeepsCard(s, e);
    }
  }

  /** Showing by a checkout call: the card is of the checkout recorded under the held key. */
  lemma {:induction false} CheckoutShows(s: System, link: Link)
    requires Inv(s) && CardOk(s) && s.held.Some? && s.build.Some? && s.build.value.phase.Fill?
    requires s.build.value.phase.next == |s.build.value.lines| && s.shown.None? && CheckoutNext(s, link).shown.Some?
    ensures var t := CheckoutNext(s, link);
            && t.shown.value.checkout < |t.backend.state.checkouts|
            && (Resumable(t.backend.state.checkouts[t.shown.value.checkout].stage) <==>
                  s.held.value.checkout !in s.backend.records)
  {
    var h, c := s.held.value, s.build.value.phase.cart;
    DeliverCases(s.backend, h.checkout, OpenCheckout(c), link, false);
    CheckoutOutcome(s, link);
  }

  /** A card that is read is of a checkout that waits for approval as it is read. */
  lemma {:induction false} ReadShows(s: System, ok: bool)
    requires s.shown.None? && ReadNext(s, ok).shown.Some?
    ensures var t := ReadNext(s, ok); var id := t.shown.value.checkout;
            && s.build.Some? && s.build.value.phase.Walk? && s.build.value.phase.queue != []
            && id == s.build.value.phase.queue[0] < |t.backend.state.checkouts|
            && Resumable(t.backend.state.checkouts[id].stage)
  {
  }

  /** A card that comes on screen by reading a row, however much time passed since the row was
      listed, belongs to a checkout the buyer can act on. One that comes by a checkout call does if
      and only if the request ran just now: a card replayed under a held key is always of a checkout
      that is no longer resumable, because the walk before it would have found it otherwise. */
  lemma {:induction false} ShownIsLiveIff(s0: System, events: seq<Event>, e: Event)
    requires Start(s0) && SafeRun(s0, events)
    requires RunAll(s0, events).shown.None? && Next(RunAll(s0, events), e).shown.Some?
    ensures var s, t := RunAll(s0, events), Next(RunAll(s0, events), e); var id := t.shown.value.checkout;
            && id < |t.backend.state.checkouts| && (e.Read? || (e.Call? && s.held.Some?))
            && (e.Read? ==> Resumable(t.backend.state.checkouts[id].stage))
            && (e.Call? ==>
                  (Resumable(t.backend.state.checkouts[id].stage) <==> s.held.value.checkout !in s.backend.records))
  {
    RunKeepsInv(s0, events);
    ShownNow(RunAll(s0, events), e);
  }

  /** Nothing else shows a card. */
  lemma {:induction false} OnlyTheseShow(s: System, e: Event)
    requires s.shown.None? && Next(s, e).shown.Some?
    ensures e.Read? ||
            (&& e.Call? && s.held.Some? && s.build.Some? && s.build.value.phase.Fill?
             && s.build.value.phase.next >= |s.build.value.lines| && Next(s, e) == CheckoutNext(s, e.link))
  {
  }

  lemma {:induction false} ShownNow(s: System, e: Event)
    requires Inv(s) && CardOk(s) && s.shown.None? && Next(s, e).shown.Some?
    ensures var t := Next(s, e); var id := t.shown.value.checkout;
            && id < |t.backend.state.checkouts| && (e.Read? || (e.Call? && s.held.Some?))
            && (e.Read? ==> Resumable(t.backend.state.checkouts[id].stage))
            && (e.Call? ==>
                  (Resumable(t.backend.state.checkouts[id].stage) <==> s.held.value.checkout !in s.backend.records))
  {
    OnlyTheseShow(s, e);
    if e.Read? {
      ReadShows(s, e.ok);
    } else {
      FillIsWithin(s);
      CheckoutShows(s, e.link);
    }
  }

  lemma {:induction false} FillIsWithin(s: System)
    requires Inv(s) && s.build.Some? && s.build.value.phase.Fill?
    ensures s.build.value.phase.next <= |s.build.value.lines|
  {
  }

  /** A lookup that fails stops the build before anything is created. */
  lemma {:induction false} FailedLookupCreatesNothing(s: System, size: nat, link: Link, unavailable: bool)
    requires s.build.Some? && s.build.value.phase.Walk?
    requires s.build.value.phase.queue == [] ==> s.build.value.phase.cursor.Some?
    ensures CallNext(s, link, unavailable) == s
    ensures s.build.value.phase.queue == [] ==> ListNext(s, false, size) == s.(build := None)
    ensures s.build.value.phase.queue != [] ==> ReadNext(s, false) == s.(build := None)
    ensures CallNext(s.(build := None), link, unavailable) == s.(build := None)
  {
  }

  // ---------------------------------------------------------------- why each SKU is named once

  /** The cart after each line of a request has been set in order. */
  function Filled(lines: seq<Line>): seq<Line> {
    if lines == [] then [] else Put(Filled(lines[..|lines| - 1]), lines[|lines| - 1])
  }

  lemma {:induction false} FilledIsDistinct(lines: seq<Line>)
    ensures DistinctSkus(Filled(lines))
  {
    if lines != [] {
      FilledIsDistinct(lines[..|lines| - 1]);
      PutKeepsDistinct(Filled(lines[..|lines| - 1]), lines[|lines| - 1]);
    }
  }

  lemma {:induction false} FilledElements(lines: seq<Line>)
    requires Clean(lines) && DistinctSkus(lines)
    ensures forall l :: l in Filled(lines) <==> l in lines
  {
    if lines != [] {
      var rest, last := lines[..|lines| - 1], lines[|lines| - 1];
      assert lines == rest + [last];
      FilledElements(rest);
      assert last in lines;
    }
  }

  lemma {:induction false} DistinctByCounts(xs: seq<Line>, ys: seq<Line>, i: nat, j: nat)
    requires DistinctSkus(xs) && multiset(xs) == multiset(ys) && i < j < |ys|
    ensures ys[i].sku != ys[j].sku
  {
    assert ys[i] in multiset(xs) && ys[j] in multiset(xs);
    DistinctCounts(xs, ys[i]);
    assert ys == ys[..j] + [ys[j]] + ys[j + 1..];
    assert ys[i] in multiset(ys[..j]) by {
      assert ys[..j][i] == ys[i];
    }
  }

  /** A cart filled from a request holds exactly its lines if and only if each SKU is named
      once. */
  lemma {:induction false} FilledCartMatchesIff(lines: seq<Line>)
    requires Clean(lines)
    ensures multiset(Filled(lines)) == multiset(lines) <==> DistinctSkus(lines)
  {
    FilledIsDistinct(lines);
    if DistinctSkus(lines) {
      FilledElements(lines);
      SameElements(Filled(lines), lines);
    }
    if multiset(Filled(lines)) == multiset(lines) {
      forall i, j | 0 <= i < j < |lines| ensures lines[i].sku != lines[j].sku {
        DistinctByCounts(Filled(lines), lines, i, j);
      }
    }
  }

  const GOOD := Link(true, false, false, true)

  /** A shop where the buyer has one resumable checkout, for one line. */
  function OneCheckout(a: Line): System {
    System(None, 0, None, None, Server(map[], Shop([], [Checkout(0, [a], ApprovalRequired)]), []))
  }

  /** Two resumable checkouts for that line. */
  ghost predicate Doubled(s: System, a: Line) {
    var rows := s.backend.state.checkouts;
    |rows| == 2 && rows[0] == Checkout(0, [a], ApprovalRequired) && rows[1] == Checkout(0, [a], ApprovalRequired)
  }

  lemma {:induction false} TwiceSignsDifferently(a: Line)
    requires a.quantity > 0
    ensures Positive([a, a]) == [a, a] && Signature([a]) != Signature([a, a])
  {
    LessEqTotal(Print(a), Print(a));
    SignatureOfOne(a);
    SignatureOfTwo(a, a);
    assert |Print(a) + "|" + Print(a)| > |Print(a)|;
  }

  /** The build for the SKU named twice, once its walk has found nothing. */
  function Looked(a: Line): System {
    OneCheckout(a).(held := Some(Held(Signature([a, a]), 0, map[], 1, [a, a])), minted := 2,
                    build := Some(Build([a, a], OpenCart)))
  }

  lemma {:induction false} RepeatedSkuBegins(a: Line)
    requires a.quantity > 0
    ensures RunAll(OneCheckout(a), [Begin([a, a])]) == Looked(a).(build := Some(Build([a, a], Walk([], Some(1)))))
  {
    RunOfOne(Next, OneCheckout(a), Begin([a, a]));
    TwiceSignsDifferently(a);
  }

  lemma {:induction false} RepeatedSkuIsListed(s: System, a: Line)
    requires s.build == Some(Build([a, a], Walk([], Some(1))))
    requires s.backend.state == Shop([], [Checkout(0, [a], ApprovalRequired)])
    ensures Next(s, List(true, 5)) == s.(build := Some(Build([a, a], Walk([0], None))))
  {
    assert Rows(s.backend.state.checkouts, 0, 0) == [];
    assert Rows(s.backend.state.checkouts, 0, 1) == [0];
  }

  lemma {:induction false} OtherRowIsPassed(s: System, lines: seq<Line>, row: Checkout)
    requires s.build == Some(Build(lines, Walk([0], None))) && s.backend.state == Shop([], [row])
    requires Signature(row.lines) != Signature(lines)
    ensures Next(s, Read(true)) == s.(build := Some(Build(lines, OpenCart)))
  {
    ReadCases(s, 0);
    assert [0][1..] == [];
  }

  lemma {:induction false} RepeatedSkuIsNotFound(s: System, a: Line)
    requires a.quantity > 0 && s.build == Some(Build([a, a], Walk([], Some(1))))
    requires s.backend.state == Shop([], [Checkout(0, [a], ApprovalRequired)])
    ensures RunAll(s, [List(true, 5), Read(true)]) == s.(build := Some(Build([a, a], OpenCart)))
  {
    RunOfTwo(Next, s, List(true, 5), Read(true));
    RepeatedSkuIsListed(s, a);
    TwiceSignsDifferently(a);
    OtherRowIsPassed(s.(build := Some(Build([a, a], Walk([0], None)))), [a, a], Checkout(0, [a], ApprovalRequired));
  }

  /** The cart of a build for these lines created, beside one checkout for the line. */
  ghost predicate CartOpened(s: System, a: Line, lines: seq<Line>, stage: Stage) {
    && s.held.Some? && s.held.value.checkout == 1 && s.held.value.lines == map[] && s.minted == 2
    && s.build == Some(Build(lines, Fill(0, 0, false)))
    && s.backend.state == Shop([Cart([], true, None)], [Checkout(0, [a], stage)])
    && s.backend.records.Keys == {0}
  }

  /** The first line set, and its key recorded. */
  ghost predicate FilledOnce(s: System, a: Line, lines: seq<Line>, stage: Stage) {
    && s.held.Some? && s.held.value.checkout == 1 && s.held.value.lines == map[a.sku := 2]
    && s.build == Some(Build(lines, Fill(0, 1, false)))
    && s.backend.state == Shop([Cart([a], true, None)], [Checkout(0, [a], stage)])
    && 2 in s.backend.records && s.backend.records[2] == Record(SetLine(0, a), CartIs(0, false))
    && 1 !in s.backend.records
  }

  /** A build whose walk has found nothing. */
  ghost predicate NothingFound(s: System, a: Line, lines: seq<Line>, stage: Stage) {
    && s.held.Some? && s.held.value.cart == 0 && s.held.value.checkout == 1 && s.held.value.lines == map[]
    && s.minted == 2 && s.build == Some(Build(lines, OpenCart)) && s.backend.records == map[]
    && s.backend.state == Shop([], [Checkout(0, [a], stage)])
  }

  lemma {:induction false} BuildOpens(s: System, a: Line, lines: seq<Line>, stage: Stage)
    requires NothingFound(s, a, lines, stage)
    ensures CartOpened(Next(s, Call(GOOD, false)), a, lines, stage)
  {
  }

  lemma {:induction false} BuildFillsOnce(s: System, a: Line, lines: seq<Line>, stage: Stage)
    requires 0 < a.quantity <= MAX_LINE_QUANTITY && CartOpened(s, a, lines, stage) && lines != [] && lines[0] == a
    ensures FilledOnce(Next(s, Call(GOOD, false)), a, lines, stage)
  {
    assert Put([], a) == [a];
  }

  lemma {:induction false} BuildFills(s: System, a: Line, lines: seq<Line>, stage: Stage)
    requires 0 < a.quantity <= MAX_LINE_QUANTITY && NothingFound(s, a, lines, stage) && lines != [] && lines[0] == a
    ensures FilledOnce(RunAll(s, [Call(GOOD, false), Call(GOOD, false)]), a, lines, stage)
  {
    RunOfTwo(Next, s, Call(GOOD, false), Call(GOOD, false));
    BuildOpens(s, a, lines, stage);
    BuildFillsOnce(Next(s, Call(GOOD, false)), a, lines, stage);
  }

  lemma {:induction false} RepeatedSkuChecksOut(s: System, a: Line)
    requires 0 < a.quantity <= MAX_LINE_QUANTITY && FilledOnce(s, a, [a, a], ApprovalRequired)
    ensures Doubled(RunAll(s, [Call(GOOD, false), Call(GOOD, false)]), a)
  {
    RunOfTwo(Next, s, Call(GOOD, false), Call(GOOD, false));
    var t := Next(s, Call(GOOD, false));
    assert t.backend == s.backend && t.build == Some(Build([a, a], Fill(0, 2, false)));
  }

  /** The build: begin, list, read, create the cart, set the line twice, check out. */
  function RepeatedSkuRun(a: Line): seq<Event> {
    [Begin([a, a])] + [List(true, 5), Read(true)]
    + [Call(GOOD, false), Call(GOOD, false)] + [Call(GOOD, false), Call(GOOD, false)]
  }

  /** Naming a SKU twice is enough for a second resumable checkout with the same lines: the
      walk looks for two lines, the cart it fills has one. */
  lemma {:induction false} RepeatedSkuDoublesCheckout(a: Line)
    requires 0 < a.quantity <= MAX_LINE_QUANTITY && BarFree([a])
    ensures Start(OneCheckout(a)) && Doubled(RunAll(OneCheckout(a), RepeatedSkuRun(a)), a)
  {
    var s0, begin, look, call := OneCheckout(a), [Begin([a, a])], [List(true, 5), Read(true)],
                                 [Call(GOOD, false), Call(GOOD, false)];
    RunAppend(Next, s0, begin, look);
    RunAppend(Next, s0, begin + look, call);
    RunAppend(Next, s0, begin + look + call, call);
    RepeatedSkuBegins(a);
    RepeatedSkuIsNotFound(Looked(a).(build := Some(Build([a, a], Walk([], Some(1))))), a);
    BuildFills(Looked(a), a, [a, a], ApprovalRequired);
    RepeatedSkuChecksOut(RunAll(Looked(a), call), a);
  }

  /** A checkout for one line is approved, and the same basket is built again. */
  lemma {:induction false} ApprovedIsPassed(a: Line)
    requires a.quantity > 0
    ensures NothingFound(RunAll(OneCheckout(a), [Evolve(0, Approved), Begin([a])] + [List(true, 5)]), a, [a], Approved)
  {
    var s0 := OneCheckout(a);
    RunAppend(Next, s0, [Evolve(0, Approved), Begin([a])], [List(true, 5)]);
    RunOfTwo(Next, s0, Evolve(0, Approved), Begin([a]));
    assert Positive([a]) == [a];
    assert [Checkout(0, [a], ApprovalRequired)][0 := Checkout(0, [a], Approved)] == [Checkout(0, [a], Approved)];
    var s := RunAll(s0, [Evolve(0, Approved), Begin([a])]);
    RunOfOne(Next, s, List(true, 5));
    assert Rows(s.backend.state.checkouts, 0, 0) == [];
    assert Rows(s.backend.state.checkouts, 0, 1) == [];
  }

  lemma {:induction false} CheckedOutAndReapproved(s: System, a: Line)
    requires 0 < a.quantity <= MAX_LINE_QUANTITY && FilledOnce(s, a, [a], Approved)
    ensures Doubled(RunAll(s, [Call(GOOD, false), Reapprove(0)]), a)
  {
    RunOfTwo(Next, s, Call(GOOD, false), Reapprove(0));
    assert Next(s, Call(GOOD, false)).backend.state.checkouts
      == [Checkout(0, [a], Approved), Checkout(0, [a], ApprovalRequired)];
  }

  /** Approve, build the same basket again, and have the approved checkout sent back: the basket has
      two resumable checkouts. */
  lemma {:induction false} ReapprovalDoublesCheckout(a: Line)
    requires 0 < a.quantity <= MAX_LINE_QUANTITY && BarFree([a])
    ensures Start(OneCheckout(a))
    ensures Doubled(RunAll(OneCheckout(a), [Evolve(0, Approved), Begin([a])] + [List(true, 5)]
                                           + [Call(GOOD, false), Call(GOOD, false)]
                                           + [Call(GOOD, false), Reapprove(0)]), a)
  {
    var s0, walk := OneCheckout(a), [Evolve(0, Approved), Begin([a])] + [List(true, 5)];
    var fill, end := [Call(GOOD, false), Call(GOOD, false)], [Call(GOOD, false), Reapprove(0)];
    RunAppend(Next, s0, walk, fill);
    RunAppend(Next, s0, walk + fill, end);
    ApprovedIsPassed(a);
    BuildFills(RunAll(s0, walk), a, [a], Approved);
    CheckedOutAndReapproved(RunAll(s0, walk + fill), a);
  }

  // ---------------------------------------------------------------- the hook, step by step

  /** `useAuthoritativeBill` for a new cart, with the backend beside it. A build is an
      asynchronous function: each method is the stretch between two of its awaits. */
  class AuthoritativeBill {
    var held: Option<Held>
    var minted: nat
    var build: Option<Build>
    var shown: Option<Bill>
    var backend: Backend

    ghost function State(): System
      reads this
    {
      System(held, minted, build, shown, backend)
    }

    constructor (shop: Shop)
      ensures State() == System(None, 0, None, None, Server(map[], shop, []))
    {
      held, minted, build, shown := None, 0, None, None;
      backend := Server(map[], shop, []);
    }

    /** A build starts: the one before it is aborted, and keys are fresh for a new basket. */
    method StartBuild(request: seq<Line>)
      modifies this
      ensures State() == Next(old(State()), Begin(request))
    {
      var lines := Positive(request);
      var wanted := Signature(lines);
      if held.None? || held.value.signature != wanted {
        held := Some(Held(wanted, minted, map[], minted + 1, lines));
        minted := minted + 2;
      }
      build := Some(Build(lines, Walk([], Some(|backend.state.checkouts|))));
      shown := None;
    }

    /** The next page has been listed: its resumable rows are to be read, newest first. */
    method PageListed(ok: bool, size: nat)
      modifies this
      ensures State() == Next(old(State()), List(ok, size))
    {
      if build.None? || !build.value.phase.Walk? || build.value.phase.queue != [] || build.value.phase.cursor.None? {
        return;
      }
      if !ok {
        build := None;
        return;
      }
      var checkouts := backend.state.checkouts;
      var to := Min(build.value.phase.cursor.value, |checkouts|);
      var from := Max(0, to - 1 - size);
      var queue, i := [], from;
      while i < to
        invariant from <= i <= to
        invariant queue == Rows(checkouts, from, i)
      {
        if Resumable(checkouts[i].stage) {
          queue := [i] + queue;
        }
        i := i + 1;
      }
      build := Some(Walked(build.value.(phase := Walk(queue, if from == 0 then None else Some(from)))));
    }

    /** One row's checkout has been read. */
    method RowRead(ok: bool)
      modifies this
      ensures State() == Next(old(State()), Read(ok))
    {
      if build.None? || !build.value.phase.Walk? || build.value.phase.queue == [] {
        return;
      }
      var b := build.value;
      var id := b.phase.queue[0];
      if !ok || id >= |backend.state.checkouts| {
        build := None;
        return;
      }
      var found := backend.state.checkouts[id];
      if found.stage == ApprovalRequired && Signature(found.lines) == Signature(b.lines) {
        shown := Some(Bill(b.lines, found.lines, id));
        build := None;
      } else {
        build := Some(Walked(b.(phase := b.phase.(queue := b.phase.queue[1..]))));
      }
    }

    /** Nothing was found and the cart is wanted. */
    method CreateCartNow(link: Link)
      requires held.Some? && build.Some? && build.value.phase.OpenCart?
      modifies this
      ensures State() == Next(old(State()), Call(link, false))
    {
      var (after, outcome) := Deliver(backend, held.value.cart, CreateCart, link, false);
      backend := after;
      if outcome.Answered? && outcome.answer.CartIs? {
        build := Some(build.value.(phase := Fill(outcome.answer.cart, 0, outcome.answer.unavailable)));
      } else {
        build := None;
      }
    }

    /** The next line of the basket is set, under the key the basket holds for it. */
    method SetLineNow(link: Link, unavailable: bool)
      requires held.Some? && build.Some? && build.value.phase.Fill? && build.value.phase.next < |build.value.lines|
      modifies this
      ensures State() == Next(old(State()), Call(link, unavailable))
    {
      var p := build.value.phase;
      var line := build.value.lines[p.next];
      if line.sku !in held.value.lines {
        held := Some(held.value.(lines := held.value.lines[line.sku := minted]));
        minted := minted + 1;
      }
      var (after, outcome) := Deliver(backend, held.value.lines[line.sku], SetLine(p.cart, line), link, unavailable);
      backend := after;
      if outcome.Answered? && outcome.answer.CartIs? {
        build := Some(build.value.(phase := Fill(p.cart, p.next + 1, outcome.answer.unavailable)));
      } else {
        build := None;
      }
    }

    /** Every line is set: stop if the store cannot fulfil one, else open the checkout. */
    method CheckoutNow(link: Link)
      requires held.Some? && build.Some? && build.value.phase.Fill? && build.value.phase.next >= |build.value.lines|
      modifies this
      ensures State() == Next(old(State()), Call(link, false))
    {
      var p := build.value.phase;
      if p.unavailable {
        build := None;
        return;
      }
      var (after, outcome) := Deliver(backend, held.value.checkout, OpenCheckout(p.cart), link, false);
      backend := after;
      if outcome.Answered? && outcome.answer.CardIs? {
        shown := Some(Bill(build.value.lines, outcome.answer.lines, outcome.answer.checkout));
      }
      build := None;
    }
  }
}
