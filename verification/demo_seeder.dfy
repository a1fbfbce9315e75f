/** The demo seeder: it surveys what the tenant holds and creates only what is missing. */
module DemoSeeder {
  import opened Common

  datatype Status = Failed | Unknown | Pending | Settled

  /** A confirmed order: whether its checkout was refused before it was paid, and its refunds. */
  datatype Order = Order(refused: bool, refunds: seq<Status>)

  datatype Tenant = Tenant(orders: seq<Order>, dead: nat, cancelled: nat, rejected: nat)

  datatype Args = Args(orders: int, refusals: int)

  /** What the platform does for a run: how many actions succeed before one raises, the status a
      requested refund reaches, and whether the expired grant's command is buried. */
  datatype World = World(budget: nat, reached: Status -> Status, buries: bool)

  const REFUND_PLAN: seq<Status> := [Failed, Unknown, Pending]

  // ---------------------------------------------------------------- the survey

  function CountRefused(orders: seq<Order>): (n: nat)
    ensures n <= |orders|
  {
    if orders == [] then 0
    else CountRefused(orders[..|orders| - 1]) + (if orders[|orders| - 1].refused then 1 else 0)
  }

  function CountIn(refunds: seq<Status>, status: Status): nat {
    if refunds == [] then 0
    else CountIn(refunds[..|refunds| - 1], status) + (if refunds[|refunds| - 1] == status then 1 else 0)
  }

  function CountStatus(orders: seq<Order>, status: Status): nat {
    if orders == [] then 0
    else CountStatus(orders[..|orders| - 1], status) + CountIn(orders[|orders| - 1].refunds, status)
  }

  datatype Survey = Survey(confirmed: nat, refusedThenPaid: nat, refunds: Status -> nat, dead: nat, cancelled: nat,
                           rejected: nat)

  function SurveyOf(t: Tenant): Survey {
    Survey(|t.orders|, CountRefused(t.orders), (s: Status) => CountStatus(t.orders, s), t.dead, t.cancelled, t.rejected)
  }

  function PlainDeficit(before: Survey, args: Args): nat {
    Max(args.orders - args.refusals - Max(before.confirmed - before.refusedThenPaid, 0), 0)
  }

  function RefusalDeficit(before: Survey, args: Args): nat { Max(args.refusals - before.refusedThenPaid, 0) }

  // ---------------------------------------------------------------- the phases of a run

  /** Where a run has got to: the tenant, the actions the platform still allows, whether one
      raised, the actions and shortfalls reported, and a history of the orders refunded. */
  datatype Progress = Progress(tenant: Tenant, budget: nat, raised: bool, actions: nat, missed: nat, refunded: seq<nat>)

  function Bought(t: Tenant, n: nat, refused: bool): Tenant {
    t.(orders := t.orders + seq(n, _ => Order(refused, [])))
  }

  function Buy(p: Progress, count: nat, refused: bool): Progress {
    if p.raised then p
    else
      var n := Min(count, p.budget);
      p.(tenant := Bought(p.tenant, n, refused), budget := p.budget - n, raised := p.budget < count,
         actions := p.actions + n)
  }

  function AddRefund(t: Tenant, i: nat, status: Status): Tenant
    requires i < |t.orders|
  {
    t.(orders := t.orders[i := t.orders[i].(refunds := t.orders[i].refunds + [status])])
  }

  /** A refund was requested on a sale and got to some status, wanted or not. */
  function RefundedOn(p: Progress, wanted: Status, sale: nat, got: Status): Progress
    requires sale < |p.tenant.orders| && p.budget > 0
  {
    var done := got == wanted;
    p.(tenant := AddRefund(p.tenant, sale, got), budget := p.budget - 1,
       actions := if done then p.actions + 1 else p.actions, missed := if done then p.missed else p.missed + 1,
       refunded := p.refunded + [sale])
  }

  predicate InRange(sales: seq<nat>, n: nat) { forall k :: 0 <= k < |sales| ==> sales[k] < n }

  /** The statuses of the plan that the tenant lacked, each on the next available order. */
  function Refund(p: Progress, plan: seq<Status>, before: Survey, available: seq<nat>,
                  reached: Status -> Status): Progress
    requires InRange(available, |p.tenant.orders|)
    decreases |plan|
  {
    if p.raised || plan == [] then p
    else if before.refunds(plan[0]) >= 1 then Refund(p, plan[1..], before, available, reached)
    else if available == [] then Refund(p.(missed := p.missed + 1), plan[1..], before, available, reached)
    else if p.budget == 0 then p.(raised := true)
    else Refund(RefundedOn(p, plan[0], available[0], reached(plan[0])), plan[1..], before, available[1..], reached)
  }

  /** The orders below `n` without a refund, newest first. */
  function Unrefunded(orders: seq<Order>, n: nat): (r: seq<nat>)
    requires n <= |orders|
    ensures forall i: nat :: i in r <==> i < n && orders[i].refunds == []
  {
    if n == 0 then []
    else if orders[n - 1].refunds == [] then [n - 1] + Unrefunded(orders, n - 1)
    else Unrefunded(orders, n - 1)
  }

  function Excluding(sales: seq<nat>, exclude: seq<nat>): (r: seq<nat>)
    ensures forall i: nat :: i in r <==> i in sales && i !in exclude
  {
    if sales == [] then []
    else
      var rest := Excluding(sales[..|sales| - 1], exclude);
      if sales[|sales| - 1] in exclude then rest else rest + [sales[|sales| - 1]]
  }

  function Purchased(from: nat, to: nat): (r: seq<nat>)
    requires from <= to
    ensures |r| == to - from && forall k :: 0 <= k < |r| ==> r[k] == from + k
  {
    seq(to - from, k requires 0 <= k < to - from => from + k)
  }

  /** This run's orders first, then the older ones that carry no refund. */
  function Available(orders: seq<Order>, from: nat): (r: seq<nat>)
    requires from <= |orders|
    ensures InRange(r, |orders|)
  {
    var older := Excluding(Unrefunded(orders, |orders|), Purchased(from, |orders|));
    assert forall k :: 0 <= k < |older| ==> older[k] in older;
    Purchased(from, |orders|) + older
  }

  function BuryDead(p: Progress, before: Survey, buries: bool): Progress {
    if p.raised || before.dead >= 1 then p
    else if p.budget == 0 then p.(raised := true)
    else if buries
    then p.(tenant := p.tenant.(dead := p.tenant.dead + 1), budget := p.budget - 1, actions := p.actions + 1)
    else p.(budget := p.budget - 1, missed := p.missed + 1)
  }

  function CancelOne(p: Progress, before: Survey): Progress {
    if p.raised || before.cancelled >= 1 then p
    else if p.budget == 0 then p.(raised := true)
    else p.(tenant := p.tenant.(cancelled := p.tenant.cancelled + 1), budget := p.budget - 1, actions := p.actions + 1)
  }

  function RejectOne(p: Progress, before: Survey): Progress {
    if p.raised || before.rejected >= 1 then p
    else if p.budget == 0 then p.(raised := true)
    else p.(tenant := p.tenant.(rejected := p.tenant.rejected + 1), budget := p.budget - 1, actions := p.actions + 1)
  }

  function Begin(t: Tenant, world: World): Progress { Progress(t, world.budget, false, 0, 0, []) }

  function AfterPlain(t: Tenant, args: Args, world: World): (p: Progress)
    ensures |t.orders| <= |p.tenant.orders|
  {
    Buy(Begin(t, world), PlainDeficit(SurveyOf(t), args), false)
  }

  function AfterRefunds(t: Tenant, args: Args, world: World): Progress {
    var p := AfterPlain(t, args, world);
    Refund(p, REFUND_PLAN, SurveyOf(t), Available(p.tenant.orders, |t.orders|), world.reached)
  }

  /** A run: every decision is made against the survey taken before it. */
  function Build(t: Tenant, args: Args, world: World): Progress {
    var before := SurveyOf(t);
    var p := Buy(AfterRefunds(t, args, world), RefusalDeficit(before, args), true);
    RejectOne(CancelOne(BuryDead(p, before, world.buries), before), before)
  }

  // ---------------------------------------------------------------- counting

  lemma {:induction false} CountRefusedBought(t: Tenant, n: nat, refused: bool)
    ensures CountRefused(Bought(t, n, refused).orders) == CountRefused(t.orders) + (if refused then n else 0)
    ensures forall s :: CountStatus(Bought(t, n, refused).orders, s) == CountStatus(t.orders, s)
  {
    if n == 0 {
      assert Bought(t, n, refused).orders == t.orders;
    } else {
      CountRefusedBought(t, n - 1, refused);
      var orders := Bought(t, n, refused).orders;
      assert orders[..|orders| - 1] == Bought(t, n - 1, refused).orders;
    }
  }

  lemma {:induction false} CountsAfterRefund(orders: seq<Order>, i: nat, status: Status)
    requires i < |orders|
    ensures var after := orders[i := orders[i].(refunds := orders[i].refunds + [status])];
            && CountRefused(after) == CountRefused(orders)
            && forall s :: CountStatus(after, s) == CountStatus(orders, s) + (if s == status then 1 else 0)
  {
    var more := orders[i].refunds + [status];
    var after := orders[i := orders[i].(refunds := more)];
    assert more[..|more| - 1] == orders[i].refunds;
    if i == |orders| - 1 {
      assert after[..|orders| - 1] == orders[..|orders| - 1];
    } else {
      CountsAfterRefund(orders[..|orders| - 1], i, status);
      assert after[..|orders| - 1] == orders[..|orders| - 1][i := orders[i].(refunds := more)];
    }
  }

  /** What the refunding phase leaves as it was, and what it reaches. */
  lemma {:induction false} RefundCounts(p: Progress, plan: seq<Status>, before: Survey, available: seq<nat>,
                                        reached: Status -> Status)
    requires InRange(available, |p.tenant.orders|)
    ensures var q := Refund(p, plan, before, available, reached);
            && |q.tenant.orders| == |p.tenant.orders| && CountRefused(q.tenant.orders) == CountRefused(p.tenant.orders)
            && q.tenant.dead == p.tenant.dead && q.tenant.cancelled == p.tenant.cancelled
            && q.tenant.rejected == p.tenant.rejected
            && p.actions <= q.actions && p.missed <= q.missed && (p.raised ==> q == p)
            && (forall s :: CountStatus(q.tenant.orders, s) >= CountStatus(p.tenant.orders, s))
            && (!q.raised && q.missed == p.missed ==> forall s <- plan ::
                  before.refunds(s) >= 1 || CountStatus(q.tenant.orders, s) >= 1)
    decreases |plan|
  {
    if p.raised || plan == [] {
    } else if before.refunds(plan[0]) >= 1 {
      RefundCounts(p, plan[1..], before, available, reached);
    } else if available == [] {
      RefundCounts(p.(missed := p.missed + 1), plan[1..], before, available, reached);
    } else if p.budget > 0 {
      CountsAfterRefund(p.tenant.orders, available[0], reached(plan[0]));
      RefundCounts(RefundedOn(p, plan[0], available[0], reached(plan[0])), plan[1..], before, available[1..], reached);
    }
  }

  // ---------------------------------------------------------------- a run creates what is missing

  /** The refused-then-paid and the plain orders that `after` has beyond `before`. */
  function NewRefused(before: Tenant, after: Tenant): int { CountRefused(after.orders) - CountRefused(before.orders) }

  function NewPlain(before: Tenant, after: Tenant): int { |after.orders| - |before.orders| - NewRefused(before, after) }

  /** Nothing else of the tenant changes. */
  ghost predicate OnlyOrders(before: Tenant, after: Tenant) {
    && after.dead == before.dead && after.cancelled == before.cancelled && after.rejected == before.rejected
    && forall s :: CountStatus(after.orders, s) >= CountStatus(before.orders, s)
  }

  lemma {:induction false} BuyCounts(p: Progress, count: nat, refused: bool)
    ensures var q := Buy(p, count, refused);
            var n := if refused then NewRefused(p.tenant, q.tenant) else NewPlain(p.tenant, q.tenant);
            && 0 <= n <= count && |q.tenant.orders| == |p.tenant.orders| + n && q.actions == p.actions + n
            && (!refused ==> NewRefused(p.tenant, q.tenant) == 0) && OnlyOrders(p.tenant, q.tenant)
            && q.missed == p.missed && (!q.raised ==> !p.raised && n == count)
  {
    if !p.raised {
      CountRefusedBought(p.tenant, Min(count, p.budget), refused);
    }
  }

  lemma {:induction false} FurnitureCounts(p: Progress, before: Survey, buries: bool)
    ensures var q := RejectOne(CancelOne(BuryDead(p, before, buries), before), before);
            && q.tenant.orders == p.tenant.orders && p.actions <= q.actions && p.missed <= q.missed
            && (!q.raised ==> !p.raised)
            && (!q.raised && q.missed == p.missed ==>
                  && (before.dead >= 1 || q.tenant.dead >= 1) && (before.cancelled >= 1 || q.tenant.cancelled >= 1)
                  && (before.rejected >= 1 || q.tenant.rejected >= 1))
            && q.tenant.dead >= p.tenant.dead && q.tenant.cancelled >= p.tenant.cancelled
            && q.tenant.rejected >= p.tenant.rejected
  {
  }

  /** A run that was not interrupted creates exactly the plain orders and the refusals the survey
      said were missing; an interrupted one, no more than that. Nothing it holds is lost. */
  lemma {:induction false} RunCreatesWhatIsMissing(t: Tenant, args: Args, world: World)
    ensures var q, before := Build(t, args, world), SurveyOf(t);
            && 0 <= NewPlain(t, q.tenant) <= PlainDeficit(before, args)
            && 0 <= NewRefused(t, q.tenant) <= RefusalDeficit(before, args)
            && (!q.raised ==> NewPlain(t, q.tenant) == PlainDeficit(before, args)
                              && NewRefused(t, q.tenant) == RefusalDeficit(before, args))
            && NewPlain(t, q.tenant) + NewRefused(t, q.tenant) <= q.actions
            && (forall s :: CountStatus(q.tenant.orders, s) >= CountStatus(t.orders, s))
  {
    var before := SurveyOf(t);
    var p := AfterPlain(t, args, world);
    BuyCounts(Begin(t, world), PlainDeficit(before, args), false);
    RefundCounts(p, REFUND_PLAN, before, Available(p.tenant.orders, |t.orders|), world.reached);
    var r := AfterRefunds(t, args, world);
    BuyCounts(r, RefusalDeficit(before, args), true);
    FurnitureCounts(Buy(r, RefusalDeficit(before, args), true), before, world.buries);
  }

  // ---------------------------------------------------------------- convergence

  /** The tenant holds everything the script seeds. */
  ghost predicate Complete(t: Tenant, args: Args) {
    var before := SurveyOf(t);
    && PlainDeficit(before, args) == 0 && RefusalDeficit(before, args) == 0
    && (forall s <- REFUND_PLAN :: CountStatus(t.orders, s) >= 1)
    && t.dead >= 1 && t.cancelled >= 1 && t.rejected >= 1
  }

  ghost predicate Idle(t: Tenant, args: Args, world: World) {
    Build(t, args, world) == Begin(t, world)
  }

  lemma {:induction false} NothingToRefund(p: Progress, plan: seq<Status>, before: Survey, available: seq<nat>,
                                           reached: Status -> Status)
    requires InRange(available, |p.tenant.orders|) && forall s <- plan :: before.refunds(s) >= 1
    ensures Refund(p, plan, before, available, reached) == p
    decreases |plan|
  {
    if !p.raised && plan != [] {
      assert plan[0] in plan;
      NothingToRefund(p, plan[1..], before, available, reached);
    }
  }

  /** A tenant that is complete is left alone, even by a platform that allows nothing. */
  lemma {:induction false} CompleteIsIdle(t: Tenant, args: Args, world: World)
    requires Complete(t, args)
    ensures Idle(t, args, world)
  {
    var p := AfterPlain(t, args, world);
    assert Bought(t, 0, false) == t;
    assert p == Begin(t, world);
    NothingToRefund(p, REFUND_PLAN, SurveyOf(t), Available(t.orders, |t.orders|), world.reached);
    assert Bought(t, 0, true) == t;
  }

  lemma {:induction false} RefundsReached(t: Tenant, args: Args, world: World)
    requires var q := AfterRefunds(t, args, world); !q.raised && q.missed == 0
    ensures forall s <- REFUND_PLAN :: CountStatus(AfterRefunds(t, args, world).tenant.orders, s) >= 1
  {
    var before := SurveyOf(t);
    var p := AfterPlain(t, args, world);
    BuyCounts(Begin(t, world), PlainDeficit(before, args), false);
    RefundCounts(p, REFUND_PLAN, before, Available(p.tenant.orders, |t.orders|), world.reached);
  }

  /** With no other writer, a run that reports no shortfall leaves nothing for the next one. */
  lemma {:induction false} RunConverges(t: Tenant, args: Args, world: World, next: World)
    requires !Build(t, args, world).raised && Build(t, args, world).missed == 0
    ensures Complete(Build(t, args, world).tenant, args)
    ensures Idle(Build(t, args, world).tenant, args, next)
  {
    var before, q := SurveyOf(t), Build(t, args, world).tenant;
    RunCreatesWhatIsMissing(t, args, world);
    var r := AfterRefunds(t, args, world);
    var b := Buy(r, RefusalDeficit(before, args), true);
    BuyCounts(r, RefusalDeficit(before, args), true);
    FurnitureCounts(b, before, world.buries);
    RefundsReached(t, args, world);
    RefundCounts(AfterPlain(t, args, world), REFUND_PLAN, before,
                 Available(AfterPlain(t, args, world).tenant.orders, |t.orders|), world.reached);
    BuyCounts(Begin(t, world), PlainDeficit(before, args), false);
    assert Complete(q, args);
    CompleteIsIdle(q, args, next);
  }

  /** A run does nothing exactly when there is nothing missing. */
  lemma {:induction false} IdleIffComplete(t: Tenant, args: Args, world: World)
    ensures Idle(t, args, world) <==> Complete(t, args)
  {
    if Idle(t, args, world) {
      RunConverges(t, args, world, world);
    } else if Complete(t, args) {
      CompleteIsIdle(t, args, world);
    }
  }

  // ---------------------------------------------------------------- interrupted runs

  function RunAll(t: Tenant, args: Args, worlds: seq<World>): Tenant {
    if worlds == [] then t else Build(RunAll(t, args, worlds[..|worlds| - 1]), args, worlds[|worlds| - 1]).tenant
  }

  /** What is made and what is still missing add up to what was missing, however many runs were
      interrupted on the way. */
  lemma {:induction false} InterruptedRunsAddUp(t: Tenant, args: Args, worlds: seq<World>)
    ensures var u := RunAll(t, args, worlds);
            && NewPlain(t, u) + PlainDeficit(SurveyOf(u), args) == PlainDeficit(SurveyOf(t), args)
            && NewRefused(t, u) + RefusalDeficit(SurveyOf(u), args) == RefusalDeficit(SurveyOf(t), args)
    decreases |worlds|
  {
    if worlds != [] {
      InterruptedRunsAddUp(t, args, worlds[..|worlds| - 1]);
      RunCreatesWhatIsMissing(RunAll(t, args, worlds[..|worlds| - 1]), args, worlds[|worlds| - 1]);
    }
  }

  /** So a run that completes after any interruptions ends with exactly the orders asked for:
      none is made twice. */
  lemma {:induction false} RestartedRunIsExact(t: Tenant, args: Args, worlds: seq<World>, last: World)
    requires !Build(RunAll(t, args, worlds), args, last).raised
    ensures var q := Build(RunAll(t, args, worlds), args, last).tenant;
            NewPlain(t, q) == PlainDeficit(SurveyOf(t), args) && NewRefused(t, q) == RefusalDeficit(SurveyOf(t), args)
  {
    InterruptedRunsAddUp(t, args, worlds);
    RunCreatesWhatIsMissing(RunAll(t, args, worlds), args, last);
  }

  // ---------------------------------------------------------------- one refund for each sale

  ghost predicate Distinct(xs: seq<nat>) { forall i, j :: 0 <= i < j < |xs| ==> xs[i] != xs[j] }

  lemma {:induction false} UnrefundedIsDistinct(orders: seq<Order>, n: nat)
    requires n <= |orders|
    ensures Distinct(Unrefunded(orders, n))
  {
    if n > 0 {
      UnrefundedIsDistinct(orders, n - 1);
      var rest := Unrefunded(orders, n - 1);
      assert forall k :: 0 <= k < |rest| ==> rest[k] in rest;
    }
  }

  lemma {:induction false} ExcludingIsDistinct(sales: seq<nat>, exclude: seq<nat>)
    requires Distinct(sales)
    ensures Distinct(Excluding(sales, exclude))
  {
    if sales != [] {
      var before := sales[..|sales| - 1];
      ExcludingIsDistinct(before, exclude);
      var rest := Excluding(before, exclude);
      forall k | 0 <= k < |rest| ensures rest[k] != sales[|sales| - 1] {
        assert rest[k] in rest;
        var j :| 0 <= j < |before| && before[j] == rest[k];
      }
    }
  }

  /** No order is offered twice, though this run's own orders are also unrefunded ones; and none
      that is offered has a refund. */
  lemma {:induction false} AvailableIsDistinct(orders: seq<Order>, from: nat)
    requires from <= |orders| && forall i :: from <= i < |orders| ==> orders[i].refunds == []
    ensures var sales := Available(orders, from);
            Distinct(sales) && forall k :: 0 <= k < |sales| ==> orders[sales[k]].refunds == []
  {
    var bought := Purchased(from, |orders|);
    var older := Excluding(Unrefunded(orders, |orders|), bought);
    UnrefundedIsDistinct(orders, |orders|);
    ExcludingIsDistinct(Unrefunded(orders, |orders|), bought);
    assert forall k :: 0 <= k < |older| ==> older[k] in older;
    assert forall k :: 0 <= k < |bought| ==> bought[k] in bought;
  }

  /** The refunded orders are the first ones available. */
  lemma {:induction false} RefundedFromAvailable(p: Progress, plan: seq<Status>, before: Survey, available: seq<nat>,
                                                 reached: Status -> Status)
    requires InRange(available, |p.tenant.orders|)
    ensures var q := Refund(p, plan, before, available, reached);
            var n := |q.refunded| - |p.refunded|;
            0 <= n <= |available| && q.refunded == p.refunded + available[..n]
    decreases |plan|
  {
    if p.raised || plan == [] {
    } else if before.refunds(plan[0]) >= 1 {
      RefundedFromAvailable(p, plan[1..], before, available, reached);
    } else if available == [] {
      RefundedFromAvailable(p.(missed := p.missed + 1), plan[1..], before, available, reached);
    } else if p.budget > 0 {
      RefundedFromAvailable(RefundedOn(p, plan[0], available[0], reached(plan[0])), plan[1..], before, available[1..],
                            reached);
      var n := |Refund(p, plan, before, available, reached).refunded| - |p.refunded|;
      assert available[..n] == [available[0]] + available[1..][..n - 1];
    }
  }

  lemma {:induction false} BuildRefunds(t: Tenant, args: Args, world: World)
    ensures var p, q := AfterPlain(t, args, world), Build(t, args, world);
            var sales := Available(p.tenant.orders, |t.orders|);
            && |q.refunded| <= |sales| && q.refunded == sales[..|q.refunded|]
            && |p.tenant.orders| <= |q.tenant.orders|
  {
    var p, before := AfterPlain(t, args, world), SurveyOf(t);
    var sales := Available(p.tenant.orders, |t.orders|);
    RefundedFromAvailable(p, REFUND_PLAN, before, sales, world.reached);
    RefundCounts(p, REFUND_PLAN, before, sales, world.reached);
    BuyCounts(AfterRefunds(t, args, world), RefusalDeficit(before, args), true);
  }

  /** The refunds of one run sit on different sales, none of which carried a refund before it. */
  lemma {:induction false} RefundsAreOnDistinctSales(t: Tenant, args: Args, world: World)
    ensures var q := Build(t, args, world);
            Distinct(q.refunded) && forall k :: 0 <= k < |q.refunded| ==>
              q.refunded[k] < |q.tenant.orders|
                && (q.refunded[k] < |t.orders| ==> t.orders[q.refunded[k]].refunds == [])
  {
    var p := AfterPlain(t, args, world);
    var sales := Available(p.tenant.orders, |t.orders|);
    assert forall i :: 0 <= i < |t.orders| ==> p.tenant.orders[i] == t.orders[i];
    AvailableIsDistinct(p.tenant.orders, |t.orders|);
    BuildRefunds(t, args, world);
  }

  // ---------------------------------------------------------------- the script

  /** The platform's rows for the tenant and the script's result, which its steps append to. */
  class Seeder {
    var tenant: Tenant
    var budget: nat
    var raised: bool
    var actions: nat
    var shortfalls: nat
    ghost var refunded: seq<nat>

    ghost function State(): Progress
      reads this
    {
      Progress(tenant, budget, raised, actions, shortfalls, refunded)
    }

    constructor (t: Tenant, world: World)
      ensures State() == Begin(t, world)
    {
      tenant, budget, raised, actions, shortfalls, refunded := t, world.budget, false, 0, 0, [];
    }

    /** One purchase after another; the first that raises ends the run. */
    method BuyOrders(count: nat, refused: bool)
      modifies this
      ensures State() == Buy(old(State()), count, refused)
    {
      if raised {
        return;
      }
      ghost var before := State();
      assert Bought(tenant, 0, refused) == tenant;
      for i := 0 to count
        invariant !raised && i <= before.budget
        invariant State() == before.(tenant := Bought(before.tenant, i, refused), budget := before.budget - i,
                                     actions := before.actions + i)
      {
        if budget == 0 {
          raised := true;
          return;
        }
        tenant := tenant.(orders := tenant.orders + [Order(refused, [])]);
        assert tenant == Bought(before.tenant, i + 1, refused);
        budget, actions := budget - 1, actions + 1;
      }
    }

    method SeedRefund(wanted: Status, sale: nat, got: Status)
      requires sale < |tenant.orders| && budget > 0
      modifies this
      ensures State() == RefundedOn(old(State()), wanted, sale, got)
    {
      tenant := AddRefund(tenant, sale, got);
      budget, refunded := budget - 1, refunded + [sale];
      if got == wanted {
        actions := actions + 1;
      } else {
        shortfalls := shortfalls + 1;
      }
    }

    method SeedRefunds(before: Survey, sales: seq<nat>, reached: Status -> Status)
      requires InRange(sales, |tenant.orders|)
      modifies this
      ensures State() == Refund(old(State()), REFUND_PLAN, before, sales, reached)
    {
      if raised {
        return;
      }
      ghost var start := State();
      var available, k := sales, 0;
      assert REFUND_PLAN[0..] == REFUND_PLAN;
      while k < |REFUND_PLAN|
        invariant k <= |REFUND_PLAN| && !raised && InRange(available, |tenant.orders|)
        invariant Refund(State(), REFUND_PLAN[k..], before, available, reached)
               == Refund(start, REFUND_PLAN, before, sales, reached)
      {
        var status := REFUND_PLAN[k];
        assert REFUND_PLAN[k..][0] == status && REFUND_PLAN[k..][1..] == REFUND_PLAN[k + 1..];
        k := k + 1;
        if before.refunds(status) >= 1 {
          continue;
        }
        if available == [] {
          shortfalls := shortfalls + 1;
          continue;
        }
        if budget == 0 {
          raised := true;
          return;
        }
        SeedRefund(status, available[0], reached(status));
        available := available[1..];
      }
      assert REFUND_PLAN[k..] == [];
    }

    method SeedFurniture(before: Survey, buries: bool)
      modifies this
      ensures State() == RejectOne(CancelOne(BuryDead(old(State()), before, buries), before), before)
    {
      if !raised && before.dead < 1 {
        if budget == 0 {
          raised := true;
        } else {
          budget := budget - 1;
          if buries {
            tenant, actions := tenant.(dead := tenant.dead + 1), actions + 1;
          } else {
            shortfalls := shortfalls + 1;
          }
        }
      }
      if !raised && before.cancelled < 1 {
        if budget == 0 {
          raised := true;
        } else {
          tenant, budget, actions := tenant.(cancelled := tenant.cancelled + 1), budget - 1, actions + 1;
        }
      }
      if !raised && before.rejected < 1 {
        if budget == 0 {
          raised := true;
        } else {
          tenant, budget, actions := tenant.(rejected := tenant.rejected + 1), budget - 1, actions + 1;
        }
      }
    }

    /** `build`. */
    method BuildMissing(args: Args, world: World)
      requires State() == Begin(tenant, world)
      modifies this
      ensures State() == Build(old(tenant), args, world)
    {
      var before, first := SurveyOf(tenant), |tenant.orders|;
      BuyOrders(PlainDeficit(before, args), false);
      var sales := Available(tenant.orders, first);
      SeedRefunds(before, sales, world.reached);
      BuyOrders(RefusalDeficit(before, args), true);
      SeedFurniture(before, world.buries);
    }
  }
}
