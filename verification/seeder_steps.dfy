/** What a run of the seeder does to the tenant and what it reports, counted in the tenant's rows. */
module SeederSteps {
  import opened Common
  import opened DemoSeeder

  // ---------------------------------------------------------------- the survey

  /** The survey sees a refund in some state exactly if an order has one. */
  lemma {:induction false} RefundIsSeenIff(refunds: seq<Status>, status: Status)
    ensures CountIn(refunds, status) >= 1 <==> status in refunds
  {
    if refunds != [] {
      RefundIsSeenIff(refunds[..|refunds| - 1], status);
      assert refunds == refunds[..|refunds| - 1] + [refunds[|refunds| - 1]];
    }
  }

  lemma {:induction false} StatusIsSeenIff(orders: seq<Order>, status: Status)
    ensures CountStatus(orders, status) >= 1 <==> exists o <- orders :: status in o.refunds
  {
    if orders != [] {
      var rest, last := orders[..|orders| - 1], orders[|orders| - 1];
      StatusIsSeenIff(rest, status);
      RefundIsSeenIff(last.refunds, status);
      assert orders == rest + [last];
    }
  }

  ghost predicate Falling(sales: seq<nat>) { forall i, j :: 0 <= i < j < |sales| ==> sales[i] > sales[j] }

  lemma {:induction false} UnrefundedFalls(orders: seq<Order>, n: nat)
    requires n <= |orders|
    ensures Falling(Unrefunded(orders, n))
  {
    if n > 0 {
      UnrefundedFalls(orders, n - 1);
      var rest := Unrefunded(orders, n - 1);
      assert forall k :: 0 <= k < |rest| ==> rest[k] in rest;
    }
  }

  lemma {:induction false} ExcludingFalls(sales: seq<nat>, exclude: seq<nat>)
    requires Falling(sales)
    ensures Falling(Excluding(sales, exclude))
  {
    if sales != [] {
      var before := sales[..|sales| - 1];
      ExcludingFalls(before, exclude);
      var rest := Excluding(before, exclude);
      forall k | 0 <= k < |rest| ensures rest[k] > sales[|sales| - 1] {
        assert rest[k] in rest;
        var j :| 0 <= j < |before| && before[j] == rest[k];
      }
    }
  }

  /** A refund is put on the orders of this run first, in the order they were made, and then on the
      older ones that carry none, newest first. */
  lemma {:induction false} AvailableIs(orders: seq<Order>, from: nat)
    requires from <= |orders|
    ensures var sales, n := Available(orders, from), |orders| - from;
            && |sales| >= n && (forall k :: 0 <= k < n ==> sales[k] == from + k)
            && Falling(sales[n..])
            && forall i: nat :: i in sales[n..] <==> i < from && orders[i].refunds == []
  {
    var bought := Purchased(from, |orders|);
    var older := Excluding(Unrefunded(orders, |orders|), bought);
    UnrefundedFalls(orders, |orders|);
    ExcludingFalls(Unrefunded(orders, |orders|), bought);
    assert Available(orders, from) == bought + older;
    assert forall k :: 0 <= k < |bought| ==> bought[k] in bought;
    assert forall i: nat :: i in bought ==> from <= i < |orders|;
    forall i: nat | from <= i < |orders| ensures i in bought {
      assert bought[i - from] == i;
    }
    assert Available(orders, from)[|orders| - from..] == older;
  }

  // ---------------------------------------------------------------- the phases

  /** The statuses of the plan that the tenant lacks. */
  function Lacking(plan: seq<Status>, before: Survey): seq<Status> {
    if plan == [] then []
    else if before.refunds(plan[0]) >= 1 then Lacking(plan[1..], before)
    else [plan[0]] + Lacking(plan[1..], before)
  }

  /** How many of these refunds reach the status that is wanted. */
  function Hits(wanted: seq<Status>, reached: Status -> Status): nat {
    if wanted == [] then 0 else (if reached(wanted[0]) == wanted[0] then 1 else 0) + Hits(wanted[1..], reached)
  }

  /** Purchases are made one by one until the platform raises: as many orders as were wanted, or as
      it allows. */
  lemma {:induction false} BuyIs(p: Progress, count: nat, refused: bool)
    requires !p.raised
    ensures var q, n := Buy(p, count, refused), if count <= p.budget then count else p.budget;
            && q == p.(tenant := p.tenant.(orders := q.tenant.orders), budget := q.budget, raised := q.raised,
                       actions := q.actions)
            && |q.tenant.orders| == |p.tenant.orders| + n && q.tenant.orders[..|p.tenant.orders|] == p.tenant.orders
            && (forall i :: |p.tenant.orders| <= i < |q.tenant.orders| ==> q.tenant.orders[i] == Order(refused, []))
            && q.budget + n == p.budget && q.actions == p.actions + n && (q.raised <==> p.budget < count)
  {
  }

  /** How far the refunds get: as many as are lacking, as there are sales for, and as the platform
      allows, of which the last makes it raise. */
  ghost predicate RefundsCounted(p: Progress, q: Progress, lacking: seq<Status>, sales: nat,
                                 reached: Status -> Status)
  {
    var want := Min(|lacking|, sales);
    var n := Min(want, p.budget);
    var hits := Hits(lacking[..n], reached);
    && q.budget == p.budget - n && |q.refunded| == |p.refunded| + n && (q.raised <==> p.budget < want)
    && q.actions == p.actions + hits
    && q.missed == p.missed + (if q.raised then n else |lacking|) - hits
  }

  lemma {:induction false} RefundsAre(p: Progress, plan: seq<Status>, before: Survey, available: seq<nat>,
                                      reached: Status -> Status)
    requires InRange(available, |p.tenant.orders|) && !p.raised
    ensures RefundsCounted(p, Refund(p, plan, before, available, reached), Lacking(plan, before), |available|, reached)
    decreases |plan|
  {
    if plan == [] {
    } else if before.refunds(plan[0]) >= 1 {
      RefundsAre(p, plan[1..], before, available, reached);
    } else if available == [] {
      RefundsAre(p.(missed := p.missed + 1), plan[1..], before, available, reached);
    } else if p.budget > 0 {
      var rest := Lacking(plan[1..], before);
      RefundsAre(RefundedOn(p, plan[0], available[0], reached(plan[0])), plan[1..], before, available[1..], reached);
      var n := Min(Min(|rest|, |available| - 1), p.budget - 1);
      assert ([plan[0]] + rest)[..n + 1][1..] == rest[..n];
    }
  }

  /** The refunds of one run stand on their sales: each status that is lacking, as far as it gets,
      adds what it reached to the next sale, and nothing else changes. */
  lemma {:induction false} RefundsStand(p: Progress, plan: seq<Status>, before: Survey, available: seq<nat>,
                                        reached: Status -> Status, sale: nat)
    requires InRange(available, |p.tenant.orders|) && Distinct(available) && !p.raised && sale < |p.tenant.orders|
    ensures var q, lacking := Refund(p, plan, before, available, reached), Lacking(plan, before);
            && |q.tenant.orders| == |p.tenant.orders|
            && q.tenant == p.tenant.(orders := q.tenant.orders)
            && q.tenant.orders[sale].refused == p.tenant.orders[sale].refused
            && (forall i :: 0 <= i < Min(Min(|lacking|, |available|), p.budget) && available[i] == sale ==>
                  q.tenant.orders[sale].refunds == p.tenant.orders[sale].refunds + [reached(lacking[i])])
            && ((forall i :: 0 <= i < Min(Min(|lacking|, |available|), p.budget) ==> available[i] != sale) ==>
                  q.tenant.orders[sale] == p.tenant.orders[sale])
    decreases |plan|
  {
    if plan == [] {
    } else if before.refunds(plan[0]) >= 1 {
      RefundsStand(p, plan[1..], before, available, reached, sale);
    } else if available == [] {
      RefundsStand(p.(missed := p.missed + 1), plan[1..], before, available, reached, sale);
    } else if p.budget > 0 {
      RefundsStand(RefundedOn(p, plan[0], available[0], reached(plan[0])), plan[1..], before, available[1..], reached,
                   sale);
    }
  }

  function Count(lacks: bool): nat { if lacks then 1 else 0 }

  /** The furniture is made in order, each piece only if there was none, until the platform raises. A
      command that the worker took in time is a shortfall. */
  lemma {:induction false} FurnitureIs(p: Progress, before: Survey, buries: bool)
    requires !p.raised
    ensures var q := RejectOne(CancelOne(BuryDead(p, before, buries), before), before);
            var dead, cancelled := Count(before.dead < 1), Count(before.cancelled < 1);
            var rejected := Count(before.rejected < 1);
            var d := Min(dead, p.budget); var c := Min(cancelled, p.budget - d);
            var r := Min(rejected, p.budget - d - c);
            && (q.raised <==> p.budget < dead + cancelled + rejected)
            && q.tenant == p.tenant.(dead := p.tenant.dead + (if buries then d else 0),
                                     cancelled := p.tenant.cancelled + c, rejected := p.tenant.rejected + r)
            && q.budget == p.budget - d - c - r && q.refunded == p.refunded
            && q.actions == p.actions + (if buries then d else 0) + c + r
            && q.missed == p.missed + (if buries then 0 else d)
  {
  }

  /** A run that raised does nothing more. */
  lemma {:induction false} RaisedIsOver(p: Progress, count: nat, refused: bool, plan: seq<Status>, before: Survey,
                                        available: seq<nat>, reached: Status -> Status, buries: bool)
    requires p.raised && InRange(available, |p.tenant.orders|)
    ensures Buy(p, count, refused) == p && Refund(p, plan, before, available, reached) == p
    ensures RejectOne(CancelOne(BuryDead(p, before, buries), before), before) == p
  {
  }

  // ---------------------------------------------------------------- a run

  /** Everything that the survey says is missing. */
  ghost function Missing(before: Survey, args: Args): nat {
    Max(0, args.orders - args.refusals - (before.confirmed - before.refusedThenPaid))
    + Max(0, args.refusals - before.refusedThenPaid) + |Lacking(REFUND_PLAN, before)|
    + Count(before.dead < 1) + Count(before.cancelled < 1) + Count(before.rejected < 1)
  }

  /** The run after its refunds. */
  function Ended(r: Progress, before: Survey, args: Args, buries: bool): Progress {
    RejectOne(CancelOne(BuryDead(Buy(r, RefusalDeficit(before, args), true), before, buries), before), before)
  }

  lemma {:induction false} BuildIs(t: Tenant, args: Args, world: World)
    ensures Build(t, args, world) == Ended(AfterRefunds(t, args, world), SurveyOf(t), args, world.buries)
  {
  }

  lemma {:induction false} RunEnds(r: Progress, before: Survey, args: Args, buries: bool)
    ensures var q := Ended(r, before, args, buries);
            var rest := RefusalDeficit(before, args) + Count(before.dead < 1) + Count(before.cancelled < 1)
                        + Count(before.rejected < 1);
            var done := q.actions + q.missed - r.actions - r.missed;
            if r.raised then q == r else if q.raised then done < rest else done == rest
  {
    var u := Buy(r, RefusalDeficit(before, args), true);
    if !r.raised {
      BuyIs(r, RefusalDeficit(before, args), true);
      if !u.raised {
        FurnitureIs(u, before, buries);
      }
    }
  }

  lemma {:induction false} RefundsReported(p: Progress, before: Survey, available: seq<nat>, reached: Status -> Status)
    requires InRange(available, |p.tenant.orders|)
    ensures var r := Refund(p, REFUND_PLAN, before, available, reached);
            var done := r.actions + r.missed - p.actions - p.missed; var lacking := |Lacking(REFUND_PLAN, before)|;
            if p.raised then r == p else if r.raised then done < lacking else done == lacking
  {
    if !p.raised {
      RefundsAre(p, REFUND_PLAN, before, available, reached);
    }
  }

  lemma {:induction false} UntilRefunds(t: Tenant, args: Args, world: World)
    ensures var r, before := AfterRefunds(t, args, world), SurveyOf(t);
            var most := PlainDeficit(before, args) + |Lacking(REFUND_PLAN, before)|;
            if r.raised then r.actions + r.missed < most else r.actions + r.missed == most
  {
    var before := SurveyOf(t);
    var p := AfterPlain(t, args, world);
    BuyIs(Begin(t, world), PlainDeficit(before, args), false);
    RefundsReported(p, before, Available(p.tenant.orders, |t.orders|), world.reached);
  }

  /** A run that completes reports everything that was missing, as done or as a shortfall and once
      each; one that raises reports less than that. */
  lemma {:induction false} ReportsAddUp(t: Tenant, args: Args, world: World)
    ensures var q, missing := Build(t, args, world), Missing(SurveyOf(t), args);
            if q.raised then q.actions + q.missed < missing else q.actions + q.missed == missing
  {
    UntilRefunds(t, args, world);
    RunEnds(AfterRefunds(t, args, world), SurveyOf(t), args, world.buries);
    BuildIs(t, args, world);
  }

  /** A run that completes leaves as many plain and as many refused orders as were asked for, or as
      there were if there were more. */
  lemma {:induction false} OrdersAreFilledUp(t: Tenant, args: Args, world: World)
    requires !Build(t, args, world).raised
    ensures var q := Build(t, args, world).tenant; var plain := |t.orders| - CountRefused(t.orders);
            && CountRefused(q.orders) == Max(CountRefused(t.orders), args.refusals)
            && |q.orders| - CountRefused(q.orders) == Max(plain, args.orders - args.refusals)
  {
    RunCreatesWhatIsMissing(t, args, world);
  }

  /** Runs follow one another, each on what the last one left. */
  lemma {:induction false} RunsFollow(t: Tenant, args: Args, worlds: seq<World>, last: World)
    ensures RunAll(t, args, []) == t
    ensures RunAll(t, args, worlds + [last]) == Build(RunAll(t, args, worlds), args, last).tenant
  {
    assert (worlds + [last])[..|worlds|] == worlds;
  }
}
