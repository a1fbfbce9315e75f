/** What approving a bill does to the kernel, to the stored keys and to what the buyer is shown,
    case by case. */
module ApprovalSteps {
  import opened Common
  import opened Idempotency
  import opened ManualApproval

  // ---------------------------------------------------------------- the kernel

  /** The version that a bill names is there, with the bill's content. */
  ghost predicate Known(kernel: Kernel, bill: Bill) {
    && bill.checkout < |kernel.checkouts| && bill.version < |kernel.checkouts[bill.checkout]|
    && kernel.checkouts[bill.checkout][bill.version].contentHash == bill.contentHash
  }

  ghost predicate Stands(kernel: Kernel, bill: Bill, stage: Stage) {
    Known(kernel, bill) && kernel.checkouts[bill.checkout][bill.version].stage == stage
  }

  /** An attempt on any version of the checkout. */
  ghost predicate Attempted(kernel: Kernel, checkout: nat) {
    exists i :: 0 <= i < |kernel.attempts| && kernel.attempts[i].bill.checkout == checkout
  }

  ghost predicate UnderWay(kernel: Kernel, checkout: nat) {
    exists i :: 0 <= i < |kernel.attempts| && kernel.attempts[i].bill.checkout == checkout && kernel.attempts[i].live
  }

  /** Of all versions of all checkouts only this one moved; where a successor is given a new version
      with that content waits behind the checkout's last. */
  ghost predicate OnlyMoved(was: Kernel, now: Kernel, checkout: nat, version: nat, stage: Stage,
                            successor: Option<nat>)
  {
    && checkout < |was.checkouts| && version < |was.checkouts[checkout]| && |now.checkouts| == |was.checkouts|
    && (forall c :: 0 <= c < |was.checkouts| && c != checkout ==> now.checkouts[c] == was.checkouts[c])
    && (var before, after := was.checkouts[checkout], now.checkouts[checkout];
        && |after| == |before| + (if successor.Some? then 1 else 0)
        && (forall v :: 0 <= v < |before| ==>
              after[v] == if v == version then Version(before[v].contentHash, stage) else before[v])
        && (successor.Some? ==> after[|before|] == Version(successor.value, Waiting)))
  }

  lemma {:induction false} AttemptsAre(kernel: Kernel, checkout: nat)
    ensures AttemptOn(kernel, checkout) <==> Attempted(kernel, checkout)
    ensures LiveOn(kernel, checkout) <==> UnderWay(kernel, checkout)
  {
    if Attempted(kernel, checkout) {
      var i :| 0 <= i < |kernel.attempts| && kernel.attempts[i].bill.checkout == checkout;
      assert kernel.attempts[i] in kernel.attempts;
    }
    if UnderWay(kernel, checkout) {
      var i :| 0 <= i < |kernel.attempts| && kernel.attempts[i].bill.checkout == checkout && kernel.attempts[i].live;
      assert kernel.attempts[i] in kernel.attempts;
    }
  }

  /** What the kernel does with an approval. While a payment on the checkout is under way it is a
      duplicate; otherwise only a version that waits is decided. Admitted, it is being paid for and
      has the one new attempt; denied, it stands approved, or is retired for a new one. */
  lemma {:induction false} DecisionIs(kernel: Kernel, bill: Bill, verdict: Verdict)
    ensures var (after, decision) := Decide(verdict)(kernel, bill);
            var decided := Stands(kernel, bill, Waiting) && !UnderWay(kernel, bill.checkout);
            && (decision == Duplicate <==> UnderWay(kernel, bill.checkout))
            && (decision == Allowed <==> decided && verdict == Admit)
            && (!decided ==> after == kernel)
            && after.attempts == kernel.attempts + (if decision == Allowed then [Attempt(bill, true)] else [])
            && (decided ==>
                  OnlyMoved(kernel, after, bill.checkout, bill.version,
                            if verdict == Admit then Paying else if verdict == Deny(None) then Approved else Retired,
                            if verdict == Admit then None else verdict.successor))
  {
    AttemptsAre(kernel, bill.checkout);
  }

  /** How the kernel moves by itself. An attempt ends once, and takes its version along if that is
      still being paid for; a checkout lapses at its last version; and a new version comes only
      where nothing is under way and the last was not paid. */
  lemma {:induction false} AttemptEndsIs(kernel: Kernel, i: nat, paid: bool)
    ensures var after := EvolveKernel(kernel, AttemptEnds(i, paid));
            if i >= |kernel.attempts| || !kernel.attempts[i].live then after == kernel
            else
              var bill := kernel.attempts[i].bill;
              && after.attempts == kernel.attempts[i := Attempt(bill, false)]
              && if Stands(kernel, bill, Paying)
                 then OnlyMoved(kernel, after, bill.checkout, bill.version, if paid then Paid else Failed, None)
                 else after.checkouts == kernel.checkouts
  {
  }

  lemma {:induction false} LapseIs(kernel: Kernel, c: nat)
    ensures var after := EvolveKernel(kernel, Lapse(c));
            && after.attempts == kernel.attempts
            && if c < |kernel.checkouts| && kernel.checkouts[c] != []
               then OnlyMoved(kernel, after, c, |kernel.checkouts[c]| - 1, Retired, None)
               else after == kernel
  {
  }

  lemma {:induction false} SupersedeIs(kernel: Kernel, c: nat, contentHash: nat)
    ensures var after := EvolveKernel(kernel, Supersede(c, contentHash));
            && after.attempts == kernel.attempts
            && if c < |kernel.checkouts| && kernel.checkouts[c] != [] && !UnderWay(kernel, c)
                  && kernel.checkouts[c][|kernel.checkouts[c]| - 1].stage != Paid
               then OnlyMoved(kernel, after, c, |kernel.checkouts[c]| - 1, Retired, Some(contentHash))
               else after == kernel
  {
    AttemptsAre(kernel, c);
  }

  /** A bill is reviewed into a checkout of its own, and nothing the client does moves the kernel
      except an approval that arrives. */
  lemma {:induction false} OthersMoveNothing(s: System, e: Event)
    requires e.Review? || e.Approve? || e.Finish? || e.Reload?
    ensures var was, now := s.backend.state, Next(s, e).backend.state;
            && now.attempts == was.attempts
            && now.checkouts == was.checkouts + (if e.Review? then [[Version(e.contentHash, Waiting)]] else [])
    ensures Next(s, e).backend.records == s.backend.records
  {
  }

  // ---------------------------------------------------------------- an approval arrives

  /** A new key that gets through: a payment under way, or an approval that stands, makes it a
      duplicate, a version that waits is decided, and anything else is refused. Only what was
      decided while it waited, or found a payment under way, is recorded. */
  lemma {:induction false} NewKeyIs(b: Backend, key: nat, bill: Bill, verdict: Verdict)
    requires key !in b.records
    ensures var (after, outcome) := Deliver(b, key, bill, HEARD, verdict);
            var live := UnderWay(b.state, bill.checkout);
            && outcome == (if live || Stands(b.state, bill, Approved) then Answered(Duplicate)
                           else if !Stands(b.state, bill, Waiting) then Refused
                           else Answered(if verdict == Admit then Allowed else Denied))
            && (if live || Stands(b.state, bill, Waiting)
                then after.records == b.records[key := Record(bill, outcome.answer)]
                else after.records == b.records)
            && after.state == Decide(verdict)(b.state, bill).0
  {
    AttemptsAre(b.state, bill.checkout);
  }

  /** A used key brings its decision back, and a request that does not get through is not heard. */
  lemma {:induction false} OtherDeliveriesAre(b: Backend, key: nat, bill: Bill, link: Link, verdict: Verdict)
    ensures key in b.records ==>
              var (after, outcome) := Deliver(b, key, bill, HEARD, verdict);
              && after == b
              && outcome == (if b.records[key].request == bill then Answered(b.records[key].answer) else Refused)
    ensures !link.reaches || link.barred || (link.refuses && key !in b.records) ==>
              var (after, outcome) := Deliver(b, key, bill, link, verdict);
              after == b && outcome == (if link.reaches && link.answers then Refused else Unknown)
    ensures !link.answers ==> Deliver(b, key, bill, link, verdict).1 == Unknown
    ensures Deliver(b, key, bill, link, verdict).0 == b
            || Deliver(b, key, bill, link, verdict).0 == Deliver(b, key, bill, HEARD, verdict).0
  {
  }

  // ---------------------------------------------------------------- the client

  /** Nothing is sent while an approval is in flight. Otherwise what is sent is what was stored for
      exactly this bill and can be read, or has a key never used before; and it is stored first,
      if storage takes it. */
  lemma {:induction false} SendingIs(s: System, bill: Bill, canRead: bool, canWrite: bool)
    ensures var t := Next(s, Approve(bill, canRead, canWrite));
            if s.inFlight.Some? then t == s
            else
              var again := canRead && s.storage.Some? && s.storage.value.bill == bill;
              && t.inFlight == Some(Pending(bill, if again then s.storage.value.key else s.minted))
              && t.storage == (if canWrite then t.inFlight else s.storage)
              && (!again ==> t.minted == s.minted + 1)
              && (again && s.storage.value.key < s.minted ==> t.minted == s.minted)
              && t.sent == s.sent[t.inFlight.value.key := bill] && t.result == s.result && t.backend == s.backend
  {
  }

  /** What an answer comes to. An approval, or a duplicate of a checkout that has an attempt, goes
      on and writes the keys again; a denial, and a duplicate of a checkout without one, remove
      them; anything not understood leaves them. */
  ghost predicate Concluded(s: System, t: System, p: Pending, outcome: Outcome<Decision>, readable: bool,
                            canWrite: bool)
  {
    var begun := Attempted(t.backend.state, p.bill.checkout);
    && t.inFlight.None? && t.minted == s.minted && t.sent == s.sent
    && t.result == Some(if outcome == Answered(Allowed) || (outcome == Answered(Duplicate) && readable && begun)
                        then Continue(p.bill)
                        else if outcome == Answered(Duplicate) && readable then StartedNoPayment(p.bill)
                        else if outcome == Answered(Denied) then KernelRefusal
                        else Fault)
    && t.storage == (if !canWrite then s.storage
                     else if t.result == Some(Continue(p.bill)) then Some(p)
                     else if t.result == Some(Fault) then s.storage
                     else None)
  }

  lemma {:induction false} AnswerIs(s: System, link: Link, verdict: Verdict, readable: bool, canWrite: bool)
    ensures var t := Next(s, Arrive(link, verdict, readable, canWrite));
            if s.inFlight.None? then t == s
            else
              var p := s.inFlight.value;
              var (after, outcome) := Deliver(s.backend, p.key, p.bill, link, verdict);
              t.backend == after && Concluded(s, t, p, outcome, readable, canWrite)
  {
    var t := Next(s, Arrive(link, verdict, readable, canWrite));
    if s.inFlight.Some? {
      AttemptsAre(t.backend.state, s.inFlight.value.bill.checkout);
    }
  }

  /** The keys go when the wait for a settlement ends, and survive a reload. */
  lemma {:induction false} EndingIs(s: System, canWrite: bool)
    ensures s.inFlight.Some? ==> Next(s, Finish(canWrite)) == s && Next(s, Reload) == s
    ensures s.inFlight.None? ==> Next(s, Finish(canWrite)) == s.(storage := if canWrite then None else s.storage)
    ensures s.inFlight.None? ==> Next(s, Reload) == s.(result := None)
  {
  }

  /** A bill sent under a new key, heard and answered: what the buyer is shown, and whether the key
      is kept, follows from where the version stands and which payments there are. */
  lemma {:induction false} NewApprovalIs(s: System, bill: Bill, verdict: Verdict)
    requires FreshFor(s, bill)
    ensures var t, kernel := RunAll(s, Sending(bill, verdict)), s.backend.state;
            && t.inFlight.None? && t.backend.state == Decide(verdict)(kernel, bill).0
            && t.result == Some(
                 if UnderWay(kernel, bill.checkout) then Continue(bill)
                 else if Stands(kernel, bill, Approved)
                   then if Attempted(kernel, bill.checkout) then Continue(bill) else StartedNoPayment(bill)
                 else if !Stands(kernel, bill, Waiting) then Fault
                 else if verdict == Admit then Continue(bill) else KernelRefusal)
            && (t.storage.Some? <==> t.result.value.Continue? || t.result.value.Fault?)
            && (t.storage.Some? ==> t.storage.value == Pending(bill, s.minted))
  {
    SendingAnew(s, bill, verdict);
    assert s.minted !in s.backend.records;
    NewKeyIs(s.backend, s.minted, bill, verdict);
    DecisionIs(s.backend.state, bill, verdict);
    var kernel := s.backend.state;
    AttemptsAre(Decide(verdict)(kernel, bill).0, bill.checkout);
    if UnderWay(kernel, bill.checkout) {
      assert Attempted(kernel, bill.checkout);
    }
  }
}
