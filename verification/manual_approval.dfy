/** Approving a bill for manual payment: the stored retry keys, and what a duplicate means. */
module ManualApproval {
  import opened Common
  import opened Runs
  import opened Idempotency

  datatype Bill = Bill(checkout: nat, version: nat, contentHash: nat)

  datatype Pending = Pending(bill: Bill, key: nat)

  // ---------------------------------------------------------------- the kernel

  /** Where a version of a checkout stands: waiting for approval, approved with its admission
      refused, being paid for, and so on; retired when it was superseded, cancelled or expired. */
  datatype Stage = Waiting | Approved | Paying | Failed | Paid | Retired

  datatype Version = Version(contentHash: nat, stage: Stage)

  /** A payment attempt; it is live until the payment is settled one way or the other. */
  datatype Attempt = Attempt(bill: Bill, live: bool)

  /** The versions of each checkout, and all attempts in the order they were made. */
  datatype Kernel = Kernel(checkouts: seq<seq<Version>>, attempts: seq<Attempt>)

  function StageOf(kernel: Kernel, bill: Bill): Option<Stage> {
    if bill.checkout < |kernel.checkouts| && bill.version < |kernel.checkouts[bill.checkout]|
       && kernel.checkouts[bill.checkout][bill.version].contentHash == bill.contentHash
    then Some(kernel.checkouts[bill.checkout][bill.version].stage) else None
  }

  /** What the client reads: any attempt of the checkout, whichever version it was for. */
  predicate AttemptOn(kernel: Kernel, checkout: nat) { exists a <- kernel.attempts :: a.bill.checkout == checkout }

  predicate LiveOn(kernel: Kernel, checkout: nat) {
    exists a <- kernel.attempts :: a.bill.checkout == checkout && a.live
  }

  predicate HasAttempt(kernel: Kernel, bill: Bill) { exists a <- kernel.attempts :: a.bill == bill }

  /** What the kernel decides about a version that waits for approval. A refused admission leaves
      the approval behind it, or retires the version for a new one that waits in its place. */
  datatype Verdict = Admit | Deny(successor: Option<nat>)

  datatype Decision = Allowed | Duplicate | Denied

  function SetStage(kernel: Kernel, bill: Bill, stage: Stage): (r: Kernel)
    requires bill.checkout < |kernel.checkouts| && bill.version < |kernel.checkouts[bill.checkout]|
    ensures |r.checkouts| == |kernel.checkouts| && r.attempts == kernel.attempts
  {
    var versions := kernel.checkouts[bill.checkout];
    var moved := versions[bill.version := versions[bill.version].(stage := stage)];
    kernel.(checkouts := kernel.checkouts[bill.checkout := moved])
  }

  function AddVersion(kernel: Kernel, checkout: nat, contentHash: nat): Kernel
    requires checkout < |kernel.checkouts|
  {
    var versions := kernel.checkouts[checkout] + [Version(contentHash, Waiting)];
    kernel.(checkouts := kernel.checkouts[checkout := versions])
  }

  /** Approving and admitting: a live attempt on the checkout, whichever version it is for, makes
      any further approval a duplicate. */
  function Decide(verdict: Verdict): (Kernel, Bill) -> (Kernel, Decision) {
    (kernel: Kernel, bill: Bill) =>
      if LiveOn(kernel, bill.checkout) then (kernel, Duplicate)
      else if StageOf(kernel, bill) != Some(Waiting) then (kernel, Denied)
      else match verdict
        case Admit =>
          (SetStage(kernel, bill, Paying).(attempts := kernel.attempts + [Attempt(bill, true)]), Allowed)
        case Deny(None) => (SetStage(kernel, bill, Approved), Denied)
        case Deny(Some(contentHash)) =>
          (AddVersion(SetStage(kernel, bill, Retired), bill.checkout, contentHash), Denied)
  }

  /** The approval is there and nothing is being paid: answered as a duplicate by an error that
      rolls the key's claim back. */
  predicate AlreadyApproved(kernel: Kernel, bill: Bill) {
    !LiveOn(kernel, bill.checkout) && StageOf(kernel, bill) == Some(Approved)
  }

  /** A version that does not wait for approval is refused. */
  predicate Refuses(kernel: Kernel, bill: Bill) {
    !LiveOn(kernel, bill.checkout) && StageOf(kernel, bill) != Some(Waiting)
  }

  type Backend = Server<nat, Bill, Decision, Kernel>

  function Deliver(b: Backend, key: nat, bill: Bill, link: Link, verdict: Verdict): (Backend, Outcome<Decision>) {
    if key !in b.records && AlreadyApproved(b.state, bill) && link.reaches && !link.barred && !link.refuses
    then (b, if link.answers then Answered(Duplicate) else Unknown)
    else Send(b, key, bill, link.(refuses := link.refuses || Refuses(b.state, bill)), Decide(verdict))
  }

  // ---------------------------------------------------------------- the client

  datatype Result = Continue(bill: Bill) | StartedNoPayment(bill: Bill) | KernelRefusal | Fault

  /** The tab's storage, the keys minted, the approval in flight, what the last one came to, the
      backend, and a history: the bill each key went out for. */
  datatype System = System(storage: Option<Pending>, minted: nat, inFlight: Option<Pending>, result: Option<Result>,
                           backend: Backend, sent: map<nat, Bill>)

  /** Beside approving and its answer: the end of the wait for a settlement and a reload; and at
      the backend, a new checkout, an attempt that ends, a checkout that is cancelled or expires,
      and one whose cart was opened again and reviewed anew. */
  datatype Event =
    | Approve(bill: Bill, canRead: bool, canWrite: bool)
    | Arrive(link: Link, verdict: Verdict, readable: bool, canWrite: bool)
    | Finish(canWrite: bool)
    | Reload
    | Review(contentHash: nat)
    | AttemptEnds(attempt: nat, paid: bool)
    | Lapse(checkout: nat)
    | Supersede(checkout: nat, contentHash: nat)

  /** `pendingFor`: the stored keys if they are for exactly this bill, else new ones. */
  function PendingFor(s: System, bill: Bill, canRead: bool): Pending {
    if canRead && s.storage.Some? && s.storage.value.bill == bill then s.storage.value else Pending(bill, s.minted)
  }

  /** The keys are stored before the request goes out; a storage that refuses is ignored. */
  function ApproveNext(s: System, bill: Bill, canRead: bool, canWrite: bool): System {
    if s.inFlight.Some? then s
    else
      var p := PendingFor(s, bill, canRead);
      s.(minted := if p.key == s.minted then s.minted + 1 else s.minted,
         storage := if canWrite then Some(p) else s.storage, inFlight := Some(p), sent := s.sent[p.key := bill])
  }

  /** What `approve` makes of an answer; `readable` is whether the checkout can be read. */
  function ResultOf(kernel: Kernel, bill: Bill, outcome: Outcome<Decision>, readable: bool): Result {
    match outcome
    case Answered(Allowed) => Continue(bill)
    case Answered(Duplicate) =>
      if !readable then Fault
      else if AttemptOn(kernel, bill.checkout) then Continue(bill) else StartedNoPayment(bill)
    case Answered(Denied) => KernelRefusal
    case Refused => Fault
    case Unknown => Fault
  }

  /** An approval to go on with is written again; a refusal, and an approval that came to nothing,
      remove the keys; a fault keeps them. */
  function ArriveNext(s: System, link: Link, verdict: Verdict, readable: bool, canWrite: bool): System {
    if s.inFlight.None? then s
    else
      var p := s.inFlight.value;
      var (backend, outcome) := Deliver(s.backend, p.key, p.bill, link, verdict);
      var result := ResultOf(backend.state, p.bill, outcome, readable);
      s.(backend := backend, inFlight := None, result := Some(result),
         storage := if result.Fault? || !canWrite then s.storage else if result.Continue? then s.inFlight else None)
  }

  function EvolveKernel(kernel: Kernel, e: Event): Kernel {
    match e
    case Review(contentHash) => kernel.(checkouts := kernel.checkouts + [[Version(contentHash, Waiting)]])
    case AttemptEnds(i, paid) =>
      if i >= |kernel.attempts| || !kernel.attempts[i].live then kernel
      else
        var bill := kernel.attempts[i].bill;
        var ended := kernel.(attempts := kernel.attempts[i := Attempt(bill, false)]);
        if StageOf(kernel, bill) != Some(Paying) then ended else SetStage(ended, bill, if paid then Paid else Failed)
    case Lapse(c) =>
      if c >= |kernel.checkouts| || kernel.checkouts[c] == [] then kernel
      else SetStage(kernel, Latest(kernel, c), Retired)
    case Supersede(c, contentHash) =>
      if c >= |kernel.checkouts| || kernel.checkouts[c] == [] || LiveOn(kernel, c)
         || StageOf(kernel, Latest(kernel, c)) == Some(Paid) then kernel
      else AddVersion(SetStage(kernel, Latest(kernel, c), Retired), c, contentHash)
    case _ => kernel
  }

  /** The current version of a checkout. */
  function Latest(kernel: Kernel, checkout: nat): Bill
    requires checkout < |kernel.checkouts| && kernel.checkouts[checkout] != []
  {
    var versions := kernel.checkouts[checkout];
    Bill(checkout, |versions| - 1, versions[|versions| - 1].contentHash)
  }

  function Next(s: System, e: Event): System {
    match e
    case Approve(bill, canRead, canWrite) => ApproveNext(s, bill, canRead, canWrite)
    case Arrive(link, verdict, readable, canWrite) => ArriveNext(s, link, verdict, readable, canWrite)
    case Finish(canWrite) => if s.inFlight.Some? || !canWrite then s else s.(storage := None)
    case Reload => if s.inFlight.Some? then s else s.(result := None)
    case _ => s.(backend := s.backend.(state := EvolveKernel(s.backend.state, e)))
  }

  function RunAll(s: System, events: seq<Event>): System { RunOf(Next, s, events) }

  const START := System(None, 0, None, None, Server(map[], Kernel([], []), []), map[])

  // ---------------------------------------------------------------- invariants

  /** Versions before the current one are retired; attempts are for versions that left approval
      behind, at most one for each; and a live one is for the current version. */
  ghost predicate KernelOk(kernel: Kernel) {
    && (forall c, v :: 0 <= c < |kernel.checkouts| && 0 <= v < |kernel.checkouts[c]| - 1 ==>
          kernel.checkouts[c][v].stage == Retired)
    && (forall i, j :: 0 <= i < j < |kernel.attempts| ==> kernel.attempts[i].bill != kernel.attempts[j].bill)
    && (forall a <- kernel.attempts :: AttemptOk(kernel, a))
  }

  ghost predicate AttemptOk(kernel: Kernel, a: Attempt) {
    && StageOf(kernel, a.bill) in {Some(Paying), Some(Failed), Some(Paid), Some(Retired)}
    && (a.live ==> a.bill.version == |kernel.checkouts[a.bill.checkout]| - 1)
  }

  /** The key went out for this bill. */
  ghost predicate Known(s: System, p: Pending) { p.key in s.sent && s.sent[p.key] == p.bill }

  /** Each version is attempted at most once, what is recorded is about the bill the key went out
      for and has its attempt, and so has what was shown. */
  ghost predicate Inv(s: System) {
    && KernelOk(s.backend.state)
    && (forall k <- s.sent :: k < s.minted)
    && (forall k <- s.backend.records :: k in s.sent && s.sent[k] == s.backend.records[k].request)
    && (forall k <- s.backend.records :: Justified(s.backend.state, s.backend.records[k]))
    && (s.storage.Some? ==> Known(s, s.storage.value))
    && (s.inFlight.Some? ==> Known(s, s.inFlight.value))
    && (s.result.Some? ==> Shown(s.backend.state, s.result.value))
  }

  /** A recorded permission has its attempt, a recorded duplicate one on its checkout. */
  ghost predicate Justified(kernel: Kernel, record: Record<Bill, Decision>) {
    && (record.answer.Allowed? ==> HasAttempt(kernel, record.request))
    && (record.answer.Duplicate? ==> AttemptOn(kernel, record.request.checkout))
  }

  /** The buyer goes on only where the checkout has an attempt, and is told that no payment started
      only of a version that was approved and has none. */
  ghost predicate Shown(kernel: Kernel, result: Result) {
    && (result.Continue? ==> AttemptOn(kernel, result.bill.checkout))
    && (result.StartedNoPayment? ==> Closed(kernel, result.bill))
  }

  ghost predicate Closed(kernel: Kernel, bill: Bill) {
    StageOf(kernel, bill) in {Some(Approved), Some(Retired)} && !HasAttempt(kernel, bill)
  }

  /** Attempts are never dropped, and a version without one that is past approval gets none. */
  ghost predicate Grows(before: Kernel, after: Kernel) {
    && (forall c: nat :: AttemptOn(before, c) ==> AttemptOn(after, c))
    && (forall bill: Bill :: HasAttempt(before, bill) ==> HasAttempt(after, bill))
    && (forall bill: Bill :: Closed(before, bill) ==> Closed(after, bill))
  }

  lemma {:induction false} SetStageKeepsOk(kernel: Kernel, bill: Bill, stage: Stage)
    requires KernelOk(kernel) && StageOf(kernel, bill).Some?
    requires bill.version == |kernel.checkouts[bill.checkout]| - 1 || stage == Retired
    requires HasAttempt(kernel, bill) ==> stage !in {Waiting, Approved}
    ensures KernelOk(SetStage(kernel, bill, stage))
  {
    var after := SetStage(kernel, bill, stage);
    forall a | a in after.attempts ensures AttemptOk(after, a) {
      assert AttemptOk(kernel, a);
    }
  }

  lemma {:induction false} SetStageGrows(kernel: Kernel, bill: Bill, stage: Stage)
    requires StageOf(kernel, bill).Some?
    requires stage == Retired || StageOf(kernel, bill) !in {Some(Approved), Some(Retired)}
    ensures Grows(kernel, SetStage(kernel, bill, stage))
  {
  }

  lemma {:induction false} AddVersionKeepsOk(kernel: Kernel, c: nat, contentHash: nat)
    requires KernelOk(kernel) && c < |kernel.checkouts| && !LiveOn(kernel, c)
    requires forall v :: 0 <= v < |kernel.checkouts[c]| ==> kernel.checkouts[c][v].stage == Retired
    ensures KernelOk(AddVersion(kernel, c, contentHash)) && Grows(kernel, AddVersion(kernel, c, contentHash))
  {
    var after := AddVersion(kernel, c, contentHash);
    forall a | a in after.attempts ensures AttemptOk(after, a) {
      assert AttemptOk(kernel, a);
    }
  }

  lemma {:induction false} RetireAndReplace(kernel: Kernel, bill: Bill, contentHash: nat)
    requires KernelOk(kernel) && StageOf(kernel, bill).Some? && !LiveOn(kernel, bill.checkout)
    requires bill.version == |kernel.checkouts[bill.checkout]| - 1
    ensures var after := AddVersion(SetStage(kernel, bill, Retired), bill.checkout, contentHash);
            KernelOk(after) && Grows(kernel, after)
  {
    SetStageKeepsOk(kernel, bill, Retired);
    SetStageGrows(kernel, bill, Retired);
    AddVersionKeepsOk(SetStage(kernel, bill, Retired), bill.checkout, contentHash);
  }

  /** A version that waits or is approved is the current one and has no attempt. */
  lemma {:induction false} WaitingIsCurrent(kernel: Kernel, bill: Bill)
    requires KernelOk(kernel) && StageOf(kernel, bill) in {Some(Waiting), Some(Approved)}
    ensures bill.version == |kernel.checkouts[bill.checkout]| - 1 && !HasAttempt(kernel, bill)
  {
    forall a | a in kernel.attempts ensures a.bill != bill {
      assert AttemptOk(kernel, a);
    }
  }

  lemma {:induction false} AdmitKeepsOk(kernel: Kernel, bill: Bill)
    requires KernelOk(kernel) && StageOf(kernel, bill) == Some(Waiting) && !LiveOn(kernel, bill.checkout)
    ensures var after := Decide(Admit)(kernel, bill).0;
            KernelOk(after) && Grows(kernel, after) && HasAttempt(after, bill) && AttemptOn(after, bill.checkout)
  {
    WaitingIsCurrent(kernel, bill);
    SetStageKeepsOk(kernel, bill, Paying);
    SetStageGrows(kernel, bill, Paying);
    var moved, after := SetStage(kernel, bill, Paying), Decide(Admit)(kernel, bill).0;
    assert after.attempts[|kernel.attempts|] == Attempt(bill, true);
    assert forall i :: 0 <= i < |kernel.attempts| ==>
             after.attempts[i] == kernel.attempts[i] && kernel.attempts[i].bill != bill;
    forall a | a in after.attempts ensures AttemptOk(after, a) {
      if a != Attempt(bill, true) {
        assert AttemptOk(moved, a);
      }
    }
  }

  lemma {:induction false} DecideKeepsOk(kernel: Kernel, bill: Bill, verdict: Verdict)
    requires KernelOk(kernel) && !Refuses(kernel, bill)
    ensures var (after, decision) := Decide(verdict)(kernel, bill);
            KernelOk(after) && Grows(kernel, after) && Justified(after, Record(bill, decision))
  {
    if !LiveOn(kernel, bill.checkout) {
      WaitingIsCurrent(kernel, bill);
      match verdict
      case Admit => AdmitKeepsOk(kernel, bill);
      case Deny(None) =>
        SetStageKeepsOk(kernel, bill, Approved);
        SetStageGrows(kernel, bill, Approved);
      case Deny(Some(contentHash)) => RetireAndReplace(kernel, bill, contentHash);
    }
  }

  lemma {:induction false} AttemptEndsOk(kernel: Kernel, i: nat, paid: bool)
    requires KernelOk(kernel) && i < |kernel.attempts| && kernel.attempts[i].live
    ensures var after := EvolveKernel(kernel, AttemptEnds(i, paid)); KernelOk(after) && Grows(kernel, after)
  {
    var bill := kernel.attempts[i].bill;
    var ended := kernel.(attempts := kernel.attempts[i := Attempt(bill, false)]);
    assert kernel.attempts[i] in kernel.attempts && AttemptOk(kernel, kernel.attempts[i]);
    assert forall j :: 0 <= j < |kernel.attempts| ==> ended.attempts[j].bill == kernel.attempts[j].bill;
    EndedGrows(kernel, ended);
    forall a | a in ended.attempts ensures AttemptOk(ended, a) {
      var j :| 0 <= j < |ended.attempts| && ended.attempts[j] == a;
      assert kernel.attempts[j] in kernel.attempts && AttemptOk(kernel, kernel.attempts[j]);
    }
    if StageOf(kernel, bill) == Some(Paying) {
      SetStageKeepsOk(ended, bill, if paid then Paid else Failed);
      SetStageGrows(ended, bill, if paid then Paid else Failed);
    }
  }

  /** The attempts of `after` are those of `before`, some of them ended. */
  ghost predicate SameBills(before: Kernel, after: Kernel) {
    && |after.attempts| == |before.attempts|
    && (forall j :: 0 <= j < |before.attempts| ==> after.attempts[j].bill == before.attempts[j].bill)
  }

  lemma {:induction false} SameBillsKeep(before: Kernel, after: Kernel, bill: Bill)
    requires SameBills(before, after)
    ensures HasAttempt(before, bill) ==> HasAttempt(after, bill)
    ensures AttemptOn(before, bill.checkout) ==> AttemptOn(after, bill.checkout)
  {
    if a :| a in before.attempts && a.bill == bill {
      var j :| 0 <= j < |before.attempts| && before.attempts[j] == a;
      assert after.attempts[j] in after.attempts;
    }
    if a :| a in before.attempts && a.bill.checkout == bill.checkout {
      var j :| 0 <= j < |before.attempts| && before.attempts[j] == a;
      assert after.attempts[j] in after.attempts;
    }
  }

  lemma {:induction false} EndedGrows(before: Kernel, after: Kernel)
    requires after.checkouts == before.checkouts && SameBills(before, after)
    ensures Grows(before, after)
  {
    forall c: nat | AttemptOn(before, c) ensures AttemptOn(after, c) {
      SameBillsKeep(before, after, Bill(c, 0, 0));
    }
    forall bill: Bill | HasAttempt(before, bill) ensures HasAttempt(after, bill) {
      SameBillsKeep(before, after, bill);
    }
    forall bill: Bill | Closed(before, bill) ensures Closed(after, bill) {
      assert StageOf(after, bill) == StageOf(before, bill);
      SameBillsKeep(after, before, bill);
    }
  }

  lemma {:induction false} ReviewOk(kernel: Kernel, contentHash: nat)
    requires KernelOk(kernel)
    ensures var after := EvolveKernel(kernel, Review(contentHash)); KernelOk(after) && Grows(kernel, after)
  {
    var after := EvolveKernel(kernel, Review(contentHash));
    forall a | a in after.attempts ensures AttemptOk(after, a) {
      assert AttemptOk(kernel, a);
    }
  }

  lemma {:induction false} EvolveKeepsOk(kernel: Kernel, e: Event)
    requires KernelOk(kernel)
    ensures KernelOk(EvolveKernel(kernel, e)) && Grows(kernel, EvolveKernel(kernel, e))
  {
    match e
    case Review(contentHash) => ReviewOk(kernel, contentHash);
    case AttemptEnds(i, paid) =>
      if i < |kernel.attempts| && kernel.attempts[i].live {
        AttemptEndsOk(kernel, i, paid);
      }
    case Lapse(c) =>
      if c < |kernel.checkouts| && kernel.checkouts[c] != [] {
        SetStageKeepsOk(kernel, Latest(kernel, c), Retired);
        SetStageGrows(kernel, Latest(kernel, c), Retired);
      }
    case Supersede(c, contentHash) =>
      if EvolveKernel(kernel, e) != kernel {
        RetireAndReplace(kernel, Latest(kernel, c), contentHash);
      }
    case _ =>
  }

  /** A delivery: nothing, or one decision under its unused key. */
  lemma {:induction false} DeliverKeepsOk(b: Backend, key: nat, bill: Bill, link: Link, verdict: Verdict)
    requires KernelOk(b.state) && (forall k <- b.records :: Justified(b.state, b.records[k]))
    requires key in b.records ==> b.records[key].request == bill
    ensures var (after, outcome) := Deliver(b, key, bill, link, verdict);
            && KernelOk(after.state) && Grows(b.state, after.state)
            && (after.records == b.records ||
                exists d :: after.records == b.records[key := Record(bill, d)]
                            && Justified(after.state, Record(bill, d)))
            && (outcome.Answered? ==> AnswerOk(after.state, bill, outcome.answer))
  {
    if key !in b.records && !Refuses(b.state, bill) {
      DecideKeepsOk(b.state, bill, verdict);
      var d := Decide(verdict)(b.state, bill).1;
      var after := Deliver(b, key, bill, link, verdict).0;
      assert after == b || after.records == b.records[key := Record(bill, d)];
    }
  }

  /** What an answer says of the kernel. */
  ghost predicate AnswerOk(kernel: Kernel, bill: Bill, answer: Decision) {
    && (answer.Allowed? ==> HasAttempt(kernel, bill))
    && (answer.Duplicate? ==> AttemptOn(kernel, bill.checkout) || AlreadyApproved(kernel, bill))
  }

  lemma {:induction false} AttemptIsOnCheckout(kernel: Kernel, bill: Bill)
    requires HasAttempt(kernel, bill)
    ensures AttemptOn(kernel, bill.checkout)
  {
  }

  lemma {:induction false} ResultIsShown(kernel: Kernel, bill: Bill, outcome: Outcome<Decision>, readable: bool)
    requires outcome.Answered? ==> AnswerOk(kernel, bill, outcome.answer)
    ensures Shown(kernel, ResultOf(kernel, bill, outcome, readable))
  {
    if HasAttempt(kernel, bill) {
      AttemptIsOnCheckout(kernel, bill);
    }
  }

  lemma {:induction false} DeliveryKeepsInv(s: System, p: Pending, link: Link, verdict: Verdict)
    requires Inv(s) && Known(s, p)
    ensures var (after, outcome) := Deliver(s.backend, p.key, p.bill, link, verdict);
            Inv(s.(backend := after)) && (outcome.Answered? ==> AnswerOk(after.state, p.bill, outcome.answer))
  {
    DeliverKeepsOk(s.backend, p.key, p.bill, link, verdict);
  }

  lemma {:induction false} ConclusionKeepsInv(s: System, result: Result, storage: Option<Pending>)
    requires Inv(s) && Shown(s.backend.state, result) && (storage.Some? ==> Known(s, storage.value))
    ensures Inv(s.(inFlight := None, result := Some(result), storage := storage))
  {
  }

  lemma {:induction false} ArriveKeepsInv(s: System, e: Event)
    requires Inv(s) && e.Arrive?
    ensures Inv(Next(s, e))
  {
    if s.inFlight.Some? {
      var p := s.inFlight.value;
      DeliveryKeepsInv(s, p, e.link, e.verdict);
      var (after, outcome) := Deliver(s.backend, p.key, p.bill, e.link, e.verdict);
      ResultIsShown(after.state, p.bill, outcome, e.readable);
      var t := Next(s, e);
      ConclusionKeepsInv(s.(backend := after), t.result.value, t.storage);
    }
  }

  lemma {:induction false} EvolveKeepsInv(s: System, e: Event)
    requires Inv(s)
    ensures Inv(s.(backend := s.backend.(state := EvolveKernel(s.backend.state, e))))
  {
    EvolveKeepsOk(s.backend.state, e);
  }

  lemma {:induction false} NextKeepsInv(s: System, e: Event)
    requires Inv(s)
    ensures Inv(Next(s, e))
  {
    match e
    case Arrive(_, _, _, _) => ArriveKeepsInv(s, e);
    case Approve(_, _, _) =>
    case Finish(_) =>
    case Reload =>
    case _ => EvolveKeepsInv(s, e);
  }

  lemma {:induction false} RunKeepsInv(events: seq<Event>)
    ensures Inv(RunAll(START, events))
  {
    if events != [] {
      RunKeepsInv(events[..|events| - 1]);
      NextKeepsInv(RunAll(START, events[..|events| - 1]), events[|events| - 1]);
    }
  }

  // ---------------------------------------------------------------- the keys

  /** What a step writes to storage. */
  function Saved(s: System, e: Event): Option<Pending> {
    match e
    case Approve(bill, canRead, canWrite) =>
      if s.inFlight.None? && canWrite then Some(PendingFor(s, bill, canRead)) else None
    case Arrive(_, _, _, canWrite) =>
      if s.inFlight.Some? && canWrite && Next(s, e).result.value.Continue? then s.inFlight else None
    case _ => None
  }

  /** The step removes what is stored: the payment settled, it was refused, or none was started. */
  predicate Clears(s: System, e: Event) {
    match e
    case Finish(canWrite) => s.inFlight.None? && canWrite
    case Arrive(_, _, _, canWrite) =>
      && s.inFlight.Some? && canWrite
      && (Next(s, e).result.value.KernelRefusal? || Next(s, e).result.value.StartedNoPayment?)
    case _ => false
  }

  ghost predicate SavedFor(s: System, e: Event, bill: Bill) { Saved(s, e).Some? && Saved(s, e).value.bill == bill }

  ghost predicate LostFor(s: System, e: Event, bill: Bill) {
    Clears(s, e) || (Saved(s, e).Some? && Saved(s, e).value.bill != bill)
  }

  /** A key of this bill was written, and since then neither were another bill's keys nor were the
      stored ones removed. */
  ghost predicate SavedSince(events: seq<Event>, bill: Bill) {
    exists i :: 0 <= i < |events| && SavedAt(events, i, bill)
  }

  ghost predicate SavedAt(events: seq<Event>, i: nat, bill: Bill)
    requires i < |events|
  {
    && SavedFor(RunAll(START, events[..i]), events[i], bill)
    && forall j :: i < j < |events| ==> !LostFor(RunAll(START, events[..j]), events[j], bill)
  }

  lemma {:induction false} SavedAtStep(before: seq<Event>, e: Event, bill: Bill, i: nat)
    requires i < |before|
    ensures SavedAt(before + [e], i, bill) <==> SavedAt(before, i, bill) && !LostFor(RunAll(START, before), e, bill)
  {
    var events, n := before + [e], |before|;
    assert events[..n] == before && events[n] == e;
    assert forall j :: 0 <= j < n ==> events[j] == before[j] && events[..j] == before[..j];
  }

  lemma {:induction false} SavedSinceStep(before: seq<Event>, e: Event, bill: Bill)
    ensures var s := RunAll(START, before);
            SavedSince(before + [e], bill) <==>
              SavedFor(s, e, bill) || (SavedSince(before, bill) && !LostFor(s, e, bill))
  {
    var events, n := before + [e], |before|;
    assert events[..n] == before && events[n] == e;
    assert SavedAt(events, n, bill) <==> SavedFor(RunAll(START, before), e, bill);
    forall i | 0 <= i < n
      ensures SavedAt(events, i, bill) <==> SavedAt(before, i, bill) && !LostFor(RunAll(START, before), e, bill)
    {
      SavedAtStep(before, e, bill, i);
    }
  }

  lemma {:induction false} StoredStep(s: System, e: Event, bill: Bill)
    ensures var t := Next(s, e);
            t.storage.Some? && t.storage.value.bill == bill <==>
              SavedFor(s, e, bill) || (s.storage.Some? && s.storage.value.bill == bill && !LostFor(s, e, bill))
  {
  }

  lemma {:induction false} StoredIffSavedSince(events: seq<Event>, bill: Bill)
    ensures var s := RunAll(START, events);
            s.storage.Some? && s.storage.value.bill == bill <==> SavedSince(events, bill)
    decreases |events|
  {
    if events != [] {
      var before, e := events[..|events| - 1], events[|events| - 1];
      assert events == before + [e];
      StoredIffSavedSince(before, bill);
      SavedSinceStep(before, e, bill);
      StoredStep(RunAll(START, before), e, bill);
    }
  }

  /** Over any run, with any bills interleaved in one storage slot: approving a bill reuses a key,
      which then is one that went out for exactly this bill, if and only if storage can be read, a
      key of this bill was written, and since then no other bill's was and none were removed. */
  lemma {:induction false} KeyIsReusedIff(events: seq<Event>, bill: Bill, canRead: bool)
    ensures var s := RunAll(START, events); var key := PendingFor(s, bill, canRead).key;
            && (key in s.sent <==> canRead && SavedSince(events, bill))
            && (key in s.sent ==> s.sent[key] == bill)
  {
    RunKeepsInv(events);
    StoredIffSavedSince(events, bill);
  }

  /** A key never goes out for two bills, on any run. */
  lemma {:induction false} KeyIsForOneBill(events: seq<Event>, n: nat)
    requires n <= |events|
    ensures var s, t := RunAll(START, events[..n]), RunAll(START, events);
            forall k <- s.sent :: k in t.sent && t.sent[k] == s.sent[k]
    decreases |events|
  {
    if n == |events| {
      assert events[..n] == events;
    } else {
      var before := events[..|events| - 1];
      assert before[..n] == events[..n];
      KeyIsForOneBill(before, n);
      RunKeepsInv(before);
    }
  }

  const HEARD := Link(true, false, false, true)

  /** What the buyer is shown when this bill is sent under this key, and the kernel after it. */
  function Shows(s: System, key: nat, bill: Bill, verdict: Verdict): (Result, Kernel) {
    var (backend, outcome) := Deliver(s.backend, key, bill, HEARD, verdict);
    (ResultOf(backend.state, bill, outcome, true), backend.state)
  }

  /** A key that was lost after its request was decided does not matter exactly if the decision was
      not a denial, and an attempt on the checkout is still live or the version stands approved:
      then sending the bill again under a new key shows the same and starts nothing. */
  lemma {:induction false} LostKeyIsHarmlessIff(s: System, first: nat, second: nat)
    requires Inv(s) && first in s.backend.records && second !in s.backend.records
    ensures var record, kernel := s.backend.records[first], s.backend.state;
            !record.answer.Denied?
            && (LiveOn(kernel, record.request.checkout) || StageOf(kernel, record.request) == Some(Approved))
            <==> forall verdict :: Shows(s, second, record.request, verdict) == Shows(s, first, record.request, verdict)
  {
    var record, kernel := s.backend.records[first], s.backend.state;
    var bill := record.request;
    if !record.answer.Denied? {
      OldKeyContinues(kernel, record);
    }
    if LiveOn(kernel, bill.checkout) {
      LiveIsAttempt(kernel, bill.checkout);
    }
    forall verdict ensures Shows(s, first, bill, verdict) == (OldShown(record), kernel) {}
    forall verdict ensures Shows(s, second, bill, verdict).0 == NewShown(kernel, bill, verdict) {}
    if LiveOn(kernel, bill.checkout) || StageOf(kernel, bill) == Some(Approved) {
      forall verdict ensures Shows(s, second, bill, verdict).1 == kernel {}
    }
    assert NewShown(kernel, bill, Admit) != KernelRefusal;
    assert Shows(s, second, bill, Deny(None)).0 == NewShown(kernel, bill, Deny(None));
  }

  /** What the key of a recorded decision shows, */
  function OldShown(record: Record<Bill, Decision>): Result {
    if record.answer.Denied? then KernelRefusal else Continue(record.request)
  }

  /** and what a new one does. */
  function NewShown(kernel: Kernel, bill: Bill, verdict: Verdict): Result {
    if LiveOn(kernel, bill.checkout) then Continue(bill)
    else match StageOf(kernel, bill)
      case Some(Approved) => if AttemptOn(kernel, bill.checkout) then Continue(bill) else StartedNoPayment(bill)
      case Some(Waiting) => if verdict.Admit? then Continue(bill) else KernelRefusal
      case _ => Fault
  }

  lemma {:induction false} LiveIsAttempt(kernel: Kernel, checkout: nat)
    requires LiveOn(kernel, checkout)
    ensures AttemptOn(kernel, checkout)
  {
  }

  lemma {:induction false} OldKeyContinues(kernel: Kernel, record: Record<Bill, Decision>)
    requires Justified(kernel, record) && !record.answer.Denied?
    ensures ResultOf(kernel, record.request, Answered(record.answer), true) == Continue(record.request)
    ensures AttemptOn(kernel, record.request.checkout)
  {
    if HasAttempt(kernel, record.request) {
      AttemptIsOnCheckout(kernel, record.request);
    }
  }

  // ---------------------------------------------------------------- what a duplicate means

  /** The buyer goes on with the payment of this very bill, or it has none. */
  ghost predicate Truthful(kernel: Kernel, bill: Bill, result: Result) {
    result == Continue(bill) <==> HasAttempt(kernel, bill)
  }

  /** On any run, what a duplicate makes the client show is true of the bill if and only if the bill
      itself has an attempt or no version of its checkout has one: what is read is the checkout. */
  lemma {:induction false} DuplicateIsTrueIff(events: seq<Event>, link: Link, verdict: Verdict, canWrite: bool)
    requires RunAll(START, events).inFlight.Some?
    requires var s := RunAll(START, events);
             Deliver(s.backend, s.inFlight.value.key, s.inFlight.value.bill, link, verdict).1 == Answered(Duplicate)
    ensures var s := RunAll(START, events); var bill := s.inFlight.value.bill;
            var t := Next(s, Arrive(link, verdict, true, canWrite));
            && t.backend.state == s.backend.state && t.result.Some?
            && (t.result.value == Continue(bill) || t.result.value == StartedNoPayment(bill))
            && (Truthful(t.backend.state, bill, t.result.value) <==>
                  HasAttempt(s.backend.state, bill) || !AttemptOn(s.backend.state, bill.checkout))
  {
    var s := RunAll(START, events);
    RunKeepsInv(events);
    var bill := s.inFlight.value.bill;
    if HasAttempt(s.backend.state, bill) {
      AttemptIsOnCheckout(s.backend.state, bill);
    }
    if s.inFlight.value.key !in s.backend.records && !Refuses(s.backend.state, bill) {
      DuplicateIsLive(s.backend.state, bill, verdict);
    }
  }

  lemma {:induction false} DuplicateIsLive(kernel: Kernel, bill: Bill, verdict: Verdict)
    ensures Decide(verdict)(kernel, bill).1 == Duplicate ==>
              LiveOn(kernel, bill.checkout) && Decide(verdict)(kernel, bill).0 == kernel
  {
  }

  /** The version was approved, its admission refused, and a payment of an earlier version ended. */
  ghost predicate EarlierPaymentEnded(kernel: Kernel, bill: Bill) {
    && StageOf(kernel, bill) == Some(Approved)
    && exists a <- kernel.attempts :: a.bill.checkout == bill.checkout && a.bill.version < bill.version && !a.live
  }

  /** Another version of the checkout is being paid for, and this one never was. */
  ghost predicate AnotherIsPaid(kernel: Kernel, bill: Bill) {
    LiveOn(kernel, bill.checkout) && !HasAttempt(kernel, bill)
  }

  lemma {:induction false} MisledIff(kernel: Kernel, bill: Bill)
    requires KernelOk(kernel) && (LiveOn(kernel, bill.checkout) || AlreadyApproved(kernel, bill))
    ensures !HasAttempt(kernel, bill) && AttemptOn(kernel, bill.checkout) <==>
              EarlierPaymentEnded(kernel, bill) || AnotherIsPaid(kernel, bill)
  {
    if LiveOn(kernel, bill.checkout) {
      LiveIsAttempt(kernel, bill.checkout);
    }
    if StageOf(kernel, bill) == Some(Approved) {
      WaitingIsCurrent(kernel, bill);
      forall a | a in kernel.attempts && a.bill.checkout == bill.checkout ensures a.bill.version < bill.version {
        assert AttemptOk(kernel, a) && a.bill != bill;
      }
    }
  }

  /** On any run, a duplicate under an unused key misleads exactly in two situations: the version was
      approved, its admission refused, and a payment of an earlier version has ended; or another
      version is being paid for and this one never was. */
  lemma {:induction false} DuplicateMisleadsIff(events: seq<Event>, link: Link, verdict: Verdict, canWrite: bool)
    requires var s := RunAll(START, events);
             && s.inFlight.Some? && s.inFlight.value.key !in s.backend.records
             && Deliver(s.backend, s.inFlight.value.key, s.inFlight.value.bill, link, verdict).1 == Answered(Duplicate)
    ensures var s := RunAll(START, events); var bill := s.inFlight.value.bill;
            var t := Next(s, Arrive(link, verdict, true, canWrite));
            t.result.Some? &&
            (!Truthful(t.backend.state, bill, t.result.value) <==>
               EarlierPaymentEnded(s.backend.state, bill) || AnotherIsPaid(s.backend.state, bill))
  {
    var s := RunAll(START, events);
    RunKeepsInv(events);
    DuplicateIsTrueIff(events, link, verdict, canWrite);
    DuplicateNeedsOne(s.backend, s.inFlight.value.key, s.inFlight.value.bill, link, verdict);
    MisledIff(s.backend.state, s.inFlight.value.bill);
  }

  lemma {:induction false} DuplicateNeedsOne(b: Backend, key: nat, bill: Bill, link: Link, verdict: Verdict)
    requires key !in b.records && Deliver(b, key, bill, link, verdict).1 == Answered(Duplicate)
    ensures LiveOn(b.state, bill.checkout) || AlreadyApproved(b.state, bill)
  {
    DuplicateIsLive(b.state, bill, verdict);
  }

  /** Sending a bill and hearing the answer. */
  function Sending(bill: Bill, verdict: Verdict): seq<Event> {
    [Approve(bill, true, true), Arrive(HEARD, verdict, true, true)]
  }

  /** Nothing is in flight, and what is stored is not for this bill. */
  ghost predicate FreshFor(s: System, bill: Bill) {
    && s.inFlight.None? && (s.storage.Some? ==> s.storage.value.bill != bill)
    && forall k <- s.backend.records :: k < s.minted
  }

  lemma {:induction false} SendingAnew(s: System, bill: Bill, verdict: Verdict)
    requires FreshFor(s, bill)
    ensures var t := RunAll(s, Sending(bill, verdict)); var p := Pending(bill, s.minted);
            var (after, outcome) := Deliver(s.backend, p.key, bill, HEARD, verdict);
            var result := ResultOf(after.state, bill, outcome, true);
            && t.inFlight.None? && t.backend == after && t.minted == s.minted + 1 && t.result == Some(result)
            && t.storage == (if result.Fault? || result.Continue? then Some(p) else None)
            && forall k <- after.records :: k < t.minted
  {
    RunOfTwo(Next, s, Approve(bill, true, true), Arrive(HEARD, verdict, true, true));
    var p := Pending(bill, s.minted);
    var u := s.(minted := s.minted + 1, storage := Some(p), inFlight := Some(p), sent := s.sent[p.key := bill]);
    assert Next(s, Approve(bill, true, true)) == u;
  }

  const FIRST := Bill(0, 0, 7)
  const SECOND := Bill(0, 1, 8)
  const NEW := Kernel([[Version(7, Waiting)]], [])
  const PAYING := Kernel([[Version(7, Paying)]], [Attempt(FIRST, true)])
  const FAILED := Kernel([[Version(7, Failed)]], [Attempt(FIRST, false)])
  const REVIEWED := Kernel([[Version(7, Retired), Version(8, Waiting)]], [Attempt(FIRST, false)])
  const REFUSED := Kernel([[Version(7, Retired), Version(8, Approved)]], [Attempt(FIRST, false)])

  /** The kernel's part of the run below. */
  lemma {:induction false} KernelSteps()
    ensures EvolveKernel(Kernel([], []), Review(7)) == NEW
    ensures !AlreadyApproved(NEW, FIRST) && !Refuses(NEW, FIRST) && Decide(Admit)(NEW, FIRST) == (PAYING, Allowed)
    ensures EvolveKernel(PAYING, AttemptEnds(0, false)) == FAILED
    ensures EvolveKernel(FAILED, Supersede(0, 8)) == REVIEWED
    ensures !AlreadyApproved(REVIEWED, SECOND) && !Refuses(REVIEWED, SECOND)
    ensures Decide(Deny(None))(REVIEWED, SECOND) == (REFUSED, Denied)
    ensures AlreadyApproved(REFUSED, SECOND) && AttemptOn(REFUSED, 0) && !HasAttempt(REFUSED, SECOND)
  {
    SetOnly(7, Waiting, Paying, []);
    SetOnly(7, Paying, Failed, [Attempt(FIRST, false)]);
    SetOnly(7, Failed, Retired, [Attempt(FIRST, false)]);
    assert NEW.attempts + [Attempt(FIRST, true)] == PAYING.attempts;
    assert PAYING.attempts[0] == Attempt(FIRST, true);
    assert [Attempt(FIRST, true)][0 := Attempt(FIRST, false)] == FAILED.attempts;
    assert [Version(7, Retired)] + [Version(8, Waiting)] == REVIEWED.checkouts[0];
    assert [[Version(7, Retired)]][0 := REVIEWED.checkouts[0]] == REVIEWED.checkouts;
    assert REVIEWED.checkouts[0][1 := Version(8, Approved)] == REFUSED.checkouts[0];
    assert REVIEWED.checkouts[0 := REFUSED.checkouts[0]] == REFUSED.checkouts;
    assert Attempt(FIRST, false) in REFUSED.attempts;
  }

  lemma {:induction false} SetOnly(contentHash: nat, before: Stage, after: Stage, attempts: seq<Attempt>)
    ensures SetStage(Kernel([[Version(contentHash, before)]], attempts), Bill(0, 0, contentHash), after)
         == Kernel([[Version(contentHash, after)]], attempts)
  {
    assert [Version(contentHash, before)][0 := Version(contentHash, after)] == [Version(contentHash, after)];
    assert [[Version(contentHash, before)]][0 := [Version(contentHash, after)]] == [[Version(contentHash, after)]];
  }

  /** The first bill is admitted and its payment fails; the cart is opened and reviewed again. */
  const FAILING: seq<Event> := [Review(7)] + Sending(FIRST, Admit) + [AttemptEnds(0, false), Supersede(0, 8)]

  lemma {:induction false} FirstFails()
    ensures var s := RunAll(START, FAILING);
            && s.backend.state == REVIEWED && s.inFlight.None? && s.storage == Some(Pending(FIRST, 0))
            && forall k <- s.backend.records :: k < s.minted
  {
    KernelSteps();
    var ends := [AttemptEnds(0, false), Supersede(0, 8)];
    RunAppend(Next, START, [Review(7)], Sending(FIRST, Admit));
    RunAppend(Next, START, [Review(7)] + Sending(FIRST, Admit), ends);
    assert [Review(7)][..0] == [];
    assert RunAll(START, [Review(7)]) == Next(START, Review(7));
    SendingAnew(RunAll(START, [Review(7)]), FIRST, Admit);
    RunOfTwo(Next, RunAll(START, [Review(7)] + Sending(FIRST, Admit)), AttemptEnds(0, false), Supersede(0, 8));
  }

  /** The new version is approved and its admission refused, which removes the keys; the buyer sends
      it again. The client goes on, with the payment of the old version, which failed: the bill has
      no attempt and never gets one. */
  lemma {:induction false} RefusedVersionContinues()
    ensures var s := RunAll(START, FAILING + Sending(SECOND, Deny(None)) + Sending(SECOND, Admit));
            && s.result == Some(Continue(SECOND)) && Closed(s.backend.state, SECOND)
            && forall a <- s.backend.state.attempts :: !a.live
  {
    KernelSteps();
    FirstFails();
    RunAppend(Next, START, FAILING, Sending(SECOND, Deny(None)));
    RunAppend(Next, START, FAILING + Sending(SECOND, Deny(None)), Sending(SECOND, Admit));
    SendingAnew(RunAll(START, FAILING), SECOND, Deny(None));
    SendingAnew(RunAll(START, FAILING + Sending(SECOND, Deny(None))), SECOND, Admit);
  }

  /** A bill that the buyer is told started no payment never starts one, whatever follows. */
  lemma {:induction false} NoPaymentIsFinal(events: seq<Event>, n: nat, bill: Bill)
    requires n <= |events| && RunAll(START, events[..n]).result == Some(StartedNoPayment(bill))
    ensures Closed(RunAll(START, events).backend.state, bill)
    decreases |events|
  {
    RunKeepsInv(events[..n]);
    if n == |events| {
      assert events[..n] == events;
    } else {
      var before, e := events[..|events| - 1], events[|events| - 1];
      assert before[..n] == events[..n];
      NoPaymentIsFinal(before, n, bill);
      RunKeepsInv(before);
      NextGrows(RunAll(START, before), e);
    }
  }

  lemma {:induction false} NextGrows(s: System, e: Event)
    requires Inv(s)
    ensures Grows(s.backend.state, Next(s, e).backend.state)
  {
    match e
    case Arrive(link, verdict, _, _) =>
      if s.inFlight.Some? {
        DeliverKeepsOk(s.backend, s.inFlight.value.key, s.inFlight.value.bill, link, verdict);
      }
    case Approve(_, _, _) =>
    case Finish(_) =>
    case Reload =>
    case _ => EvolveKeepsOk(s.backend.state, e);
  }

  /** A run about one bill in which storage works and nothing removes the keys. */
  ghost predicate RetriesOnly(events: seq<Event>, bill: Bill) {
    forall i :: 0 <= i < |events| ==> RetryStep(RunAll(START, events[..i]), events[i], bill)
  }

  ghost predicate RetryStep(s: System, e: Event, bill: Bill) {
    !Clears(s, e) && (e.Approve? ==> e.bill == bill && e.canRead && e.canWrite)
  }

  /** In it every retry, after any lost answer or reload, carries the first key: the approval is
      one request. */
  lemma {:induction false} RetriesKeepTheKey(bill: Bill, events: seq<Event>)
    requires RetriesOnly(events, bill)
    ensures FirstKeyOnly(RunAll(START, events), bill)
    decreases |events|
  {
    if events != [] {
      var n := |events| - 1;
      var before := events[..n];
      assert forall i :: 0 <= i < n ==> before[..i] == events[..i];
      RetriesKeepTheKey(bill, before);
      assert RetryStep(RunAll(START, events[..n]), events[n], bill);
      RetryKeepsTheKey(RunAll(START, before), events[n], bill);
    }
  }

  /** At most the first key was minted, and it is what is stored and in flight. */
  ghost predicate FirstKeyOnly(s: System, bill: Bill) {
    && s.minted <= 1 && (forall k <- s.backend.records :: k == 0)
    && (s.minted == 1 ==> s.storage == Some(Pending(bill, 0)))
    && (s.minted == 0 ==> s.storage.None? && s.inFlight.None?)
    && (s.inFlight.Some? ==> s.inFlight == s.storage)
  }

  lemma {:induction false} RetryKeepsTheKey(s: System, e: Event, bill: Bill)
    requires FirstKeyOnly(s, bill) && RetryStep(s, e, bill)
    ensures FirstKeyOnly(Next(s, e), bill)
  {
  }

  // ---------------------------------------------------------------- the functions

  /** The tab's storage and the backend, with the approval that `approve` waits for. */
  class ManualCheckout {
    var storage: Option<Pending>
    var minted: nat
    var inFlight: Option<Pending>
    var result: Option<Result>
    var backend: Backend
    ghost var sent: map<nat, Bill>

    ghost function State(): System
      reads this
    {
      System(storage, minted, inFlight, result, backend, sent)
    }

    constructor ()
      ensures State() == START
    {
      storage, minted, inFlight, result := None, 0, None, None;
      backend, sent := Server(map[], Kernel([], []), []), map[];
    }

    /** `pendingFor`, then `approve` up to its request: the keys are stored before it is sent. */
    method StartApproval(bill: Bill, canRead: bool, canWrite: bool)
      requires inFlight.None?
      modifies this
      ensures State() == Next(old(State()), Approve(bill, canRead, canWrite))
    {
      var p := Pending(bill, minted);
      if canRead && storage.Some? && storage.value.bill.checkout == bill.checkout
         && storage.value.bill.version == bill.version && storage.value.bill.contentHash == bill.contentHash {
        p := storage.value;
      }
      if p.key == minted {
        minted := minted + 1;
      }
      WritePending(p, canWrite);
      inFlight := Some(p);
      sent := sent[p.key := bill];
    }

    method WritePending(value: Pending, canWrite: bool)
      modifies this`storage
      ensures storage == if canWrite then Some(value) else old(storage)
    {
      if canWrite {
        storage := Some(value);
      }
    }

    method ClearPending(canWrite: bool)
      modifies this`storage
      ensures storage == if canWrite then None else old(storage)
    {
      if canWrite {
        storage := None;
      }
    }

    /** The rest of `approve`, and what the checkout screen does with its result. */
    method ApprovalAnswered(link: Link, verdict: Verdict, readable: bool, canWrite: bool)
      requires inFlight.Some?
      modifies this
      ensures State() == Next(old(State()), Arrive(link, verdict, readable, canWrite))
    {
      var p := inFlight.value;
      var (after, outcome) := Deliver(backend, p.key, p.bill, link, verdict);
      backend := after;
      inFlight := None;
      if !outcome.Answered? || (outcome.answer.Duplicate? && !readable) {
        result := Some(Fault);
      } else if outcome.answer.Duplicate? && !AttemptOn(backend.state, p.bill.checkout) {
        result := Some(StartedNoPayment(p.bill));
        ClearPending(canWrite);
      } else if outcome.answer.Denied? {
        result := Some(KernelRefusal);
        ClearPending(canWrite);
      } else {
        result := Some(Continue(p.bill));
        WritePending(p, canWrite);
      }
    }

    /** The wait for a settlement ends: confirmed or failed, the keys are done with. */
    method SettlementEnded(canWrite: bool)
      requires inFlight.None?
      modifies this
      ensures State() == Next(old(State()), Finish(canWrite))
    {
      ClearPending(canWrite);
    }
  }
}
