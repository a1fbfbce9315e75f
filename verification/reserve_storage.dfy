/** Reserve Pay when the tab's storage may fail: exactly when a request goes out beside a payment
    that is still unresolved. */
module ReserveStorage {
  import opened Common
  import opened Runs
  import opened Idempotency
  import opened ReserveIntent

  // ---------------------------------------------------------------- clean runs

  /** The newest attempt, if it is unresolved. */
  ghost predicate Open(s: System) {
    s.backend.attempts != [] && !Resolved(s.backend.attempts[|s.backend.attempts| - 1])
  }

  function OpenKey(s: System): nat
    requires s.backend.attempts != []
  {
    s.backend.attempts[|s.backend.attempts| - 1].key
  }

  ghost predicate Holds(s: System, key: nat) {
    s.page.Some? && s.page.value.pending.Some? && s.page.value.pending.value.key == key
  }

  /** The step sends a request, by a submit or by a click. */
  ghost predicate Submits(s: System, e: Event) {
    && s.page.Some? && s.page.value.inFlight.None?
    && Next(s, e).page.Some? && Next(s, e).page.value.inFlight.Some?
  }

  function SentKey(s: System, e: Event): nat
    requires Next(s, e).page.Some? && Next(s, e).page.value.inFlight.Some?
  {
    Next(s, e).page.value.inFlight.value.key
  }

  /** The step sends a request under another key beside an unresolved attempt. */
  ghost predicate SendsBeside(s: System, e: Event) {
    Submits(s, e) && Open(s) && SentKey(s, e) != OpenKey(s)
  }

  /** No request went out beside an unresolved attempt. */
  ghost predicate Clean(s0: System, events: seq<Event>) {
    events == [] ||
    (Clean(s0, events[..|events| - 1])
     && !SendsBeside(RunAll(s0, events[..|events| - 1]), events[|events| - 1]))
  }

  /** What a clean run keeps, whatever storage does: only the newest attempt can be unresolved,
      what is in flight beside it is its own request, and a page does not hold one intent while
      the unresolved attempt's is stored. */
  ghost predicate CleanInv(s: System) {
    && RecordsMatch(s.backend)
    && (forall k <- s.backend.records :: k < s.minted && k in s.asked && s.backend.records[k].request == s.asked[k])
    && (forall k <- s.asked :: k < s.minted)
    && (s.storage.Some? ==> Known(s, s.storage.value))
    && (s.page.Some? ==> PageKnown(s, s.page.value))
    && (forall i :: 0 <= i < |s.backend.attempts| && !Resolved(s.backend.attempts[i]) ==> i == |s.backend.attempts| - 1)
    && (Open(s) && s.page.Some? && s.page.value.inFlight.Some? ==> s.page.value.inFlight.value.key == OpenKey(s))
    && (Open(s) && Stored(s, OpenKey(s)) && s.page.Some? && s.page.value.pending.Some? ==> Holds(s, OpenKey(s)))
  }

  ghost predicate PageKnown(s: System, page: Page) {
    && (page.pending.Some? ==> Known(s, page.pending.value))
    && (page.inFlight.Some? ==>
          Known(s, page.inFlight.value) && page.pending.Some? && page.pending.value.key == page.inFlight.value.key)
  }

  lemma {:induction false} CleanMount(s: System, e: Event)
    requires CleanInv(s) && e.Mount? && s.page.None?
    ensures CleanInv(MountPage(s, e))
  {
  }

  /** What a submit that goes through sends. */
  lemma {:induction false} SubmitSends(s: System, blocked: bool, canWrite: bool)
    requires CleanInv(s)
    ensures var t := SubmitPage(s, blocked, canWrite);
            t == s ||
            (&& s.page.Some? && s.page.value.inFlight.None? && s.page.value.card.Some? && t.page.Some?
             && t.page.value.inFlight.Some? && t.page.value.pending == t.page.value.inFlight
             && t.backend == s.backend && t.storage == (if canWrite then t.page.value.inFlight else s.storage)
             && (s.page.value.pending.Some? ==>
                   t.page.value.inFlight == s.page.value.pending && t.asked == s.asked && t.minted == s.minted)
             && (s.page.value.pending.None? ==> t.page.value.inFlight.value.key == s.minted))
  {
  }

  lemma {:induction false} CleanSubmit(s: System, blocked: bool, canWrite: bool)
    requires CleanInv(s)
    requires var t := SubmitPage(s, blocked, canWrite);
             t == s || !Open(s) ||
             (t.page.Some? && t.page.value.inFlight.Some? && t.page.value.inFlight.value.key == OpenKey(s))
    ensures CleanInv(SubmitPage(s, blocked, canWrite))
  {
  }

  /** What the backend does with the request in flight. */
  lemma {:induction false} CleanPay(s: System, link: Link, decision: Decision)
    requires CleanInv(s) && s.page.Some? && s.page.value.inFlight.Some?
    ensures var p := s.page.value.inFlight.value;
            var (backend, outcome) := Pay(s.backend, p.key, RequestOf(p), link, decision);
            && CleanInv(s.(backend := backend))
            && (outcome.Answered? ==> p.key in backend.records && backend.records[p.key].answer == outcome.answer)
  {
    var p := s.page.value.inFlight.value;
    var (backend, outcome) := Pay(s.backend, p.key, RequestOf(p), link, decision);
    if backend != s.backend {
      LiveIsOpen(s, p.card.checkout);
      CleanRecord(s, p, backend.records[p.key].answer);
    }
  }

  lemma {:induction false} LiveIsOpen(s: System, checkout: nat)
    requires CleanInv(s)
    ensures LiveAttempt(s.backend.attempts, checkout).Some? ==> Open(s)
  {
    var live := LiveAttempt(s.backend.attempts, checkout);
    if live.Some? {
      assert !Resolved(s.backend.attempts[live.value]);
    }
  }

  /** A new request is admitted or denied. */
  lemma {:induction false} CleanRecord(s: System, p: Intent, answer: PayAnswer)
    requires CleanInv(s) && s.page.Some? && s.page.value.inFlight == Some(p) && p.key !in s.backend.records
    requires !answer.Duplicate? && (answer.Admitted? ==> answer.attempt == |s.backend.attempts|)
    ensures CleanInv(s.(backend := Decided(s.backend, p, answer)))
  {
    assert !Open(s);
  }

  function Decided(b: Backend, p: Intent, answer: PayAnswer): Backend {
    Backend(b.records[p.key := Record(RequestOf(p), answer)],
            if answer.Admitted? then b.attempts + [Attempt(p.key, p.card.checkout, Live, Held, false)] else b.attempts)
  }

  /** The page may drop its request, and its intent or update it. */
  lemma {:induction false} CleanPage(s: System, page: Page)
    requires CleanInv(s) && s.page.Some?
    requires page.inFlight.None? || (page.inFlight == s.page.value.inFlight && page.pending == s.page.value.pending)
    requires page.pending.Some? ==> Known(s, page.pending.value) && Holds(s, page.pending.value.key)
    ensures CleanInv(s.(page := Some(page)))
  {
  }

  /** Storage may be emptied, or take what the page holds. */
  lemma {:induction false} CleanSave(s: System, p: Option<Intent>, canWrite: bool)
    requires CleanInv(s) && (p.Some? ==> Known(s, p.value) && Holds(s, p.value.key))
    ensures CleanInv(Save(s, p, canWrite))
  {
  }

  /** The page and storage take what the answer made of the intent. */
  lemma {:induction false} CleanAnswer(u: System, page: Page, p: Option<Intent>, canWrite: bool)
    requires CleanInv(u) && u.page.Some? && page.inFlight.None?
    requires page.pending.Some? ==> Known(u, page.pending.value) && Holds(u, page.pending.value.key)
    requires p.Some? ==> page.pending == p
    ensures CleanInv(Save(u.(page := Some(page)), p, canWrite))
  {
    CleanPage(u, page);
    CleanSave(u.(page := Some(page)), p, canWrite);
  }

  /** What an arrival makes of the page and of storage, beside what it does to the backend. */
  lemma {:induction false} ArriveParts(s: System, link: Link, decision: Decision, canWrite: bool)
    requires s.page.Some? && s.page.value.inFlight.Some?
    ensures var p := s.page.value.inFlight.value;
            var (backend, outcome) := Pay(s.backend, p.key, RequestOf(p), link, decision);
            var u, t := s.(backend := backend), ArrivePage(s, link, decision, canWrite);
            && t.page.Some? && t.page.value.inFlight.None?
            && t == (if outcome.Answered? then Save(u.(page := t.page), t.page.value.pending, canWrite)
                     else u.(page := t.page))
            && (outcome.Answered? && outcome.answer.Denied? ==> t.page.value.pending.None?)
            && (outcome.Answered? && !outcome.answer.Denied? ==>
                  t.page.value.pending == Some(p.(attempt := Some(outcome.answer.attempt))))
            && (!outcome.Answered? ==> t.page.value.pending == s.page.value.pending)
  {
  }

  /** The intent in flight, after the backend answered it. */
  lemma {:induction false} AnsweredIsKnown(u: System, p: Intent, answer: PayAnswer)
    requires CleanInv(u) && u.page.Some? && u.page.value.inFlight == Some(p)
    requires p.key in u.backend.records && u.backend.records[p.key].answer == answer && !answer.Denied?
    ensures Known(u, p.(attempt := Some(answer.attempt))) && Holds(u, p.key)
  {
  }

  lemma {:induction false} CleanArrive(s: System, link: Link, decision: Decision, canWrite: bool)
    requires CleanInv(s)
    ensures CleanInv(ArrivePage(s, link, decision, canWrite))
  {
    if s.page.Some? && s.page.value.inFlight.Some? {
      CleanPay(s, link, decision);
      ArriveParts(s, link, decision, canWrite);
      var p := s.page.value.inFlight.value;
      var (backend, outcome) := Pay(s.backend, p.key, RequestOf(p), link, decision);
      var u, page := s.(backend := backend), ArrivePage(s, link, decision, canWrite).page.value;
      if outcome.Answered? {
        if !outcome.answer.Denied? {
          AnsweredIsKnown(u, p, outcome.answer);
        }
        CleanAnswer(u, page, page.pending, canWrite);
      } else {
        UnansweredIsClean(u, page);
      }
    }
  }

  lemma {:induction false} UnansweredIsClean(u: System, page: Page)
    requires CleanInv(u) && u.page.Some? && u.page.value.inFlight.Some?
    requires page.inFlight.None? && page.pending == u.page.value.pending
    ensures CleanInv(u.(page := Some(page)))
  {
    CleanPage(u, page);
  }

  lemma {:induction false} CleanPoll(s: System, answers: bool, canWrite: bool)
    requires CleanInv(s)
    ensures CleanInv(PollPage(s, answers, canWrite))
  {
    if s.page.Some? {
      var page := PollPage(s, answers, canWrite).page.value;
      CleanPage(s, page);
      CleanSave(s.(page := Some(page)), None, canWrite);
    }
  }

  lemma {:induction false} CleanEvolve(s: System, e: Event)
    requires CleanInv(s) && e.Evolve?
    ensures CleanInv(Next(s, e))
  {
  }

  lemma {:induction false} CommitIsSubmit(s: System, request: nat, blocked: bool, canWrite: bool)
    requires s.page.Some?
    ensures var t, u := CommitPage(s, request, blocked, canWrite), s.(page := Some(s.page.value.(handled := request)));
            t == s || t == u || (t == SubmitPage(u, blocked, canWrite) && s.page.value.pending.None?)
  {
  }

  lemma {:induction false} CleanCommit(s: System, e: Event)
    requires CleanInv(s) && !SendsBeside(s, e) && e.Commit?
    ensures CleanInv(Next(s, e))
  {
    if s.page.Some? {
      var u := s.(page := Some(s.page.value.(handled := e.request)));
      assert CleanInv(u);
      CommitIsSubmit(s, e.request, e.blocked, e.canWrite);
      SubmitSends(u, e.blocked, e.canWrite);
      if Next(s, e) == SubmitPage(u, e.blocked, e.canWrite) {
        CleanSubmit(u, e.blocked, e.canWrite);
      }
    }
  }

  lemma {:induction false} CleanStep(s: System, e: Event)
    requires CleanInv(s) && !SendsBeside(s, e)
    ensures CleanInv(Next(s, e))
  {
    match e
    case Mount(_, _, _, _, _, _) =>
      if s.page.None? {
        CleanMount(s, e);
      }
    case Submit(blocked, canWrite) =>
      SubmitSends(s, blocked, canWrite);
      CleanSubmit(s, blocked, canWrite);
    case Commit(_, _, _) => CleanCommit(s, e);
    case Arrive(link, decision, canWrite) => CleanArrive(s, link, decision, canWrite);
    case Poll(answers, canWrite) => CleanPoll(s, answers, canWrite);
    case Evolve(_, _, _, _) => CleanEvolve(s, e);
    case _ =>
  }

  /** The step from `s` to `t`, with nothing sent beside an unresolved attempt. */
  ghost predicate CleanTo(s: System, e: Event, t: System) { t == Next(s, e) && !SendsBeside(s, e) }

  lemma {:induction false} CleanPrefix(s0: System, events: seq<Event>, n: nat)
    requires Clean(s0, events) && n <= |events|
    ensures Clean(s0, events[..n])
    decreases |events|
  {
    if n == |events| {
      assert events[..n] == events;
    } else {
      assert events[..|events| - 1][..n] == events[..n];
      CleanPrefix(s0, events[..|events| - 1], n);
    }
  }

  lemma {:induction false} CleanLast(s0: System, before: seq<Event>, e: Event)
    requires Clean(s0, before + [e])
    ensures Clean(s0, before) && CleanTo(RunAll(s0, before), e, RunAll(s0, before + [e]))
  {
    assert (before + [e])[..|before|] == before;
  }

  lemma {:induction false} CleanNext(s: System, e: Event, t: System)
    requires CleanInv(s) && CleanTo(s, e, t)
    ensures CleanInv(t)
  {
    CleanStep(s, e);
  }

  lemma {:induction false} CleanRun(s0: System, events: seq<Event>)
    requires Start(s0) && Clean(s0, events)
    ensures CleanInv(RunAll(s0, events))
    decreases |events|
  {
    if events != [] {
      var before, e := events[..|events| - 1], events[|events| - 1];
      assert events == before + [e];
      CleanLast(s0, before, e);
      CleanRun(s0, before);
      CleanNext(RunAll(s0, before), e, RunAll(s0, events));
    }
  }

  // ---------------------------------------------------------------- what storage holds

  /** The step saves the intent of this key, if storage lets it: it is sent, or it is admitted. */
  ghost predicate Writes(s: System, e: Event, key: nat) {
    || (Submits(s, e) && SentKey(s, e) == key)
    || (e.Arrive? && s.page.Some? && s.page.value.inFlight.Some? && s.page.value.inFlight.value.key == key
        && var p := s.page.value.inFlight.value;
           var outcome := Pay(s.backend, p.key, RequestOf(p), e.link, e.decision).1;
           outcome.Answered? && !outcome.answer.Denied?)
  }

  predicate CanWrite(e: Event) { (e.Submit? || e.Commit? || e.Arrive?) && e.canWrite }

  /** Some write of this intent succeeded. */
  ghost predicate Wrote(s0: System, events: seq<Event>, key: nat) {
    exists i :: 0 <= i < |events| && Writes(RunAll(s0, events[..i]), events[i], key) && CanWrite(events[i])
  }

  /** Nothing is owed to this key any more: it was denied, its attempt is resolved, or it never
      reached the backend and no page holds it. */
  ghost predicate Gone(s: System, key: nat) {
    if key in s.backend.records then
      var answer := s.backend.records[key].answer;
      || answer.Denied?
      || (answer.Admitted? && answer.attempt < |s.backend.attempts| && Resolved(s.backend.attempts[answer.attempt]))
    else !Holds(s, key)
  }

  /** A step from `s` to `t` that did, or did not, write this key. */
  ghost predicate Tracks(s: System, t: System, wrote: bool, key: nat) {
    && (Stored(t, key) ==> Stored(s, key) || wrote) && (wrote ==> Stored(t, key))
    && (Stored(s, key) || (Gone(s, key) && key < s.minted) ==> Stored(t, key) || Gone(t, key))
  }

  lemma {:induction false} MountTracks(s: System, e: Event, key: nat)
    requires CleanInv(s) && e.Mount? && s.page.None?
    ensures Tracks(s, MountPage(s, e), false, key)
  {
    if s.storage.Some? && Open(s) && Settled(s.backend, s.storage.value.card.checkout) {
      var last := s.backend.attempts[|s.backend.attempts| - 1];
      if last.checkout == s.storage.value.card.checkout {
        NewestIsLast(s.backend.attempts, last.checkout);
      }
    }
  }

  lemma {:induction false} SubmitTracks(s: System, blocked: bool, canWrite: bool, key: nat)
    requires CleanInv(s)
    requires var t := SubmitPage(s, blocked, canWrite);
             t == s || !Open(s) ||
             (t.page.Some? && t.page.value.inFlight.Some? && t.page.value.inFlight.value.key == OpenKey(s))
    ensures var t := SubmitPage(s, blocked, canWrite);
            Tracks(s, t, t != s && canWrite && Holds(t, key), key)
  {
    SubmitSends(s, blocked, canWrite);
  }

  lemma {:induction false} PayTracks(s: System, link: Link, decision: Decision, key: nat)
    requires CleanInv(s) && s.page.Some? && s.page.value.inFlight.Some?
    ensures var p := s.page.value.inFlight.value;
            Tracks(s, s.(backend := Pay(s.backend, p.key, RequestOf(p), link, decision).0), false, key)
  {
  }

  /** Saving what the page holds, or dropping it, as the answer said. */
  lemma {:induction false} SaveTracks(s: System, page: Page, p: Option<Intent>, canWrite: bool, key: nat)
    requires CleanInv(s) && s.page.Some? && s.page.value.pending.Some?
    requires var held := s.page.value.pending.value.key;
             && held in s.backend.records
             && (p.Some? ==> p.value.key == held && page.pending == p)
             && (p.None? ==> Gone(s, held) && (page.pending.None? || page.pending == s.page.value.pending))
    ensures Tracks(s, Save(s.(page := Some(page)), p, canWrite), canWrite && p.Some? && p.value.key == key, key)
  {
  }

  lemma {:induction false} TracksTwice(s: System, t: System, u: System, wrote: bool, key: nat)
    requires Tracks(s, t, false, key) && Tracks(t, u, wrote, key)
    requires s.minted <= t.minted && (Stored(s, key) ==> key < s.minted)
    ensures Tracks(s, u, wrote, key)
  {
  }

  lemma {:induction false} ArriveTracks(s: System, e: Event, key: nat)
    requires CleanInv(s) && e.Arrive?
    ensures Tracks(s, Next(s, e), Writes(s, e, key) && CanWrite(e), key)
  {
    if s.page.Some? && s.page.value.inFlight.Some? {
      CleanPay(s, e.link, e.decision);
      PayTracks(s, e.link, e.decision, key);
      var p := s.page.value.inFlight.value;
      var (backend, outcome) := Pay(s.backend, p.key, RequestOf(p), e.link, e.decision);
      var u, page := s.(backend := backend), Next(s, e).page.value;
      if outcome.Answered? {
        SaveTracks(u, page, if outcome.answer.Denied? then None else page.pending, e.canWrite, key);
        TracksTwice(s, u, Next(s, e), Writes(s, e, key) && CanWrite(e), key);
      }
    }
  }

  lemma {:induction false} PollTracks(s: System, answers: bool, canWrite: bool, key: nat)
    requires CleanInv(s)
    ensures Tracks(s, PollPage(s, answers, canWrite), false, key)
  {
    if s.page.Some? && s.page.value.pending.Some? && s.page.value.pending.value.attempt.Some? {
      var page := PollPage(s, answers, canWrite).page.value;
      if PollPage(s, answers, canWrite).storage != s.storage {
        SaveTracks(s, page, None, true, key);
      }
    }
  }

  lemma {:induction false} EvolveTracks(s: System, e: Event, key: nat)
    requires CleanInv(s) && e.Evolve?
    ensures Tracks(s, Next(s, e), false, key)
  {
  }

  lemma {:induction false} CommitTracks(s: System, e: Event, key: nat)
    requires CleanInv(s) && e.Commit? && !SendsBeside(s, e) && s.page.Some?
    ensures Tracks(s, Next(s, e), Writes(s, e, key) && CanWrite(e), key)
  {
    var u := s.(page := Some(s.page.value.(handled := e.request)));
    assert CleanInv(u) && (Open(u) <==> Open(s));
    CommitIsSubmit(s, e.request, e.blocked, e.canWrite);
    SubmitSends(u, e.blocked, e.canWrite);
    var t := Next(s, e);
    if t == SubmitPage(u, e.blocked, e.canWrite) && t != u {
      SubmitTracks(u, e.blocked, e.canWrite, key);
    }
  }

  lemma {:induction false} SubmitEventTracks(s: System, e: Event, key: nat)
    requires CleanInv(s) && e.Submit? && !SendsBeside(s, e)
    ensures Tracks(s, Next(s, e), Writes(s, e, key) && CanWrite(e), key)
  {
    SubmitSends(s, e.blocked, e.canWrite);
    SubmitTracks(s, e.blocked, e.canWrite, key);
  }

  lemma {:induction false} StepTracks(s: System, e: Event, key: nat)
    requires CleanInv(s) && !SendsBeside(s, e)
    ensures Tracks(s, Next(s, e), Writes(s, e, key) && CanWrite(e), key)
  {
    match e
    case Mount(_, _, _, _, _, _) =>
      if s.page.None? {
        MountTracks(s, e, key);
      }
    case Submit(_, _) => SubmitEventTracks(s, e, key);
    case Commit(_, _, _) =>
      if s.page.Some? {
        CommitTracks(s, e, key);
      }
    case Arrive(_, _, _) => ArriveTracks(s, e, key);
    case Poll(answers, canWrite) => PollTracks(s, answers, canWrite, key);
    case Evolve(_, _, _, _) => EvolveTracks(s, e, key);
    case _ =>
  }

  lemma {:induction false} WroteStep(s0: System, before: seq<Event>, e: Event, key: nat)
    ensures Wrote(s0, before + [e], key) <==>
              Wrote(s0, before, key) || (Writes(RunAll(s0, before), e, key) && CanWrite(e))
  {
    var events := before + [e];
    assert events[..|before|] == before && events[|before|] == e;
    assert forall i :: 0 <= i < |before| ==> events[i] == before[i] && events[..i] == before[..i];
  }

  /** A written key has been minted, and is stored still unless nothing is owed to it. */
  ghost predicate Kept(s: System, key: nat) { key < s.minted && (Stored(s, key) || Gone(s, key)) }

  lemma {:induction false} MintedGrows(s: System, e: Event)
    ensures s.minted <= Next(s, e).minted
  {
  }

  lemma {:induction false} NextTracks(s: System, e: Event, t: System, key: nat)
    requires CleanInv(s) && CleanTo(s, e, t)
    ensures Stored(t, key) ==> Stored(s, key) || (Writes(s, e, key) && CanWrite(e))
    ensures Kept(s, key) || (Writes(s, e, key) && CanWrite(e)) ==> Kept(t, key)
  {
    StepTracks(s, e, key);
    MintedGrows(s, e);
    CleanStep(s, e);
  }

  /** What is stored was written; and what was written is stored, or nothing is owed to it. */
  lemma {:induction false} StoredIffWritten(s0: System, events: seq<Event>, key: nat)
    requires Start(s0) && Clean(s0, events)
    ensures var s := RunAll(s0, events);
            && (Stored(s, key) ==> Wrote(s0, events, key))
            && (Wrote(s0, events, key) ==> Kept(s, key))
    decreases |events|
  {
    if events != [] {
      var before, e := events[..|events| - 1], events[|events| - 1];
      assert events == before + [e];
      CleanLast(s0, before, e);
      CleanRun(s0, before);
      StoredIffWritten(s0, before, key);
      WroteStep(s0, before, e, key);
      NextTracks(RunAll(s0, before), e, RunAll(s0, events), key);
    }
  }

  // ---------------------------------------------------------------- the page's mount

  /** When the mounted page was mounted. */
  function MountedAt(s0: System, events: seq<Event>): (i: nat)
    requires s0.page.None? && RunAll(s0, events).page.Some?
    ensures i < |events| && RunAll(s0, events[..i]).page.None? && events[i].Mount?
    decreases |events|
  {
    var before := events[..|events| - 1];
    if RunAll(s0, before).page.None? then |before|
    else
      var i := MountedAt(s0, before);
      assert before[..i] == events[..i];
      i
  }

  /** A page that shows nothing to pay for: it never sends. */
  ghost predicate Blank(s: System) {
    s.page.Some? && s.page.value.card.None? && s.page.value.pending.None? && s.page.value.inFlight.None?
  }

  /** What the life of a page keeps: it is blank for good if it was, the attempts grow only by its
      own, and it holds an unresolved attempt's intent if that attempt is its own or it took it
      back when it was mounted. */
  ghost predicate SinceMount(m: System, s: System) {
    && m.page.Some? && s.page.Some? && |m.backend.attempts| <= |s.backend.attempts|
    && (Blank(m) ==> Blank(s))
    && (Open(s) ==> (Holds(s, OpenKey(s)) <==> |m.backend.attempts| < |s.backend.attempts| || Holds(m, OpenKey(s))))
    && (Open(s) && |m.backend.attempts| == |s.backend.attempts| ==> Open(m) && OpenKey(m) == OpenKey(s))
  }

  lemma {:induction false} JustMounted(m: System)
    requires m.page.Some?
    ensures SinceMount(m, m)
  {
  }

  lemma {:induction false} OtherEventsLeaveBackend(s: System, e: Event)
    requires !e.Arrive? && !e.Evolve?
    ensures Next(s, e).backend == s.backend
  {
  }

  /** How the attempts change from `s` to `t`. */
  ghost predicate Grew(s: System, t: System) {
    && |s.backend.attempts| <= |t.backend.attempts| <= |s.backend.attempts| + 1
    && (|t.backend.attempts| > |s.backend.attempts| ==> Holds(s, OpenKey(t)) && Holds(t, OpenKey(t)))
    && (|t.backend.attempts| == |s.backend.attempts| && Open(t) ==> Open(s) && OpenKey(t) == OpenKey(s))
  }

  lemma {:induction false} ArriveGrows(s: System, e: Event)
    requires CleanInv(s) && e.Arrive?
    ensures Grew(s, Next(s, e))
  {
  }

  lemma {:induction false} EvolveGrows(s: System, e: Event)
    requires e.Evolve?
    ensures Grew(s, Next(s, e))
  {
  }

  lemma {:induction false} AttemptsGrow(s: System, e: Event)
    requires CleanInv(s)
    ensures Grew(s, Next(s, e))
  {
    if e.Arrive? {
      ArriveGrows(s, e);
    } else if e.Evolve? {
      EvolveGrows(s, e);
    } else {
      OtherEventsLeaveBackend(s, e);
    }
  }

  /** While it is unresolved, a page neither loses nor gains the intent of an attempt. */
  lemma {:induction false} HoldsStays(s: System, e: Event)
    requires CleanInv(s) && !SendsBeside(s, e) && s.page.Some? && Next(s, e).page.Some? && Open(s)
    requires |Next(s, e).backend.attempts| == |s.backend.attempts| && Open(Next(s, e))
    ensures Holds(Next(s, e), OpenKey(s)) <==> Holds(s, OpenKey(s))
  {
  }

  lemma {:induction false} BlankStays(s: System, e: Event)
    requires Blank(s) && Next(s, e).page.Some?
    ensures Blank(Next(s, e))
  {
  }

  lemma {:induction false} PageLives(m: System, s: System, e: Event)
    requires CleanInv(s) && !SendsBeside(s, e) && SinceMount(m, s) && Next(s, e).page.Some?
    ensures SinceMount(m, Next(s, e))
  {
    AttemptsGrow(s, e);
    if Blank(s) {
      BlankStays(s, e);
    }
    if Open(s) && Open(Next(s, e)) && |Next(s, e).backend.attempts| == |s.backend.attempts| {
      HoldsStays(s, e);
    }
  }

  lemma {:induction false} PageSinceMount(s0: System, events: seq<Event>)
    requires Start(s0) && Clean(s0, events) && RunAll(s0, events).page.Some?
    ensures var i := MountedAt(s0, events);
            SinceMount(RunAll(s0, events[..i + 1]), RunAll(s0, events))
    decreases |events|
  {
    var before, e := events[..|events| - 1], events[|events| - 1];
    assert events == before + [e];
    var i := MountedAt(s0, events);
    if RunAll(s0, before).page.None? {
      assert events[..i + 1] == events;
      JustMounted(RunAll(s0, events));
    } else {
      CleanLast(s0, before, e);
      CleanRun(s0, before);
      PageSinceMount(s0, before);
      MountedBefore(s0, before, e);
      NextPage(RunAll(s0, events[..i + 1]), RunAll(s0, before), e, RunAll(s0, events));
    }
  }

  lemma {:induction false} MountedBefore(s0: System, before: seq<Event>, e: Event)
    requires s0.page.None? && RunAll(s0, before).page.Some? && RunAll(s0, before + [e]).page.Some?
    ensures var i := MountedAt(s0, before);
            MountedAt(s0, before + [e]) == i && before[..i + 1] == (before + [e])[..i + 1]
  {
    assert (before + [e])[..|before|] == before;
  }

  lemma {:induction false} NextPage(m: System, s: System, e: Event, t: System)
    requires CleanInv(s) && CleanTo(s, e, t) && SinceMount(m, s) && t.page.Some?
    ensures SinceMount(m, t)
  {
    PageLives(m, s, e);
  }

  /** A mount beside an unresolved attempt that leaves a page with something to pay for takes that
      attempt's intent back exactly if it reads it. */
  lemma {:induction false} MountTakes(r: System, e: Event)
    requires CleanInv(r) && Open(r) && e.Mount? && r.page.None? && !Blank(Next(r, e))
    ensures Holds(Next(r, e), OpenKey(r)) <==> e.canRead && Stored(r, OpenKey(r))
    ensures Next(r, e).backend == r.backend
  {
    var last := r.backend.attempts[|r.backend.attempts| - 1];
    if r.storage.Some? && last.checkout == r.storage.value.card.checkout {
      NewestIsLast(r.backend.attempts, last.checkout);
    }
  }

  /** What a submit sends is what the page holds, or a key no attempt has. */
  lemma {:induction false} SendsWhatIsHeld(s: System, e: Event)
    requires CleanInv(s) && Submits(s, e) && Open(s)
    ensures !Blank(s) && (SentKey(s, e) == OpenKey(s) <==> Holds(s, OpenKey(s)))
  {
    if e.Submit? {
      SubmitSends(s, e.blocked, e.canWrite);
    } else {
      var u := s.(page := Some(s.page.value.(handled := e.request)));
      assert CleanInv(u);
      CommitIsSubmit(s, e.request, e.blocked, e.canWrite);
      SubmitSends(u, e.blocked, e.canWrite);
    }
  }

  lemma {:induction false} OpenIsOwed(s: System)
    requires CleanInv(s) && Open(s)
    ensures !Gone(s, OpenKey(s))
  {
  }

  /** After any run in which no request went out beside an unresolved payment, one goes out if and
      only if the page was mounted over that payment without reading its intent back: reading was
      refused, or every write of the intent had been. */
  lemma {:induction false} SendsBesideIff(s0: System, events: seq<Event>, e: Event)
    requires Start(s0) && Clean(s0, events)
    requires Submits(RunAll(s0, events), e) && Open(RunAll(s0, events))
    ensures var s, i := RunAll(s0, events), MountedAt(s0, events);
            SendsBeside(s, e) <==>
              && |RunAll(s0, events[..i]).backend.attempts| == |s.backend.attempts|
              && (!events[i].canRead || !Wrote(s0, events[..i], OpenKey(s)))
  {
    var s, i := RunAll(s0, events), MountedAt(s0, events);
    var r, m := RunAll(s0, events[..i]), RunAll(s0, events[..i + 1]);
    CleanRun(s0, events);
    CleanPrefix(s0, events, i);
    CleanRun(s0, events[..i]);
    PageSinceMount(s0, events);
    SendsWhatIsHeld(s, e);
    assert events[..i + 1][..i] == events[..i];
    assert m == Next(r, events[i]);
    MountSends(s0, events[..i], r, events[i], s);
  }

  lemma {:induction false} MountSends(s0: System, before: seq<Event>, r: System, mount: Event, s: System)
    requires Start(s0) && Clean(s0, before) && r == RunAll(s0, before) && CleanInv(r) && mount.Mount? && r.page.None?
    requires SinceMount(Next(r, mount), s) && !Blank(s) && Open(s)
    ensures !Holds(s, OpenKey(s)) <==>
              && |r.backend.attempts| == |s.backend.attempts|
              && (!mount.canRead || !Wrote(s0, before, OpenKey(s)))
  {
    StoredIffWritten(s0, before, OpenKey(s));
    MountHolds(r, mount, s, OpenKey(s));
  }

  lemma {:induction false} MountHolds(r: System, mount: Event, s: System, key: nat)
    requires CleanInv(r) && mount.Mount? && r.page.None?
    requires SinceMount(Next(r, mount), s) && !Blank(s) && Open(s) && key == OpenKey(s)
    ensures !Holds(s, key) <==> |r.backend.attempts| == |s.backend.attempts| && (!mount.canRead || !Stored(r, key))
    ensures |r.backend.attempts| == |s.backend.attempts| ==> !Gone(r, key)
  {
    assert Next(r, mount).backend == r.backend;
    if |r.backend.attempts| == |s.backend.attempts| {
      assert Open(r) && OpenKey(r) == key;
      MountTakes(r, mount);
      OpenIsOwed(r);
    }
  }

  // ---------------------------------------------------------------- what that means

  /** While no request goes out beside an unresolved payment, two are never unresolved. */
  lemma {:induction false} CleanMeansOneUnresolved(s0: System, events: seq<Event>)
    requires Start(s0) && Clean(s0, events)
    ensures var attempts := RunAll(s0, events).backend.attempts;
            forall i, j :: 0 <= i < j < |attempts| ==> Resolved(attempts[i]) || Resolved(attempts[j])
  {
    CleanRun(s0, events);
  }

  /** And if one does, an admission is all it takes for two. */
  lemma {:induction false} BesideDoubles(s: System, e: Event, link: Link, decision: Decision, canWrite: bool)
    requires CleanInv(s) && SendsBeside(s, e) && SentKey(s, e) !in s.backend.records
    requires LiveAttempt(s.backend.attempts, Next(s, e).page.value.inFlight.value.card.checkout).None?
    requires link.reaches && !link.barred && !link.refuses && decision.admits
    ensures var attempts := Next(Next(s, e), Arrive(link, decision, canWrite)).backend.attempts;
            && |attempts| == |s.backend.attempts| + 1
            && !Resolved(attempts[|attempts| - 1]) && !Resolved(attempts[|attempts| - 2])
  {
    SubmitLeavesBackend(s, e);
    AdmissionAppends(Next(s, e), link, decision, canWrite);
  }

  lemma {:induction false} SubmitLeavesBackend(s: System, e: Event)
    requires Submits(s, e)
    ensures Next(s, e).backend == s.backend
  {
  }

  lemma {:induction false} AdmissionAppends(s: System, link: Link, decision: Decision, canWrite: bool)
    requires s.page.Some? && s.page.value.inFlight.Some? && s.page.value.inFlight.value.key !in s.backend.records
    requires LiveAttempt(s.backend.attempts, s.page.value.inFlight.value.card.checkout).None?
    requires link.reaches && !link.barred && !link.refuses && decision.admits
    ensures var p := s.page.value.inFlight.value;
            Next(s, Arrive(link, decision, canWrite)).backend.attempts
              == s.backend.attempts + [Attempt(p.key, p.card.checkout, Live, Held, false)]
  {
  }

  /** Storage that works is enough. */
  lemma {:induction false} WorkingStorageIsClean(s0: System, events: seq<Event>)
    requires Start(s0) && forall e <- events :: StorageWorks(e)
    ensures Clean(s0, events)
    decreases |events|
  {
    if events != [] {
      var before := events[..|events| - 1];
      assert forall e <- before :: e in events;
      WorkingStorageIsClean(s0, before);
      RunKeepsInv(s0, before);
      InvSendsNothingBeside(RunAll(s0, before), events[|events| - 1]);
    }
  }

  lemma {:induction false} InvSendsNothingBeside(s: System, e: Event)
    requires Inv(s)
    ensures !SendsBeside(s, e)
  {
  }

  /** An intent leaves storage only when nothing is owed to it: it was denied, its attempt is
      captured with its order or failed with its capacity released, or it never reached the
      backend and nobody will send it. */
  lemma {:induction false} DroppedOnlyWhenDone(s: System, e: Event, key: nat)
    requires CleanInv(s) && !SendsBeside(s, e) && Stored(s, key) && !Stored(Next(s, e), key)
    ensures var t := Next(s, e);
            if key !in t.backend.records then !Holds(t, key)
            else
              var answer := t.backend.records[key].answer;
              answer.Denied? ||
              (answer.Admitted? && answer.attempt < |t.backend.attempts|
               && var a := t.backend.attempts[answer.attempt];
                  (a.status == Captured && a.order) || (a.status in {Failed, Expired} && a.allocation == Released))
  {
    StepTracks(s, e, key);
  }

  /** In a clean run `reserveRequestSettled` is right: no attempt of the checkout is unresolved. */
  lemma {:induction false} SettledIsRight(s: System, checkout: nat)
    requires CleanInv(s) && Settled(s.backend, checkout)
    ensures forall a <- s.backend.attempts :: a.checkout == checkout ==>
              (a.status == Captured && a.order) || (a.status in {Failed, Expired} && a.allocation == Released)
  {
    forall a | a in s.backend.attempts && a.checkout == checkout ensures Resolved(a) {
      var i :| 0 <= i < |s.backend.attempts| && s.backend.attempts[i] == a;
      if !Resolved(a) {
        NewestIsLast(s.backend.attempts, checkout);
      }
    }
  }

  // ---------------------------------------------------------------- storage that fails

  const GOOD := Link(true, false, false, true)
  const YES := Decision(true, None)
  const FIRST := Card(1, 1, 1, 100)
  const SECOND := Card(2, 1, 2, 100)

  lemma {:induction false} NoLiveAttempt(checkout: nat)
    requires checkout != 1
    ensures LiveAttempt([Attempt(0, 1, Live, Held, false)], checkout) == None
  {
    assert LiveAttempt([Attempt(0, 1, Live, Held, false)][..0], checkout) == None;
  }

  /** The page that shows a reviewed bill. */
  function Showing(card: Card): Page { Page(Some(card), Some(card), Some(7), None, None, false, None, 0) }

  /** Opening the page for a bill and submitting it, with storage readable and writable or not. */
  function Paying(card: Card, canRead: bool, canWrite: bool): seq<Event> {
    [Mount(Some(card), canRead, true, true, Some(7), true), Submit(false, canWrite)]
  }

  lemma {:induction false} PayingSends(s: System, card: Card, canRead: bool, canWrite: bool)
    requires s.page.None? && (canRead ==> s.storage.None?)
    ensures var p := Intent(card, 7, s.minted, None);
            RunAll(s, Paying(card, canRead, canWrite)) ==
              System(Some(Showing(card).(pending := Some(p), inFlight := Some(p))),
                     if canWrite then Some(p) else s.storage,
                     s.minted + 1, s.backend, s.asked[s.minted := RequestOf(p)])
  {
    RunOfTwo(Next, s, Mount(Some(card), canRead, true, true, Some(7), true), Submit(false, canWrite));
    assert Next(s, Mount(Some(card), canRead, true, true, Some(7), true)) == s.(page := Some(Showing(card)));
  }

  /** The request in flight is admitted as a new attempt, and the page is left. */
  lemma {:induction false} PaymentIsAdmitted(s: System, card: Card, p: Intent, canWrite: bool)
    requires s.page == Some(Showing(card).(pending := Some(p), inFlight := Some(p)))
    requires p.key !in s.backend.records && LiveAttempt(s.backend.attempts, p.card.checkout).None?
    ensures var t := RunAll(s, [Arrive(GOOD, YES, canWrite), Unmount]);
            && t.page.None? && t.minted == s.minted && t.backend.records.Keys == s.backend.records.Keys + {p.key}
            && t.backend.attempts == s.backend.attempts + [Attempt(p.key, p.card.checkout, Live, Held, false)]
            && t.storage == (if canWrite then Some(p.(attempt := Some(|s.backend.attempts|))) else s.storage)
  {
    RunOfTwo(Next, s, Arrive(GOOD, YES, canWrite), Unmount);
  }

  /** Two payments, the second after a reload, with storage as the flags say. */
  function DoublePaymentRun(canWrite: bool, canRead: bool): seq<Event> {
    Paying(FIRST, true, canWrite) + [Arrive(GOOD, YES, canWrite), Unmount]
    + Paying(SECOND, canRead, true) + [Arrive(GOOD, YES, true), Unmount]
  }

  lemma {:induction false} DoublePayment(s0: System, canWrite: bool, canRead: bool)
    requires Start(s0) && (canRead ==> !canWrite)
    ensures var attempts := RunAll(s0, DoublePaymentRun(canWrite, canRead)).backend.attempts;
            attempts == [Attempt(0, 1, Live, Held, false), Attempt(1, 2, Live, Held, false)]
  {
    var one, leave := Paying(FIRST, true, canWrite), [Arrive(GOOD, YES, canWrite), Unmount];
    var two := Paying(SECOND, canRead, true);
    RunAppend(Next, s0, one, leave);
    RunAppend(Next, s0, one + leave, two);
    RunAppend(Next, s0, one + leave + two, [Arrive(GOOD, YES, true), Unmount]);
    PayingSends(s0, FIRST, true, canWrite);
    assert LiveAttempt([], 1) == None;
    PaymentIsAdmitted(RunAll(s0, one), FIRST, Intent(FIRST, 7, 0, None), canWrite);
    PayingSends(RunAll(s0, one + leave), SECOND, canRead, true);
    NoLiveAttempt(2);
    PaymentIsAdmitted(RunAll(s0, one + leave + two), SECOND, Intent(SECOND, 7, 1, None), true);
  }

  /** A reload after a refused write starts a second payment beside the first, */
  lemma {:induction false} RefusedStorageDoublesPayment(s0: System)
    requires Start(s0)
    ensures var attempts := RunAll(s0, DoublePaymentRun(false, true)).backend.attempts;
            attempts == [Attempt(0, 1, Live, Held, false), Attempt(1, 2, Live, Held, false)]
            && !Resolved(attempts[0]) && !Resolved(attempts[1])
  {
    DoublePayment(s0, false, true);
  }

  /** and so does a reload that cannot read what every write stored. */
  lemma {:induction false} UnreadableStorageDoublesPayment(s0: System)
    requires Start(s0)
    ensures var attempts := RunAll(s0, DoublePaymentRun(true, false)).backend.attempts;
            attempts == [Attempt(0, 1, Live, Held, false), Attempt(1, 2, Live, Held, false)]
            && !Resolved(attempts[0]) && !Resolved(attempts[1])
  {
    DoublePayment(s0, true, false);
  }

  /** Leaving the page once the payment is in, and then the attempt fails. */
  function AndFails(i: nat, canWrite: bool, allocation: Allocation): seq<Event> {
    [Arrive(GOOD, YES, canWrite), Unmount] + [Evolve(i, Failed, allocation, false)]
  }

  lemma {:induction false} PaymentFails(s: System, card: Card, p: Intent, canWrite: bool, allocation: Allocation)
    requires s.page == Some(Showing(card).(pending := Some(p), inFlight := Some(p)))
    requires p.key !in s.backend.records && LiveAttempt(s.backend.attempts, p.card.checkout).None?
    ensures var i := |s.backend.attempts|; var t := RunAll(s, AndFails(i, canWrite, allocation));
            && t.page.None? && t.minted == s.minted && t.backend.records.Keys == s.backend.records.Keys + {p.key}
            && t.backend.attempts == s.backend.attempts + [Attempt(p.key, p.card.checkout, Failed, allocation, false)]
            && t.storage == (if canWrite then Some(p.(attempt := Some(i))) else s.storage)
  {
    PaymentIsAdmitted(s, card, p, canWrite);
    var i := |s.backend.attempts|;
    RunAppend(Next, s, [Arrive(GOOD, YES, canWrite), Unmount], [Evolve(i, Failed, allocation, false)]);
    RunOfOne(Next, RunAll(s, [Arrive(GOOD, YES, canWrite), Unmount]), Evolve(i, Failed, allocation, false));
  }

  /** A payment that fails and keeps its capacity; the page opened again on a tab that refuses
      storage, paying for the same checkout; and that payment failed and released. */
  function HiddenRun(): seq<Event> {
    Paying(FIRST, true, true) + AndFails(0, true, Held) + Paying(FIRST, false, false) + AndFails(1, false, Released)
  }

  /** Outside clean runs `reserveRequestSettled` looks only at the newest attempt of the checkout:
      the next mount then drops the intent of an attempt that still holds capacity. */
  lemma {:induction false} SettledCanHideAnAttempt(s0: System)
    requires Start(s0)
    ensures var s := RunAll(s0, HiddenRun());
            && Stored(s, 0) && s.page.None? && Settled(s.backend, 1)
            && s.backend.attempts == [Attempt(0, 1, Failed, Held, false), Attempt(1, 1, Failed, Released, false)]
            && !Resolved(s.backend.attempts[0])
            && Next(s, Mount(Some(FIRST), true, true, true, Some(7), true)).storage.None?
  {
    var one, fail, two := Paying(FIRST, true, true), AndFails(0, true, Held), Paying(FIRST, false, false);
    RunAppend(Next, s0, one, fail);
    RunAppend(Next, s0, one + fail, two);
    RunAppend(Next, s0, one + fail + two, AndFails(1, false, Released));
    PayingSends(s0, FIRST, true, true);
    assert LiveAttempt([], 1) == None;
    PaymentFails(RunAll(s0, one), FIRST, Intent(FIRST, 7, 0, None), true, Held);
    PayingSends(RunAll(s0, one + fail), FIRST, false, false);
    assert LiveAttempt([Attempt(0, 1, Failed, Held, false)][..0], 1) == None;
    PaymentFails(RunAll(s0, one + fail + two), FIRST, Intent(FIRST, 7, 1, None), false, Released);
  }
}
