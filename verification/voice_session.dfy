/** The voice session: one connection at a time, bounded reconnection, typed turns that wait for
    a connection. Every connection is known by the generation it was opened under. */
module VoiceSession {
  import opened Common
  import opened Runs

  /** What the page shows. */
  datatype Screen = Screen(live: bool, transcript: Option<nat>, reply: Option<nat>, proposal: Option<nat>,
                           order: Option<nat>, items: Option<nat>, finalTurns: nat)

  const BLANK := Screen(false, None, None, None, None, None, 0)

  /** A typed turn that waits for the connection opened under `awaits`. */
  datatype Waiting = Waiting(turn: nat, awaits: nat)

  /** The refs of the provider; then a history: the connections ever created, those closed, those
      that got as far as a socket, the opens that have not settled, the reconnections armed since
      the counter was last reset, and the typed turns sent. */
  datatype Session = Session(
    client: Option<nat>, pendingClient: Option<nat>, opening: Option<nat>, generation: nat, textGeneration: nat,
    attempts: nat, timer: Option<nat>, wanted: bool, preserveShelf: bool, screen: Screen,
    created: set<nat>, closed: set<nat>, sockets: set<nat>, outstanding: set<nat>, armed: nat,
    waiting: seq<Waiting>, sent: seq<nat>)

  datatype Callback =
    | Ready
    | Partial(text: nat)
    | Final(heard: Option<nat>, stale: bool)
    | Reply(words: nat)
    | Items(list: nat)
    | SupportOrder(id: nat)
    | Offer(offer: Option<nat>)
    | Closed(retryable: bool)

  datatype Event =
    | Start
    | Connect
    | Ticket(of: nat)
    | Settle(of: nat, ok: bool)
    | Call(from: nat, callback: Callback)
    | TimerFires
    | Finish
    | Reset
    | Say(text: nat, accepted: bool)
    | Resume(index: nat, accepted: bool)
    | CartUpdated

  const DELAYS: seq<nat> := [1000, 2000, 4000]

  function StopReconnect(s: Session): Session {
    s.(wanted := false, attempts := 0, armed := 0, timer := None)
  }

  function Schedule(s: Session): Session {
    if !s.wanted || s.timer.Some? || s.attempts >= |DELAYS| then s
    else s.(timer := Some(DELAYS[s.attempts]), attempts := s.attempts + 1, armed := s.armed + 1)
  }

  /** A new connection under the next generation. */
  function OpenNext(s: Session): Session {
    var g := s.generation + 1;
    s.(generation := g, pendingClient := Some(g), opening := Some(g),
       created := s.created + {g}, outstanding := s.outstanding + {g})
  }

  /** Connecting: nothing if there is a client or one is opening, else a new generation. */
  function ConnectNext(s: Session): Session {
    var s := s.(wanted := true);
    if s.client.Some? || s.opening.Some? then s else OpenNext(s)
  }

  /** The ticket of an open has arrived: unless it was closed meanwhile, it now has a socket. */
  function TicketNext(s: Session, g: nat): Session {
    if g !in s.outstanding || g in s.closed then s else s.(sockets := s.sockets + {g})
  }

  /** Who closes a connection when its open settles: the provider one that opened too late, the
      client itself one whose socket failed, and nobody one that was refused before it had one. */
  function ClosedBySettling(s: Session, g: nat, ok: bool): set<nat> {
    if (ok && g != s.generation) || (!ok && g in s.sockets) then {g} else {}
  }

  function NoLongerPending(s: Session, g: nat, ok: bool): Session {
    s.(outstanding := s.outstanding - {g},
       pendingClient := if s.pendingClient == Some(g) then None else s.pendingClient,
       closed := s.closed + ClosedBySettling(s, g, ok))
  }

  /** The open of a connection settles: its then, catch and finally in one step. */
  function SettleNext(s: Session, g: nat, ok: bool): Session {
    if g !in s.outstanding || (ok && g !in s.sockets) then s
    else
      var s := NoLongerPending(s, g, ok);
      if g != s.generation then s
      else
        var t := if ok then s.(client := Some(g), opening := None)
                 else s.(screen := s.screen.(live := false), opening := None);
        if t.client.None? && t.wanted && t.attempts > 0 then Schedule(t) else t
  }

  function ClosedNext(s: Session, retryable: bool): Session {
    var t := s.(screen := s.screen.(live := false), client := None);
    if retryable then Schedule(t) else StopReconnect(t)
  }

  /** A callback of a connection's socket; one of an older generation changes nothing that is
      shown or kept, though its connection is closed if it reports ready. */
  function CallNext(s: Session, g: nat, c: Callback): Session {
    if g !in s.sockets then s
    else
      var s := if c.Closed? || (c.Ready? && g != s.generation) then s.(closed := s.closed + {g}) else s;
      if g != s.generation then s
      else match c
        case Ready => s.(screen := s.screen.(live := true))
        case Partial(text) => s.(screen := s.screen.(transcript := Some(text)))
        case Final(heard, stale) =>
          var t := s.(textGeneration := s.textGeneration + 1);
          if heard.None? then t
          else if stale then t.(screen := t.screen.(transcript := heard))
          else t.(preserveShelf := false,
                  screen := t.screen.(transcript := heard, reply := None, proposal := None, order := None,
                                      finalTurns := t.screen.finalTurns + 1))
        case Reply(words) => s.(screen := s.screen.(reply := Some(words)))
        case Items(list) => if s.preserveShelf then s else s.(screen := s.screen.(items := Some(list)))
        case SupportOrder(id) => s.(screen := s.screen.(order := Some(id)))
        case Offer(offer) => s.(screen := s.screen.(proposal := offer))
        case Closed(retryable) => ClosedNext(s, retryable)
  }

  function AsSet(x: Option<nat>): set<nat> { if x.Some? then {x.value} else {} }

  /** Ending the conversation: whatever is open or opening is closed and retired. */
  function Retire(s: Session): Session {
    StopReconnect(s).(generation := s.generation + 1, opening := None, pendingClient := None, client := None,
                      closed := s.closed + AsSet(s.pendingClient) + AsSet(s.client))
  }

  function FinishNext(s: Session): Session {
    Retire(s).(screen := s.screen.(live := false, transcript := None))
  }

  function ResetNext(s: Session): Session {
    Retire(s).(textGeneration := s.textGeneration + 1, screen := BLANK.(finalTurns := s.screen.finalTurns))
  }

  /** A turn has been typed. */
  function Typed(s: Session, text: nat): Session {
    s.(textGeneration := s.textGeneration + 1, preserveShelf := false,
       screen := s.screen.(transcript := Some(text), reply := None, proposal := None, order := None))
  }

  /** A client that did not take a turn is let go. */
  function Dropped(s: Session): Session {
    if s.client.None? then s
    else s.(client := None, generation := s.generation + 1, closed := s.closed + AsSet(s.client),
            screen := s.screen.(live := false))
  }

  /** The newest turn waits for the connection that is opening. */
  function Wait(s: Session): Session {
    s.(waiting := s.waiting + [Waiting(s.textGeneration, if s.opening.Some? then s.opening.value else s.generation)])
  }

  /** A typed turn is sent at once if there is a client that takes it; otherwise it waits. */
  function SayNext(s: Session, text: nat, accepted: bool): Session {
    var t := Typed(s, text);
    if t.client.Some? && accepted then t.(sent := t.sent + [t.textGeneration])
    else Wait(ConnectNext(Dropped(t)))
  }

  /** The connection a turn waited for has settled: only the newest turn is sent. */
  function ResumeNext(s: Session, i: nat, accepted: bool): Session {
    if i >= |s.waiting| || s.waiting[i].awaits in s.outstanding then s
    else
      var turn := s.waiting[i].turn;
      var s := s.(waiting := s.waiting[..i] + s.waiting[i + 1..]);
      if turn != s.textGeneration || s.client.None? || !accepted then s else s.(sent := s.sent + [turn])
  }

  function Next(s: Session, e: Event): Session {
    match e
    case Start => ConnectNext(s.(attempts := 0, armed := 0))
    case Connect => ConnectNext(s)
    case Ticket(g) => TicketNext(s, g)
    case Settle(g, ok) => SettleNext(s, g, ok)
    case Call(g, c) => CallNext(s, g, c)
    case TimerFires =>
      if s.timer.None? then s
      else
        var t := s.(timer := None);
        if t.wanted then ConnectNext(t) else t
    case Finish => FinishNext(s)
    case Reset => ResetNext(s)
    case Say(text, accepted) => SayNext(s, text, accepted)
    case Resume(i, accepted) => ResumeNext(s, i, accepted)
    case CartUpdated => s.(preserveShelf := true)
  }

  function RunAll(s: Session, events: seq<Event>): Session { RunOf(Next, s, events) }

  // ---------------------------------------------------------------- invariants

  const FIRST := Session(None, None, None, 0, 0, 0, None, false, false, BLANK, {}, {}, {}, {}, 0, [], [])

  ghost predicate Connections(s: Session) {
    && (forall g <- s.created :: 0 < g <= s.generation)
    && s.outstanding <= s.created && s.sockets <= s.created
    && (s.client.Some? ==> s.client.value == s.generation && s.generation in s.sockets && s.opening.None?)
    && (s.opening.Some? ==> s.opening.value == s.generation && s.pendingClient == s.opening)
    && (s.pendingClient.Some? ==> s.opening.Some?)
    && (s.generation in s.outstanding <==> s.opening.Some?)
  }

  /** A connection that nothing refers to and that nobody has closed. */
  ghost predicate Leaks(s: Session, g: nat) {
    g in s.created && g !in s.closed && s.client != Some(g) && s.opening != Some(g)
  }

  /** What leaks never had a socket and has settled, so nothing will close it any more. */
  ghost predicate LeaksAreSettled(s: Session) {
    && (forall g <- s.created :: Leaks(s, g) ==> g !in s.outstanding && g !in s.sockets)
    && (forall g <- s.closed :: g in s.created)
    && (forall g <- s.outstanding :: g == s.generation && g in s.closed ==> g in s.sockets)
  }

  ghost predicate Backoff(s: Session) {
    s.attempts == s.armed <= |DELAYS| && (s.timer.Some? ==> s.wanted && s.timer.value in DELAYS)
  }

  ghost predicate Increasing(xs: seq<nat>) { forall i, j :: 0 <= i < j < |xs| ==> xs[i] < xs[j] }

  ghost predicate Turns(s: Session) {
    && Increasing(s.sent) && (forall t <- s.sent :: t <= s.textGeneration)
    && (forall w <- s.waiting :: w.turn <= s.textGeneration && w.turn !in s.sent && w.awaits in s.created)
    && (forall i, j :: 0 <= i < j < |s.waiting| ==> s.waiting[i].turn < s.waiting[j].turn)
  }

  ghost predicate Inv(s: Session) { Connections(s) && LeaksAreSettled(s) && Backoff(s) && Turns(s) }

  lemma {:induction false} ConnectKeepsInv(s: Session)
    requires Inv(s)
    ensures Inv(ConnectNext(s)) && (s.client.None? ==> ConnectNext(s).opening.Some?)
  {
  }

  lemma {:induction false} TicketKeepsInv(s: Session, g: nat)
    requires Inv(s)
    ensures Inv(TicketNext(s, g))
  {
  }

  lemma {:induction false} SettleKeepsInv(s: Session, g: nat, ok: bool)
    requires Inv(s)
    ensures Inv(SettleNext(s, g, ok))
  {
  }

  /** What is shown, and later turns, do not matter to it. */
  lemma {:induction false} ShownKeepsInv(s: Session, screen: Screen, shelf: bool, turn: nat)
    requires Inv(s) && turn >= s.textGeneration
    ensures Inv(s.(screen := screen, preserveShelf := shelf, textGeneration := turn))
  {
  }

  lemma {:induction false} ClosedKeepsInv(s: Session, retryable: bool)
    requires Inv(s) && s.generation in s.closed && s.generation in s.sockets
    ensures Inv(ClosedNext(s, retryable))
  {
  }

  lemma {:induction false} CloseKeepsInv(s: Session, g: nat)
    requires Inv(s) && g in s.sockets
    ensures Inv(s.(closed := s.closed + {g}))
  {
  }

  /** A callback of the current connection, but for its closing, changes what is shown or the
      newest turn and nothing else. */
  lemma {:induction false} ShownOnly(s: Session, c: Callback)
    requires s.generation in s.sockets && !c.Closed?
    ensures var t := CallNext(s, s.generation, c);
            && t.textGeneration >= s.textGeneration
            && t == s.(screen := t.screen, preserveShelf := t.preserveShelf, textGeneration := t.textGeneration)
  {
  }

  lemma {:induction false} CallKeepsInv(s: Session, g: nat, c: Callback)
    requires Inv(s)
    ensures Inv(CallNext(s, g, c))
  {
    if g in s.sockets {
      CloseKeepsInv(s, g);
      if g == s.generation {
        if c.Closed? {
          ClosedKeepsInv(s.(closed := s.closed + {g}), c.retryable);
        } else {
          ShownOnly(s, c);
          var t := CallNext(s, g, c);
          ShownKeepsInv(s, t.screen, t.preserveShelf, t.textGeneration);
        }
      }
    }
  }

  lemma {:induction false} IncreasingExtends(xs: seq<nat>, x: nat)
    requires Increasing(xs) && forall y <- xs :: y < x
    ensures Increasing(xs + [x])
  {
    assert forall i | 0 <= i < |xs| :: xs[i] in xs;
  }

  lemma {:induction false} RetireKeepsInv(s: Session)
    requires Inv(s)
    ensures Inv(FinishNext(s)) && Inv(ResetNext(s))
  {
  }

  ghost predicate Unused(s: Session) {
    s.textGeneration !in s.sent && forall w <- s.waiting :: w.turn < s.textGeneration
  }

  lemma {:induction false} TypedKeepsInv(s: Session, text: nat)
    requires Inv(s)
    ensures Inv(Typed(s, text)) && Unused(Typed(s, text))
  {
  }

  lemma {:induction false} DropKeepsInv(s: Session)
    requires Inv(s)
    ensures Inv(Dropped(s)) && Dropped(s).client.None?
  {
  }

  lemma {:induction false} WaitKeepsInv(s: Session)
    requires Inv(s) && Unused(s) && s.opening.Some?
    ensures Inv(Wait(s))
  {
  }

  lemma {:induction false} SendKeepsInv(s: Session)
    requires Inv(s) && Unused(s)
    ensures Inv(s.(sent := s.sent + [s.textGeneration]))
  {
    IncreasingExtends(s.sent, s.textGeneration);
  }

  lemma {:induction false} SayKeepsInv(s: Session, text: nat, accepted: bool)
    requires Inv(s)
    ensures Inv(SayNext(s, text, accepted))
  {
    TypedKeepsInv(s, text);
    var t := Typed(s, text);
    if t.client.Some? && accepted {
      SendKeepsInv(t);
    } else {
      DropKeepsInv(t);
      ConnectKeepsInv(Dropped(t));
      WaitKeepsInv(ConnectNext(Dropped(t)));
    }
  }

  lemma {:induction false} UnwaitKeepsInv(s: Session, i: nat)
    requires Inv(s) && i < |s.waiting|
    ensures Inv(s.(waiting := s.waiting[..i] + s.waiting[i + 1..]))
  {
    var w := s.waiting[..i] + s.waiting[i + 1..];
    assert forall v <- w :: v in s.waiting;
  }

  /** A turn equal to the newest is the last of those waiting. */
  lemma {:induction false} NewestIsLast(s: Session, i: nat)
    requires Inv(s) && i < |s.waiting| && s.waiting[i].turn == s.textGeneration
    ensures i == |s.waiting| - 1
    ensures forall v <- s.waiting[..i] :: v.turn < s.textGeneration
  {
    var last := s.waiting[|s.waiting| - 1];
    assert last in s.waiting;
  }

  lemma {:induction false} ResumeKeepsInv(s: Session, i: nat, accepted: bool)
    requires Inv(s)
    ensures Inv(ResumeNext(s, i, accepted))
  {
    if i < |s.waiting| {
      UnwaitKeepsInv(s, i);
      assert s.waiting[i] in s.waiting;
      if s.waiting[i].turn == s.textGeneration {
        NewestIsLast(s, i);
        IncreasingExtends(s.sent, s.textGeneration);
      }
    }
  }

  lemma {:induction false} NextKeepsInv(s: Session, e: Event)
    requires Inv(s)
    ensures Inv(Next(s, e))
  {
    match e
    case Start => ConnectKeepsInv(s.(attempts := 0, armed := 0));
    case Connect => ConnectKeepsInv(s);
    case Ticket(g) => TicketKeepsInv(s, g);
    case Settle(g, ok) => SettleKeepsInv(s, g, ok);
    case Call(g, c) => CallKeepsInv(s, g, c);
    case TimerFires =>
      if s.timer.Some? {
        ConnectKeepsInv(s.(timer := None));
      }
    case Say(text, accepted) => SayKeepsInv(s, text, accepted);
    case Resume(i, accepted) => ResumeKeepsInv(s, i, accepted);
    case CartUpdated => ShownKeepsInv(s, s.screen, true, s.textGeneration);
    case _ => RetireKeepsInv(s);
  }

  lemma {:induction false} RunKeepsInv(s: Session, events: seq<Event>)
    requires Inv(s)
    ensures Inv(RunAll(s, events))
    decreases |events|
  {
    if events != [] {
      RunKeepsInv(s, events[..|events| - 1]);
      NextKeepsInv(RunAll(s, events[..|events| - 1]), events[|events| - 1]);
    }
  }

  // ---------------------------------------------------------------- one connection

  /** Over any run: the client, if there is one, is of the current generation and nothing is
      opening beside it; every other connection that ever had a socket has been closed. */
  lemma {:induction false} OneConnection(events: seq<Event>)
    ensures var s := RunAll(FIRST, events);
            && (s.client.Some? ==> s.client.value == s.generation && s.opening.None?)
            && (s.opening.Some? ==> s.opening.value == s.generation && s.opening.value in s.outstanding)
            && (forall g <- s.sockets :: g in s.closed || s.client == Some(g) || s.opening == Some(g))
  {
    RunKeepsInv(FIRST, events);
  }

  /** Somewhere in the run the open of this connection was refused while it was still the one
      opening and had no socket yet: its ticket failed. */
  ghost predicate TicketFailed(events: seq<Event>, g: nat) {
    exists i :: 0 <= i < |events| && events[i] == Settle(g, false)
      && RunAll(FIRST, events[..i]).opening == Some(g) && g !in RunAll(FIRST, events[..i]).sockets
  }

  lemma {:induction false} TicketFailedStep(before: seq<Event>, e: Event, g: nat)
    ensures var s := RunAll(FIRST, before);
            TicketFailed(before + [e], g) <==>
              TicketFailed(before, g) || (e == Settle(g, false) && s.opening == Some(g) && g !in s.sockets)
  {
    var events := before + [e];
    assert events[..|before|] == before && events[|before|] == e;
    assert forall i :: 0 <= i < |before| ==> events[i] == before[i] && events[..i] == before[..i];
  }

  lemma {:induction false} SettleLeaks(s: Session, of: nat, ok: bool, g: nat)
    requires Inv(s)
    ensures Leaks(SettleNext(s, of, ok), g) <==>
              Leaks(s, g) || (of == g && !ok && s.opening == Some(g) && g !in s.sockets)
  {
  }

  lemma {:induction false} CallLeaks(s: Session, from: nat, c: Callback, g: nat)
    requires Inv(s)
    ensures Leaks(CallNext(s, from, c), g) <==> Leaks(s, g)
  {
  }

  lemma {:induction false} ConnectLeaks(s: Session, g: nat)
    requires Inv(s)
    ensures Leaks(ConnectNext(s), g) <==> Leaks(s, g)
  {
  }

  lemma {:induction false} SayLeaks(s: Session, text: nat, accepted: bool, g: nat)
    requires Inv(s)
    ensures Leaks(SayNext(s, text, accepted), g) <==> Leaks(s, g)
  {
    TypedKeepsInv(s, text);
    DropKeepsInv(Typed(s, text));
    ConnectLeaks(Dropped(Typed(s, text)), g);
  }

  lemma {:induction false} StepLeaks(s: Session, e: Event, g: nat)
    requires Inv(s)
    ensures Leaks(Next(s, e), g) <==>
              Leaks(s, g) || (e == Settle(g, false) && s.opening == Some(g) && g !in s.sockets)
  {
    match e
    case Start => ConnectLeaks(s.(attempts := 0, armed := 0), g);
    case Connect => ConnectLeaks(s, g);
    case Settle(of, ok) => SettleLeaks(s, of, ok, g);
    case Call(from, c) => CallLeaks(s, from, c, g);
    case TimerFires =>
      if s.timer.Some? {
        ConnectLeaks(s.(timer := None), g);
      }
    case Say(text, accepted) => SayLeaks(s, text, accepted, g);
    case _ =>
  }

  /** A connection that is no longer the current one is left unclosed if and only if its ticket
      failed while it was opening: no one closes a client that never got a socket, and finishing
      or resetting first is what would have. */
  lemma {:induction false} LeaksIff(events: seq<Event>, g: nat)
    ensures Leaks(RunAll(FIRST, events), g) <==> TicketFailed(events, g)
    decreases |events|
  {
    if events != [] {
      var before, last := events[..|events| - 1], events[|events| - 1];
      LeaksIff(before, g);
      RunKeepsInv(FIRST, before);
      StepLeaks(RunAll(FIRST, before), last, g);
      assert events == before + [last];
      TicketFailedStep(before, last, g);
    }
  }

  /** One failed ticket is enough. */
  lemma {:induction false} FailedTicketLeaks()
    ensures var s := RunAll(FIRST, [Start, Settle(1, false)]);
            Leaks(s, 1) && s.client.None? && s.opening.None? && s.pendingClient.None?
  {
    assert [Start, Settle(1, false)][..1] == [Start] && [Start][..0] == [];
    assert RunAll(FIRST, [Start]) == ConnectNext(FIRST);
  }

  lemma {:induction false} CallGrows(s: Session, g: nat, c: Callback)
    ensures var t := CallNext(s, g, c);
            s.generation <= t.generation && s.textGeneration <= t.textGeneration && t.sent == s.sent
  {
  }

  lemma {:induction false} NextGrows(s: Session, e: Event)
    ensures s.generation <= Next(s, e).generation && s.textGeneration <= Next(s, e).textGeneration
  {
    if e.Call? {
      CallGrows(s, e.from, e.callback);
    }
  }

  lemma {:induction false} GenerationGrows(s: Session, events: seq<Event>)
    ensures s.generation <= RunAll(s, events).generation && s.textGeneration <= RunAll(s, events).textGeneration
    decreases |events|
  {
    if events != [] {
      GenerationGrows(s, events[..|events| - 1]);
      NextGrows(RunAll(s, events[..|events| - 1]), events[|events| - 1]);
    }
  }

  /** A connection of an older generation is silenced for good: however the session goes on, no
      callback of it, and no settling of its open, changes anything but the record of closings. */
  lemma {:induction false} RetiredIsSilent(s: Session, events: seq<Event>, g: nat, c: Callback, ok: bool)
    requires Inv(s) && g < s.generation
    ensures var t := RunAll(s, events);
            && CallNext(t, g, c).(closed := t.closed) == t
            && SettleNext(t, g, ok).(closed := t.closed, outstanding := t.outstanding) == t
  {
    GenerationGrows(s, events);
    RunKeepsInv(s, events);
  }

  /** Events nobody asked for: tickets, settlings, callbacks, the timer and turns resuming. */
  predicate Unasked(e: Event) { e.Ticket? || e.Settle? || e.Call? || e.TimerFires? || e.Resume? }

  ghost predicate Quiet(s: Session) {
    s.client.None? && s.opening.None? && s.timer.None? && !s.wanted && s.attempts == 0 && s.generation !in s.created
  }

  lemma {:induction false} UnaskedKeepsQuiet(s: Session, e: Event)
    requires Inv(s) && Quiet(s) && Unasked(e)
    ensures Quiet(Next(s, e)) && Next(s, e).sent == s.sent
  {
  }

  /** After finishing or resetting, nothing reconnects, listens or sends until the buyer acts. */
  lemma {:induction false} FinishedStaysQuiet(s: Session, events: seq<Event>)
    requires Inv(s) && forall e <- events :: Unasked(e)
    ensures Quiet(FinishNext(s)) && Quiet(ResetNext(s))
    ensures Quiet(RunAll(FinishNext(s), events)) && RunAll(FinishNext(s), events).sent == s.sent
    ensures Quiet(RunAll(ResetNext(s), events)) && RunAll(ResetNext(s), events).sent == s.sent
  {
    RetireKeepsInv(s);
    StaysQuiet(FinishNext(s), events);
    StaysQuiet(ResetNext(s), events);
  }

  lemma {:induction false} StaysQuiet(s: Session, events: seq<Event>)
    requires Inv(s) && Quiet(s) && forall e <- events :: Unasked(e)
    ensures Quiet(RunAll(s, events)) && RunAll(s, events).sent == s.sent
    decreases |events|
  {
    if events != [] {
      var before, last := events[..|events| - 1], events[|events| - 1];
      assert last in events && forall e <- before :: e in events;
      StaysQuiet(s, before);
      RunKeepsInv(s, before);
      UnaskedKeepsQuiet(RunAll(s, before), last);
    }
  }

  // ---------------------------------------------------------------- reconnection

  /** Over any run: at most three reconnections are armed between resets of the counter, each
      with the next delay, and only while the buyer wants voice. */
  lemma {:induction false} BoundedReconnects(events: seq<Event>)
    ensures var s := RunAll(FIRST, events);
            && s.armed == s.attempts <= 3 && (s.timer.Some? ==> s.wanted && s.timer.value in {1000, 2000, 4000})
            && (Schedule(s) != s ==> s.attempts < 3 && Schedule(s).timer == Some(DELAYS[s.attempts]))
  {
    RunKeepsInv(FIRST, events);
  }

  // ---------------------------------------------------------------- typed turns

  /** Over any run typed turns are sent in the order they were typed, none twice; */
  lemma {:induction false} TurnsAreSentInOrder(events: seq<Event>)
    ensures Increasing(RunAll(FIRST, events).sent)
  {
    RunKeepsInv(FIRST, events);
  }

  lemma {:induction false} NextSends(s: Session, e: Event)
    ensures var t := Next(s, e);
            t.sent == s.sent || (t.sent == s.sent + [t.textGeneration] && t.textGeneration >= s.textGeneration)
  {
    if e.Call? {
      CallGrows(s, e.from, e.callback);
    }
  }

  /** and a turn that was superseded before it was sent is never sent. */
  lemma {:induction false} SupersededIsNeverSent(s: Session, events: seq<Event>, turn: nat)
    requires turn < s.textGeneration && turn !in s.sent
    ensures turn !in RunAll(s, events).sent
    decreases |events|
  {
    if events != [] {
      SupersededIsNeverSent(s, events[..|events| - 1], turn);
      GenerationGrows(s, events[..|events| - 1]);
      NextSends(RunAll(s, events[..|events| - 1]), events[|events| - 1]);
    }
  }

  /** Of the turns waiting, one can be sent, and it is the last one. */
  lemma {:induction false} OnlyTheNewestIsSent(s: Session, i: nat, accepted: bool)
    requires Inv(s) && i < |s.waiting|
    ensures var t := ResumeNext(s, i, accepted);
            t.sent != s.sent ==> i == |s.waiting| - 1 && t.sent == s.sent + [s.textGeneration]
                                 && s.waiting[i].turn == s.textGeneration && s.client == Some(s.generation)
  {
    if s.waiting[i].turn == s.textGeneration {
      NewestIsLast(s, i);
    }
  }

  // ---------------------------------------------------------------- what each event does

  /** The connection is the current one and has its socket. */
  ghost predicate Current(s: Session, g: nat) { g == s.generation && g in s.sockets }

  /** The open of the current connection settles. */
  ghost predicate OpeningSettles(s: Session, e: Event, ok: bool) {
    e == Settle(s.generation, ok) && s.generation in s.outstanding && (ok ==> s.generation in s.sockets)
  }

  /** A turn is typed that no client takes. */
  ghost predicate TypedAway(s: Session, e: Event) { e.Say? && !(s.client.Some? && e.accepted) }

  /** The conversation is over: the buyer's doing, or a close that is not to be retried. */
  ghost predicate Ends(s: Session, e: Event) {
    e.Finish? || e.Reset? || (e == Call(s.generation, Closed(false)) && s.generation in s.sockets)
  }

  /** A reconnection is armed if and only if voice is wanted, none is armed, fewer than three were, and
      the current connection closed in a way to be retried or a reconnection's open failed. */
  ghost predicate Arms(s: Session, e: Event) {
    && s.wanted && s.timer.None? && s.attempts < 3
    && ((e == Call(s.generation, Closed(true)) && s.generation in s.sockets)
        || (OpeningSettles(s, e, false) && s.attempts > 0))
  }

  lemma {:induction false} OtherCallsShow(s: Session, e: Event)
    requires e.Call? && !(Current(s, e.from) && e.callback.Closed?)
    ensures var t := Next(s, e);
            t == s.(closed := t.closed, screen := t.screen, preserveShelf := t.preserveShelf,
                    textGeneration := t.textGeneration)
  {
  }

  lemma {:induction false} CurrentCloses(s: Session, e: Event)
    requires e.Call? && Current(s, e.from) && e.callback.Closed?
    ensures Next(s, e) == ClosedNext(s.(closed := s.closed + {e.from}), e.callback.retryable)
  {
  }

  /** The wish, the counter and the timer after any event: the delays are one, two and four seconds. */
  ghost predicate ReconnectsRight(s: Session, e: Event, t: Session) {
    && (t.wanted <==> e.Start? || e.Connect? || TypedAway(s, e) || (s.wanted && !Ends(s, e)))
    && t.attempts == (if e.Start? || Ends(s, e) then 0 else if Arms(s, e) then s.attempts + 1 else s.attempts)
    && t.timer == (if Arms(s, e) then Some(if s.attempts == 0 then 1000 else if s.attempts == 1 then 2000 else 4000)
                   else if Ends(s, e) || e.TimerFires? then None else s.timer)
  }

  lemma {:induction false} ReconnectsRightOnCall(s: Session, e: Event)
    requires Inv(s) && e.Call?
    ensures ReconnectsRight(s, e, Next(s, e))
  {
    if Current(s, e.from) && e.callback.Closed? {
      CurrentCloses(s, e);
    } else {
      OtherCallsShow(s, e);
    }
  }

  lemma {:induction false} ReconnectsRightOnSay(s: Session, e: Event)
    requires Inv(s) && e.Say?
    ensures ReconnectsRight(s, e, Next(s, e))
  {
  }

  lemma {:induction false} ReconnectsRightOnSettle(s: Session, e: Event)
    requires Inv(s) && e.Settle?
    ensures ReconnectsRight(s, e, Next(s, e))
  {
  }

  lemma {:induction false} ReconnectsRightOnOther(s: Session, e: Event)
    requires Inv(s) && !e.Call? && !e.Say? && !e.Settle?
    ensures ReconnectsRight(s, e, Next(s, e))
  {
  }

  lemma {:induction false} ReconnectionIs(s: Session, e: Event)
    requires Inv(s)
    ensures ReconnectsRight(s, e, Next(s, e))
  {
    if e.Call? {
      ReconnectsRightOnCall(s, e);
    } else if e.Say? {
      ReconnectsRightOnSay(s, e);
    } else if e.Settle? {
      ReconnectsRightOnSettle(s, e);
    } else {
      ReconnectsRightOnOther(s, e);
    }
  }

  /** The event asks for a connection. */
  ghost predicate Asks(s: Session, e: Event) {
    e.Start? || e.Connect? || (e.TimerFires? && s.timer.Some? && s.wanted)
  }

  /** A connection is opened if and only if one is asked for, or a turn typed that no client takes,
      while none is opening and there is no client but one that just let a turn go; it has the next
      generation and is the one pending and opening. */
  ghost predicate OpensRight(s: Session, e: Event, t: Session) {
    var opens := (Asks(s, e) && s.client.None? && s.opening.None?)
                 || (TypedAway(s, e) && s.opening.None?);
    && t.created == (if opens then s.created + {t.generation} else s.created)
    && (opens ==> && t.opening == Some(t.generation) && t.pendingClient == Some(t.generation)
                  && t.outstanding == s.outstanding + {t.generation} && t.client.None?)
    && t.generation == s.generation + (if opens then 1 else 0)
         + (if e.Finish? || e.Reset? || (TypedAway(s, e) && s.client.Some?) then 1 else 0)
  }

  lemma {:induction false} OpensRightOnCall(s: Session, e: Event)
    requires Inv(s) && e.Call?
    ensures OpensRight(s, e, Next(s, e))
  {
  }

  lemma {:induction false} OpensRightOnSay(s: Session, e: Event)
    requires Inv(s) && e.Say?
    ensures OpensRight(s, e, Next(s, e))
  {
  }

  lemma {:induction false} OpensRightOnSettle(s: Session, e: Event)
    requires Inv(s) && e.Settle?
    ensures OpensRight(s, e, Next(s, e))
  {
  }

  lemma {:induction false} OpensRightOnOther(s: Session, e: Event)
    requires Inv(s) && !e.Call? && !e.Say? && !e.Settle?
    ensures OpensRight(s, e, Next(s, e))
  {
  }

  lemma {:induction false} OpensIff(s: Session, e: Event)
    requires Inv(s)
    ensures OpensRight(s, e, Next(s, e))
  {
    if e.Call? {
      OpensRightOnCall(s, e);
    } else if e.Say? {
      OpensRightOnSay(s, e);
    } else if e.Settle? {
      OpensRightOnSettle(s, e);
    } else {
      OpensRightOnOther(s, e);
    }
  }

  /** Who has a socket, whose open is outstanding, which connection is the client, and which was closed. */
  ghost predicate ConnectsRight(s: Session, e: Event, t: Session) {
    && t.sockets == s.sockets + (if e.Ticket? && e.of in s.outstanding && e.of !in s.closed then {e.of} else {})
    && t.client == (if OpeningSettles(s, e, true) then Some(s.generation)
                    else if e.Finish? || e.Reset? || TypedAway(s, e)
                            || (e.Call? && Current(s, e.from) && e.callback.Closed?) then None
                    else s.client)
    && t.opening == (if OpeningSettles(s, e, true) || OpeningSettles(s, e, false) || e.Finish? || e.Reset? then None
                     else if t.created != s.created then Some(t.generation) else s.opening)
    && (t.created == s.created ==>
          t.outstanding == s.outstanding - (if e.Settle? && (e.ok ==> e.of in s.sockets) then {e.of} else {}))
  }

  lemma {:induction false} ConnectsRightOnCall(s: Session, e: Event)
    requires Inv(s) && e.Call?
    ensures ConnectsRight(s, e, Next(s, e))
  {
    if Current(s, e.from) && e.callback.Closed? {
      CurrentCloses(s, e);
    } else {
      OtherCallsShow(s, e);
    }
  }

  lemma {:induction false} ConnectsRightOnSay(s: Session, e: Event)
    requires Inv(s) && e.Say?
    ensures ConnectsRight(s, e, Next(s, e))
  {
  }

  lemma {:induction false} ConnectsRightOnSettle(s: Session, e: Event)
    requires Inv(s) && e.Settle?
    ensures ConnectsRight(s, e, Next(s, e))
  {
  }

  lemma {:induction false} ConnectsRightOnOther(s: Session, e: Event)
    requires Inv(s) && !e.Call? && !e.Say? && !e.Settle?
    ensures ConnectsRight(s, e, Next(s, e))
  {
  }

  lemma {:induction false} ConnectionsAre(s: Session, e: Event)
    requires Inv(s)
    ensures ConnectsRight(s, e, Next(s, e))
  {
    if e.Call? {
      ConnectsRightOnCall(s, e);
    } else if e.Say? {
      ConnectsRightOnSay(s, e);
    } else if e.Settle? {
      ConnectsRightOnSettle(s, e);
    } else {
      ConnectsRightOnOther(s, e);
    }
  }

  /** What is closed: at the end the client and what is opening; a client that let a turn go; what opens
      too late, or fails with a socket; and what its own socket reports closed or ready too late. */
  ghost predicate ClosesRight(s: Session, e: Event, t: Session, g: nat) {
    g in t.closed <==>
      || g in s.closed
      || ((e.Finish? || e.Reset?) && (s.client == Some(g) || s.opening == Some(g)))
      || (TypedAway(s, e) && s.client == Some(g))
      || (e.Settle? && e.of == g && g in s.outstanding && g in s.sockets && (e.ok ==> g != s.generation))
      || (e.Call? && e.from == g && g in s.sockets
          && (e.callback.Closed? || (e.callback.Ready? && g != s.generation)))
  }

  lemma {:induction false} ClosesRightOnCall(s: Session, e: Event, g: nat)
    requires Inv(s) && e.Call?
    ensures ClosesRight(s, e, Next(s, e), g)
  {
    if Current(s, e.from) && e.callback.Closed? {
      CurrentCloses(s, e);
    } else {
      OtherCallsShow(s, e);
    }
  }

  lemma {:induction false} ClosesRightOnSay(s: Session, e: Event, g: nat)
    requires Inv(s) && e.Say?
    ensures ClosesRight(s, e, Next(s, e), g)
  {
  }

  lemma {:induction false} ClosesRightOnSettle(s: Session, e: Event, g: nat)
    requires Inv(s) && e.Settle?
    ensures ClosesRight(s, e, Next(s, e), g)
  {
  }

  lemma {:induction false} ClosesRightOnOther(s: Session, e: Event, g: nat)
    requires Inv(s) && !e.Call? && !e.Say? && !e.Settle?
    ensures ClosesRight(s, e, Next(s, e), g)
  {
  }

  lemma {:induction false} ClosesIff(s: Session, e: Event, g: nat)
    requires Inv(s)
    ensures ClosesRight(s, e, Next(s, e), g)
  {
    if e.Call? {
      ClosesRightOnCall(s, e, g);
    } else if e.Say? {
      ClosesRightOnSay(s, e, g);
    } else if e.Settle? {
      ClosesRightOnSettle(s, e, g);
    } else {
      ClosesRightOnOther(s, e, g);
    }
  }

  /** What is shown after a callback of the current connection, and the turn it belongs to. */
  lemma {:induction false} CallbackShows(s: Session, c: Callback)
    requires s.generation in s.sockets
    ensures var t := Next(s, Call(s.generation, c)); var was := s.screen;
            && t.textGeneration == s.textGeneration + (if c.Final? then 1 else 0)
            && t.preserveShelf == (s.preserveShelf && !(c.Final? && c.heard.Some? && !c.stale))
            && t.screen ==
                 match c
                 case Ready =>
                   Screen(true, was.transcript, was.reply, was.proposal, was.order, was.items, was.finalTurns)
                 case Partial(text) =>
                   Screen(was.live, Some(text), was.reply, was.proposal, was.order, was.items, was.finalTurns)
                 case Final(None, _) => was
                 case Final(heard, true) =>
                   Screen(was.live, heard, was.reply, was.proposal, was.order, was.items, was.finalTurns)
                 case Final(heard, false) => Screen(was.live, heard, None, None, None, was.items, was.finalTurns + 1)
                 case Reply(words) =>
                   Screen(was.live, was.transcript, Some(words), was.proposal, was.order, was.items, was.finalTurns)
                 case Items(list) =>
                   Screen(was.live, was.transcript, was.reply, was.proposal, was.order,
                          if s.preserveShelf then was.items else Some(list), was.finalTurns)
                 case SupportOrder(id) =>
                   Screen(was.live, was.transcript, was.reply, was.proposal, Some(id), was.items, was.finalTurns)
                 case Offer(offer) =>
                   Screen(was.live, was.transcript, was.reply, offer, was.order, was.items, was.finalTurns)
                 case Closed(_) =>
                   Screen(false, was.transcript, was.reply, was.proposal, was.order, was.items, was.finalTurns)
  {
  }

  /** What any other event does to the page, the newest turn and the shelf. */
  lemma {:induction false} EventShows(s: Session, e: Event)
    requires Inv(s) && !e.Call?
    ensures var t := Next(s, e); var was := s.screen;
            && t.textGeneration == s.textGeneration + (if e.Say? || e.Reset? then 1 else 0)
            && t.preserveShelf == (e.CartUpdated? || (s.preserveShelf && !e.Say?))
            && t.screen ==
                 (if e.Say? then Screen(was.live && !(s.client.Some? && !e.accepted), Some(e.text), None, None, None,
                                        was.items, was.finalTurns)
                  else if e.Finish?
                  then Screen(false, None, was.reply, was.proposal, was.order, was.items, was.finalTurns)
                  else if e.Reset? then Screen(false, None, None, None, None, None, was.finalTurns)
                  else if OpeningSettles(s, e, false)
                  then Screen(false, was.transcript, was.reply, was.proposal, was.order, was.items, was.finalTurns)
                  else was)
  {
  }

  /** A typed turn is sent at once if a client takes it; else it waits for the one connection that is
      opening. A waiting turn is done with when that connection settles, and sent if it is the newest
      and a client takes it. Nothing else touches the turns. */
  ghost predicate TurnsRight(s: Session, e: Event, t: Session) {
    var resumes := e.Resume? && e.index < |s.waiting| && s.waiting[e.index].awaits !in s.outstanding;
    && t.sent == (if e.Say? && s.client.Some? && e.accepted then s.sent + [s.textGeneration + 1]
                  else if resumes && s.waiting[e.index].turn == s.textGeneration && s.client.Some? && e.accepted
                  then s.sent + [s.textGeneration] else s.sent)
    && t.waiting == (if TypedAway(s, e) then s.waiting + [Waiting(s.textGeneration + 1, t.generation)]
                     else if resumes then s.waiting[..e.index] + s.waiting[e.index + 1..] else s.waiting)
    && (TypedAway(s, e) ==> t.opening == Some(t.generation) && t.generation in t.outstanding)
  }

  lemma {:induction false} TurnsRightOnCall(s: Session, e: Event)
    requires Inv(s) && e.Call?
    ensures TurnsRight(s, e, Next(s, e))
  {
  }

  lemma {:induction false} TurnsRightOnSay(s: Session, e: Event)
    requires Inv(s) && e.Say?
    ensures TurnsRight(s, e, Next(s, e))
  {
  }

  lemma {:induction false} TurnsRightOnSettle(s: Session, e: Event)
    requires Inv(s) && e.Settle?
    ensures TurnsRight(s, e, Next(s, e))
  {
  }

  lemma {:induction false} TurnsRightOnOther(s: Session, e: Event)
    requires Inv(s) && !e.Call? && !e.Say? && !e.Settle?
    ensures TurnsRight(s, e, Next(s, e))
  {
  }

  lemma {:induction false} TurnsAre(s: Session, e: Event)
    requires Inv(s)
    ensures TurnsRight(s, e, Next(s, e))
  {
    if e.Call? {
      TurnsRightOnCall(s, e);
    } else if e.Say? {
      TurnsRightOnSay(s, e);
    } else if e.Settle? {
      TurnsRightOnSettle(s, e);
    } else {
      TurnsRightOnOther(s, e);
    }
  }

  /** At first there is nothing: no connection, no wish, no turn, and an empty page. */
  lemma {:induction false} NothingAtFirst()
    ensures FIRST == Session(None, None, None, 0, 0, 0, None, false, false,
                             Screen(false, None, None, None, None, None, 0), {}, {}, {}, {}, 0, [], [])
  {
  }

  /** The shelf that stood when the cart was last updated stays until the buyer speaks or types, or
      resets the page. */
  lemma {:induction false} ShelfIsKept(s: Session, events: seq<Event>)
    requires Inv(s) && s.preserveShelf
    requires forall e <- events :: !e.Say? && !e.Reset? && !(e.Call? && e.callback.Final?)
    ensures var t := RunAll(s, events); t.preserveShelf && t.screen.items == s.screen.items
    decreases |events|
  {
    if events != [] {
      var before, last := events[..|events| - 1], events[|events| - 1];
      assert last in events && forall e <- before :: e in events;
      ShelfIsKept(s, before);
      RunKeepsInv(s, before);
      ShelfStep(RunAll(s, before), last);
    }
  }

  lemma {:induction false} ShelfStep(s: Session, e: Event)
    requires Inv(s) && s.preserveShelf && !e.Say? && !e.Reset? && !(e.Call? && e.callback.Final?)
    ensures Next(s, e).preserveShelf && Next(s, e).screen.items == s.screen.items
  {
    if e.Call? && Current(s, e.from) {
      CallbackShows(s, e.callback);
    } else if !e.Call? {
      EventShows(s, e);
    }
  }

  // ---------------------------------------------------------------- the provider

  /** `VoiceSessionProvider` with its history. */
  class VoiceSessionProvider {
    var client: Option<nat>
    var pendingClient: Option<nat>
    var opening: Option<nat>
    var connectionGeneration: nat
    var textGeneration: nat
    var reconnectAttempts: nat
    var reconnectTimer: Option<nat>
    var voiceWanted: bool
    var preserveCartShelf: bool
    var screen: Screen
    ghost var created: set<nat>
    ghost var closed: set<nat>
    ghost var sockets: set<nat>
    ghost var outstanding: set<nat>
    ghost var armed: nat
    ghost var waiting: seq<Waiting>
    ghost var sent: seq<nat>

    ghost function State(): Session
      reads this
    {
      Session(client, pendingClient, opening, connectionGeneration, textGeneration, reconnectAttempts, reconnectTimer,
              voiceWanted, preserveCartShelf, screen, created, closed, sockets, outstanding, armed, waiting, sent)
    }

    constructor ()
      ensures State() == FIRST
    {
      client, pendingClient, opening, connectionGeneration, textGeneration := None, None, None, 0, 0;
      reconnectAttempts, reconnectTimer, voiceWanted, preserveCartShelf, screen := 0, None, false, false, BLANK;
      created, closed, sockets, outstanding, armed, waiting, sent := {}, {}, {}, {}, 0, [], [];
    }

    method StopReconnecting()
      modifies this
      ensures State() == StopReconnect(old(State()))
    {
      voiceWanted := false;
      reconnectAttempts, armed := 0, 0;
      reconnectTimer := None;
    }

    method ScheduleReconnect()
      modifies this
      ensures State() == Schedule(old(State()))
    {
      if !voiceWanted || reconnectTimer.Some? || reconnectAttempts >= 3 {
        return;
      }
      reconnectTimer := Some(DELAYS[reconnectAttempts]);
      reconnectAttempts, armed := reconnectAttempts + 1, armed + 1;
    }

    method OpenConnection()
      modifies this
      ensures State() == OpenNext(old(State()))
    {
      connectionGeneration := connectionGeneration + 1;
      pendingClient, opening := Some(connectionGeneration), Some(connectionGeneration);
      created, outstanding := created + {connectionGeneration}, outstanding + {connectionGeneration};
    }

    method ConnectNow()
      modifies this
      ensures State() == Next(old(State()), Connect)
    {
      voiceWanted := true;
      if client.Some? || opening.Some? {
        return;
      }
      OpenConnection();
    }

    method StartListening()
      modifies this
      ensures State() == Next(old(State()), Start)
    {
      reconnectAttempts, armed := 0, 0;
      ConnectNow();
    }

    /** The client has its ticket and makes a socket of it. */
    method TicketArrived(g: nat)
      requires g in outstanding
      modifies this`sockets
      ensures State() == Next(old(State()), Ticket(g))
    {
      if g !in closed {
        sockets := sockets + {g};
      }
    }

    /** The end of `finally`, for the current generation. */
    method OpeningOver()
      modifies this
      ensures var t := old(State()).(opening := None);
              State() == if t.client.None? && t.wanted && t.attempts > 0 then Schedule(t) else t
    {
      opening := None;
      if client.None? && voiceWanted && reconnectAttempts > 0 {
        ScheduleReconnect();
      }
    }

    method LeavePending(g: nat, ok: bool)
      modifies this
      ensures State() == NoLongerPending(old(State()), g, ok)
    {
      outstanding := outstanding - {g};
      if (ok && g != connectionGeneration) || (!ok && g in sockets) {
        closed := closed + {g};
      }
      if pendingClient == Some(g) {
        pendingClient := None;
      }
    }

    /** The promise of `open`: then, catch and finally. */
    method OpenSettled(g: nat, ok: bool)
      requires g in outstanding && (ok ==> g in sockets)
      modifies this
      ensures State() == Next(old(State()), Settle(g, ok))
    {
      LeavePending(g, ok);
      if g != connectionGeneration {
        return;
      }
      if ok {
        client := Some(g);
      } else {
        screen := screen.(live := false);
      }
      OpeningOver();
    }

    /** `onClosed`. */
    method ConnectionClosed(g: nat, retryable: bool)
      requires g in sockets
      modifies this
      ensures State() == Next(old(State()), Call(g, Closed(retryable)))
    {
      closed := closed + {g};
      if g != connectionGeneration {
        return;
      }
      screen := screen.(live := false);
      client := None;
      if retryable {
        ScheduleReconnect();
      } else {
        StopReconnecting();
      }
    }

    /** `onFinal`. */
    method HeardFinal(g: nat, heard: Option<nat>, stale: bool)
      requires g in sockets
      modifies this
      ensures State() == Next(old(State()), Call(g, Final(heard, stale)))
    {
      if g != connectionGeneration {
        return;
      }
      textGeneration := textGeneration + 1;
      if heard.Some? && !stale {
        preserveCartShelf := false;
        screen := screen.(finalTurns := screen.finalTurns + 1, reply := None, proposal := None, order := None);
      }
      if heard.Some? {
        screen := screen.(transcript := heard);
      }
    }

    method ReconnectTimerFired()
      requires reconnectTimer.Some?
      modifies this
      ensures State() == Next(old(State()), TimerFires)
    {
      reconnectTimer := None;
      if voiceWanted {
        ConnectNow();
      }
    }

    method RetireConnections()
      modifies this
      ensures State() == Retire(old(State()))
    {
      StopReconnecting();
      connectionGeneration := connectionGeneration + 1;
      opening := None;
      closed := closed + AsSet(pendingClient);
      pendingClient := None;
      closed := closed + AsSet(client);
      client := None;
    }

    method CartWasUpdated()
      modifies this`preserveCartShelf
      ensures State() == Next(old(State()), CartUpdated)
    {
      preserveCartShelf := true;
    }

    method FinishListening()
      modifies this
      ensures State() == Next(old(State()), Finish)
    {
      RetireConnections();
      screen := screen.(live := false, transcript := None);
    }

    method ResetSession()
      modifies this
      ensures State() == Next(old(State()), Reset)
    {
      RetireConnections();
      textGeneration := textGeneration + 1;
      screen := BLANK.(finalTurns := screen.finalTurns);
    }

    method TypeTurn(text: nat)
      modifies this
      ensures State() == Typed(old(State()), text)
    {
      preserveCartShelf := false;
      textGeneration := textGeneration + 1;
      screen := screen.(transcript := Some(text), reply := None, proposal := None, order := None);
    }

    method LetClientGo()
      modifies this
      ensures State() == Dropped(old(State()))
    {
      if client.Some? {
        closed := closed + AsSet(client);
        client := None;
        connectionGeneration := connectionGeneration + 1;
        screen := screen.(live := false);
      }
    }

    /** `accepted` is whether the client, if there is one, takes the text. */
    method SayText(text: nat, accepted: bool)
      modifies this
      ensures State() == Next(old(State()), Say(text, accepted))
    {
      TypeTurn(text);
      if client.Some? && accepted {
        sent := sent + [textGeneration];
        return;
      }
      LetClientGo();
      ConnectNow();
      waiting := waiting + [Waiting(textGeneration, if opening.Some? then opening.value else connectionGeneration)];
    }

    /** What `say` does once the connection it waited for has settled. */
    method WaitedTurn(i: nat, accepted: bool)
      requires i < |waiting| && waiting[i].awaits !in outstanding
      modifies this
      ensures State() == Next(old(State()), Resume(i, accepted))
    {
      ghost var turn := waiting[i].turn;
      waiting := waiting[..i] + waiting[i + 1..];
      if turn == textGeneration && client.Some? && accepted {
        sent := sent + [turn];
      }
    }
  }
}
