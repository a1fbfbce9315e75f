/** The backend's idempotency record and the network in front of it. Every mutation the clients
    send is keyed; the record commits with the effect it describes. */
module Idempotency {
  import opened Common

  datatype Record<Q, A> = Record(request: Q, answer: A)

  /** One execution: the key and request that ran, and the state it ran on. */
  datatype Effect<K, Q, S> = Effect(key: K, request: Q, before: S)

  datatype Server<!K, Q, A, S> = Server(records: map<K, Record<Q, A>>, state: S, log: seq<Effect<K, Q, S>>)

  /** What the sender learns. `Unknown` is a transport failure or a 5xx answer: it says nothing
      about whether the mutation happened. */
  datatype Outcome<A> = Answered(answer: A) | Refused | Unknown

  /** What happens to one delivery. `barred` is a refusal that precedes the record (a session
      or rate limit), `refuses` one by the operation itself; a refused operation rolls its
      claim back. */
  datatype Link = Link(reaches: bool, barred: bool, refuses: bool, answers: bool)

  /** An unused key runs; a used one replays for the same request and is refused for another. */
  function Handle<K, Q(==), A, S>(server: Server<K, Q, A, S>, key: K, request: Q, refuses: bool,
                                  run: (S, Q) -> (S, A)): (Server<K, Q, A, S>, Outcome<A>)
  {
    if key in server.records then
      var kept := server.records[key];
      (server, if kept.request == request then Answered(kept.answer) else Refused)
    else if refuses then (server, Refused)
    else
      var (state, answer) := run(server.state, request);
      (Server(server.records[key := Record(request, answer)], state,
              server.log + [Effect(key, request, server.state)]), Answered(answer))
  }

  function Send<K, Q(==), A, S>(server: Server<K, Q, A, S>, key: K, request: Q, link: Link,
                                run: (S, Q) -> (S, A)): (Server<K, Q, A, S>, Outcome<A>)
  {
    if !link.reaches then (server, Unknown)
    else
      var (after, outcome) :=
        if link.barred then (server, Refused) else Handle(server, key, request, link.refuses, run);
      (after, if link.answers then outcome else Unknown)
  }

  /** Each key in the log ran once, and exactly the keys that ran have a record. */
  ghost predicate Once<K, Q, A, S>(server: Server<K, Q, A, S>) {
    && (forall i, j :: 0 <= i < j < |server.log| ==> server.log[i].key != server.log[j].key)
    && (forall e <- server.log :: e.key in server.records && server.records[e.key].request == e.request)
    && (forall k <- server.records :: exists e <- server.log :: e.key == k)
  }

  /** Whatever is delivered, under whatever key and however often, nothing runs twice; an answer
      means that the request is the one that ran under that key, and a refusal that nothing ran. */
  lemma SendKeepsOnce<K, Q, A, S>(server: Server<K, Q, A, S>, key: K, request: Q, link: Link, run: (S, Q) -> (S, A))
    requires Once(server)
    ensures var (after, outcome) := Send(server, key, request, link, run);
            && Once(after)
            && (after == server ||
                (key !in server.records && after.log == server.log + [Effect(key, request, server.state)]))
            && (outcome.Answered? ==> key in after.records && after.records[key] == Record(request, outcome.answer))
            && (outcome.Refused? ==> after == server)
  {
    var (after, outcome) := Send(server, key, request, link, run);
    if after != server {
      assert after.log[|server.log|].key == key;
      forall k <- after.records ensures exists e <- after.log :: e.key == k {
        if k == key {
          assert after.log[|server.log|] in after.log;
        } else {
          var e :| e in server.log && e.key == k;
          assert e in after.log;
        }
      }
    }
  }

  /** A record, once written, is never changed or dropped; a later use of its key that gets past
      the gate runs nothing, and is answered with the record for the same request and refused for
      another. */
  lemma RecordsStay<K, Q, A, S>(server: Server<K, Q, A, S>, key: K, request: Q, link: Link, run: (S, Q) -> (S, A), k: K)
    requires k in server.records
    ensures var (after, outcome) := Send(server, key, request, link, run);
            && k in after.records && after.records[k] == server.records[k]
            && (key == k ==> after == server)
            && (key == k && link.reaches && !link.barred && link.answers ==>
                  outcome ==
                    if request == server.records[k].request then Answered(server.records[k].answer) else Refused)
  {
  }
}
