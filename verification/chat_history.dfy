/** The saved chats of the assistant: a bounded store, read back from whatever storage holds. */
module ChatHistory {
  import opened Common
  import opened JsonValue

  datatype Execution = Execution(specialist: Option<string>, runtime: Option<string>, routingReason: Option<string>,
                                 serverAuthored: Option<bool>, fallback: Option<bool>,
                                 tools: seq<string>, corrections: seq<string>)

  datatype Message = Message(id: string, user: string, reply: Option<string>, execution: Option<Execution>)

  datatype Chat = Chat(id: string, title: string, messages: seq<Message>)

  datatype History = History(activeId: Option<string>, chats: seq<Chat>)

  const EMPTY := History(None, [])
  const MAX_CHATS := 20
  const MAX_MESSAGES := 60

  // ---------------------------------------------------------------- reading

  function Get(value: Json, key: string): Option<Json> {
    if value.JObj? && key in value.fields then Some(value.fields[key]) else None
  }

  function Text(value: Option<Json>): Option<string> {
    if value.Some? && value.value.JStr? then Some(value.value.s) else None
  }

  function Flag(value: Option<Json>): Option<bool> {
    if value.Some? && value.value.JBool? then Some(value.value.b) else None
  }

  function OnlyStrings(items: seq<Json>): seq<string> {
    if items == [] then []
    else
      var rest := OnlyStrings(items[..|items| - 1]);
      if items[|items| - 1].JStr? then rest + [items[|items| - 1].s] else rest
  }

  function Strings(value: Option<Json>): seq<string> {
    if value.Some? && value.value.JArr? then OnlyStrings(value.value.items) else []
  }

  /** `savedExecution`: any object or array has an execution, with what can be used of it. */
  function SavedExecution(value: Option<Json>): Option<Execution> {
    if value.None? || !(value.value.JArr? || value.value.JObj?) then None
    else
      var x := value.value;
      Some(Execution(Text(Get(x, "specialist")), Text(Get(x, "runtime")), Text(Get(x, "routingReason")),
                     Flag(Get(x, "serverAuthored")), Flag(Get(x, "fallback")),
                     Strings(Get(x, "tools")), Strings(Get(x, "corrections"))))
  }

  predicate MessageReadable(m: Json) {
    && Text(Get(m, "id")).Some? && Text(Get(m, "user")).Some?
    && Get(m, "reply").Some? && (Get(m, "reply").value.JNull? || Get(m, "reply").value.JStr?)
  }

  function ReadMessage(m: Json): Message {
    Message(Text(Get(m, "id")).GetOr(""), Text(Get(m, "user")).GetOr(""), Text(Get(m, "reply")),
            SavedExecution(Get(m, "execution")))
  }

  function ItemsOf(value: Option<Json>): seq<Json> {
    if value.Some? && value.value.JArr? then value.value.items else []
  }

  predicate ChatReadable(c: Json) {
    && Text(Get(c, "id")).Some? && Text(Get(c, "title")).Some?
    && Get(c, "messages").Some? && Get(c, "messages").value.JArr?
    && forall m <- ItemsOf(Get(c, "messages")) :: MessageReadable(m)
  }

  function ReadChat(c: Json): Chat {
    Chat(Text(Get(c, "id")).GetOr(""), Text(Get(c, "title")).GetOr(""),
         Map(ReadMessage, Last(ItemsOf(Get(c, "messages")), MAX_MESSAGES)))
  }

  function Readable(items: seq<Json>): (r: seq<Json>)
    ensures forall c <- r :: ChatReadable(c)
  {
    if items == [] then []
    else
      var rest := Readable(items[..|items| - 1]);
      if ChatReadable(items[|items| - 1]) then rest + [items[|items| - 1]] else rest
  }

  function Last<T>(xs: seq<T>, n: nat): (r: seq<T>)
    ensures |r| <= n
  {
    if |xs| <= n then xs else xs[|xs| - n..]
  }

  function IndexOf(chats: seq<Chat>, id: string): (r: Option<nat>)
    ensures r.Some? ==> r.value < |chats| && chats[r.value].id == id
    ensures r.None? ==> forall i :: 0 <= i < |chats| ==> chats[i].id != id
  {
    if chats == [] then None
    else
      var before := IndexOf(chats[..|chats| - 1], id);
      if before.Some? then before
      else if chats[|chats| - 1].id == id then Some(|chats| - 1) else None
  }

  /** A `Map` entry: an id that is there keeps its place and takes the new value. */
  function Put(chats: seq<Chat>, c: Chat): seq<Chat> {
    var at := IndexOf(chats, c.id);
    if at.Some? then chats[at.value := c] else chats + [c]
  }

  /** The values of a `Map` filled in order. */
  function Unique(chats: seq<Chat>): seq<Chat> {
    if chats == [] then [] else Put(Unique(chats[..|chats| - 1]), chats[|chats| - 1])
  }

  /** `readHistory`; `None` is no stored text, or one that does not parse. */
  function ReadHistory(raw: Option<Json>): History {
    if raw.None? || Get(raw.value, "chats").None? || !Get(raw.value, "chats").value.JArr? then EMPTY
    else
      var chats := Map(ReadChat, Last(Readable(ItemsOf(Get(raw.value, "chats"))), MAX_CHATS));
      var active := Text(Get(raw.value, "activeId"));
      History(if active.Some? && IndexOf(chats, active.value).Some? then active else None, Unique(chats))
  }

  // ---------------------------------------------------------------- writing

  function TextJson(t: Option<string>): Json { if t.Some? then JStr(t.value) else JNull }

  function FlagJson(b: Option<bool>): Json { if b.Some? then JBool(b.value) else JNull }

  function ExecutionJson(e: Execution): Json {
    JObj(map["specialist" := TextJson(e.specialist), "runtime" := TextJson(e.runtime),
             "routingReason" := TextJson(e.routingReason), "serverAuthored" := FlagJson(e.serverAuthored),
             "fallback" := FlagJson(e.fallback), "tools" := JArr(Map((t: string) => JStr(t), e.tools)),
             "corrections" := JArr(Map((t: string) => JStr(t), e.corrections))])
  }

  /** An execution that is undefined is not written. */
  function MessageJson(m: Message): Json {
    var fields := map["id" := JStr(m.id), "user" := JStr(m.user), "reply" := TextJson(m.reply)];
    JObj(if m.execution.Some? then fields["execution" := ExecutionJson(m.execution.value)] else fields)
  }

  function ChatJson(c: Chat): Json {
    JObj(map["id" := JStr(c.id), "title" := JStr(c.title), "messages" := JArr(Map(MessageJson, c.messages))])
  }

  function HistoryJson(h: History): Json {
    JObj(map["activeId" := TextJson(h.activeId), "chats" := JArr(Map(ChatJson, h.chats))])
  }

  // ---------------------------------------------------------------- the operations

  function Without(chats: seq<Chat>, id: string): (r: seq<Chat>)
    ensures |r| <= |chats| && forall c :: c in r <==> c in chats && c.id != id
  {
    if chats == [] then []
    else
      var rest := Without(chats[..|chats| - 1], id);
      if chats[|chats| - 1].id == id then rest else rest + [chats[|chats| - 1]]
  }

  function ActiveIndex(h: History): Option<nat> {
    if h.activeId.None? then None else IndexOf(h.chats, h.activeId.value)
  }

  /** The chat a new message goes to: the active one with it appended, or a new one. */
  function Continued(h: History, text: string, id: string, chatId: string): (c: Chat)
    ensures (forall k <- h.chats :: |k.messages| <= MAX_MESSAGES) ==> |c.messages| <= MAX_MESSAGES
  {
    var said := Message(id, text, None, None);
    var active := ActiveIndex(h);
    if active.Some? then
      var c := h.chats[active.value];
      c.(messages := Last(c.messages + [said], MAX_MESSAGES))
    else Chat(chatId, if |text| <= 65 then text else text[..65], [said])
  }

  function AddMessage(h: History, text: string, id: string, chatId: string): History {
    var next := Continued(h, text, id, chatId);
    History(Some(next.id), Last(Without(h.chats, next.id) + [next], MAX_CHATS))
  }

  function MessageIndex(messages: seq<Message>, id: string): (r: Option<nat>)
    ensures r.Some? ==> r.value < |messages| && messages[r.value].id == id
    ensures r.None? ==> forall i :: 0 <= i < |messages| ==> messages[i].id != id
  {
    if messages == [] then None
    else
      var before := MessageIndex(messages[..|messages| - 1], id);
      if before.Some? then before
      else if messages[|messages| - 1].id == id then Some(|messages| - 1) else None
  }

  function Answered(m: Message, id: string, reply: string, execution: Option<Execution>): Message {
    if m.id != id then m
    else m.(reply := Some(reply), execution := if execution.Some? then execution else m.execution)
  }

  function SaveReply(h: History, chatId: string, messageId: string, reply: string,
                     execution: Option<Execution>): History {
    var at := IndexOf(h.chats, chatId);
    if at.None? then h
    else
      var m := MessageIndex(h.chats[at.value].messages, messageId);
      if m.None? then h
      else
        var found := h.chats[at.value].messages[m.value];
        if found.reply == Some(reply) && (execution.None? || found.execution == execution) then h
        else h.(chats := Map((c: Chat) =>
                    if c.id == chatId then c.(messages := Map((m: Message) => Answered(m, messageId, reply, execution),
                                                              c.messages))
                    else c, h.chats))
  }

  function MergeHistory(saved: History, current: History): History {
    current.(chats := Last(Unique(saved.chats + current.chats), MAX_CHATS))
  }

  // ---------------------------------------------------------------- the store's invariant

  ghost predicate DistinctIds(chats: seq<Chat>) {
    forall i, j :: 0 <= i < j < |chats| ==> chats[i].id != chats[j].id
  }

  ghost predicate Bounded(chats: seq<Chat>) { forall i :: 0 <= i < |chats| ==> |chats[i].messages| <= MAX_MESSAGES }

  ghost predicate HasId(chats: seq<Chat>, id: string) { exists i :: 0 <= i < |chats| && chats[i].id == id }

  ghost predicate Valid(h: History) {
    && |h.chats| <= MAX_CHATS && DistinctIds(h.chats) && Bounded(h.chats)
    && (h.activeId.Some? ==> HasId(h.chats, h.activeId.value))
  }

  lemma {:induction false} IndexOfDistinct(chats: seq<Chat>, i: nat)
    requires DistinctIds(chats) && i < |chats|
    ensures IndexOf(chats, chats[i].id) == Some(i)
  {
    var at := IndexOf(chats, chats[i].id);
  }

  lemma {:induction false} PutKeeps(chats: seq<Chat>, c: Chat)
    requires DistinctIds(chats)
    ensures DistinctIds(Put(chats, c)) && |Put(chats, c)| <= |chats| + 1
    ensures Bounded(chats) && |c.messages| <= MAX_MESSAGES ==> Bounded(Put(chats, c))
  {
  }

  lemma {:induction false} PutHasId(chats: seq<Chat>, c: Chat, id: string)
    ensures HasId(Put(chats, c), id) <==> HasId(chats, id) || c.id == id
  {
    var r, at := Put(chats, c), IndexOf(chats, c.id);
    assert r[if at.Some? then at.value else |chats|] == c;
    if HasId(chats, id) {
      var i :| 0 <= i < |chats| && chats[i].id == id;
      assert r[i].id == id;
    }
    if HasId(r, id) {
      var i :| 0 <= i < |r| && r[i].id == id;
      assert r[i] == c || chats[i].id == id;
    }
  }

  lemma {:induction false} UniqueIsDistinct(chats: seq<Chat>)
    ensures DistinctIds(Unique(chats)) && |Unique(chats)| <= |chats|
    ensures Bounded(chats) ==> Bounded(Unique(chats))
  {
    if chats != [] {
      var before, last := chats[..|chats| - 1], chats[|chats| - 1];
      UniqueIsDistinct(before);
      PutKeeps(Unique(before), last);
    }
  }

  lemma {:induction false} HasIdOfLast(chats: seq<Chat>, id: string)
    requires chats != []
    ensures HasId(chats, id) <==> HasId(chats[..|chats| - 1], id) || chats[|chats| - 1].id == id
  {
    var before := chats[..|chats| - 1];
    if HasId(before, id) {
      var i :| 0 <= i < |before| && before[i].id == id;
      assert chats[i].id == id;
    }
    if HasId(chats, id) {
      var i :| 0 <= i < |chats| && chats[i].id == id;
      assert i < |before| ==> before[i].id == id;
    }
  }

  lemma {:induction false} UniqueHasId(chats: seq<Chat>, id: string)
    ensures HasId(Unique(chats), id) <==> HasId(chats, id)
  {
    if chats != [] {
      UniqueHasId(chats[..|chats| - 1], id);
      PutHasId(Unique(chats[..|chats| - 1]), chats[|chats| - 1], id);
      HasIdOfLast(chats, id);
    }
  }

  lemma {:induction false} UniqueOfDistinct(chats: seq<Chat>)
    requires DistinctIds(chats)
    ensures Unique(chats) == chats
  {
    if chats != [] {
      UniqueOfDistinct(chats[..|chats| - 1]);
      assert chats == chats[..|chats| - 1] + [chats[|chats| - 1]];
    }
  }

  // ---------------------------------------------------------------- reading and writing

  /** Whatever is stored, what is read is valid. */
  lemma {:induction false} ReadIsValid(raw: Option<Json>)
    ensures Valid(ReadHistory(raw))
  {
    if raw.Some? && Get(raw.value, "chats").Some? && Get(raw.value, "chats").value.JArr? {
      var chats := Map(ReadChat, Last(Readable(ItemsOf(Get(raw.value, "chats"))), MAX_CHATS));
      UniqueIsDistinct(chats);
      var active := Text(Get(raw.value, "activeId"));
      if active.Some? {
        UniqueHasId(chats, active.value);
      }
    }
  }

  /** A value with a string under this key. */
  ghost predicate HasString(v: Json, key: string) { v.JObj? && key in v.fields && v.fields[key].JStr? }

  /** A message has an id and a text, and a reply that is null or a text; */
  ghost predicate IsMessage(m: Json) {
    && HasString(m, "id") && HasString(m, "user") && "reply" in m.fields
    && (m.fields["reply"] == JNull || HasString(m, "reply"))
  }

  /** a chat has an id, a title, and a list of messages. */
  ghost predicate IsChat(c: Json) {
    && HasString(c, "id") && HasString(c, "title") && "messages" in c.fields && c.fields["messages"].JArr?
    && forall m <- c.fields["messages"].items :: IsMessage(m)
  }

  lemma MessageReadableIff(m: Json)
    ensures MessageReadable(m) <==> IsMessage(m)
  {
  }

  /** Exactly the chats are read. */
  lemma ChatReadableIff(c: Json)
    ensures ChatReadable(c) <==> IsChat(c)
  {
    forall m ensures MessageReadable(m) <==> IsMessage(m) {
      MessageReadableIff(m);
    }
  }

  /** `r` is what the message says; an execution is read of any object or list. */
  ghost predicate SaysMessage(m: Json, r: Message)
    requires IsMessage(m)
  {
    && r.id == m.fields["id"].s && r.user == m.fields["user"].s
    && r.reply == (if m.fields["reply"].JNull? then None else Some(m.fields["reply"].s))
    && (r.execution.Some? <==> "execution" in m.fields && (m.fields["execution"].JObj? || m.fields["execution"].JArr?))
    && (r.execution.Some? ==> r.execution == SavedExecution(Some(m.fields["execution"])))
  }

  lemma ReadMessageIs(m: Json)
    requires IsMessage(m)
    ensures SaysMessage(m, ReadMessage(m))
  {
  }

  lemma {:induction false} LastIs<T>(xs: seq<T>, n: nat)
    ensures Last(xs, n) == if |xs| <= n then xs else xs[|xs| - n..]
  {
  }

  lemma {:induction false} ReadMessagesAre(items: seq<Json>)
    requires forall m <- items :: IsMessage(m)
    ensures var rs := Map(ReadMessage, items);
            |rs| == |items| && forall i :: 0 <= i < |items| ==> SaysMessage(items[i], rs[i])
  {
    forall i | 0 <= i < |items| ensures SaysMessage(items[i], ReadMessage(items[i])) {
      ReadMessageIs(items[i]);
    }
  }

  /** The messages are what the items say, one by one. */
  ghost predicate SayMessages(items: seq<Json>, rs: seq<Message>)
    requires forall m <- items :: IsMessage(m)
  {
    |rs| == |items| && forall i :: 0 <= i < |items| ==> SaysMessage(items[i], rs[i])
  }

  /** What is read of a chat: its id, its title, and the last sixty of its messages in order. */
  lemma {:induction false} ReadChatIs(c: Json)
    requires IsChat(c)
    ensures var items, r := c.fields["messages"].items, ReadChat(c);
            && r.id == c.fields["id"].s && r.title == c.fields["title"].s
            && SayMessages(if |items| <= 60 then items else items[|items| - 60..], r.messages)
  {
    var items := c.fields["messages"].items;
    var kept := if |items| <= 60 then items else items[|items| - 60..];
    LastIs(items, 60);
    assert forall m <- kept :: m in items;
    ReadMessagesAre(kept);
  }

  /** What is read of an execution: texts and flags that are there, and of its lists the texts. */
  lemma {:induction false} ExecutionIs(v: Json)
    ensures SavedExecution(Some(v)).Some? <==> v.JObj? || v.JArr?
    ensures v.JObj? ==>
              var e := SavedExecution(Some(v)).value;
              && e.specialist == TextAt(v, "specialist") && e.runtime == TextAt(v, "runtime")
              && e.routingReason == TextAt(v, "routingReason")
              && e.serverAuthored == FlagAt(v, "serverAuthored") && e.fallback == FlagAt(v, "fallback")
              && (HasTexts(v, "tools") ==> AreTexts(v.fields["tools"].items, e.tools))
              && (HasTexts(v, "corrections") ==> AreTexts(v.fields["corrections"].items, e.corrections))
              && ("tools" !in v.fields || !v.fields["tools"].JArr? ==> e.tools == [])
              && ("corrections" !in v.fields || !v.fields["corrections"].JArr? ==> e.corrections == [])
    ensures v.JArr? ==> SavedExecution(Some(v)).value == Execution(None, None, None, None, None, [], [])
  {
    if HasTexts(v, "tools") {
      TextsAreRead(v.fields["tools"].items);
    }
    if HasTexts(v, "corrections") {
      TextsAreRead(v.fields["corrections"].items);
    }
  }

  ghost function TextAt(v: Json, key: string): Option<string>
    requires v.JObj?
  {
    if key in v.fields && v.fields[key].JStr? then Some(v.fields[key].s) else None
  }

  ghost function FlagAt(v: Json, key: string): Option<bool>
    requires v.JObj?
  {
    if key in v.fields && v.fields[key].JBool? then Some(v.fields[key].b) else None
  }

  ghost predicate HasTexts(v: Json, key: string) {
    v.JObj? && key in v.fields && v.fields[key].JArr? && forall x <- v.fields[key].items :: x.JStr?
  }

  ghost predicate AreTexts(items: seq<Json>, texts: seq<string>) {
    |texts| == |items| && forall i :: 0 <= i < |items| ==> items[i] == JStr(texts[i])
  }

  lemma {:induction false} TextsAreRead(items: seq<Json>)
    requires forall x <- items :: x.JStr?
    ensures AreTexts(items, OnlyStrings(items))
  {
    if items != [] {
      TextsAreRead(items[..|items| - 1]);
      assert items[|items| - 1] in items;
    }
  }

  /** An item of a list that is not a text, and a chat that is not readable, are as if not there. */
  lemma {:induction false} UnreadableIsIgnored(before: seq<Json>, bad: Json, after: seq<Json>)
    ensures !bad.JStr? ==> OnlyStrings(before + [bad] + after) == OnlyStrings(before + after)
    ensures !ChatReadable(bad) ==> Readable(before + [bad] + after) == Readable(before + after)
    decreases |after|
  {
    if after == [] {
      assert (before + [bad] + after)[..|before|] == before && before + after == before;
    } else {
      var n := |after| - 1;
      UnreadableIsIgnored(before, bad, after[..n]);
      assert (before + [bad] + after)[..|before| + 1 + n] == before + [bad] + after[..n];
      assert (before + after)[..|before| + n] == before + after[..n];
    }
  }

  /** Readable chats are all read, the last twenty of them, and nothing is read of anything but an
      object with a list of chats. */
  lemma {:induction false} ReadableChatsAreRead(raw: Json)
    requires raw.JObj? && "chats" in raw.fields && raw.fields["chats"].JArr?
    requires forall c <- raw.fields["chats"].items :: ChatReadable(c)
    ensures var items := raw.fields["chats"].items;
            var kept := if |items| <= 20 then items else items[|items| - 20..];
            ReadHistory(Some(raw)).chats == Unique(Map(ReadChat, kept))
  {
    AllAreReadable(raw.fields["chats"].items);
    LastIs(raw.fields["chats"].items, 20);
  }

  lemma {:induction false} AllAreReadable(items: seq<Json>)
    requires forall c <- items :: ChatReadable(c)
    ensures Readable(items) == items
  {
    if items != [] {
      AllAreReadable(items[..|items| - 1]);
      assert items[|items| - 1] in items;
    }
  }

  lemma {:induction false} StringsReadBack(texts: seq<string>)
    ensures OnlyStrings(Map((t: string) => JStr(t), texts)) == texts
  {
    if texts != [] {
      var before, last := texts[..|texts| - 1], texts[|texts| - 1];
      StringsReadBack(before);
      var items := Map((t: string) => JStr(t), texts);
      assert items[..|items| - 1] == Map((t: string) => JStr(t), before);
      assert texts == before + [last];
    }
  }

  lemma {:induction false} ExecutionReadsBack(e: Execution)
    ensures SavedExecution(Some(ExecutionJson(e))) == Some(e)
  {
    var x := ExecutionJson(e);
    StringsReadBack(e.tools);
    StringsReadBack(e.corrections);
    assert Strings(Get(x, "tools")) == e.tools && Strings(Get(x, "corrections")) == e.corrections;
    assert Flag(Get(x, "serverAuthored")) == e.serverAuthored && Flag(Get(x, "fallback")) == e.fallback;
    assert Text(Get(x, "specialist")) == e.specialist && Text(Get(x, "runtime")) == e.runtime;
    assert Text(Get(x, "routingReason")) == e.routingReason;
  }

  lemma {:induction false} MessageReadsBack(m: Message)
    ensures MessageReadable(MessageJson(m)) && ReadMessage(MessageJson(m)) == m
  {
    if m.execution.Some? {
      ExecutionReadsBack(m.execution.value);
    }
    assert SavedExecution(Get(MessageJson(m), "execution")) == m.execution;
  }

  lemma {:induction false} ChatReadsBack(c: Chat)
    requires |c.messages| <= MAX_MESSAGES
    ensures ChatReadable(ChatJson(c)) && ReadChat(ChatJson(c)) == c
  {
    var items := Map(MessageJson, c.messages);
    assert ItemsOf(Get(ChatJson(c), "messages")) == items;
    forall i | 0 <= i < |items| ensures MessageReadable(items[i]) && ReadMessage(items[i]) == c.messages[i] {
      MessageReadsBack(c.messages[i]);
    }
    assert Map(ReadMessage, items) == c.messages;
  }

  lemma {:induction false} AllReadable(items: seq<Json>)
    requires forall i :: 0 <= i < |items| ==> ChatReadable(items[i])
    ensures Readable(items) == items
  {
    if items != [] {
      AllReadable(items[..|items| - 1]);
      assert items == items[..|items| - 1] + [items[|items| - 1]];
    }
  }

  lemma {:induction false} ChatsReadBack(chats: seq<Chat>)
    requires Bounded(chats)
    ensures var items := Map(ChatJson, chats);
            Readable(items) == items && Map(ReadChat, items) == chats
  {
    var items := Map(ChatJson, chats);
    forall i | 0 <= i < |items| ensures ChatReadable(items[i]) && ReadChat(items[i]) == chats[i] {
      ChatReadsBack(chats[i]);
    }
    AllReadable(items);
    assert Map(ReadChat, items) == chats;
  }

  /** What is read of an object whose chats are all readable and few enough. */
  lemma {:induction false} ReadOfReadable(json: Json, items: seq<Json>, active: Option<string>)
    requires Get(json, "chats") == Some(JArr(items)) && Text(Get(json, "activeId")) == active
    requires Readable(items) == items && |items| <= MAX_CHATS
    requires DistinctIds(Map(ReadChat, items)) && (active.Some? ==> HasId(Map(ReadChat, items), active.value))
    ensures ReadHistory(Some(json)) == History(active, Map(ReadChat, items))
  {
    UniqueOfDistinct(Map(ReadChat, items));
  }

  /** Reading back what was written returns every valid history unchanged. */
  lemma {:induction false} HistoryReadsBack(h: History)
    requires Valid(h)
    ensures ReadHistory(Some(HistoryJson(h))) == h
  {
    ChatsReadBack(h.chats);
    ReadOfReadable(HistoryJson(h), Map(ChatJson, h.chats), h.activeId);
  }

  /** So storage settles after one visit, whatever it held. */
  lemma {:induction false} ReadingSettles(raw: Option<Json>)
    ensures ReadHistory(Some(HistoryJson(ReadHistory(raw)))) == ReadHistory(raw)
  {
    ReadIsValid(raw);
    HistoryReadsBack(ReadHistory(raw));
  }

  // ---------------------------------------------------------------- adding and answering

  lemma {:induction false} WithoutMisses(chats: seq<Chat>, id: string)
    requires !HasId(chats, id)
    ensures Without(chats, id) == chats
  {
    if chats != [] {
      WithoutMisses(chats[..|chats| - 1], id);
      assert chats == chats[..|chats| - 1] + [chats[|chats| - 1]];
    }
  }

  lemma {:induction false} WithoutDropsOne(chats: seq<Chat>, id: string)
    requires DistinctIds(chats) && HasId(chats, id)
    ensures |Without(chats, id)| == |chats| - 1
  {
    var before, last := chats[..|chats| - 1], chats[|chats| - 1];
    var i :| 0 <= i < |chats| && chats[i].id == id;
    if last.id == id {
      WithoutMisses(before, id);
    } else {
      assert before[i].id == id;
      WithoutDropsOne(before, id);
    }
  }

  lemma {:induction false} WithoutKeeps(chats: seq<Chat>, id: string)
    requires DistinctIds(chats) && Bounded(chats)
    ensures DistinctIds(Without(chats, id)) && Bounded(Without(chats, id))
  {
    if chats != [] {
      var before, last := chats[..|chats| - 1], chats[|chats| - 1];
      WithoutKeeps(before, id);
      var rest := Without(before, id);
      forall i | 0 <= i < |rest| ensures rest[i].id != last.id {
        assert rest[i] in rest;
        var j :| 0 <= j < |before| && before[j] == rest[i];
      }
    }
  }

  lemma {:induction false} AppendKeeps(rest: seq<Chat>, next: Chat)
    requires DistinctIds(rest) && Bounded(rest) && |next.messages| <= MAX_MESSAGES
    requires forall c <- rest :: c.id != next.id
    ensures Valid(History(Some(next.id), Last(rest + [next], MAX_CHATS)))
  {
    var chats := Last(rest + [next], MAX_CHATS);
    forall i, j | 0 <= i < j < |rest + [next]| ensures (rest + [next])[i].id != (rest + [next])[j].id {
      assert i < |rest| && rest[i] in rest;
    }
    assert chats[|chats| - 1] == next;
    assert next in chats;
  }

  lemma {:induction false} WithoutCutsOut(chats: seq<Chat>, i: nat)
    requires DistinctIds(chats) && i < |chats|
    ensures Without(chats, chats[i].id) == chats[..i] + chats[i + 1..]
    decreases |chats|
  {
    var n := |chats| - 1;
    if i == n {
      OthersMiss(chats);
      WithoutMisses(chats[..n], chats[n].id);
    } else {
      WithoutCutsOut(chats[..n], i);
      CutOutOfLonger(chats, i);
    }
  }

  lemma {:induction false} OthersMiss(chats: seq<Chat>)
    requires DistinctIds(chats) && chats != []
    ensures !HasId(chats[..|chats| - 1], chats[|chats| - 1].id)
  {
  }

  lemma {:induction false} CutOutOfLonger(chats: seq<Chat>, i: nat)
    requires i < |chats| - 1
    ensures var n := |chats| - 1;
            chats[..n][..i] + chats[..n][i + 1..] + [chats[n]] == chats[..i] + chats[i + 1..]
  {
  }

  /** The active chat goes on: it moves behind the others, which keep their order, under its own id
      and title; before the new message it has the last 59 of its messages. */
  lemma {:induction false} ActiveChatGoesOn(h: History, i: nat, text: string, id: string, chatId: string)
    requires Valid(h) && i < |h.chats| && h.activeId == Some(h.chats[i].id)
    ensures var was := h.chats[i].messages;
            var kept := if |was| <= 59 then was else was[|was| - 59..];
            AddMessage(h, text, id, chatId) ==
              History(h.activeId, h.chats[..i] + h.chats[i + 1..]
                                  + [Chat(h.chats[i].id, h.chats[i].title, kept + [Message(id, text, None, None)])])
  {
    IndexOfDistinct(h.chats, i);
    WithoutCutsOut(h.chats, i);
    var was, said := h.chats[i].messages, Message(id, text, None, None);
    var kept := if |was| <= 59 then was else was[|was| - 59..];
    assert Last(was + [said], MAX_MESSAGES) == kept + [said];
  }

  /** With no active chat a new one starts behind the others, which keep their order but for the
      oldest of twenty; its title is the first 65 characters of the message, its only one. */
  lemma {:induction false} NewChatStarts(h: History, text: string, id: string, chatId: string)
    requires Valid(h) && h.activeId.None? && forall c <- h.chats :: c.id != chatId
    ensures var kept := if |h.chats| < 20 then h.chats else h.chats[1..];
            var title := if |text| <= 65 then text else text[..65];
            AddMessage(h, text, id, chatId) ==
              History(Some(chatId), kept + [Chat(chatId, title, [Message(id, text, None, None)])])
  {
    WithoutMisses(h.chats, chatId);
    var c := Continued(h, text, id, chatId);
    NewestLast(h.chats, c);
  }

  lemma {:induction false} NewestLast(chats: seq<Chat>, c: Chat)
    requires |chats| <= MAX_CHATS
    ensures Last(chats + [c], MAX_CHATS) == (if |chats| < MAX_CHATS then chats else chats[1..]) + [c]
  {
  }

  /** The new message ends the active chat, which is now the newest; every other chat stays as it
      was, but for the oldest when a twenty-first is started. */
  lemma {:induction false} AddMessageIsExact(h: History, text: string, id: string, chatId: string)
    requires Valid(h) && forall c <- h.chats :: c.id != chatId
    ensures var t := AddMessage(h, text, id, chatId);
            && Valid(t) && t.chats != []
            && (var c := t.chats[|t.chats| - 1];
                && t.activeId == Some(c.id) && c.messages != []
                && c.messages[|c.messages| - 1] == Message(id, text, None, None)
                && (h.activeId.None? <==> c.id == chatId)
                && (h.activeId.Some? ==> h.activeId == Some(c.id) && |t.chats| == |h.chats|)
                && (forall d <- t.chats :: d.id != c.id ==> d in h.chats)
                && (forall i :: 0 <= i < |h.chats| && h.chats[i].id != c.id ==>
                      h.chats[i] in t.chats || (h.activeId.None? && |h.chats| == MAX_CHATS && i == 0)))
  {
    var next := Continued(h, text, id, chatId);
    var active := ActiveIndex(h);
    if h.activeId.Some? {
      assert h.chats[active.value] in h.chats;
      WithoutDropsOne(h.chats, next.id);
    } else {
      WithoutMisses(h.chats, next.id);
    }
    WithoutKeeps(h.chats, next.id);
    var rest := Without(h.chats, next.id);
    AppendKeeps(rest, next);
    var chats := Last(rest + [next], MAX_CHATS);
    assert chats[|chats| - 1] == next;
    KeptOrOldest(h, rest, next);
  }

  /** Whatever ids it is given, adding a message keeps the history valid. */
  lemma {:induction false} AddMessageKeepsValid(h: History, text: string, id: string, chatId: string)
    requires Valid(h)
    ensures Valid(AddMessage(h, text, id, chatId))
  {
    var next := Continued(h, text, id, chatId);
    assert forall c <- h.chats :: |c.messages| <= MAX_MESSAGES;
    WithoutKeeps(h.chats, next.id);
    AppendKeeps(Without(h.chats, next.id), next);
  }

  lemma {:induction false} KeptOrOldest(h: History, rest: seq<Chat>, next: Chat)
    requires |h.chats| <= MAX_CHATS && rest == Without(h.chats, next.id)
    requires |rest| < |h.chats| || rest == h.chats
    ensures forall i :: 0 <= i < |h.chats| && h.chats[i].id != next.id ==>
              h.chats[i] in Last(rest + [next], MAX_CHATS) || (|rest| == |h.chats| == MAX_CHATS && i == 0)
  {
    var chats := Last(rest + [next], MAX_CHATS);
    forall i | 0 <= i < |h.chats| && h.chats[i].id != next.id
      ensures h.chats[i] in chats || (|rest| == |h.chats| == MAX_CHATS && i == 0)
    {
      assert h.chats[i] in rest;
      if |rest| < MAX_CHATS {
        assert chats == rest + [next];
      } else if i > 0 {
        assert chats == rest[1..] + [next] && rest[1..][i - 1] == h.chats[i];
      }
    }
  }

  lemma {:induction false} SameIdsSameIndex(a: seq<Message>, b: seq<Message>, id: string)
    requires |a| == |b| && forall i :: 0 <= i < |a| ==> a[i].id == b[i].id
    ensures MessageIndex(a, id) == MessageIndex(b, id)
  {
    if a != [] {
      SameIdsSameIndex(a[..|a| - 1], b[..|b| - 1], id);
    }
  }

  /** The message a reply is for, if it is there. */
  ghost predicate Found(h: History, chatId: string, messageId: string, i: nat, j: nat) {
    && i < |h.chats| && h.chats[i].id == chatId && j < |h.chats[i].messages|
    && MessageIndex(h.chats[i].messages, messageId) == Some(j)
  }

  /** Saving a reply answers that message, keeps the execution it has when none is given, and
      changes nothing else. */
  lemma {:induction false} SaveReplyIsExact(h: History, chatId: string, messageId: string, reply: string,
                                            execution: Option<Execution>)
    requires Valid(h)
    ensures var t := SaveReply(h, chatId, messageId, reply, execution);
            && Valid(t) && t.activeId == h.activeId && |t.chats| == |h.chats|
            && (forall i :: 0 <= i < |h.chats| ==>
                  && t.chats[i].id == h.chats[i].id && t.chats[i].title == h.chats[i].title
                  && |t.chats[i].messages| == |h.chats[i].messages|
                  && (h.chats[i].id != chatId ==> t.chats[i] == h.chats[i])
                  && (forall j :: 0 <= j < |h.chats[i].messages| ==>
                        && t.chats[i].messages[j].id == h.chats[i].messages[j].id
                        && (h.chats[i].messages[j].id != messageId ==>
                            t.chats[i].messages[j] == h.chats[i].messages[j])))
            && (forall i: nat, j: nat :: Found(h, chatId, messageId, i, j) ==>
                  && t.chats[i].messages[j].reply == Some(reply)
                  && t.chats[i].messages[j].execution ==
                       if execution.Some? then execution else h.chats[i].messages[j].execution)
  {
    var t := SaveReply(h, chatId, messageId, reply, execution);
    forall i: nat, j: nat | Found(h, chatId, messageId, i, j)
      ensures t.chats[i].messages[j] == Answered(h.chats[i].messages[j], messageId, reply, execution)
    {
      IndexOfDistinct(h.chats, i);
    }
    if h.activeId.Some? {
      var i :| 0 <= i < |h.chats| && h.chats[i].id == h.activeId.value;
      assert t.chats[i].id == h.activeId.value;
    }
  }

  /** Saving the same reply twice is saving it once. */
  lemma {:induction false} SaveReplyTwice(h: History, chatId: string, messageId: string, reply: string,
                                          execution: Option<Execution>)
    requires Valid(h)
    ensures var t := SaveReply(h, chatId, messageId, reply, execution);
            SaveReply(t, chatId, messageId, reply, execution) == t
  {
    var t := SaveReply(h, chatId, messageId, reply, execution);
    SaveReplyIsExact(h, chatId, messageId, reply, execution);
    var at := IndexOf(h.chats, chatId);
    if at.Some? {
      IndexOfDistinct(t.chats, at.value);
      SameIdsSameIndex(h.chats[at.value].messages, t.chats[at.value].messages, messageId);
      var m := MessageIndex(h.chats[at.value].messages, messageId);
      if m.Some? {
        assert Found(h, chatId, messageId, at.value, m.value);
      }
    }
  }

  /** A message that was just added is found, at the end of the last chat. */
  lemma {:induction false} AddedIsFound(h: History, text: string, id: string, chatId: string)
    requires Valid(h) && forall c <- h.chats :: c.id != chatId && forall m <- c.messages :: m.id != id
    ensures var t := AddMessage(h, text, id, chatId);
            && Valid(t) && t.chats != [] && t.activeId == Some(t.chats[|t.chats| - 1].id)
            && t.chats[|t.chats| - 1].messages != []
            && (var c := t.chats[|t.chats| - 1];
                && c.messages[|c.messages| - 1] == Message(id, text, None, None)
                && Found(t, c.id, id, |t.chats| - 1, |c.messages| - 1))
  {
    AddMessageIsExact(h, text, id, chatId);
    var c := Continued(h, text, id, chatId);
    if h.activeId.Some? {
      assert h.chats[ActiveIndex(h).value] in h.chats;
    }
    var t := AddMessage(h, text, id, chatId);
    assert t.chats[|t.chats| - 1] == c;
    assert forall j | 0 <= j < |c.messages| - 1 :: c.messages[j].id != id;
    FirstIndex(c.messages, id);
  }

  /** So the reply to it reaches it. */
  lemma {:induction false} ReplyReachesMessage(h: History, text: string, id: string, chatId: string, reply: string)
    requires Valid(h) && forall c <- h.chats :: c.id != chatId && forall m <- c.messages :: m.id != id
    ensures var t := AddMessage(h, text, id, chatId);
            t.activeId.Some? &&
            var u := SaveReply(t, t.activeId.value, id, reply, None);
            && Valid(u) && u.chats != [] && u.chats[|u.chats| - 1].messages != []
            && (var c := u.chats[|u.chats| - 1];
                && u.activeId == Some(c.id) && c.messages[|c.messages| - 1].id == id
                && c.messages[|c.messages| - 1].reply == Some(reply))
  {
    AddedIsFound(h, text, id, chatId);
    var t := AddMessage(h, text, id, chatId);
    SaveReplyIsExact(t, t.activeId.value, id, reply, None);
  }

  lemma {:induction false} FirstIndex(messages: seq<Message>, id: string)
    requires messages != [] && messages[|messages| - 1].id == id
    requires forall j :: 0 <= j < |messages| - 1 ==> messages[j].id != id
    ensures MessageIndex(messages, id) == Some(|messages| - 1)
  {
  }

  // ---------------------------------------------------------------- merging

  /** The chats of `current` that `saved` does not have. */
  function NewTo(saved: seq<Chat>, current: seq<Chat>): (r: seq<Chat>)
    ensures |r| <= |current|
    ensures forall c :: c in r <==> c in current && IndexOf(saved, c.id).None?
  {
    if current == [] then []
    else
      var rest := NewTo(saved, current[..|current| - 1]);
      if IndexOf(saved, current[|current| - 1].id).Some? then rest else rest + [current[|current| - 1]]
  }

  /** The saved chats, with what `current` says of them. */
  function Overlay(saved: seq<Chat>, current: seq<Chat>): (r: seq<Chat>)
    ensures |r| == |saved| && forall i :: 0 <= i < |saved| ==> r[i].id == saved[i].id
  {
    seq(|saved|, i requires 0 <= i < |saved| =>
      var at := IndexOf(current, saved[i].id); if at.Some? then current[at.value] else saved[i])
  }

  lemma {:induction false} IndexOfPrefix(chats: seq<Chat>, id: string)
    requires chats != [] && DistinctIds(chats)
    ensures chats[|chats| - 1].id == id ==>
              IndexOf(chats, id) == Some(|chats| - 1) && IndexOf(chats[..|chats| - 1], id).None?
    ensures chats[|chats| - 1].id != id ==> IndexOf(chats, id) == IndexOf(chats[..|chats| - 1], id)
  {
  }

  /** One more chat laid over the saved ones. */
  lemma {:induction false} OverlayStep(saved: seq<Chat>, current: seq<Chat>)
    requires DistinctIds(saved) && DistinctIds(current) && current != []
    ensures var before, c := current[..|current| - 1], current[|current| - 1];
            var at := IndexOf(saved, c.id);
            Overlay(saved, current) ==
              if at.Some? then Overlay(saved, before)[at.value := c] else Overlay(saved, before)
  {
    var before, c := current[..|current| - 1], current[|current| - 1];
    var at := IndexOf(saved, c.id);
    var r := if at.Some? then Overlay(saved, before)[at.value := c] else Overlay(saved, before);
    forall i | 0 <= i < |saved| ensures Overlay(saved, current)[i] == r[i] {
      IndexOfPrefix(current, saved[i].id);
    }
  }

  lemma {:induction false} PutAt(chats: seq<Chat>, c: Chat, i: nat)
    requires DistinctIds(chats) && i < |chats| && chats[i].id == c.id
    ensures Put(chats, c) == chats[i := c]
  {
    IndexOfDistinct(chats, i);
  }

  lemma {:induction false} PutInFront(a: seq<Chat>, b: seq<Chat>, c: Chat, i: nat)
    requires DistinctIds(a + b) && i < |a| && a[i].id == c.id
    ensures Put(a + b, c) == a[i := c] + b
  {
    PutAt(a + b, c, i);
    assert (a + b)[i := c] == a[i := c] + b;
  }

  lemma {:induction false} PutBehind(a: seq<Chat>, b: seq<Chat>, c: Chat)
    requires IndexOf(a + b, c.id).None?
    ensures Put(a + b, c) == a + (b + [c])
  {
  }

  /** Putting one more chat into what is merged so far. */
  lemma {:induction false} PutOnOverlay(saved: seq<Chat>, current: seq<Chat>)
    requires DistinctIds(saved) && DistinctIds(current) && current != []
    requires DistinctIds(Overlay(saved, current[..|current| - 1]) + NewTo(saved, current[..|current| - 1]))
    ensures Put(Overlay(saved, current[..|current| - 1]) + NewTo(saved, current[..|current| - 1]),
                current[|current| - 1])
         == Overlay(saved, current) + NewTo(saved, current)
  {
    var before, c := current[..|current| - 1], current[|current| - 1];
    var at := IndexOf(saved, c.id);
    OverlayStep(saved, current);
    if at.Some? {
      PutInFront(Overlay(saved, before), NewTo(saved, before), c, at.value);
    } else {
      NotThere(saved, before, c);
      PutBehind(Overlay(saved, before), NewTo(saved, before), c);
    }
  }

  /** A merged history is the saved chats brought up to date, then the new ones. */
  lemma {:induction false} UniqueIsOverlay(saved: seq<Chat>, current: seq<Chat>)
    requires DistinctIds(saved) && DistinctIds(current)
    ensures Unique(saved + current) == Overlay(saved, current) + NewTo(saved, current)
    decreases |current|
  {
    if current == [] {
      assert saved + current == saved;
      UniqueOfDistinct(saved);
      assert Overlay(saved, current) == saved;
    } else {
      var before := current[..|current| - 1];
      UniqueIsOverlay(saved, before);
      UniqueIsDistinct(saved + before);
      assert (saved + current)[..|saved + current| - 1] == saved + before;
      PutOnOverlay(saved, current);
    }
  }

  lemma {:induction false} NotThere(saved: seq<Chat>, before: seq<Chat>, c: Chat)
    requires IndexOf(saved, c.id).None? && forall i :: 0 <= i < |before| ==> before[i].id != c.id
    ensures IndexOf(Overlay(saved, before) + NewTo(saved, before), c.id).None?
  {
    var base := Overlay(saved, before) + NewTo(saved, before);
    forall i | 0 <= i < |base| ensures base[i].id != c.id {
      if i >= |saved| {
        assert base[i] in NewTo(saved, before);
      }
    }
  }

  /** Whether a chat of `current` is among the newest twenty: the condition a caller can check. */
  predicate StaysIn(saved: History, current: History, id: string) {
    var at := IndexOf(saved.chats, id);
    at.None? || |saved.chats| - at.value + |NewTo(saved.chats, current.chats)| <= MAX_CHATS
  }

  /** Where a current chat is among all chats, before the oldest are dropped. */
  lemma {:induction false} PlaceOfCurrent(saved: History, current: History, k: nat) returns (p: nat)
    requires Valid(saved) && Valid(current) && k < |current.chats|
    ensures var all, c := Overlay(saved.chats, current.chats) + NewTo(saved.chats, current.chats), current.chats[k];
            p < |all| && all[p] == c && (|all| - p <= MAX_CHATS <==> StaysIn(saved, current, c.id))
  {
    var c := current.chats[k];
    IndexOfDistinct(current.chats, k);
    var at, added := IndexOf(saved.chats, c.id), NewTo(saved.chats, current.chats);
    if at.Some? {
      p := at.value;
    } else {
      assert c in added;
      var q :| 0 <= q < |added| && added[q] == c;
      p := |saved.chats| + q;
    }
  }

  /** Merging keeps a current chat as it is now, unless it has an old place among the saved ones
      and the new chats push that place out: exactly then it is lost. */
  lemma {:induction false} MergeKeepsIff(saved: History, current: History, k: nat)
    requires Valid(saved) && Valid(current) && k < |current.chats|
    ensures var c := current.chats[k];
            && (c in MergeHistory(saved, current).chats <==> StaysIn(saved, current, c.id))
            && (HasId(MergeHistory(saved, current).chats, c.id) <==> StaysIn(saved, current, c.id))
  {
    UniqueIsOverlay(saved.chats, current.chats);
    UniqueIsDistinct(saved.chats + current.chats);
    var p := PlaceOfCurrent(saved, current, k);
    InLast(Overlay(saved.chats, current.chats) + NewTo(saved.chats, current.chats), p);
  }

  lemma {:induction false} InLast(all: seq<Chat>, p: nat)
    requires DistinctIds(all) && p < |all|
    ensures all[p] in Last(all, MAX_CHATS) <==> |all| - p <= MAX_CHATS
    ensures HasId(Last(all, MAX_CHATS), all[p].id) <==> |all| - p <= MAX_CHATS
  {
    var r := Last(all, MAX_CHATS);
    var cut := |all| - |r|;
    assert forall q :: 0 <= q < |r| ==> r[q] == all[q + cut];
    if p >= cut {
      assert r[p - cut] == all[p];
    }
  }

  lemma {:induction false} BoundedAppend(a: seq<Chat>, b: seq<Chat>)
    requires Bounded(a) && Bounded(b)
    ensures Bounded(a + b)
  {
  }

  /** So a merged history is valid exactly when the active chat stays in. */
  lemma {:induction false} MergeIsValidIff(saved: History, current: History)
    requires Valid(saved) && Valid(current)
    ensures Valid(MergeHistory(saved, current)) <==>
              current.activeId.None? || StaysIn(saved, current, current.activeId.value)
    ensures MergeHistory(saved, current).activeId == current.activeId
  {
    BoundedAppend(saved.chats, current.chats);
    UniqueIsDistinct(saved.chats + current.chats);
    if current.activeId.Some? {
      var k :| 0 <= k < |current.chats| && current.chats[k].id == current.activeId.value;
      MergeKeepsIff(saved, current, k);
    }
  }

  ghost predicate Disjoint(saved: History, current: History) {
    forall i :: 0 <= i < |current.chats| ==> !HasId(saved.chats, current.chats[i].id)
  }

  /** With no id in common, everything in `current` is kept, and it is the newest part. */
  lemma {:induction false} DisjointMergeKeepsCurrent(saved: History, current: History)
    requires Valid(saved) && Valid(current) && Disjoint(saved, current)
    ensures var t := MergeHistory(saved, current);
            && Valid(t) && t.activeId == current.activeId && |current.chats| <= |t.chats|
            && t.chats[|t.chats| - |current.chats|..] == current.chats
            && (forall c <- t.chats :: c in saved.chats || c in current.chats)
  {
    forall i, j | 0 <= i < j < |saved.chats + current.chats|
      ensures (saved.chats + current.chats)[i].id != (saved.chats + current.chats)[j].id
    {
      if i < |saved.chats| <= j {
        assert !HasId(saved.chats, current.chats[j - |saved.chats|].id);
      }
    }
    UniqueOfDistinct(saved.chats + current.chats);
    MergeIsValidIff(saved, current);
    if current.activeId.Some? {
      var k :| 0 <= k < |current.chats| && current.chats[k].id == current.activeId.value;
      assert !HasId(saved.chats, current.chats[k].id);
      if IndexOf(saved.chats, current.activeId.value).Some? {
        assert HasId(saved.chats, current.activeId.value);
      }
    }
  }

  /** Twenty saved chats, and two of another tab: the oldest of the saved ones, open, and a new one. */
  const TWENTY := History(None, seq(20, i requires 0 <= i < 20 => Chat(['a' + i as char], "", [])))
  const TWO := History(Some("a"), [Chat("a", "", []), Chat("z", "", [])])

  lemma {:induction false} BothAreValid()
    ensures Valid(TWENTY) && Valid(TWO)
  {
    assert TWO.chats[0].id == "a";
  }

  lemma {:induction false} OneIsOldAndOneIsNew()
    ensures IndexOf(TWENTY.chats, "a") == Some(0) && |NewTo(TWENTY.chats, TWO.chats)| > 0
  {
    BothAreValid();
    assert TWENTY.chats[0].id == "a";
    IndexOfDistinct(TWENTY.chats, 0);
    assert forall i :: 0 <= i < 20 ==> TWENTY.chats[i].id[0] < 'z';
    assert IndexOf(TWENTY.chats, "z").None?;
    assert TWO.chats[1] in TWO.chats;
    assert Chat("z", "", []) in NewTo(TWENTY.chats, TWO.chats);
  }

  /** Merged, the chat that is open is dropped. */
  lemma {:induction false} MergeCanDropTheActiveChat()
    ensures Valid(TWENTY) && Valid(TWO) && !Valid(MergeHistory(TWENTY, TWO))
  {
    BothAreValid();
    OneIsOldAndOneIsNew();
    MergeIsValidIff(TWENTY, TWO);
  }
}
