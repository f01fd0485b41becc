// Rebuilding the model's view of a chat thread
// (crates/catalerum-api/src/chat_context.rs): the turn boundary, the role-preserving
// conversion, and the repair of tool calls that never got an answer.

module ChatContext {
  import opened Collections

  datatype Role = System | User | Assistant | Tool
  datatype ToolCall = ToolCall(id: string, name: string, arguments: string)

  /** A stored message. `attached` is the rendered skill and attachment text that a user
      message contributes besides its content. */
  datatype Message = Message(
    id: nat,
    role: Role,
    content: string,
    attached: string,
    toolCalls: seq<ToolCall>,
    toolCallId: Option<string>)

  datatype ChatMessage = ChatMessage(
    role: Role,
    content: string,
    toolCalls: seq<ToolCall>,
    toolCallId: Option<string>,
    name: Option<string>)

  // ---------- Turn boundary ----------

  function FirstUser(history: seq<Message>): (n: nat)
    ensures n <= |history|
    ensures n < |history| ==> history[n].role == User
    ensures forall i :: 0 <= i < n ==> history[i].role != User
  {
    if history == [] || history[0].role == User then 0 else 1 + FirstUser(history[1..])
  }

  ghost predicate HasUser(history: seq<Message>) {
    exists m :: m in history && m.role == User
  }

  function TrimToTurnBoundary(history: seq<Message>): seq<Message> {
    var n := FirstUser(history);
    if n < |history| then history[n..] else history
  }

  /** Trimming opens on a user message whenever there is one, and drops no user message;
      it drops nothing exactly when the window already opens that way or has no user. */
  lemma TrimOpensOnUser(history: seq<Message>)
    ensures HasUser(history) ==> TrimToTurnBoundary(history) != [] && TrimToTurnBoundary(history)[0].role == User
    ensures forall m :: m in history && m.role == User ==> m in TrimToTurnBoundary(history)
    ensures TrimToTurnBoundary(history) == history <==>
            history == [] || history[0].role == User || !HasUser(history)
  {
    var n := FirstUser(history);
    if HasUser(history) {
      var m :| m in history && m.role == User;
      var i :| 0 <= i < |history| && history[i] == m;
      assert n <= i;
    }
    forall m | m in history && m.role == User
      ensures m in TrimToTurnBoundary(history)
    {
      var i :| 0 <= i < |history| && history[i] == m;
      assert n <= i && history[n..][i - n] == m;
    }
    if 0 < n < |history| {
      assert |history[n..]| < |history|;
      assert history[n] in history;
    }
  }

  function ToChatMessage(m: Message): ChatMessage {
    ChatMessage(m.role, if m.role == User then m.content + m.attached else m.content, m.toolCalls, m.toolCallId, None)
  }

  function ToChatMessages(history: seq<Message>): (chat: seq<ChatMessage>)
    ensures |chat| == |history|
    ensures forall i :: 0 <= i < |history| ==> chat[i] == ToChatMessage(history[i])
  {
    seq(|history|, i requires 0 <= i < |history| => ToChatMessage(history[i]))
  }

  // ---------- Repairing dangling tool calls ----------

  const INTERRUPTED: string := "{\"error\":\"interrupted — this tool call never completed\"}"

  function Interrupted(call: ToolCall): ChatMessage {
    ChatMessage(Tool, INTERRUPTED, [], Some(call.id), Some(call.name))
  }

  function Answers(messages: seq<ChatMessage>): set<string> {
    set m | m in messages && m.toolCallId.Some? :: m.toolCallId.value
  }

  function Unanswered(calls: seq<ToolCall>, answered: set<string>): (missing: seq<ToolCall>)
    ensures forall c :: c in missing <==> c in calls && c.id !in answered
    ensures |missing| <= |calls|
  {
    if calls == [] then []
    else (if calls[0].id in answered then [] else [calls[0]]) + Unanswered(calls[1..], answered)
  }

  /** Call by call, in call order. */
  lemma {:induction false} UnansweredIs(a: seq<ToolCall>, b: seq<ToolCall>, c: ToolCall, answered: set<string>)
    ensures Unanswered(a + b, answered) == Unanswered(a, answered) + Unanswered(b, answered)
    ensures Unanswered([c], answered) == if c.id in answered then [] else [c]
  {
    if a == [] {
      assert a + b == b;
    } else {
      assert (a + b)[1..] == a[1..] + b;
      UnansweredIs(a[1..], b, c, answered);
    }
    assert [c][1..] == [];
  }

  function Missing(m: ChatMessage, answered: set<string>): seq<ToolCall> {
    if m.role == Assistant then Unanswered(m.toolCalls, answered) else []
  }

  function Results(calls: seq<ToolCall>): (results: seq<ChatMessage>)
    ensures |results| == |calls|
    ensures forall i :: 0 <= i < |calls| ==> results[i] == Interrupted(calls[i])
  {
    seq(|calls|, i requires 0 <= i < |calls| => Interrupted(calls[i]))
  }

  /** Each message, followed by a result for each of its unanswered calls. */
  function Repaired(messages: seq<ChatMessage>, answered: set<string>): seq<ChatMessage> {
    if messages == [] then []
    else [messages[0]] + Results(Missing(messages[0], answered)) + Repaired(messages[1..], answered)
  }

  function Patched(messages: seq<ChatMessage>): seq<ChatMessage> {
    Repaired(messages, Answers(messages))
  }

  lemma {:induction false} RepairedAppend(a: seq<ChatMessage>, m: ChatMessage, answered: set<string>)
    ensures Repaired(a + [m], answered) == Repaired(a, answered) + [m] + Results(Missing(m, answered))
  {
    if a == [] {
      assert a + [m] == [m];
      assert Repaired([m][1..], answered) == [];
    } else {
      assert (a + [m])[1..] == a[1..] + [m];
      RepairedAppend(a[1..], m, answered);
    }
  }

  lemma InsertAfter<T>(head: seq<T>, done: seq<T>, tail: seq<T>, x: T)
    ensures var s, at := head + done + tail, |head| + |done|;
            s[..at] + [x] + s[at..] == head + (done + [x]) + tail
  {
  }

  lemma TakeNext<T>(s: seq<T>, i: nat)
    requires i < |s|
    ensures s[..i + 1] == s[..i] + [s[i]]
  {
  }

  lemma StartApart<T>(s: seq<T>, i: nat)
    requires i <= |s|
    ensures s == s[..i] + [] + s[i..]
  {
  }

  lemma SplitFirst<T>(head: seq<T>, tail: seq<T>)
    requires tail != []
    ensures (head + tail)[|head|] == tail[0]
    ensures (head + tail)[..|head| + 1] == head + [tail[0]]
    ensures (head + tail)[|head| + 1..] == tail[1..]
  {
  }

  /** The list when the loop stands on original message `k`, taken apart there. */
  lemma TakeApart(before: seq<ChatMessage>, answered: set<string>, k: nat, s: seq<ChatMessage>)
    requires k < |before| && s == Repaired(before[..k], answered) + before[k..]
    ensures var index := |Repaired(before[..k], answered)|;
            && index < |s| && s[index] == before[k]
            && s[..index + 1] == Repaired(before[..k], answered) + [before[k]]
            && s[index + 1..] == before[k + 1..]
  {
    SplitFirst(Repaired(before[..k], answered), before[k..]);
    assert before[k..][1..] == before[k + 1..];
  }

  lemma PutTogether(before: seq<ChatMessage>, answered: set<string>, k: nat)
    requires k < |before|
    ensures Repaired(before[..k + 1], answered)
         == Repaired(before[..k], answered) + [before[k]] + Results(Missing(before[k], answered))
  {
    assert before[..k + 1] == before[..k] + [before[k]];
    RepairedAppend(before[..k], before[k], answered);
  }

  /** The list the replay is built in; repaired in place. */
  class Seed {
    var messages: seq<ChatMessage>

    constructor (messages: seq<ChatMessage>)
      ensures this.messages == messages
    {
      this.messages := messages;
    }

    method PatchDanglingToolCalls()
      modifies this
      ensures messages == Patched(old(messages))
    {
      ghost var before := messages;
      var answered := set m | m in messages && m.toolCallId.Some? :: m.toolCallId.value;
      var index := 0;
      ghost var k := 0; // original messages passed
      while index < |messages|
        invariant 0 <= k <= |before| && index == |Repaired(before[..k], answered)|
        invariant messages == Repaired(before[..k], answered) + before[k..]
        decreases |before| - k
      {
        TakeApart(before, answered, k, messages);
        var missing := Missing(messages[index], answered);
        ghost var head, tail := messages[..index + 1], messages[index + 1..];
        var offset := 0;
        StartApart(messages, index + 1);
        while offset < |missing|
          invariant 0 <= offset <= |missing|
          invariant messages == head + Results(missing)[..offset] + tail
        {
          var at := index + 1 + offset;
          var result := Interrupted(missing[offset]);
          ghost var done := Results(missing)[..offset];
          TakeNext(Results(missing), offset);
          InsertAfter(head, done, tail, result);
          messages := messages[..at] + [result] + messages[at..];
          offset := offset + 1;
        }
        assert Results(missing)[..offset] == Results(missing);
        PutTogether(before, answered, k);
        assert messages == Repaired(before[..k + 1], answered) + before[k + 1..];
        k := k + 1;
        index := index + |missing| + 1;
      }
      assert before[..k] == before;
    }
  }

  /** Where message `k` ends up: after the repair of everything before it. */
  function Position(messages: seq<ChatMessage>, answered: set<string>, k: nat): nat
    requires k <= |messages|
  {
    |Repaired(messages[..k], answered)|
  }

  lemma {:induction false} RepairedFrom(messages: seq<ChatMessage>, answered: set<string>, k: nat)
    requires k <= |messages|
    ensures Repaired(messages, answered) == Repaired(messages[..k], answered) + Repaired(messages[k..], answered)
    decreases |messages| - k
  {
    if k == |messages| {
      assert messages[..k] == messages && messages[k..] == [];
    } else {
      RepairedFrom(messages, answered, k + 1);
      PutTogether(messages, answered, k);
      assert messages[k..][1..] == messages[k + 1..];
      var results, tail := Results(Missing(messages[k], answered)), Repaired(messages[k + 1..], answered);
      Associate(Repaired(messages[..k], answered), [messages[k]], results);
      Associate(Repaired(messages[..k], answered), [messages[k]] + results, tail);
    }
  }

  lemma MiddleOf<T>(a: seq<T>, x: T, b: seq<T>, c: seq<T>, s: seq<T>)
    requires s == a + [x] + b + c
    ensures s[|a|] == x && s[|a| + 1..|a| + 1 + |b|] == b
  {
  }

  /** The repair is the original messages in order, each directly followed by one result per
      unanswered call in call order, and nothing else. */
  lemma OriginalsThenTheirResults(messages: seq<ChatMessage>, k: nat)
    requires k < |messages|
    ensures var answered := Answers(messages);
            var at, next := Position(messages, answered, k), Position(messages, answered, k + 1);
            && at < next <= |Patched(messages)|
            && Patched(messages)[at] == messages[k]
            && Patched(messages)[at + 1..next] == Results(Missing(messages[k], answered))
            && (k + 1 == |messages| ==> next == |Patched(messages)|)
  {
    var answered := Answers(messages);
    RepairedFrom(messages, answered, k + 1);
    PutTogether(messages, answered, k);
    MiddleOf(Repaired(messages[..k], answered), messages[k], Results(Missing(messages[k], answered)),
             Repaired(messages[k + 1..], answered), Patched(messages));
    if k + 1 == |messages| {
      assert messages[..k + 1] == messages;
    }
  }

  /** A message survives the repair, and each of its unanswered calls gets its result. */
  lemma {:induction false} RepairedKeeps(messages: seq<ChatMessage>, answered: set<string>, m: ChatMessage, c: ToolCall)
    requires m in messages
    ensures m in Repaired(messages, answered)
    ensures c in Missing(m, answered) ==> Interrupted(c) in Repaired(messages, answered)
  {
    var rest := Repaired(messages[1..], answered);
    var calls := Missing(messages[0], answered);
    var results := Results(calls);
    if m == messages[0] {
      if c in calls {
        var i :| 0 <= i < |calls| && calls[i] == c;
        assert results[i] == Interrupted(c) && results[i] in results;
      }
    } else {
      RepairedKeeps(messages[1..], answered, m, c);
    }
  }

  /** The repair adds tool results only. */
  lemma {:induction false} RepairedAdds(messages: seq<ChatMessage>, answered: set<string>, r: ChatMessage)
    requires r in Repaired(messages, answered) && r.role != Tool
    ensures r in messages
  {
    if r != messages[0] {
      assert r !in Results(Missing(messages[0], answered));
      RepairedAdds(messages[1..], answered, r);
    }
  }

  /** Every assistant tool call of the repaired history has an answer. */
  lemma EveryCallIsAnswered(messages: seq<ChatMessage>, m: ChatMessage, c: ToolCall)
    requires m in Patched(messages) && m.role == Assistant && c in m.toolCalls
    ensures c.id in Answers(Patched(messages))
  {
    var answered := Answers(messages);
    RepairedAdds(messages, answered, m);
    if c.id in answered {
      var r :| r in messages && r.toolCallId == Some(c.id);
      RepairedKeeps(messages, answered, r, c);
    } else {
      RepairedKeeps(messages, answered, m, c);
      assert Interrupted(c).toolCallId.value in Answers(Patched(messages));
    }
  }

  ghost predicate Dangling(messages: seq<ChatMessage>) {
    exists m :: m in messages && Missing(m, Answers(messages)) != []
  }

  lemma {:induction false} NothingToRepair(messages: seq<ChatMessage>, answered: set<string>)
    requires forall m :: m in messages ==> Missing(m, answered) == []
    ensures Repaired(messages, answered) == messages
  {
    if messages != [] {
      NothingToRepair(messages[1..], answered);
    }
  }

  /** The repair changes a history exactly when it has a dangling call... */
  lemma ChangesOnlyDangling(messages: seq<ChatMessage>)
    ensures Patched(messages) == messages <==> !Dangling(messages)
  {
    if Dangling(messages) {
      var m :| m in messages && Missing(m, Answers(messages)) != [];
      var k :| 0 <= k < |messages| && messages[k] == m;
      LongerWhenMissing(messages, Answers(messages), k);
    } else {
      NothingToRepair(messages, Answers(messages));
    }
  }

  lemma {:induction false} LongerWhenMissing(messages: seq<ChatMessage>, answered: set<string>, k: nat)
    requires k < |messages| && Missing(messages[k], answered) != []
    ensures |Repaired(messages, answered)| > |messages|
  {
    if k > 0 {
      LongerWhenMissing(messages[1..], answered, k - 1);
    } else {
      NotShorter(messages[1..], answered);
    }
  }

  lemma {:induction false} NotShorter(messages: seq<ChatMessage>, answered: set<string>)
    ensures |Repaired(messages, answered)| >= |messages|
  {
    if messages != [] {
      NotShorter(messages[1..], answered);
    }
  }

  /** ... so repairing twice is repairing once. */
  lemma PatchIsIdempotent(messages: seq<ChatMessage>)
    ensures !Dangling(Patched(messages))
    ensures Patched(Patched(messages)) == Patched(messages)
  {
    var patched := Patched(messages);
    forall m | m in patched
      ensures Missing(m, Answers(patched)) == []
    {
      if Missing(m, Answers(patched)) != [] {
        var c := Missing(m, Answers(patched))[0];
        assert c in Missing(m, Answers(patched));
        EveryCallIsAnswered(messages, m, c);
      }
    }
    ChangesOnlyDangling(patched);
  }

  /** The replay as a whole: a thread window with a user message still opens on one. */
  lemma ReplayOpensOnUser(history: seq<Message>)
    requires HasUser(history)
    ensures var seed := Patched(ToChatMessages(TrimToTurnBoundary(history)));
            seed != [] && seed[0].role == User && !Dangling(seed)
  {
    TrimOpensOnUser(history);
    PatchIsIdempotent(ToChatMessages(TrimToTurnBoundary(history)));
  }

  /** A message says what it said: its role, its text - a user's with what was attached -, its calls and
      the call it answers. */
  ghost predicate Says(c: ChatMessage, m: Message) {
    && c.role == m.role && c.toolCalls == m.toolCalls && c.toolCallId == m.toolCallId
    && c.content == if m.role == User then m.content + m.attached else m.content
  }

  /** An answer to a call, by its id and name, that it was interrupted. */
  ghost predicate SaysInterrupted(c: ChatMessage, call: ToolCall) {
    && c.role == Tool && c.content == "{\"error\":\"interrupted — this tool call never completed\"}"
    && c.toolCalls == [] && c.toolCallId == Some(call.id) && c.name == Some(call.name)
  }

  /** And nothing of the window is lost on the way: each of its messages is there, in order, and each of
      its calls that nobody answered is answered right after it. */
  lemma ReplaySaysEverything(history: seq<Message>, k: nat)
    requires k < |TrimToTurnBoundary(history)|
    ensures var window := TrimToTurnBoundary(history);
      var chat := ToChatMessages(window);
      var seed, at, missing := Patched(chat), Position(chat, Answers(chat), k), Missing(chat[k], Answers(chat));
      && Position(chat, Answers(chat), k + 1) == at + 1 + |missing| <= |seed| && Says(seed[at], window[k])
      && forall i :: 0 <= i < |missing| ==>
           missing[i] in window[k].toolCalls && SaysInterrupted(seed[at + 1 + i], missing[i])
  {
    ResultsFollow(ToChatMessages(TrimToTurnBoundary(history)), k);
  }

  lemma ResultsFollow(chat: seq<ChatMessage>, k: nat)
    requires k < |chat|
    ensures var answered := Answers(chat);
      var at, next := Position(chat, answered, k), Position(chat, answered, k + 1);
      var missing := Missing(chat[k], answered);
      && at < next == at + 1 + |missing| <= |Patched(chat)| && Patched(chat)[at] == chat[k]
      && forall i :: 0 <= i < |missing| ==>
           missing[i] in chat[k].toolCalls && Patched(chat)[at + 1 + i] == Interrupted(missing[i])
  {
    OriginalsThenTheirResults(chat, k);
    var at, next := Position(chat, Answers(chat), k), Position(chat, Answers(chat), k + 1);
    var results := Results(Missing(chat[k], Answers(chat)));
    assert |Patched(chat)[at + 1..next]| == |results|;
    forall i | 0 <= i < |results| ensures Patched(chat)[at + 1 + i] == results[i] {
      assert Patched(chat)[at + 1..next][i] == results[i];
    }
  }
}
