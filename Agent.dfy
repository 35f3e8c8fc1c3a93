/** The conversation agent of agent.py: it auto-saves the last user message
    and the assistant's reply, and answers a `save_memory` tool call with a
    follow-up completion. The chat model is an oracle parameter. */
module Agent {
  import opened Wrappers
  import opened Text
  import Tools

  /** The `role` of a chat message. */
  datatype Role = System | User | Assistant

  datatype Message = Message(role: Role, content: Option<string>)

  /** A tool call with its already-parsed JSON arguments. */
  datatype ToolCall = ToolCall(name: string, arguments: map<string, string>)

  /** The first choice's message of a completion. */
  datatype Completion = Completion(content: Option<string>, toolCalls: seq<ToolCall>)

  /** The chat-completion endpoint: the messages and whether the tool schema is offered. */
  type Model = (seq<Message>, bool) -> Completion

  /** One completion request, as sent. */
  datatype Request = Request(messages: seq<Message>, withTools: bool)

  /** What one invocation does: its reply, the memories it saves in order, and
      the completion requests it sends in order. */
  datatype Run = Run(reply: Option<string>, saves: seq<string>, requests: seq<Request>)

  const SaveToolName := "save_memory"
  const MemoryArgument := "memory"
  const FollowUpNote :=
    "The memory has been saved successfully. Please continue the conversation normally without mentioning the memory saving."

  // ------------------------------------------------------- last user message

  /** The position of the last message with role "user". */
  function LastUserIndex(ms: seq<Message>): (r: Option<nat>)
    ensures r.Some? ==>
              r.value < |ms| && ms[r.value].role == User &&
              forall j :: r.value < j < |ms| ==> ms[j].role != User
    ensures r.None? <==> forall j :: 0 <= j < |ms| ==> ms[j].role != User
  {
    if ms == [] then None
    else if ms[|ms| - 1].role == User then Some(|ms| - 1)
    else LastUserIndex(ms[..|ms| - 1])
  }

  /** A missing content is falsy, as the empty string is. */
  function ContentText(content: Option<string>): string {
    if content.Some? then content.value else ""
  }

  /** The content of the last user message, or "" when there is none. */
  function LastUserMessage(ms: seq<Message>): string {
    match LastUserIndex(ms)
    case None => ""
    case Some(i) => ContentText(ms[i].content)
  }

  // ------------------------------------------------------------- auto-saves

  /** The user message is saved when it is longer than 5 characters and has
      more than 3 whitespace-separated words. */
  predicate SavesUserMessage(msg: string) {
    |msg| > 5 && |Words(msg)| > 3
  }

  /** The length test is implied by the word count: more than 3 words need at
      least 7 characters. */
  lemma SavesUserMessageByWords(msg: string)
    ensures SavesUserMessage(msg) <==> |Words(msg)| > 3
  {
    if |Words(msg)| > 3 {
      ManyWordsAreLong(msg);
    }
  }

  function UserMemory(msg: string): string { "User said: " + msg }

  /** The assistant's text is saved when it is present and longer than 20 characters. */
  predicate SavesReply(content: Option<string>) {
    content.Some? && |content.value| > 20
  }

  /** The reply memory keeps the first 200 characters of the reply. */
  function ReplyMemory(text: string): (r: string)
    ensures |r| == 21 + (if |text| < 200 then |text| else 200) + 3
    ensures r[..21] == "Assistant responded: " && r[21..|r| - 3] == Take(text, 200) && r[|r| - 3..] == "..."
  {
    "Assistant responded: " + Take(text, 200) + "..."
  }

  function UserSaves(ms: seq<Message>): seq<string> {
    var msg := LastUserMessage(ms);
    if SavesUserMessage(msg) then [UserMemory(msg)] else []
  }

  function ReplySaves(c: Completion): seq<string> {
    if SavesReply(c.content) then [ReplyMemory(c.content.value)] else []
  }

  /** A call whose arguments lack "memory" raises a caught `KeyError` and saves nothing. */
  function ToolSaves(call: ToolCall): seq<string> {
    if MemoryArgument in call.arguments then [call.arguments[MemoryArgument]] else []
  }

  // ------------------------------------------------------------- tool calls

  /** The position of the first tool call named `save_memory`: only that one is handled. */
  function FirstSaveCall(calls: seq<ToolCall>): (r: Option<nat>)
    ensures r.Some? ==>
              r.value < |calls| && calls[r.value].name == SaveToolName &&
              forall j :: 0 <= j < r.value ==> calls[j].name != SaveToolName
    ensures r.None? <==> forall j :: 0 <= j < |calls| ==> calls[j].name != SaveToolName
  {
    if calls == [] then None
    else if calls[0].name == SaveToolName then Some(0)
    else
      match FirstSaveCall(calls[1..])
      case None => None
      case Some(k) => Some(k + 1)
  }

  /** The follow-up input: a copy of the caller's messages with the system note appended. */
  function FollowUp(ms: seq<Message>): (r: seq<Message>)
    ensures |r| == |ms| + 1 && r[..|ms|] == ms
    ensures r[|ms|] == Message(System, Some(FollowUpNote))
  {
    ms + [Message(System, Some(FollowUpNote))]
  }

  /** One invocation of `agent`, as the sequence of its effects. */
  function Respond(ms: seq<Message>, llm: Model): (r: Run)
    ensures 1 <= |r.requests| <= 2 && r.requests[0] == Request(ms, true)
    ensures |r.saves| <= 3
  {
    var first := llm(ms, true);
    var before := UserSaves(ms) + ReplySaves(first);
    match FirstSaveCall(first.toolCalls)
    case None => Run(first.content, before, [Request(ms, true)])
    case Some(k) =>
      Run(llm(FollowUp(ms), false).content, before + ToolSaves(first.toolCalls[k]),
          [Request(ms, true), Request(FollowUp(ms), false)])
  }

  /** Without a `save_memory` call the reply is the first completion's content,
      and only one completion is requested. */
  lemma RespondWithoutSaveCall(ms: seq<Message>, llm: Model)
    requires forall j :: 0 <= j < |llm(ms, true).toolCalls| ==> llm(ms, true).toolCalls[j].name != SaveToolName
    ensures Respond(ms, llm).reply == llm(ms, true).content
    ensures Respond(ms, llm).requests == [Request(ms, true)]
    ensures Respond(ms, llm).saves == UserSaves(ms) + ReplySaves(llm(ms, true))
  {
  }

  /** With a `save_memory` call at position k, its memory argument is saved
      last, and the reply is that of a tool-less follow-up over the copy. */
  lemma RespondWithSaveCall(ms: seq<Message>, llm: Model, k: nat)
    requires k < |llm(ms, true).toolCalls| && llm(ms, true).toolCalls[k].name == SaveToolName
    requires forall j :: 0 <= j < k ==> llm(ms, true).toolCalls[j].name != SaveToolName
    ensures Respond(ms, llm).reply == llm(FollowUp(ms), false).content
    ensures Respond(ms, llm).requests == [Request(ms, true), Request(FollowUp(ms), false)]
    ensures Respond(ms, llm).saves == UserSaves(ms) + ReplySaves(llm(ms, true)) + ToolSaves(llm(ms, true).toolCalls[k])
  {
    var r := FirstSaveCall(llm(ms, true).toolCalls);
    if r.None? {
    } else if r.value < k {
    } else if r.value > k {
    }
  }

  // ------------------------------------------------------------ the store

  /** The dummy store after saving `saves` in order, the i-th save stamped `stamp(i)`. */
  function SaveAll(m: Tools.Store, userId: string, saves: seq<string>, stamp: nat -> Tools.Stamp): Tools.Store
    decreases |saves|
  {
    if saves == [] then m
    else
      var n := |saves| - 1;
      Tools.SaveOne(SaveAll(m, userId, saves[..n], stamp), userId, saves[n], stamp(n))
  }

  /** The payloads the saves append. */
  function SavedPayloads(saves: seq<string>, stamp: nat -> Tools.Stamp): (r: seq<string>)
    ensures |r| == |saves|
    ensures forall i :: 0 <= i < |saves| ==> r[i] == Tools.Payload(stamp(i).formatted, saves[i])
    decreases |saves|
  {
    if saves == [] then []
    else
      var n := |saves| - 1;
      SavedPayloads(saves[..n], stamp) + [Tools.Payload(stamp(n).formatted, saves[n])]
  }

  /** The saves append their payloads, in order, to the caller's list only. */
  lemma {:induction false} SaveAllEffect(m: Tools.Store, userId: string, saves: seq<string>, stamp: nat -> Tools.Stamp, other: string)
    ensures Tools.Lookup(SaveAll(m, userId, saves, stamp), userId) == Tools.Lookup(m, userId) + SavedPayloads(saves, stamp)
    ensures other != userId ==> Tools.Lookup(SaveAll(m, userId, saves, stamp), other) == Tools.Lookup(m, other)
    decreases |saves|
  {
    if saves != [] {
      var n := |saves| - 1;
      SaveAllEffect(m, userId, saves[..n], stamp, other);
    }
  }

  /** Saving one more memory extends the saved run. */
  lemma SaveAllSnoc(m: Tools.Store, userId: string, saves: seq<string>, x: string, stamp: nat -> Tools.Stamp)
    ensures SaveAll(m, userId, saves + [x], stamp) ==
            Tools.SaveOne(SaveAll(m, userId, saves, stamp), userId, x, stamp(|saves|))
  {
    assert (saves + [x])[..|saves|] == saves;
  }

  // ------------------------------------------------------------- the agent

  /** The reversed search for the last user message, stopping at the first hit. */
  method FindLastUserMessage(messages: seq<Message>) returns (last: string)
    ensures last == LastUserMessage(messages)
  {
    last := "";
    var i := |messages|;
    while i > 0
      invariant 0 <= i <= |messages|
      invariant LastUserIndex(messages[..i]) == LastUserIndex(messages)
      invariant last == ""
      decreases i
    {
      if messages[i - 1].role == User {
        assert messages[..i][i - 1] == messages[i - 1];
        assert LastUserIndex(messages[..i]) == Some(i - 1);
        last := ContentText(messages[i - 1].content);
        break;
      }
      assert messages[..i][..i - 1] == messages[..i - 1];
      i := i - 1;
    }
    if i == 0 {
      assert messages[..0] == [];
    }
  }

  /** One `save_memory` call of the agent, whose status is discarded; on the
      dummy index the store moves one save further along `saved`. */
  method Remember(memory: string, userId: string, index: Tools.Index, embed: string -> Tools.EmbedOutcome,
                  stamp: nat -> Tools.Stamp, ghost start: Tools.Store, saved: seq<string>)
    returns (savedNow: seq<string>)
    requires index.backend.Dummy? ==> index.backend.store.memories == SaveAll(start, userId, saved, stamp)
    modifies Tools.Footprint(index)
    ensures savedNow == saved + [memory]
    ensures index.backend.Dummy? ==> index.backend.store.memories == SaveAll(start, userId, savedNow, stamp)
  {
    var _ := Tools.SaveMemory(memory, userId, index, embed, stamp(|saved|));
    SaveAllSnoc(start, userId, saved, memory, stamp);
    savedNow := saved + [memory];
  }

  /** The first auto-save: the last user message, when it is long enough. */
  method SaveUserMessage(messages: seq<Message>, userId: string, index: Tools.Index, embed: string -> Tools.EmbedOutcome,
                         stamp: nat -> Tools.Stamp, ghost start: Tools.Store)
    returns (saved: seq<string>)
    requires index.backend.Dummy? ==> index.backend.store.memories == start
    modifies Tools.Footprint(index)
    ensures saved == UserSaves(messages)
    ensures index.backend.Dummy? ==> index.backend.store.memories == SaveAll(start, userId, saved, stamp)
  {
    saved := [];
    var last := FindLastUserMessage(messages);
    if SavesUserMessage(last) {
      saved := Remember(UserMemory(last), userId, index, embed, stamp, start, saved);
    }
  }

  /** The second auto-save: the model's first reply, when it is long enough. */
  method SaveReply(first: Completion, userId: string, index: Tools.Index, embed: string -> Tools.EmbedOutcome,
                   stamp: nat -> Tools.Stamp, ghost start: Tools.Store, saved: seq<string>)
    returns (savedNow: seq<string>)
    requires index.backend.Dummy? ==> index.backend.store.memories == SaveAll(start, userId, saved, stamp)
    modifies Tools.Footprint(index)
    ensures savedNow == saved + ReplySaves(first)
    ensures index.backend.Dummy? ==> index.backend.store.memories == SaveAll(start, userId, savedNow, stamp)
  {
    savedNow := saved;
    if SavesReply(first.content) {
      savedNow := Remember(ReplyMemory(first.content.value), userId, index, embed, stamp, start, saved);
    }
  }

  /** `agent`: the reply of `Respond`; on the dummy index the saves of
      `Respond` land in the store, in order. */
  method Agent(messages: seq<Message>, userId: string, index: Tools.Index, embed: string -> Tools.EmbedOutcome,
               llm: Model, stamp: nat -> Tools.Stamp)
    returns (reply: Option<string>)
    modifies Tools.Footprint(index)
    ensures reply == Respond(messages, llm).reply
    ensures index.backend.Dummy? ==>
              index.backend.store.memories ==
              SaveAll(old(index.backend.store.memories), userId, Respond(messages, llm).saves, stamp)
  {
    ghost var start := if index.backend.Dummy? then index.backend.store.memories else map[];
    var saved := SaveUserMessage(messages, userId, index, embed, stamp, start);
    var first := llm(messages, true);
    saved := SaveReply(first, userId, index, embed, stamp, start, saved);

    var k := 0;
    while k < |first.toolCalls|
      invariant 0 <= k <= |first.toolCalls|
      invariant forall j :: 0 <= j < k ==> first.toolCalls[j].name != SaveToolName
      invariant saved == UserSaves(messages) + ReplySaves(first)
      invariant index.backend.Dummy? ==> index.backend.store.memories == SaveAll(start, userId, saved, stamp)
    {
      var call := first.toolCalls[k];
      if call.name == SaveToolName {
        if MemoryArgument in call.arguments {
          saved := Remember(call.arguments[MemoryArgument], userId, index, embed, stamp, start, saved);
        }
        RespondWithSaveCall(messages, llm, k);
        var second := llm(FollowUp(messages), false);
        return second.content;
      }
      k := k + 1;
    }
    RespondWithoutSaveCall(messages, llm);
    return first.content;
  }

  /** An invocation never changes another user's memories. */
  lemma AgentIsolation(m: Tools.Store, userId: string, ms: seq<Message>, llm: Model, stamp: nat -> Tools.Stamp, other: string)
    requires other != userId
    ensures Tools.Lookup(SaveAll(m, userId, Respond(ms, llm).saves, stamp), other) == Tools.Lookup(m, other)
  {
    SaveAllEffect(m, userId, Respond(ms, llm).saves, stamp, other);
  }
}
