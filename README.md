# Language tutor: a verified model

This project models the core of a Streamlit language-tutor app in Dafny and
proves properties of that model. The app lets a learner pick a language and a
CEFR level, choose a practice mode (conversation, grammar or vocabulary), chat
with an LLM tutor and end the lesson with a scored evaluation. Along the way it
stores "memories" about the learner in a vector index.

The model covers five parts of the app:

- **`Tools`** (`tools.py`) is the memory service.
  - `DummyIndex` is modelled as a class: a map from user id to that user's
    payloads in insertion order, filled by an `upsert` loop and read by `query`.
  - `save_memory` builds the timestamped payload, the metadata and the path.
  - `load_memories` substitutes the probe for an empty prompt, builds the flat
    filter and turns matches into payloads.
  - Both calls turn errors into status strings or one error pseudo-memory.
  - Also modelled: the embedding fallback, the profile path and the default
    profile.
  - The real Pinecone index is an oracle: its `upsert` answers the exception it
    raised, if any, and its `query` answers matches or a failure.
- **`SubTools`** (`sub/tools.py`) is the variant service.
  - It uses the `$and` filter and a decoder for that filter.
  - Its `DummyIndex` returns exceptions as results instead of raising them.
  - Its record has no `path` field.
  - The profile helpers and the embedding fallback are identical to those of
    `tools.py`, so they are taken from `Tools`.
- **`Prompts`** (`prompts.py`) is the prompt composer.
  - The system prompt makes two retrievals and merges them with set
    deduplication into a bulleted memory block.
  - Also modelled: the three mode prompts, which carry the marker "The user is
    learning", the welcome message and the canned mode replies.
- **`Agent`** (`agent.py`) is the conversation agent.
  - It searches for the last user message and auto-saves it, then auto-saves the
    first reply.
  - At the first `save_memory` tool call it makes one follow-up completion over a
    copy of the messages.
  - `Respond` describes one invocation as its reply, the memories it saves and
    the completion requests it sends. The method `Agent` is proved to perform
    exactly that run.
- **`App`** (`app.py`) is the session state machine.
  - `TutorSession` holds the three flags, the message list (whose first entry is
    the system prompt), the score and the profile.
  - Its methods are the transitions: start, mode selection, chat turn, end
    lesson and reset. Each one keeps the invariant `Valid()`.
  - The pure parsers are also here: the leftmost `(\d+(\.\d+)?)/10` score
    search, the `split("The user is learning")[1]` context extraction, the CEFR
    code and the default selections.

`Text` models the Python string operations the app relies on. `Wrappers` holds
`Option` and `Result`.

External services, the clock and UUIDs come in as parameters:

- `embed` is the embedding endpoint.
- `llm` is the chat-completion endpoint, called with the messages and whether the
  tool schema is offered.
- `Stamp` carries the formatted time, the `str()` of the time and the fresh id of
  one save. A run that saves several times takes `stamp: nat -> Stamp`.

Two behaviours of the code are worth knowing:

- Ending a lesson with a missing evaluation (`None` content) makes `re.search`
  raise, which stops the run after the reply is posted.
  `App.TutorSession.EndLesson` models that.
- A chat turn keeps only the text after the first marker "The user is learning".
  Assume neither the base prompt nor any retrieved memory contains the marker.
  Then the mode text survives one turn only. The next turn falls back to the
  bare language sentence (`App.ContextFallsBack`). The turn after that keeps
  only that sentence's tail, " <language> at <level> level.", which has no
  marker (`App.ContextAfterFallback`). From then on, turns alternate between
  the sentence and its tail. The assumption can fail, because the agent saves
  the user's own words as memories. Once a retrieved memory holds the marker,
  the kept context is cut from inside the memory list instead.

## Model

| member | source | states |
|---|---|---|
| Text.Words | agent.py:36 | `str.split()` with no argument yields only non-empty words |
| Text.WordsHaveNoSpaces | app.py:130 | no word of `split()` contains a whitespace character |
| Text.FirstWord | app.py:130 | a leading non-whitespace run followed by whitespace is the first word of `split()` |
| Text.WordsFromLength | agent.py:36 | n words of `split()` need at least 2n - 1 characters |
| Text.ManyWordsAreLong | agent.py:32-36 | a text of more than three words has at least seven characters |
| Text.FindFrom | app.py:248 | the result is an occurrence at or after the start with none between; no result means no occurrence from there on |
| Text.Find | app.py:248 | a position is found exactly when `pat in s` holds, and it is the leftmost occurrence |
| Text.UpToFirstSeparator | app.py:248 | the first piece of a split is a prefix without the separator, followed by the end or by the separator |
| Text.SecondPieceBetweenSeparators | app.py:248 | `s.split(sep)[1]` is the text right after the first separator; it holds no separator and is followed by the end or by the next separator |
| Text.Take | tools.py:47 | `xs[:k]` is a prefix of length min(k, len) for k >= 0, and of length len + k (at least 0) for negative k |
| Tools.ProfilePath | tools.py:77-87 | the path ends in ".json" and is `user_profiles/<id>.json`, or `<id>.json` when the id is absolute, as `os.path.join` does |
| Tools.ProfilePathInjective | tools.py:87 | distinct user ids give distinct path strings |
| Tools.NewProfile | tools.py:127-136 | the new profile belongs to the user, has an empty language history, a last session of three nulls and no `lesson_history` key |
| Tools.LoadUserProfile | tools.py:105-138 | a stored profile that parses is returned as is; a missing or unreadable one gives the default profile for the user, created at the current time |
| Tools.GetEmbeddings | tools.py:141-151 | the service's vector, or exactly 1536 zeros when the call fails |
| Tools.MemoryRecord | tools.py:166-191 | the record has the fresh id and the vector; its metadata has exactly the keys payload, path, timestamp, type and user_id, with payload `[time] memory`, path `user/<user>/recall/<id>` and type "recall" |
| Tools.AppendOne | tools.py:37-40 | one step of the upsert loop. A record without `user_id` raises `KeyError('user_id')`; one without `payload` raises after its user's empty list is created; otherwise its payload is appended. `Tools.AppendOneWellFormed` states the good case and `Tools.AppendAllFailure` the error texts |
| Tools.AppendAll | tools.py:36-41 | the whole upsert loop, stopping at the first record that raises. `Tools.AppendAllSpec` gives each user's resulting list, `Tools.AppendAllFailure` the error, and `Tools.DummyIndex.Upsert` is proved to compute it |
| Tools.GoodPrefix | tools.py:36-40 | the records before this point are well-formed and the record at it, if any, is not |
| Tools.AppendAllSpec | tools.py:36-40 | the upsert loop appends to each user's list the payloads of that user's records before the first malformed one, in input order |
| Tools.AppendAllFailure | tools.py:37-41 | the loop raises exactly when some record is malformed, with the `KeyError` of that record's first missing key |
| Tools.AppendOneWellFormed | tools.py:37-40 | a well-formed record raises nothing and extends only its own user's list, by its payload |
| Tools.UpsertIsolation | tools.py:37-40 | after an upsert, a user's list holds only what it held before and payloads of records tagged with that user |
| Tools.PayloadsForSource | tools.py:37-40 | every payload reported for a user comes from a record tagged with that user |
| Tools.FlatFilterRoundTrip | tools.py:224-227 | the flat filter decodes back to its user, the way `query` reads it, and it requires type "recall" |
| Tools.PayloadMatches | tools.py:46 | one match per payload, in order, each carrying exactly that payload |
| Tools.TakePayloadMatches | tools.py:46-47 | slicing the matches to `top_k` equals building matches from the sliced payloads |
| Tools.BuildQuery | tools.py:219-238 | the query embeds the prompt, or "recent memories" for an empty prompt; its filter decodes to the user and requires "recall"; it asks for 10 matches with metadata in the configured namespace |
| Tools.MemoriesOf | tools.py:240-252 | the payloads in match order, `[]` for no matches; a failing query gives `["Error loading memories: <msg>"]`, and so does a match without a payload (with the `KeyError` text) |
| Tools.MemoriesOfPayloadMatches | tools.py:243 | reading the payloads back out of the dummy's matches gives the stored payloads |
| Tools.DummyIndex.constructor | tools.py:32-33 | the index starts with no memories |
| Tools.DummyIndex.Upsert | tools.py:35-41 | the new store is that of the upsert loop; the result is `len(vectors)` when no record raises, and otherwise the `KeyError`, with the earlier records kept |
| Tools.DummyIndex.Query | tools.py:43-48 | the first `top_k` payloads of the filter's user, or of "unknown", in insertion order and never more than stored; none for a user without a list |
| Tools.AppendMemoryRecord | tools.py:193-196 | upserting the record `save_memory` builds appends exactly its payload to its user's list and raises nothing |
| Tools.SaveMemory | tools.py:153-202 | on the dummy index: the success status, with `[time] memory` appended to the user's list and nothing else changed; on Pinecone: "Error saving memory: ..." when the upsert raised, else success |
| Tools.LoadMemories | tools.py:204-252 | on the dummy index: the user's first ten memories in insertion order; on Pinecone: the payloads of the oracle's answer to the query that `load_memories` builds |
| Tools.SaveThenLoad | tools.py:40-47 | a memory saved by a user who holds fewer than ten is loaded next time; with ten or more, loading returns exactly the first ten as before |
| Tools.SaveIsolation | tools.py:37-40 | a save for one user leaves every other user's memories unchanged |
| SubTools.AndFilterRoundTrip | sub/tools.py:262-267 | the `$and` filter decodes back to exactly the user it was built for and requires type "recall" |
| SubTools.ScanConditions | sub/tools.py:68-71 | the walk over the `$and` conditions. `SubTools.ScanLastWins`, `SubTools.ScanNoUser` and `SubTools.ScanMissingEq` state its outcomes |
| SubTools.FilterUserId | sub/tools.py:66-73 | the user a filter selects: from the `$and` list when present, else from a flat `user_id` clause, else "unknown". `SubTools.AndFilterRoundTrip` shows that the filter `load_memories` builds decodes to its user, and `SubTools.DummyIndex.Query` is proved to follow it |
| SubTools.ScanLastWins | sub/tools.py:68-71 | in a `$and` list, the last condition naming `user_id` decides the user |
| SubTools.ScanNoUser | sub/tools.py:67-71 | with no condition naming `user_id`, the user stays as it was, initially "unknown" |
| SubTools.ScanMissingEq | sub/tools.py:68-71 | a `user_id` condition without `$eq` makes the decoding raise `KeyError('$eq')` |
| SubTools.MemoryRecord | sub/tools.py:207-231 | the record has the fresh id and the vector; its metadata has exactly payload, timestamp, type "recall" and user_id, and no path |
| SubTools.DummyIndex.constructor | sub/tools.py:48-49 | the index starts with no memories |
| SubTools.DummyIndex.Upsert | sub/tools.py:52-62 | the upsert never raises: the count on success, otherwise count 0 with the error, and the records before the failing one stay appended |
| SubTools.DummyIndex.Query | sub/tools.py:64-89 | matches for the user decoded from the `$and` list, the flat key or "unknown": the first `top_k` payloads in insertion order; a filter that raises gives no matches and the error |
| SubTools.BuildQuery | sub/tools.py:257-278 | the query embeds the prompt or "recent memories"; its `$and` filter decodes to the user and carries the condition that the kind is "recall"; it asks for 10 matches with metadata in the namespace |
| SubTools.SaveMemory | sub/tools.py:194-240 | on the dummy index: always the success status, with the payload appended to the user's list; on Pinecone: the error status when the upsert raised, else success |
| SubTools.LoadMemories | sub/tools.py:242-292 | on the dummy index: the user's first ten memories; on Pinecone: the payloads of the oracle's answer, with failures as one error pseudo-memory |
| Prompts.Dedup | prompts.py:24 | `list(set(xs))` holds exactly the elements of `xs`, each once |
| Prompts.BulletLines | prompts.py:28 | the joined bullet lines begin with a bullet |
| Prompts.BulletLinesContain | prompts.py:28 | every memory appears as the line `- memory` |
| Prompts.MemoryBlock | prompts.py:27-32 | the bullet lines, or the fallback line for no memories. `Prompts.MemoryBlockLists` states what it contains |
| Prompts.MemoryBlockLists | prompts.py:27-32 | the block is "No previous memories found." exactly when there are no memories; otherwise it lists every memory as a bullet |
| Prompts.PromptTemplateLayout | prompts.py:55-57 | the template ends with the heading "Memories from previous conversations:" followed by the memory block and the closing indentation |
| Prompts.MergedMemories | prompts.py:19-24 | a memory is merged exactly when the "recent conversation history" retrieval returns it, or the prompt retrieval does for a non-empty prompt; no memory appears twice |
| Prompts.GetSystemPrompt | prompts.py:6-57 | the template around the block of merged memories. `Prompts.SystemPromptListsMemories` and `Prompts.PromptTemplateLayout` state what it lists and where |
| Prompts.SystemPromptListsMemories | prompts.py:6-57 | the system prompt lists every merged memory as a bullet, and the fallback line when there are none |
| Prompts.DummyPromptMemories | prompts.py:20-24 | on the dummy index, the prompt's memories are exactly the distinct ones among the user's first ten |
| Prompts.ModePrompt | prompts.py:59-119 | the three mode prompt builders. `Prompts.ModePromptLayout` states the order of the base prompt, the language line and the mode tag line |
| Prompts.ModePromptLayout | prompts.py:71-77 | each mode prompt starts with the base prompt, then has `The user is learning <language> at <level> level.`, then "They have chosen <TAG> mode."; so it contains the marker |
| Prompts.WelcomeMessage | prompts.py:121-131 | the welcome. `Prompts.WelcomeNamesLanguage` shows that it names the language |
| Prompts.WelcomeNamesLanguage | prompts.py:131 | the welcome message names the language |
| Prompts.ModeResponse | prompts.py:133-170 | the three canned mode replies. `Prompts.ModeResponseNames` shows that they name the language, and the level where the source puts it |
| Prompts.ModeResponseNames | prompts.py:144-170 | each canned mode reply names the language; the grammar and vocabulary replies also name the level |
| Agent.LastUserIndex | agent.py:25-29 | the position of a user message with no user message after it; none exactly when no message has role "user" |
| Agent.LastUserMessage | agent.py:24-29 | the content of the message `Agent.LastUserIndex` picks, or "". `Agent.FindLastUserMessage` is proved to compute it |
| Agent.FindLastUserMessage | agent.py:25-29 | the reversed search with `break` returns the content of the last user message, or "" |
| Agent.SavesUserMessageByWords | agent.py:32-36 | the user message is saved exactly when it has more than 3 words; the length test can never reject it |
| Agent.UserSaves | agent.py:32-38 | the user-message auto-save: `User said: <msg>`, exactly when the message is longer than 5 characters with more than 3 words. `Agent.SavesUserMessageByWords` shows that the word test alone decides, and `Agent.SaveUserMessage` performs it |
| Agent.ReplySaves | agent.py:54-57 | the reply auto-save, exactly when the content is present and longer than 20 characters. `Agent.ReplyMemory` states the saved text, and `Agent.SaveReply` performs it |
| Agent.ToolSaves | agent.py:72-76 | the tool call's `memory` argument; a call without it raises a caught `KeyError` and saves nothing. `Agent.RespondWithSaveCall` places it after the auto-saves |
| Agent.ReplyMemory | agent.py:56 | `Assistant responded: ` + the first 200 characters of the reply + `...` |
| Agent.FirstSaveCall | agent.py:65-70 | the first tool call named `save_memory`; none exactly when no call has that name |
| Agent.FollowUp | agent.py:80-84 | the follow-up input is the caller's messages unchanged plus exactly one system note |
| Agent.Respond | agent.py:44-93 | one invocation first requests a completion of the messages with tools; it sends at most 2 requests and makes at most 3 saves |
| Agent.RespondWithoutSaveCall | agent.py:63-96 | without a `save_memory` call: the first completion's content, one request, and only the two auto-saves |
| Agent.RespondWithSaveCall | agent.py:63-93 | at the first `save_memory` call, its memory argument is saved after the auto-saves, and the reply is a tool-less follow-up over the copy |
| Agent.SavedPayloads | tools.py:168 | the i-th appended payload is the i-th memory with the i-th timestamp |
| Agent.SaveAllEffect | agent.py:32-76 | the saves of one run append their payloads, in order, to the caller's list, and to no other |
| Agent.Remember | agent.py:72-76 | one save extends the run's saves by the memory, and on the dummy index the store follows |
| Agent.SaveUserMessage | agent.py:31-41 | the saves are the user-message auto-save (or none), and on the dummy index they land in the store |
| Agent.SaveReply | agent.py:53-60 | the run's saves are extended by the reply auto-save (or nothing), and on the dummy index they land in the store |
| Agent.Agent | agent.py:10-96 | the reply is that of `Respond`; on the dummy index, the store gains exactly the saves of `Respond`, in order |
| Agent.AgentIsolation | agent.py:38 | one invocation never changes another user's memories |
| App.IndexOf | app.py:114 | `options.index(x)` is the first position that holds `x` |
| App.DefaultIndex | app.py:112-114 | the stored choice's first position when it is one of the options, else 0 |
| App.CefrCode | app.py:130 | the first word of the level label: non-empty and without whitespace |
| App.CefrCodeOfLevel | app.py:120-130 | each offered level label yields its code A1, A2, B1, B2 or C1 |
| App.MatchAt | app.py:329 | the pattern tried at one start position. `App.MatchAtSound` and `App.MatchAtComplete` show that it finds exactly the decimal written there before "/10" |
| App.MatchAtSound | app.py:329 | what the pattern matches at a position is a decimal written there, immediately followed by "/10" |
| App.MatchAtComplete | app.py:329 | a decimal written at a position and followed by "/10" is what the pattern matches there |
| App.ScorePosition | app.py:329 | the search stops at the first position where the pattern matches, and finds none only when it matches nowhere |
| App.ExtractScore | app.py:329-330 | group 1 of `re.search`, as text. `App.ExtractScoreSound`, `App.ExtractScoreLeftmost` and `App.ExtractScoreNone` show that it is the leftmost written score, and none exactly when none is written |
| App.ExtractScoreSound | app.py:329-330 | an extracted score is written in the evaluation, with no score written at an earlier position |
| App.ExtractScoreLeftmost | app.py:329-330 | the leftmost written score is the one extracted |
| App.ExtractScoreNone | app.py:329-330 | no score is extracted exactly when none is written; no input is an error |
| App.ScoreExampleWhole | app.py:329 | "12/10" gives the score 12 |
| App.ScoreExampleLongerDenominator | app.py:329 | "1/100" gives the score 1 |
| App.ScoreExampleBarePoint | app.py:329 | "3./10" gives no score: a point needs fraction digits |
| App.LanguageContext | app.py:248 | `split(marker)[1]`, or the fresh language sentence without the marker. Its behaviour is stated by `App.LanguageContextKept`, `App.ContextFallsBack` and `App.ContextAfterFallback` |
| App.LanguageContextKept | app.py:248 | with the marker, the kept context is the text after the first marker, up to the next marker or the end, and holds no marker |
| App.ContextFallsBack | app.py:246-251 | when neither the fresh prompt nor the kept context holds the marker, the next turn keeps the bare language sentence |
| App.ContextAfterFallback | app.py:246-251 | after a fallback turn, the next turn finds the marker only in the bare sentence and keeps its tail, which holds no marker |
| App.TutorSession.constructor | app.py:37-44 | the first run: all flags off, no messages, no score, and the user's profile loaded |
| App.TutorSession.StartLearning | app.py:142-171 | ignored once a conversation has started; otherwise the profile records the choice and one history entry, the start memory is saved, and the messages become exactly the system prompt and the welcome |
| App.TutorSession.RecordStart | app.py:147-155 | the choice becomes the last session and exactly one language-history entry is appended; the rest is unchanged |
| App.TutorSession.Open | app.py:164-170 | the messages are exactly the system prompt and the welcome; the conversation is open with no mode, no lesson end and no score |
| App.TutorSession.SelectMode | app.py:212-232 | one user and one assistant message are appended, the system prompt becomes the mode prompt over the old one, and the mode is recorded |
| App.TutorSession.ChooseMode | app.py:221-232 | exactly two messages are appended and the others kept; only the system prompt is replaced, and `last_session.mode` and `mode_selected` are set |
| App.TutorSession.Post | app.py:221-222 | one message is appended; nothing else changes |
| App.TutorSession.SetSystemPrompt | app.py:227 | only the first message's content is replaced |
| App.TutorSession.ChatTurn | app.py:241-262 | an empty input changes nothing; otherwise the system prompt becomes the fresh one plus "\n" plus the kept context, the user message and the agent's reply are appended (two messages), and the agent's saves land in the store |
| App.TutorSession.Converse | app.py:251-262 | the system prompt is replaced, the user message posted and then the agent's reply, so exactly two messages are added |
| App.TutorSession.EndLesson | app.py:309-356 | posts the request, adds the scoring instruction to the system prompt, and posts the evaluation; then it ends the lesson with the extracted score, appends one lesson entry (creating the list) and saves the completion memory; without an evaluation it stops after the post |
| App.TutorSession.RecordLesson | app.py:333-347 | the lesson ends with its score, and exactly one lesson entry is appended, the list being created when absent |
| App.TutorSession.Reset | app.py:363-369 | from any state: no messages, all flags off, no score; the profile and user id are kept, so a second reset changes nothing |
| App.StartPromptListsStartMemory | app.py:161-165 | on the dummy index, a user with fewer than ten memories finds the start memory listed in the opening system prompt |

## Left out

- Rendering and widgets are not modelled because they are UI: page setup, columns, buttons, chat display, spinner, the sidebar progress panel and the "Update User ID" panel. The widget selections are the parameters of each transition.
- Pinecone client construction and the real index's nearest-neighbour ranking are a foreign service. The real index is an oracle for upsert and query.
- The OpenAI embedding and chat calls are oracles.
  - Embedding values are opaque; only the 1536-zero fallback is concrete.
  - The oracles are functions, so the same input always gives the same answer.
  - A completion call that raises is not modelled.
- Tools.ProfilePath: path resolution is not modelled, because `os.path.join` does not normalise. So `.` and `..` components and symlinks can make distinct ids name the same file, for example "bob" and "./bob". `Tools.ProfilePathInjective` is about path strings only.
- Profile file I/O (`json.dump`, `json.load`, `os.makedirs`, `os.path.exists`) and `save_user_profile` are I/O. The stored file is a parameter: missing, corrupt or parsed.
- `datetime.now`, `uuid4`, logging and `print` are not modelled. Time and ids are parameters, and logging is dropped.
- The average score and its `:.1f` formatting, and the `{score}/10` metric, are floating-point display, so they are not modelled.
- Prompts.PromptTemplate: the teaching-persona lines of the template are replaced by their first line. Only the heading, the memory block and their placement are exact.
- Prompts.Dedup: keeps each element's last occurrence, in input order, whereas the order of `list(set(...))` is unspecified. Every property proved about it is independent of that order.
- App.TutorSession.EndLesson: keeps the score as the matched decimal text, not as `float()`. So the lesson entry and the completion memory show "8" where the source shows "8.0".
- App.ExtractScore: `\d` is ASCII digits only, whereas Python's `re` also matches other Unicode decimal digits.
- Text.IsSpace: whitespace is the fixed set of characters `str.isspace()` accepts; no Unicode database is consulted.
- Agent.Agent: tool-call arguments arrive already parsed. A `json.loads` failure, which the source does not catch, is not modelled.
- Agent.Role: a message role is one of system, user and assistant; other role strings do not occur in the app.
- App.TutorSession.ChatTurn: the CEFR code is passed in as `cefrCode`, the code the app derives with `App.CefrCode` from the level label.
- The mode button's `disabled` condition is not modelled, because the buttons are only shown while no mode is selected, where the condition is always false.
