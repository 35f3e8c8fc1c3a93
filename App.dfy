/** The session state machine of app.py with its pure parsers: the lesson
    score, the language context kept across chat turns, the CEFR code and the
    default selections. */
module App {
  import opened Wrappers
  import opened Text
  import Tools
  import Prompts
  import Agent

  const Languages := ["English", "French", "Spanish", "German", "Portuguese", "Thai", "Polish", "Russian"]
  const Levels := ["A1 (Beginner)", "A2 (Elementary)", "B1 (Intermediate)", "B2 (Upper Intermediate)", "C1 (Advanced)"]

  // ---------------------------------------------------------------- selections

  /** `options.index(x)`: the first position of `x`. */
  function IndexOf(options: seq<string>, x: string): (r: nat)
    requires x in options
    ensures r < |options| && options[r] == x && forall j :: 0 <= j < r ==> options[j] != x
  {
    if options[0] == x then 0 else 1 + IndexOf(options[1..], x)
  }

  /** The preselected option: the stored value's position when it is one of the options, else 0. */
  function DefaultIndex(last: Option<string>, options: seq<string>): (r: nat)
    ensures last.Some? && last.value in options ==>
              r < |options| && options[r] == last.value && forall j :: 0 <= j < r ==> options[j] != last.value
    ensures !(last.Some? && last.value in options) ==> r == 0
  {
    if last.Some? && last.value in options then IndexOf(options, last.value) else 0
  }

  /** `selected_level.split()[0]`. */
  function CefrCode(level: string): (code: string)
    requires Words(level) != []
    ensures code != [] && forall k :: 0 <= k < |code| ==> !IsSpace(code[k])
  {
    WordsHaveNoSpaces(level);
    Words(level)[0]
  }

  /** The CEFR code of each offered level, position by position. */
  const LevelCodes := ["A1", "A2", "B1", "B2", "C1"]

  /** Every offered level has a code: its leading token. */
  lemma CefrCodeOfLevel(i: nat)
    requires i < |Levels|
    ensures Words(Levels[i]) != [] && CefrCode(Levels[i]) == LevelCodes[i]
  {
    var rest := Levels[i][2..];
    FirstWord(LevelCodes[i], rest);
    assert LevelCodes[i] + rest == Levels[i];
  }

  // ---------------------------------------------------------------- the score

  predicate IsDigit(c: char) { '0' <= c <= '9' }

  predicate AllDigits(s: string) { forall k :: 0 <= k < |s| ==> IsDigit(s[k]) }

  /** The text `\d+(\.\d+)?` matches: digits, optionally a point and more digits. */
  predicate IsDecimal(x: string) {
    (x != [] && AllDigits(x)) ||
    exists k :: 0 < k < |x| - 1 && x[k] == '.' && AllDigits(x[..k]) && AllDigits(x[k + 1..])
  }

  /** `x` is a score written at position `i` of `s`: a decimal immediately followed by "/10". */
  predicate ScoreAt(s: string, i: int, x: string) {
    IsDecimal(x) && OccursAt(s, x, i) && OccursAt(s, "/10", i + |x|)
  }

  /** The end of the longest digit run starting at `i`. */
  function DigitsEnd(s: string, i: nat): (j: nat)
    requires i <= |s|
    ensures i <= j <= |s| && (forall k :: i <= k < j ==> IsDigit(s[k])) && (j < |s| ==> !IsDigit(s[j]))
    decreases |s| - i
  {
    if i < |s| && IsDigit(s[i]) then DigitsEnd(s, i + 1) else i
  }

  /** The regex tried at one start position. The greedy `\d+` can only succeed
      with its longest run, since a shorter one is followed by a digit; the
      optional fraction is tried first, then skipped. */
  function MatchAt(s: string, i: nat): Option<string>
    requires i <= |s|
  {
    if i == |s| || !IsDigit(s[i]) then None
    else
      var e := DigitsEnd(s, i);
      if e < |s| && s[e] == '.' && DigitsEnd(s, e + 1) > e + 1 && OccursAt(s, "/10", DigitsEnd(s, e + 1)) then
        Some(s[i..DigitsEnd(s, e + 1)])
      else if OccursAt(s, "/10", e) then Some(s[i..e])
      else None
  }

  lemma MatchAtSound(s: string, i: nat)
    requires i <= |s| && MatchAt(s, i).Some?
    ensures ScoreAt(s, i, MatchAt(s, i).value)
  {
    var e := DigitsEnd(s, i);
    if e < |s| && s[e] == '.' && DigitsEnd(s, e + 1) > e + 1 && OccursAt(s, "/10", DigitsEnd(s, e + 1)) {
      var f := DigitsEnd(s, e + 1);
      assert MatchAt(s, i) == Some(s[i..f]);
      RunIsDigits(s, i, e);
      RunIsDigits(s, e + 1, f);
      FractionIsDecimal(s, i, e, f);
    } else {
      assert MatchAt(s, i) == Some(s[i..e]);
      RunIsDigits(s, i, e);
    }
  }

  /** A run of digit positions reads as a digit string. */
  lemma RunIsDigits(s: string, i: nat, j: nat)
    requires i <= j <= |s| && forall k :: i <= k < j ==> IsDigit(s[k])
    ensures AllDigits(s[i..j])
  {
    forall t | 0 <= t < j - i ensures IsDigit(s[i..j][t]) {
      assert s[i..j][t] == s[i + t];
    }
  }

  /** Two digit runs around a point form a decimal with a fraction. */
  lemma FractionIsDecimal(s: string, i: nat, e: nat, f: nat)
    requires i < e && e + 1 < f <= |s| && s[e] == '.' && AllDigits(s[i..e]) && AllDigits(s[e + 1..f])
    ensures IsDecimal(s[i..f])
  {
    var x := s[i..f];
    var k := e - i;
    assert x[k] == '.';
    assert x[..k] == s[i..e];
    assert x[k + 1..] == s[e + 1..f];
  }

  lemma MatchAtComplete(s: string, i: int, x: string)
    requires ScoreAt(s, i, x)
    ensures i <= |s| && MatchAt(s, i) == Some(x)
  {
    if x != [] && AllDigits(x) {
      MatchAtWhole(s, i, x);
    } else {
      var k :| 0 < k < |x| - 1 && x[k] == '.' && AllDigits(x[..k]) && AllDigits(x[k + 1..]);
      MatchAtFraction(s, i, x, k);
    }
  }

  /** A whole number followed by "/10" is matched at its first digit. */
  lemma MatchAtWhole(s: string, i: int, x: string)
    requires x != [] && AllDigits(x) && OccursAt(s, x, i) && OccursAt(s, "/10", i + |x|)
    ensures i <= |s| && MatchAt(s, i) == Some(x)
  {
    var e := i + |x|;
    assert x[0..|x|] == x;
    DigitsWritten(s, i, x, 0, |x|);
    assert s[e] == s[e..e + 3][0];
    DigitsEndAt(s, i, e);
    assert s[i..e] == x;
  }

  /** A decimal with a fraction followed by "/10" is matched at its first digit. */
  lemma MatchAtFraction(s: string, i: int, x: string, k: nat)
    requires 0 < k < |x| - 1 && x[k] == '.' && AllDigits(x[..k]) && AllDigits(x[k + 1..])
    requires OccursAt(s, x, i) && OccursAt(s, "/10", i + |x|)
    ensures i <= |s| && MatchAt(s, i) == Some(x)
  {
    var e := i + k;
    var f := i + |x|;
    assert x[0..k] == x[..k] && x[k + 1..|x|] == x[k + 1..];
    DigitsWritten(s, i, x, 0, k);
    assert s[e] == s[i..f][k];
    DigitsEndAt(s, i, e);
    DigitsWritten(s, i, x, k + 1, |x|);
    assert s[f] == s[f..f + 3][0];
    DigitsEndAt(s, e + 1, f);
    assert s[i..f] == x;
  }

  /** The digits of a part of a text written at `i` are digits of `s`. */
  lemma DigitsWritten(s: string, i: int, x: string, a: nat, b: nat)
    requires OccursAt(s, x, i) && a <= b <= |x| && AllDigits(x[a..b])
    ensures forall m :: i + a <= m < i + b ==> IsDigit(s[m])
  {
    forall m | i + a <= m < i + b ensures IsDigit(s[m]) {
      assert s[m] == s[i..i + |x|][m - i] == x[a..b][m - i - a];
    }
  }

  /** A digit run that ends at a non-digit (or the end) is the longest one. */
  lemma DigitsEndAt(s: string, i: nat, j: nat)
    requires i <= j <= |s| && (forall k :: i <= k < j ==> IsDigit(s[k])) && (j < |s| ==> !IsDigit(s[j]))
    ensures DigitsEnd(s, i) == j
    decreases j - i
  {
    if i < j {
      DigitsEndAt(s, i + 1, j);
    }
  }

  /** The leftmost start position where the regex matches. */
  function ScorePosition(s: string, from: nat): (r: Option<nat>)
    requires from <= |s|
    ensures r.Some? ==> from <= r.value <= |s| && MatchAt(s, r.value).Some? &&
                        forall j :: from <= j < r.value ==> MatchAt(s, j).None?
    ensures r.None? ==> forall j :: from <= j <= |s| ==> MatchAt(s, j).None?
    decreases |s| - from
  {
    if MatchAt(s, from).Some? then Some(from)
    else if from == |s| then None
    else ScorePosition(s, from + 1)
  }

  /** `re.search(r'(\d+(\.\d+)?)/10', evaluation)`, group 1, as text. */
  function ExtractScore(evaluation: string): Option<string> {
    match ScorePosition(evaluation, 0)
    case None => None
    case Some(i) => MatchAt(evaluation, i)
  }

  /** The extracted score is written in the evaluation, at a position before
      which no score is written. */
  lemma ExtractScoreSound(s: string)
    requires ExtractScore(s).Some?
    ensures exists i :: ScoreAt(s, i, ExtractScore(s).value) && forall j, y :: 0 <= j < i ==> !ScoreAt(s, j, y)
  {
    var i := ScorePosition(s, 0).value;
    MatchAtSound(s, i);
    forall j, y | 0 <= j < i ensures !ScoreAt(s, j, y) {
      if ScoreAt(s, j, y) { MatchAtComplete(s, j, y); }
    }
  }

  /** The leftmost written score is the one extracted. */
  lemma ExtractScoreLeftmost(s: string, i: int, x: string)
    requires ScoreAt(s, i, x) && forall j, y :: 0 <= j < i ==> !ScoreAt(s, j, y)
    ensures ExtractScore(s) == Some(x)
  {
    MatchAtComplete(s, i, x);
    match ScorePosition(s, 0)
    case None =>
    case Some(p) =>
      if p < i {
        MatchAtSound(s, p);
      } else if p > i {
      }
  }

  /** No score is extracted exactly when none is written; no input is an error. */
  lemma ExtractScoreNone(s: string)
    ensures ExtractScore(s).None? <==> forall i, y :: !ScoreAt(s, i, y)
  {
    if ExtractScore(s).Some? {
      ExtractScoreSound(s);
    } else {
      forall i, y ensures !ScoreAt(s, i, y) {
        if ScoreAt(s, i, y) { MatchAtComplete(s, i, y); }
      }
    }
  }

  /** The whole number before "/10" is taken. */
  lemma ScoreExampleWhole()
    ensures ExtractScore("12/10") == Some("12")
  {
    assert ScoreAt("12/10", 0, "12") by { assert "12/10"[0..2] == "12"; assert "12/10"[2..5] == "/10"; }
    ExtractScoreLeftmost("12/10", 0, "12");
  }

  /** "/10" may be the start of a longer denominator. */
  lemma ScoreExampleLongerDenominator()
    ensures ExtractScore("1/100") == Some("1")
  {
    assert ScoreAt("1/100", 0, "1") by { assert "1/100"[0..1] == "1"; assert "1/100"[1..4] == "/10"; }
    ExtractScoreLeftmost("1/100", 0, "1");
  }

  /** A point without fraction digits is no score at all. */
  lemma ScoreExampleBarePoint()
    ensures ExtractScore("3./10") == None
  {
    var s := "3./10";
    assert DigitsEnd(s, 2) == 2;
    assert DigitsEnd(s, 0) == 1 by { DigitsEndAt(s, 0, 1); }
    assert DigitsEnd(s, 3) == 5 by { DigitsEndAt(s, 3, 5); }
    assert DigitsEnd(s, 4) == 5 by { DigitsEndAt(s, 4, 5); }
    assert MatchAt(s, 0).None? && MatchAt(s, 3).None? && MatchAt(s, 4).None?;
    assert ScorePosition(s, 3) == None;
    assert ScorePosition(s, 0) == None;
  }

  // ---------------------------------------------------------------- the language context

  /** The context a chat turn keeps from the current system prompt: the text
      after the first marker, up to the next marker or the end; or, when the
      prompt has no marker, a fresh language line. */
  function LanguageContext(existing: string, language: string, cefrCode: string): string {
    if Contains(existing, Prompts.Marker) then SecondPiece(existing, Prompts.Marker)
    else Prompts.LanguageLine(language, cefrCode)
  }

  /** With a marker, the context is the text that follows the first marker up
      to the next marker or the end, and holds no marker. */
  lemma LanguageContextKept(existing: string, language: string, cefrCode: string)
    requires Contains(existing, Prompts.Marker)
    ensures var r, after := LanguageContext(existing, language, cefrCode), Find(existing, Prompts.Marker).value + |Prompts.Marker|;
            after + |r| <= |existing| && existing[after..after + |r|] == r && !Contains(r, Prompts.Marker) &&
            (after + |r| == |existing| || OccursAt(existing, Prompts.Marker, after + |r|))
  {
    SecondPieceBetweenSeparators(existing, Prompts.Marker);
  }

  /** The kept context never holds the marker itself. So when the fresh system
      prompt has none either, the next turn finds no marker and falls back to
      the bare language line: the mode text survives one turn only. */
  lemma ContextFallsBack(systemPrompt: string, context: string, language: string, cefrCode: string)
    requires !Contains(systemPrompt, Prompts.Marker) && !Contains(context, Prompts.Marker)
    ensures LanguageContext(systemPrompt + "\n" + context, language, cefrCode) == Prompts.LanguageLine(language, cefrCode)
  {
    var m := Prompts.Marker;
    var s := systemPrompt + ("\n" + context);
    assert forall k :: 0 <= k < |m| ==> m[k] != '\n';
    forall q | 0 <= q <= |s| ensures !OccursAt(s, m, q) {
      if OccursAt(s, m, q) {
        if q + |m| <= |systemPrompt| {
          OccursInFirst(systemPrompt, "\n" + context, m, q);
        } else if q >= |systemPrompt| {
          OccursInSecond(systemPrompt, "\n" + context, m, q);
          if q > |systemPrompt| {
            OccursInSecond("\n", context, m, q - |systemPrompt|);
          } else {
            OccursFirstChar("\n" + context, m, 0);
          }
        } else {
          Straddle(systemPrompt, "\n" + context, m, q);
        }
      }
    }
    assert s == systemPrompt + "\n" + context;
  }

  /** The turn after a fallback finds the marker only in the bare language
      sentence, and keeps the text after it: the tail without the marker. So
      turns alternate between the sentence and its tail. */
  lemma ContextAfterFallback(systemPrompt: string, language: string, cefrCode: string)
    requires !Contains(systemPrompt, Prompts.Marker) && !Contains(Prompts.LanguageTail(language, cefrCode), Prompts.Marker)
    ensures LanguageContext(systemPrompt + "\n" + Prompts.LanguageLine(language, cefrCode), language, cefrCode) ==
            Prompts.LanguageTail(language, cefrCode)
  {
    assert forall k :: 0 <= k < |Prompts.Marker| ==> Prompts.Marker[k] != '\n';
    SecondPieceAfterBreak(systemPrompt, Prompts.Marker, Prompts.LanguageTail(language, cefrCode));
  }

  // ---------------------------------------------------------------- the session

  const EvaluationRequest :=
    "Please evaluate my performance in this lesson. Give me a score out of 10 and a brief summary of what I did well and what I can improve on."
  const ScoreInstruction :=
    "\nNow provide a genuine assessment of the user's performance. Give a score out of 10 and a concise summary of strengths and areas for improvement."

  /** The external services a transition calls: the index, the embedding
      endpoint and the chat model. */
  datatype Services = Services(index: Tools.Index, embed: string -> Tools.EmbedOutcome, llm: Agent.Model)

  /** The mode name stored in the profile. */
  function ModeName(mode: Prompts.Mode): string {
    match mode
    case Conversation => "conversation"
    case Grammar => "grammar"
    case Vocabulary => "vocabulary"
  }

  /** The user message a mode button posts. */
  function ModeRequest(mode: Prompts.Mode): string {
    match mode
    case Conversation => "I'd like to practice conversation."
    case Grammar => "I'd like to practice grammar."
    case Vocabulary => "I'd like to build my vocabulary."
  }

  /** A value in an f-string: `None` prints as "None". */
  function Shown(x: Option<string>): string {
    if x.Some? then x.value else "None"
  }

  function StartMemory(language: string, level: string): string {
    "User started learning " + language + " at " + level + " level."
  }

  function CompletionMemory(mode: Option<string>, language: string, level: string, score: Option<string>): string {
    "User completed a " + Shown(mode) + " lesson in " + language + " at " + level +
    " level with a score of " + Shown(score) + "/10."
  }

  /** The lessons so far; an absent `lesson_history` key counts as none. */
  function Lessons(p: Tools.Profile): seq<Tools.LessonEntry> {
    if p.lessonHistory.Some? then p.lessonHistory.value else []
  }

  /** The per-browser session state and the user's profile document. Each
      transition receives the widget selections of the current script run:
      the language, the level label and its code `CefrCode(level)`. */
  class TutorSession {
    var userId: string
    var conversationStarted: bool
    var modeSelected: bool
    var lessonEnded: bool
    var messages: seq<Agent.Message>
    var lessonScore: Option<string>
    var profile: Tools.Profile

    /** The flags follow the lesson's phases, and a started conversation
        begins with its system prompt. */
    predicate Valid()
      reads this
    {
      (modeSelected ==> conversationStarted) &&
      (lessonEnded ==> modeSelected) &&
      (lessonScore.Some? ==> lessonEnded) &&
      (conversationStarted ==> |messages| > 0 && messages[0].role == Agent.System && messages[0].content.Some?) &&
      (!conversationStarted ==> messages == [])
    }

    /** The first run: all flags off, no messages, the user's profile loaded. */
    constructor(userId: string, stored: Tools.StoredProfile, now: string)
      ensures Valid()
      ensures this.userId == userId && !conversationStarted && !modeSelected && !lessonEnded
      ensures messages == [] && lessonScore == None
      ensures profile == Tools.LoadUserProfile(stored, userId, now)
    {
      this.userId := userId;
      conversationStarted := false;
      modeSelected := false;
      lessonEnded := false;
      messages := [];
      lessonScore := None;
      profile := Tools.LoadUserProfile(stored, userId, now);
    }

    /** "Start Learning": ignored once a conversation has started; otherwise it
        records the choice in the profile, saves the start memory, and opens the
        conversation with the system prompt (built after that save) and the welcome. */
    method StartLearning(language: string, level: string, services: Services, now: string, stamp: Tools.Stamp)
      requires Valid()
      modifies this, Tools.Footprint(services.index)
      ensures Valid()
      ensures old(conversationStarted) ==> unchanged(this) && unchanged(Tools.Footprint(services.index))
      ensures !old(conversationStarted) ==>
                conversationStarted && !modeSelected && !lessonEnded && lessonScore == None &&
                userId == old(userId) &&
                profile == old(profile).(lastSession := old(profile).lastSession.(language := Some(language), level := Some(level)),
                                         languageHistory := old(profile).languageHistory + [Tools.LanguageEntry(language, level, now)]) &&
                messages == [Agent.Message(Agent.System, Some(Prompts.GetSystemPrompt("", userId, services.index, services.embed))),
                             Agent.Message(Agent.Assistant, Some(Prompts.WelcomeMessage(language)))]
      ensures !old(conversationStarted) && services.index.backend.Dummy? ==>
                services.index.backend.store.memories ==
                Tools.SaveOne(old(services.index.backend.store.memories), userId, StartMemory(language, level), stamp)
    {
      if conversationStarted {
        return;
      }
      var welcome := Prompts.WelcomeMessage(language);
      RecordStart(language, level, now);
      var _ := Tools.SaveMemory(StartMemory(language, level), userId, services.index, services.embed, stamp);
      var systemPrompt := Prompts.GetSystemPrompt("", userId, services.index, services.embed);
      Open(systemPrompt, welcome);
    }

    /** The profile part of "Start Learning": the choice becomes the last
        session and is appended to the language history. */
    method RecordStart(language: string, level: string, now: string)
      requires Valid() && !conversationStarted
      modifies this
      ensures Valid() && !conversationStarted
      ensures profile == old(profile).(lastSession := old(profile).lastSession.(language := Some(language), level := Some(level)),
                                       languageHistory := old(profile).languageHistory + [Tools.LanguageEntry(language, level, now)])
      ensures messages == old(messages) && modeSelected == old(modeSelected) && lessonEnded == old(lessonEnded)
      ensures lessonScore == old(lessonScore) && userId == old(userId)
    {
      profile := profile.(lastSession := profile.lastSession.(language := Some(language), level := Some(level)),
                          languageHistory := profile.languageHistory + [Tools.LanguageEntry(language, level, now)]);
    }

    /** Opens the conversation with the system prompt and the welcome. */
    method Open(systemPrompt: string, welcome: string)
      requires Valid() && !conversationStarted
      modifies this
      ensures Valid()
      ensures messages == [Agent.Message(Agent.System, Some(systemPrompt)), Agent.Message(Agent.Assistant, Some(welcome))]
      ensures conversationStarted && !modeSelected && !lessonEnded && lessonScore == None
      ensures userId == old(userId) && profile == old(profile)
    {
      messages := [Agent.Message(Agent.System, Some(systemPrompt)), Agent.Message(Agent.Assistant, Some(welcome))];
      conversationStarted := true;
      lessonEnded := false;
      lessonScore := None;
    }

    /** A mode button: posts the request and the canned reply, extends the
        system prompt with the mode text, and records the mode. */
    method SelectMode(mode: Prompts.Mode, language: string, cefrCode: string)
      requires Valid() && conversationStarted && !modeSelected
      modifies this
      ensures Valid()
      ensures var posted := old(messages) + [Agent.Message(Agent.User, Some(ModeRequest(mode))),
                                             Agent.Message(Agent.Assistant, Some(Prompts.ModeResponse(mode, language, cefrCode)))];
              messages == posted[0 := posted[0].(content := Some(Prompts.ModePrompt(mode, language, cefrCode, old(messages[0].content.value))))]
      ensures modeSelected && conversationStarted && !lessonEnded && lessonScore == old(lessonScore) && userId == old(userId)
      ensures profile == old(profile).(lastSession := old(profile).lastSession.(mode := Some(ModeName(mode))))
    {
      var response := Prompts.ModeResponse(mode, language, cefrCode);
      var enhanced := Prompts.ModePrompt(mode, language, cefrCode, messages[0].content.value);
      ChooseMode(ModeRequest(mode), response, enhanced, ModeName(mode));
    }

    /** The state change of a mode button, given its texts: the request and
        the reply are posted, the system prompt replaced and the mode recorded. */
    method ChooseMode(request: string, response: string, systemPrompt: string, modeName: string)
      requires Valid() && conversationStarted
      modifies this
      ensures Valid()
      ensures var posted := old(messages) + [Agent.Message(Agent.User, Some(request)), Agent.Message(Agent.Assistant, Some(response))];
              messages == posted[0 := posted[0].(content := Some(systemPrompt))]
      ensures |messages| == old(|messages|) + 2 && messages[1..old(|messages|)] == old(messages[1..])
      ensures modeSelected && conversationStarted && lessonEnded == old(lessonEnded)
      ensures lessonScore == old(lessonScore) && userId == old(userId)
      ensures profile == old(profile).(lastSession := old(profile).lastSession.(mode := Some(modeName)))
    {
      Post(Agent.User, Some(request));
      Post(Agent.Assistant, Some(response));
      SetSystemPrompt(systemPrompt);
      profile := profile.(lastSession := profile.lastSession.(mode := Some(modeName)));
      modeSelected := true;
    }

    /** `messages.append(...)`. */
    method Post(role: Agent.Role, content: Option<string>)
      requires Valid() && conversationStarted
      modifies this
      ensures Valid()
      ensures messages == old(messages) + [Agent.Message(role, content)]
      ensures conversationStarted && modeSelected == old(modeSelected) && lessonEnded == old(lessonEnded)
      ensures lessonScore == old(lessonScore) && userId == old(userId) && profile == old(profile)
    {
      messages := messages + [Agent.Message(role, content)];
    }

    /** Replaces the system prompt, the content of the first message. */
    method SetSystemPrompt(text: string)
      requires Valid() && conversationStarted
      modifies this
      ensures Valid()
      ensures messages == old(messages)[0 := old(messages[0]).(content := Some(text))]
      ensures conversationStarted && modeSelected == old(modeSelected) && lessonEnded == old(lessonEnded)
      ensures lessonScore == old(lessonScore) && userId == old(userId) && profile == old(profile)
    {
      messages := messages[0 := messages[0].(content := Some(text))];
    }

    /** A chat turn: an empty input does nothing. Otherwise the system prompt
        is rebuilt from fresh memories plus the kept language context, the user
        message is posted, and the agent's reply is posted after it. */
    method ChatTurn(prompt: string, language: string, cefrCode: string, services: Services, stamp: nat -> Tools.Stamp)
      requires Valid() && modeSelected && !lessonEnded
      modifies this, Tools.Footprint(services.index)
      ensures Valid()
      ensures prompt == "" ==> unchanged(this) && unchanged(Tools.Footprint(services.index))
      ensures prompt != "" ==>
                var rebuilt := old(Prompts.GetSystemPrompt(prompt, userId, services.index, services.embed));
                var context := LanguageContext(old(messages[0].content.value), language, cefrCode);
                var sent := old(messages)[0 := old(messages[0]).(content := Some(rebuilt + "\n" + context))] +
                            [Agent.Message(Agent.User, Some(prompt))];
                messages == sent + [Agent.Message(Agent.Assistant, Agent.Respond(sent, services.llm).reply)] &&
                (services.index.backend.Dummy? ==>
                   services.index.backend.store.memories ==
                   Agent.SaveAll(old(services.index.backend.store.memories), userId, Agent.Respond(sent, services.llm).saves, stamp))
      ensures |messages| == old(|messages|) + (if prompt == "" then 0 else 2)
      ensures modeSelected && !lessonEnded && lessonScore == old(lessonScore) && userId == old(userId) && profile == old(profile)
    {
      if prompt == "" {
        return;
      }
      var rebuilt := Prompts.GetSystemPrompt(prompt, userId, services.index, services.embed);
      var context := LanguageContext(messages[0].content.value, language, cefrCode);
      Converse(rebuilt + "\n" + context, prompt, services, stamp);
    }

    /** The state change of a chat turn, given its system prompt: the prompt
        is replaced, the user message posted, and the agent's reply posted. */
    method Converse(systemPrompt: string, prompt: string, services: Services, stamp: nat -> Tools.Stamp)
      requires Valid() && modeSelected && !lessonEnded
      modifies this, Tools.Footprint(services.index)
      ensures Valid()
      ensures var sent := old(messages)[0 := old(messages[0]).(content := Some(systemPrompt))] +
                          [Agent.Message(Agent.User, Some(prompt))];
              messages == sent + [Agent.Message(Agent.Assistant, Agent.Respond(sent, services.llm).reply)] &&
              (services.index.backend.Dummy? ==>
                 services.index.backend.store.memories ==
                 Agent.SaveAll(old(services.index.backend.store.memories), userId, Agent.Respond(sent, services.llm).saves, stamp))
      ensures |messages| == old(|messages|) + 2
      ensures modeSelected && !lessonEnded && lessonScore == old(lessonScore) && userId == old(userId) && profile == old(profile)
    {
      SetSystemPrompt(systemPrompt);
      Post(Agent.User, Some(prompt));
      var reply := Agent.Agent(messages, userId, services.index, services.embed, services.llm, stamp);
      Post(Agent.Assistant, reply);
    }

    /** "End Lesson" (the agent's saves are stamped by `stamp`, the completion
        memory by `completionStamp`): posts the evaluation request, adds the scoring
        instruction to the system prompt and posts the agent's evaluation. A
        missing evaluation makes the score search raise, which ends the run
        there. Otherwise the lesson ends with the parsed score, one lesson entry
        is recorded (the list created if absent) and the completion memory is saved. */
    method EndLesson(language: string, level: string, services: Services, now: string,
                     stamp: nat -> Tools.Stamp, completionStamp: Tools.Stamp)
      requires Valid() && modeSelected && !lessonEnded
      modifies this, Tools.Footprint(services.index)
      ensures Valid()
      ensures var posted := old(messages) + [Agent.Message(Agent.User, Some(EvaluationRequest))];
              var sent := posted[0 := posted[0].(content := Some(old(messages[0].content.value) + ScoreInstruction))];
              var run := Agent.Respond(sent, services.llm);
              messages == sent + [Agent.Message(Agent.Assistant, run.reply)] &&
              (run.reply.None? ==> !lessonEnded && lessonScore == old(lessonScore) && profile == old(profile)) &&
              (run.reply.Some? ==>
                 lessonEnded && lessonScore == ExtractScore(run.reply.value) &&
                 profile == old(profile).(lessonHistory := Some(Lessons(old(profile)) +
                   [Tools.LessonEntry(language, level, old(profile).lastSession.mode, lessonScore, run.reply.value, now)])))
      ensures services.index.backend.Dummy? ==>
                var posted := old(messages) + [Agent.Message(Agent.User, Some(EvaluationRequest))];
                var sent := posted[0 := posted[0].(content := Some(old(messages[0].content.value) + ScoreInstruction))];
                var run := Agent.Respond(sent, services.llm);
                var afterAgent := Agent.SaveAll(old(services.index.backend.store.memories), userId, run.saves, stamp);
                services.index.backend.store.memories ==
                if run.reply.None? then afterAgent
                else Tools.SaveOne(afterAgent, userId,
                                   CompletionMemory(old(profile).lastSession.mode, language, level, lessonScore), completionStamp)
      ensures conversationStarted && modeSelected && userId == old(userId)
    {
      Post(Agent.User, Some(EvaluationRequest));
      SetSystemPrompt(messages[0].content.value + ScoreInstruction);
      var evaluation := Agent.Agent(messages, userId, services.index, services.embed, services.llm, stamp);
      Post(Agent.Assistant, evaluation);
      if evaluation.None? {
        return;
      }
      var score := ExtractScore(evaluation.value);
      RecordLesson(language, level, now, score, evaluation.value);
      var memory := CompletionMemory(profile.lastSession.mode, language, level, score);
      var _ := Tools.SaveMemory(memory, userId, services.index, services.embed, completionStamp);
    }

    /** The session and profile part of an evaluation: the lesson ends with
        its score, and one lesson entry is appended (the list created if absent). */
    method RecordLesson(language: string, level: string, now: string, score: Option<string>, summary: string)
      requires Valid() && modeSelected
      modifies this
      ensures Valid() && lessonEnded && lessonScore == score
      ensures profile == old(profile).(lessonHistory := Some(Lessons(old(profile)) +
                [Tools.LessonEntry(language, level, old(profile).lastSession.mode, score, summary, now)]))
      ensures messages == old(messages) && conversationStarted && modeSelected && userId == old(userId)
    {
      lessonEnded := true;
      lessonScore := score;
      var history := if profile.lessonHistory.Some? then profile.lessonHistory.value else [];
      profile := profile.(lessonHistory := Some(history + [Tools.LessonEntry(language, level, profile.lastSession.mode, score, summary, now)]));
    }

    /** "Reset Conversation": back to the first-run state; profile and user id are kept. */
    method Reset()
      modifies this
      ensures Valid()
      ensures messages == [] && !conversationStarted && !modeSelected && !lessonEnded && lessonScore == None
      ensures userId == old(userId) && profile == old(profile)
    {
      messages := [];
      conversationStarted := false;
      modeSelected := false;
      lessonEnded := false;
      lessonScore := None;
    }
  }

  /** On the dummy index, the start memory of a user who held fewer than ten
      memories is listed in the opening system prompt. */
  lemma StartPromptListsStartMemory(m: Tools.Store, index: Tools.Index, embed: string -> Tools.EmbedOutcome,
                                    userId: string, language: string, level: string, stamp: Tools.Stamp)
    requires index.backend.Dummy?
    requires index.backend.store.memories == Tools.SaveOne(m, userId, StartMemory(language, level), stamp)
    requires |Tools.Lookup(m, userId)| < Tools.MemoryTopK
    ensures Contains(Prompts.GetSystemPrompt("", userId, index, embed),
                     Prompts.Bullet(Tools.Payload(stamp.formatted, StartMemory(language, level))))
  {
    Tools.SaveThenLoad(m, userId, StartMemory(language, level), stamp);
    Prompts.SystemPromptListsMemories("", userId, index, embed);
  }
}
