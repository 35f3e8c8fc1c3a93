/** The prompt composer of prompts.py: the memory-bearing system prompt, the
    three mode-specific prompt extensions and the canned replies. */
module Prompts {
  import opened Text
  import Tools

  /** The fixed probe of the first retrieval. */
  const RecentHistoryProbe := "recent conversation history"
  const NoMemories := "No previous memories found."
  const MemoriesHeading := "Memories from previous conversations:"
  /** The sentence opening that carries the language and level. */
  const Marker := "The user is learning"
  /** Stands for the persona, CEFR and correction instructions of the template;
      only its first line is kept. */
  const PersonaInstructions := "- You are a language teacher with memory that helps users practice languages."

  /** `list(set(xs))`: every distinct element once. The order is the model's
      choice; the source's set order is unspecified. */
  function Dedup(xs: seq<string>): (r: seq<string>)
    ensures forall x :: x in r <==> x in xs
    ensures forall i, j :: 0 <= i < j < |r| ==> r[i] != r[j]
  {
    if xs == [] then []
    else
      var rest := Dedup(xs[1..]);
      if xs[0] in rest then rest else [xs[0]] + rest
  }

  function Bullet(memory: string): string { "- " + memory }

  /** `"\n".join(["- " + m for m in ms])` for a non-empty list. */
  function BulletLines(ms: seq<string>): (r: string)
    requires ms != []
    ensures |r| >= 2 && r[0] == '-'
  {
    if |ms| == 1 then Bullet(ms[0]) else Bullet(ms[0]) + "\n" + BulletLines(ms[1..])
  }

  /** Every memory appears as a bullet in the lines. */
  lemma {:induction false} BulletLinesContain(ms: seq<string>, i: nat)
    requires i < |ms|
    ensures Contains(BulletLines(ms), Bullet(ms[i]))
    decreases |ms|
  {
    var b := Bullet(ms[0]);
    if |ms| == 1 {
      assert BulletLines(ms) == b;
      assert OccursAt(BulletLines(ms), b, 0);
    } else {
      var tail := BulletLines(ms[1..]);
      assert BulletLines(ms) == b + "\n" + tail;
      if i == 0 {
        assert BulletLines(ms)[0..|b|] == b;
        assert OccursAt(BulletLines(ms), b, 0);
      } else {
        BulletLinesContain(ms[1..], i - 1);
        assert ms[1..][i - 1] == ms[i];
        var p :| 0 <= p <= |tail| && OccursAt(tail, Bullet(ms[i]), p);
        OccursShifted(b + "\n", tail, Bullet(ms[i]), p);
        assert OccursAt(BulletLines(ms), Bullet(ms[i]), |b| + 1 + p);
      }
    }
  }

  /** The memory block: the bullets, or the fixed line when there are no memories. */
  function MemoryBlock(ms: seq<string>): string {
    if ms == [] then NoMemories else BulletLines(ms)
  }

  /** The block is the fixed line exactly when there are no memories, and
      otherwise lists each memory as a bullet. */
  lemma MemoryBlockLists(ms: seq<string>)
    ensures MemoryBlock(ms) == NoMemories <==> ms == []
    ensures forall i :: 0 <= i < |ms| ==> Contains(MemoryBlock(ms), Bullet(ms[i]))
  {
    if ms != [] {
      assert NoMemories[0] == 'N';
      forall i | 0 <= i < |ms| ensures Contains(BulletLines(ms), Bullet(ms[i])) {
        BulletLinesContain(ms, i);
      }
    }
  }

  /** The system prompt template around the memory block. */
  function PromptTemplate(memoryText: string): string {
    "\n    " + PersonaInstructions + "\n\n    " + MemoriesHeading + "\n    " + memoryText + "\n    "
  }

  /** The memory block closes the template, right after the heading. */
  lemma PromptTemplateLayout(memoryText: string)
    ensures var r, tail := PromptTemplate(memoryText), MemoriesHeading + "\n    " + memoryText + "\n    ";
            |tail| <= |r| && r[|r| - |tail|..] == tail
    ensures var r := PromptTemplate(memoryText); OccursAt(r, memoryText, |r| - |memoryText| - 5)
  {
    var head := "\n    " + PersonaInstructions + "\n\n    ";
    var tail := MemoriesHeading + "\n    " + memoryText + "\n    ";
    var r := PromptTemplate(memoryText);
    assert r == head + tail;
    assert r[|r| - |tail|..] == tail;
    OccursInMiddle(head + MemoriesHeading + "\n    ", memoryText, "\n    ");
  }

  /** The merged retrievals: the fixed probe always, the user's prompt only when non-empty. */
  function MergedMemories(userPrompt: string, userId: string, index: Tools.Index, embed: string -> Tools.EmbedOutcome)
    : (r: seq<string>)
    reads Tools.Footprint(index)
    ensures forall m :: m in r <==>
              m in Tools.LoadMemories(RecentHistoryProbe, userId, index, embed) ||
              (userPrompt != "" && m in Tools.LoadMemories(userPrompt, userId, index, embed))
    ensures forall i, j :: 0 <= i < j < |r| ==> r[i] != r[j]
  {
    var recent := Tools.LoadMemories(RecentHistoryProbe, userId, index, embed);
    var prompted := if userPrompt != "" then Tools.LoadMemories(userPrompt, userId, index, embed) else [];
    Dedup(recent + prompted)
  }

  /** `get_system_prompt`: the template around the block of merged memories. */
  function GetSystemPrompt(userPrompt: string, userId: string, index: Tools.Index, embed: string -> Tools.EmbedOutcome)
    : string
    reads Tools.Footprint(index)
  {
    PromptTemplate(MemoryBlock(MergedMemories(userPrompt, userId, index, embed)))
  }

  /** The system prompt lists every merged memory as a bullet, or says that
      there are none. */
  lemma SystemPromptListsMemories(userPrompt: string, userId: string, index: Tools.Index, embed: string -> Tools.EmbedOutcome)
    ensures forall m :: m in MergedMemories(userPrompt, userId, index, embed) ==>
              Contains(GetSystemPrompt(userPrompt, userId, index, embed), Bullet(m))
    ensures MergedMemories(userPrompt, userId, index, embed) == [] ==>
              Contains(GetSystemPrompt(userPrompt, userId, index, embed), NoMemories)
  {
    var ms := MergedMemories(userPrompt, userId, index, embed);
    var block := MemoryBlock(ms);
    var r := PromptTemplate(block);
    var at := |r| - |block| - 5;
    MemoryBlockLists(ms);
    PromptTemplateLayout(block);
    forall m | m in ms ensures Contains(r, Bullet(m)) {
      var i :| 0 <= i < |ms| && ms[i] == m;
      var j :| 0 <= j <= |block| && OccursAt(block, Bullet(m), j);
      OccursWithin(r, block, Bullet(m), at, j);
    }
    if ms == [] {
      assert OccursAt(block, NoMemories, 0);
      OccursWithin(r, block, NoMemories, at, 0);
    }
  }

  /** On the dummy index both retrievals return the same list, so the prompt
      lists exactly the distinct memories among the user's first ten. */
  lemma DummyPromptMemories(userPrompt: string, userId: string, index: Tools.Index, embed: string -> Tools.EmbedOutcome)
    requires index.backend.Dummy?
    ensures forall m :: m in MergedMemories(userPrompt, userId, index, embed) <==>
              m in Take(Tools.Lookup(index.backend.store.memories, userId), Tools.MemoryTopK)
  {
  }

  // ---------------------------------------------------------------- modes

  datatype Mode = Conversation | Grammar | Vocabulary

  function ModeTag(mode: Mode): string {
    match mode
    case Conversation => "CONVERSATION PRACTICE"
    case Grammar => "GRAMMAR EXERCISES"
    case Vocabulary => "VOCABULARY BUILDING"
  }

  /** The instruction lines that follow the mode tag. */
  function ModeFocus(mode: Mode): string {
    match mode
    case Conversation =>
      "Focus on maintaining natural dialogue flow, introducing level-appropriate vocabulary, and gentle correction of errors."
    case Grammar =>
      "Focus on providing structured grammar exercises, clear explanations, and corrective feedback." +
      "\n    Suggest grammar topics appropriate for their level, with examples and practice sentences."
    case Vocabulary =>
      "Focus on introducing new words and phrases with examples, pronunciation guidance, and usage contexts." +
      "\n    Provide vocabulary appropriate for their level, organized by topics, with exercises to practice."
  }

  /** What the marker introduces: the language and the level. */
  function LanguageTail(language: string, cefrLevel: string): string {
    " " + language + " at " + cefrLevel + " level."
  }

  function LanguageLine(language: string, cefrLevel: string): string {
    Marker + LanguageTail(language, cefrLevel)
  }

  function ChosenLine(mode: Mode): string { "They have chosen " + ModeTag(mode) + " mode." }

  /** `get_conversation_mode_prompt`, `get_grammar_mode_prompt` and
      `get_vocabulary_mode_prompt`. */
  function ModePrompt(mode: Mode, language: string, cefrLevel: string, basePrompt: string): string {
    "\n    " + basePrompt + "\n    \n    " + LanguageLine(language, cefrLevel) + "\n    " + ChosenLine(mode) +
    ("\n    " + ModeFocus(mode) + "\n    ")
  }

  /** The layout of a mode prompt: the base prompt, then the language line,
      then the mode tag line, so the prompt carries the language marker. */
  lemma ModePromptLayout(mode: Mode, language: string, cefrLevel: string, basePrompt: string)
    ensures var r := ModePrompt(mode, language, cefrLevel, basePrompt);
            OccursAt(r, "\n    " + basePrompt, 0) &&
            OccursAt(r, LanguageLine(language, cefrLevel), |basePrompt| + 15) &&
            OccursAt(r, ChosenLine(mode), |basePrompt| + 15 + |LanguageLine(language, cefrLevel)| + 5) &&
            Contains(r, Marker)
  {
    var line := LanguageLine(language, cefrLevel);
    PromptShape(basePrompt, line, ChosenLine(mode), "\n    " + ModeFocus(mode) + "\n    ");
    OccursPrefix(ModePrompt(mode, language, cefrLevel, basePrompt), Marker, LanguageTail(language, cefrLevel), |basePrompt| + 15);
  }

  /** The offsets of a mode prompt's parts, whatever the texts. */
  lemma PromptShape(basePrompt: string, line: string, chosen: string, tail: string)
    ensures var r := "\n    " + basePrompt + "\n    \n    " + line + "\n    " + chosen + tail;
            OccursAt(r, "\n    " + basePrompt, 0) && OccursAt(r, line, |basePrompt| + 15) &&
            OccursAt(r, chosen, |basePrompt| + 15 + |line| + 5)
  {
    LayoutOffsets("\n    " + basePrompt, "\n    \n    ", line, "\n    ", chosen, tail);
  }

  /** `get_welcome_message`. */
  function WelcomeMessage(language: string): string {
    "Hi! I'm your " + language + WelcomeTail
  }

  const WelcomeTail :=
    " language assistant. I'm delighted to help you learn and practice this beautiful language." +
    " How would you like to practice today?"

  /** The welcome names the chosen language. */
  lemma WelcomeNamesLanguage(language: string)
    ensures Contains(WelcomeMessage(language), language)
  {
    OccursInMiddle("Hi! I'm your ", language, WelcomeTail);
  }

  /** `get_conversation_response`, `get_grammar_response` and `get_vocabulary_response`. */
  function ModeResponse(mode: Mode, language: string, cefrLevel: string): string {
    match mode
    case Conversation => ResponseHead(mode) + language + ResponseMiddle(mode)
    case _ => ResponseHead(mode) + language + ResponseMiddle(mode) + cefrLevel + ResponseTail(mode)
  }

  function ResponseHead(mode: Mode): string {
    match mode
    case Conversation => "Great choice! Let's practice conversation in "
    case Grammar => "Excellent! Let's work on "
    case Vocabulary => "Great! Let's expand your "
  }

  function ResponseMiddle(mode: Mode): string {
    match mode
    case Conversation =>
      ". I'll chat with you about various topics, and help correct any mistakes along the way." +
      " What would you like to talk about today?"
    case Grammar => " grammar exercises. I'll provide structured practice tailored to your "
    case Vocabulary => " vocabulary. I'll introduce new words and phrases suitable for your "
  }

  function ResponseTail(mode: Mode): string {
    match mode
    case Conversation => ""
    case Grammar => " level. Would you like to focus on a specific grammar point or shall I suggest one for you?"
    case Vocabulary => " level. Would you like to focus on a specific topic area or shall I suggest one?"
  }

  /** The canned reply names the language, and the level unless the mode is conversation. */
  lemma ModeResponseNames(mode: Mode, language: string, cefrLevel: string)
    ensures Contains(ModeResponse(mode, language, cefrLevel), language)
    ensures mode != Conversation ==> Contains(ModeResponse(mode, language, cefrLevel), cefrLevel)
  {
    if mode == Conversation {
      OccursInMiddle(ResponseHead(mode), language, ResponseMiddle(mode));
    } else {
      OccursInFive(ResponseHead(mode), language, ResponseMiddle(mode), cefrLevel, ResponseTail(mode));
    }
  }
}
