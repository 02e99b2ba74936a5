/** `POST /api/presentation/outline`: validates the request and asks for a streamed
    markdown outline, with a prompt built by three first-occurrence substitutions into a
    fixed template. */
module OutlineRoute {
  import opened Wrappers
  import opened Auth
  import opened JsString
  import Gemini
  import Http
  import Lines

  const CardsSlot: string := "{numberOfCards}"
  const LanguageSlot: string := "{language}"
  const PromptSlot: string := "{prompt}"

  // The fixed text of `outlineTemplate` between its placeholders. The pieces before the
  // `{prompt}` slot are split into short literals so their characters can be checked.
  const Opening: string :=
    "Given the following presentation topic " + "and requirements, generate a structured " + "outline with "
  const AfterCards: string := " main topics in markdown format.\n" + "The outline should be in "
  const AfterLanguage: string := ".\n\nTopic: "
  const AfterPrompt: string := "\n\nGenerate exactly "
  /** The rest of the template after its second `{numberOfCards}`, line by line. */
  const InstructionLines: seq<string> := [
    " main topics that would make for an engaging and well-structured presentation. ",
    "Format the response as markdown content, with each topic as a heading followed by 2-3 bullet points.",
    "",
    "Example format:",
    "# First Main Topic",
    "- Key point about this topic",
    "- Another important aspect",
    "- Brief conclusion or impact",
    "",
    "# Second Main Topic",
    "- Main insight for this section",
    "- Supporting detail or example",
    "- Practical application or takeaway",
    "",
    "# Third Main Topic ",
    "- Primary concept to understand",
    "- Evidence or data point",
    "- Conclusion or future direction",
    "",
    "Make sure the topics:",
    "1. Flow logically from one to another",
    "2. Cover the key aspects of the main topic",
    "3. Are clear and concise",
    "4. Are engaging for the audience",
    "5. ALWAYS use bullet points (not paragraphs) and format each point as \"- point text\"",
    "6. Do not use bold, italic or underline",
    "7. Keep each bullet point brief - just one sentence per point",
    "8. Include exactly 2-3 bullet points per topic (not more, not less)"
  ]
  const Instructions: string := Lines.Joined(InstructionLines)

  /** The template after its `{prompt}` slot, which holds the second `{numberOfCards}`. */
  const Tail: string := AfterPrompt + CardsSlot + Instructions

  /** The template after its `{language}` slot. */
  const AfterLanguageSlot: string := AfterLanguage + PromptSlot + Tail

  /** `outlineTemplate`: `{numberOfCards}` occurs twice, `{language}` and `{prompt}` once. */
  const OutlineTemplate: string :=
    Opening + CardsSlot + (AfterCards + LanguageSlot + AfterLanguageSlot)

  /** The template up to its `{language}` slot once the first `{numberOfCards}` is filled. */
  function Head(numberOfCards: int): string
  {
    Opening + IntToString(numberOfCards) + AfterCards
  }

  /** `outlineTemplate.replace("{numberOfCards}", n.toString()).replace("{language}", language)
      .replace("{prompt}", prompt)`. */
  function FormatOutline(prompt: string, numberOfCards: int, language: string): string
  {
    ReplaceFirst(
      ReplaceFirst(
        ReplaceFirst(OutlineTemplate, CardsSlot, IntToString(numberOfCards)),
        LanguageSlot, language),
      PromptSlot, prompt)
  }

  /** What the `{language}` slot becomes: the language with its `$` patterns expanded. */
  function LanguageText(numberOfCards: int, language: string): string
  {
    Substitution(language, LanguageSlot, Head(numberOfCards), AfterLanguageSlot)
  }

  /** No placeholder can start in the fixed text before the `{prompt}` slot. */
  lemma FixedTextHasNoBrace()
    ensures '{' !in Opening && '{' !in AfterCards && '{' !in AfterLanguage
    ensures AfterLanguage[0] !in PromptSlot
  {
    OpeningHasNoBrace();
    AfterCardsHasNoBrace();
  }

  lemma OpeningHasNoBrace()
    ensures '{' !in Opening
  {
    NoBraceInOpening1();
    NoBraceInOpening2();
    NoBraceInOpening3();
  }

  // One literal piece of `Opening` each: checked in one proof, the three pieces together
  // exceed the solver's resource bound.
  lemma NoBraceInOpening1() ensures '{' !in "Given the following presentation topic " {}
  lemma NoBraceInOpening2() ensures '{' !in "and requirements, generate a structured " {}
  lemma NoBraceInOpening3() ensures '{' !in "outline with " {}

  lemma AfterCardsHasNoBrace()
    ensures '{' !in AfterCards
  {
    assert '{' !in " main topics in markdown format.\n";
    assert '{' !in "The outline should be in ";
  }

  lemma HeadHasNoBrace(numberOfCards: int)
    ensures '{' !in Head(numberOfCards)
  {
    FixedTextHasNoBrace();
    IntToStringPlain(numberOfCards);
  }

  // The substitution steps, stated over arbitrary text around the slots.

  lemma {:induction false} TwoSlots(opening: string, n: string, afterCards: string, language: string, rest: string)
    requires '{' !in opening && '{' !in n && '{' !in afterCards && '$' !in n
    ensures ReplaceFirst(ReplaceFirst(opening + CardsSlot + (afterCards + LanguageSlot + rest), CardsSlot, n), LanguageSlot, language)
      == (opening + n + afterCards) + Substitution(language, LanguageSlot, opening + n + afterCards, rest) + rest
  {
    var afterSlot := afterCards + LanguageSlot + rest;
    ReplaceFirstAt(opening, CardsSlot, afterSlot, n);
    SubstitutionPlain(n, CardsSlot, opening, afterSlot);
    var head := opening + n + afterCards;
    assert opening + n + afterSlot == head + LanguageSlot + rest;
    ReplaceFirstAt(head, LanguageSlot, rest, language);
  }

  /** The first `{prompt}` lies after a brace-free head and no later than a known one. */
  lemma PromptSlotBetween(head: string, text: string, afterSlot: string, mid: string, tail: string)
    requires '{' !in head && afterSlot == mid + PromptSlot + tail
    ensures var s := head + text + afterSlot;
      && IndexOf(s, PromptSlot).Some?
      && |head| <= IndexOf(s, PromptSlot).value <= |head| + |text| + |mid|
  {
    var rest := text + afterSlot;
    var at := |text| + |mid|;
    assert rest[at..at + |PromptSlot|] == PromptSlot;
    assert OccursAt(rest, PromptSlot, at);
    IndexOfAfterPrefix(head, rest, PromptSlot);
    assert head + text + afterSlot == head + rest;
  }

  lemma PromptSlotFrame(head: string, text: string, afterSlot: string, mid: string, tail: string, p: string)
    requires '{' !in head && afterSlot == mid + PromptSlot + tail
    ensures var r := ReplaceFirst(head + text + afterSlot, PromptSlot, p);
      head <= r && |r| >= |tail| && r[|r| - |tail|..] == tail
  {
    var s := head + text + afterSlot;
    PromptSlotBetween(head, text, afterSlot, mid, tail);
    ReplaceFirstAffixes(s, PromptSlot, p, |head|, |tail|);
    assert s[..|head|] == head;
    assert s == (head + text + mid) + PromptSlot + tail;
    assert s[|s| - |tail|..] == tail;
  }

  lemma PromptSlotAfterText(head: string, text: string, mid: string, tail: string)
    requires '{' !in head && '{' !in mid && |mid| > 0 && mid[0] !in PromptSlot
    requires IndexOf(text, PromptSlot).None?
    ensures IndexOf(head + text + mid + PromptSlot + tail, PromptSlot) == Some(|head| + |text| + |mid|)
  {
    var rest := text + mid + PromptSlot + tail;
    IndexOfPast(text, mid, PromptSlot, tail);
    IndexOfAfterPrefix(head, rest, PromptSlot);
    assert head + text + mid + PromptSlot + tail == head + rest;
  }

  lemma PromptSlotPlain(head: string, text: string, mid: string, tail: string, p: string)
    requires '{' !in head && '$' !in p
    requires IndexOf(text, PromptSlot).None? && |mid| > 0 && mid[0] !in PromptSlot && '{' !in mid
    ensures ReplaceFirst(head + text + (mid + PromptSlot + tail), PromptSlot, p) == head + text + mid + p + tail
  {
    PromptSlotAfterText(head, text, mid, tail);
    assert head + text + (mid + PromptSlot + tail) == (head + text + mid) + PromptSlot + tail;
    ReplaceFirstSplice(head + text + mid, PromptSlot, tail, p);
  }

  lemma {:induction false} PromptSlotInText(head: string, text: string, more: string, p: string)
    requires '{' !in head && '$' !in p
    requires IndexOf(text, PromptSlot).Some?
    ensures var j := IndexOf(text, PromptSlot).value;
      ReplaceFirst(head + text + more, PromptSlot, p)
      == head + text[..j] + p + text[j + |PromptSlot|..] + more
  {
    var j := IndexOf(text, PromptSlot).value;
    IndexOfExtend(text, more, PromptSlot);
    var rest := text + more;
    IndexOfAfterPrefix(head, rest, PromptSlot);
    var s := head + rest;
    assert s == head + text + more;
    var i := |head| + j;
    assert s[..i] == head + text[..j];
    assert s[i + |PromptSlot|..] == text[j + |PromptSlot|..] + more;
  }

  lemma SlotInTail(r: string, t: string, before: string, c: string, after: string)
    requires t == before + c + after
    requires |r| >= |t| && r[|r| - |t|..] == t
    ensures OccursAt(r, c, |r| - |t| + |before|)
  {
    var k := |r| - |t| + |before|;
    assert r[k..k + |c|] == t[|before|..|before| + |c|];
  }

  /** The first two substitutions: the first `{numberOfCards}` becomes the number and
      `{language}` the (`$`-expanded) language; the rest of the template is untouched. */
  lemma FirstTwoSubstitutions(numberOfCards: int, language: string)
    ensures ReplaceFirst(ReplaceFirst(OutlineTemplate, CardsSlot, IntToString(numberOfCards)), LanguageSlot, language)
      == Head(numberOfCards) + LanguageText(numberOfCards, language) + AfterLanguageSlot
  {
    FixedTextHasNoBrace();
    IntToStringPlain(numberOfCards);
    TwoSlots(Opening, IntToString(numberOfCards), AfterCards, language, AfterLanguageSlot);
  }

  /** Whatever the inputs, the prompt starts with the template's opening with the number
      filled in, and ends with the template's tail unchanged. */
  lemma OutlineFrame(prompt: string, numberOfCards: int, language: string)
    ensures Head(numberOfCards) <= FormatOutline(prompt, numberOfCards, language)
    ensures var r := FormatOutline(prompt, numberOfCards, language);
      |r| >= |Tail| && r[|r| - |Tail|..] == Tail
  {
    var head, text := Head(numberOfCards), LanguageText(numberOfCards, language);
    FirstTwoSubstitutions(numberOfCards, language);
    var s := ReplaceFirst(ReplaceFirst(OutlineTemplate, CardsSlot, IntToString(numberOfCards)), LanguageSlot, language);
    assert s == head + text + AfterLanguageSlot;
    assert FormatOutline(prompt, numberOfCards, language) == ReplaceFirst(head + text + AfterLanguageSlot, PromptSlot, prompt);
    HeadHasNoBrace(numberOfCards);
    PromptSlotFrame(head, text, AfterLanguageSlot, AfterLanguage, Tail, prompt);
  }

  /** The second `{numberOfCards}` is never substituted: it stays literal in the prompt,
      in the template's tail after whatever the prompt slot became. */
  lemma SecondCardsSlotStaysLiteral(prompt: string, numberOfCards: int, language: string)
    ensures var r := FormatOutline(prompt, numberOfCards, language);
      |r| >= |Tail| && OccursAt(r, CardsSlot, |r| - |Tail| + |AfterPrompt|)
  {
    var r := FormatOutline(prompt, numberOfCards, language);
    OutlineFrame(prompt, numberOfCards, language);
    assert Tail == AfterPrompt + CardsSlot + Instructions;
    SlotInTail(r, Tail, AfterPrompt, CardsSlot, Instructions);
  }

  /** With no `$` in the inputs and no `{prompt}` inside the language, the prompt is the
      template with exactly three spans substituted: the first `{numberOfCards}`, the
      `{language}` and the `{prompt}` slots. */
  lemma PlainOutline(prompt: string, numberOfCards: int, language: string)
    requires '$' !in language && '$' !in prompt
    requires IndexOf(language, PromptSlot).None?
    ensures FormatOutline(prompt, numberOfCards, language)
      == Opening + IntToString(numberOfCards) + AfterCards + language + AfterLanguage + prompt + Tail
  {
    FirstTwoSubstitutions(numberOfCards, language);
    SubstitutionPlain(language, LanguageSlot, Head(numberOfCards), AfterLanguageSlot);
    FixedTextHasNoBrace();
    HeadHasNoBrace(numberOfCards);
    PromptSlotPlain(Head(numberOfCards), language, AfterLanguage, Tail, prompt);
  }

  /** A `{prompt}` inside the language precedes the template's own, so it is the one
      replaced and the template's `{prompt}` slot stays literal. */
  lemma PromptInsideLanguage(prompt: string, numberOfCards: int, language: string)
    requires '$' !in language && '$' !in prompt
    requires IndexOf(language, PromptSlot).Some?
    ensures var j := IndexOf(language, PromptSlot).value;
      FormatOutline(prompt, numberOfCards, language)
      == Head(numberOfCards) + language[..j] + prompt + language[j + |PromptSlot|..] + AfterLanguageSlot
  {
    FirstTwoSubstitutions(numberOfCards, language);
    SubstitutionPlain(language, LanguageSlot, Head(numberOfCards), AfterLanguageSlot);
    HeadHasNoBrace(numberOfCards);
    PromptSlotInText(Head(numberOfCards), language, AfterLanguageSlot, prompt);
  }

  // ---------------------------------------------------------------------------
  // The handler
  // ---------------------------------------------------------------------------

  /** The fields of the JSON body, absent or `null` as `None`. */
  datatype OutlineRequest = OutlineRequest(prompt: Option<string>, numberOfCards: Option<int>, language: Option<string>)

  /** `!(!prompt || !numberOfCards || !language)`: all three present and truthy
      (a zero count or an empty string is falsy). */
  predicate HasRequiredFields(req: OutlineRequest)
  {
    && req.prompt.Some? && req.prompt.value != ""
    && req.numberOfCards.Some? && req.numberOfCards.value != 0
    && req.language.Some? && req.language.value != ""
  }

  /** The generation overrides the route passes: temperature 0.7 and at most 4096 tokens. */
  const OutlineOverrides: Gemini.Config :=
    map["temperature" := Gemini.Number(0.7), "maxOutputTokens" := Gemini.Number(4096.0)]

  /** `POST`: 401 without a session (before the body is read), 500 when the body is not
      JSON, 400 when a field is falsy, and otherwise the streamed generation of the
      formatted prompt with the route's parameters. */
  function Post(session: Option<Session>, body: Http.Body<OutlineRequest>): (r: Http.Response)
    ensures session.None? ==> r == Http.JsonError(401, "Unauthorized")
    ensures session.Some? && body.Malformed? ==> r == Http.JsonError(500, "Failed to generate outline")
    ensures session.Some? && body.Parsed? && !HasRequiredFields(body.value) ==>
      r == Http.JsonError(400, "Missing required fields")
    ensures r.GeminiStream? <==> session.Some? && body.Parsed? && HasRequiredFields(body.value)
    ensures r.GeminiStream? ==>
      var req := body.value;
      r.request == Gemini.GenerationRequest(
        FormatOutline(req.prompt.value, req.numberOfCards.value, req.language.value),
        Gemini.TextGeneration, OutlineOverrides)
  {
    if session.None? then Http.JsonError(401, "Unauthorized")
    else match body
      case Malformed => Http.JsonError(500, "Failed to generate outline")
      case Parsed(req) =>
        if !HasRequiredFields(req) then Http.JsonError(400, "Missing required fields")
        else
          var formatted := FormatOutline(req.prompt.value, req.numberOfCards.value, req.language.value);
          Http.GeminiStream(Gemini.GenerationRequest(formatted, Gemini.TextGeneration, OutlineOverrides))
  }

  /** The model the outline is generated with: "gemini-1.5-flash", temperature 0.7,
      4096 output tokens, and the other defaults unchanged. */
  lemma OutlineModel()
    ensures Gemini.IsPartialConfig(OutlineOverrides)
    ensures Gemini.CreateGeminiModel(Gemini.TextGeneration, OutlineOverrides) ==
      Gemini.Model("gemini-1.5-flash",
        map["temperature" := Gemini.Number(0.7), "topP" := Gemini.Number(0.95), "topK" := Gemini.Number(64.0),
            "maxOutputTokens" := Gemini.Number(4096.0), "responseMimeType" := Gemini.Text("text/plain")])
  {
    var m := Gemini.CreateGeminiModel(Gemini.TextGeneration, OutlineOverrides);
    assert m.config.Keys == Gemini.DefaultConfig.Keys;
  }
}
