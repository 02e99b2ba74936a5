/** `POST /api/ai/command` and `OPTIONS /api/ai/command`: the editor's assistant. The
    handler flattens the conversation into one prompt and streams the model's answer. */
module CommandRoute {
  import opened Wrappers
  import opened Auth
  import Lines
  import Gemini
  import Http

  /** `SYSTEM_PROMPT`, line by line. */
  const SystemPromptLines: seq<string> := [
    "You are an AI writing assistant integrated into a text editor. Your role is to help users improve their writing, provide suggestions, and assist with various text-related tasks.",
    "",
    "Key guidelines:",
    "1. Be concise and helpful",
    "2. Focus on improving the user's writing",
    "3. Provide specific, actionable suggestions",
    "4. Maintain the user's voice and style",
    "5. Be professional yet approachable",
    "",
    "Available commands:",
    "- \"improve\": Enhance the selected text while maintaining meaning",
    "- \"shorten\": Make the text more concise",
    "- \"expand\": Add more detail and context",
    "- \"tone\": Adjust the tone (formal, casual, professional, etc.)",
    "- \"grammar\": Fix grammar and spelling issues",
    "- \"explain\": Explain a concept or provide more information",
    "- \"continue\": Continue writing from where the user left off"
  ]
  const SystemPrompt: string := Lines.Joined(SystemPromptLines)

  /** The context before the optional command line: the system prompt and a blank line. */
  const Preamble: string := SystemPrompt + "\n\n"

  const CommandLabel: string := "Current command: "
  const ConversationHeader: string := "Conversation:\n"

  /** The instruction appended after the transcript. */
  const Closing: string :=
    "\nPlease provide a helpful response based on the conversation above. Keep your response focused and practical."

  /** One chat message; `role` is "user", "assistant" or "system" by the request's type,
      but nothing checks it, so any text is modelled. */
  datatype Message = Message(role: string, content: string)

  /** The `messages` field of the body: missing or falsy, present but not an array, or an array. */
  datatype MessagesField = Absent | NotAnArray | Items(messages: seq<Message>)

  datatype CommandRequest = CommandRequest(messages: MessagesField, command: Option<string>)

  /** `if (command)`: present and not the empty string. */
  predicate HasCommand(command: Option<string>)
  {
    command.Some? && command.value != ""
  }

  /** The `Current command: …` paragraph, present only for a truthy command. */
  function CommandSection(command: Option<string>): string
  {
    if HasCommand(command) then CommandLabel + command.value + "\n\n" else ""
  }

  /** The line `${role}: ${content}` with its line feed. */
  function MessageLine(m: Message): string
  {
    m.role + ": " + m.content + "\n"
  }

  /** The transcript: one line per message, in order. */
  function Transcript(messages: seq<Message>): string
  {
    if messages == [] then "" else MessageLine(messages[0]) + Transcript(messages[1..])
  }

  /** The prompt the handler builds. */
  function ConversationContext(messages: seq<Message>, command: Option<string>): string
  {
    Preamble + CommandSection(command) + ConversationHeader + Transcript(messages) + Closing
  }

  /** Extending the conversation by one message appends exactly that message's line. */
  lemma {:induction false} TranscriptSnoc(messages: seq<Message>, m: Message)
    ensures Transcript(messages + [m]) == Transcript(messages) + MessageLine(m)
  {
    if messages == [] {
      assert [] + [m] == [m];
    } else {
      var rest := messages[1..];
      assert (messages + [m])[1..] == rest + [m];
      TranscriptSnoc(rest, m);
    }
  }

  /** The string the handler accumulates in `conversationContext`, step by step: the
      preamble, the command paragraph, the header, then each message's line. */
  method BuildConversationContext(messages: seq<Message>, command: Option<string>) returns (context: string)
    ensures context == ConversationContext(messages, command)
  {
    context := Preamble;
    if HasCommand(command) {
      context := context + (CommandLabel + command.value + "\n\n");
    }
    assert context == Preamble + CommandSection(command);
    context := context + ConversationHeader;
    context := AppendTranscript(context, messages);
    context := context + Closing;
  }

  /** `messages.forEach(message => conversationContext += ...)`. */
  method AppendTranscript(prefix: string, messages: seq<Message>) returns (context: string)
    ensures context == prefix + Transcript(messages)
  {
    context := prefix;
    for i := 0 to |messages|
      invariant context == prefix + Transcript(messages[..i])
    {
      TranscriptSnoc(messages[..i], messages[i]);
      assert messages[..i + 1] == messages[..i] + [messages[i]];
      context := context + MessageLine(messages[i]);
    }
    assert messages[..|messages|] == messages;
  }

  /** The transcript splits back, at its line feeds, into one `role: content` line per
      message in order, as long as no role or content holds a line feed itself. */
  lemma {:induction false} TranscriptLines(messages: seq<Message>)
    requires forall i :: 0 <= i < |messages| ==> '\n' !in messages[i].role && '\n' !in messages[i].content
    ensures Lines.Split(Transcript(messages))
      == seq(|messages|, i requires 0 <= i < |messages| => messages[i].role + ": " + messages[i].content)
  {
    var lines := seq(|messages|, i requires 0 <= i < |messages| => messages[i].role + ": " + messages[i].content);
    TranscriptIsTerminated(messages);
    forall i | 0 <= i < |lines| ensures '\n' !in lines[i] {
      assert lines[i] == messages[i].role + ": " + messages[i].content;
    }
    Lines.SplitTerminated(lines);
  }

  lemma {:induction false} TranscriptIsTerminated(messages: seq<Message>)
    ensures Transcript(messages)
      == Lines.Terminated(seq(|messages|, i requires 0 <= i < |messages| => messages[i].role + ": " + messages[i].content))
  {
    var lines := seq(|messages|, i requires 0 <= i < |messages| => messages[i].role + ": " + messages[i].content);
    if messages != [] {
      TranscriptIsTerminated(messages[1..]);
      var tail := seq(|messages| - 1, i requires 0 <= i < |messages| - 1 => messages[1..][i].role + ": " + messages[1..][i].content);
      assert lines[1..] == tail;
    }
  }

  /** Concatenation regrouped in the two ways `ParagraphAfter` needs; stated separately
      because the solver does not find these regroupings of five strings on its own
      within its resource bound. */
  lemma Regroup(a: string, b: string, c: string, d: string, e: string)
    ensures a + b + c + d + e == a + (b + c + d + e)
    ensures b + c + d + e == b + c + (d + e)
  {
  }

  /** A prefix put in front of a text that ends with `q` keeps both the prefix and
      that ending. */
  lemma Affixes(p: string, rest: string, q: string)
    requires |q| <= |rest| && rest[|rest| - |q|..] == q
    ensures var c := p + rest;
      p <= c && c[|p|..] == rest && |c| >= |q| && c[|c| - |q|..] == q
  {
    var c := p + rest;
    assert c[|c| - |q|..] == rest[|rest| - |q|..];
  }

  lemma SectionStart(command: Option<string>, more: string)
    ensures var rest := CommandSection(command) + ConversationHeader + more;
      && (HasCommand(command) <==> CommandLabel <= rest)
      && (HasCommand(command) ==> CommandLabel + command.value + "\n\n" <= rest)
  {
    var rest := CommandSection(command) + ConversationHeader + more;
    if HasCommand(command) {
      var paragraph := CommandLabel + command.value + "\n\n";
      assert rest == paragraph + (ConversationHeader + more);
      assert rest[..|paragraph|] == paragraph;
      assert rest[..|CommandLabel|] == CommandLabel;
    } else {
      assert rest == ConversationHeader + more;
      assert rest[1] == 'o';
      assert CommandLabel[1] == 'u';
    }
  }

  /** `CommandParagraph` for any text in place of the system prompt. */
  lemma ParagraphAfter(preamble: string, messages: seq<Message>, command: Option<string>)
    ensures var c := preamble + CommandSection(command) + ConversationHeader + Transcript(messages) + Closing;
      && preamble <= c && |c| >= |Closing| && c[|c| - |Closing|..] == Closing
      && (HasCommand(command) <==> CommandLabel <= c[|preamble|..])
      && (HasCommand(command) ==> CommandLabel + command.value + "\n\n" <= c[|preamble|..])
  {
    var section, transcript := CommandSection(command), Transcript(messages);
    var rest := section + ConversationHeader + transcript + Closing;
    Regroup(preamble, section, ConversationHeader, transcript, Closing);
    assert rest[|rest| - |Closing|..] == Closing;
    Affixes(preamble, rest, Closing);
    SectionStart(command, transcript + Closing);
  }

  /** The context opens with the system prompt and ends with the closing instruction, and
      the paragraph after the system prompt begins with `Current command: ` exactly when
      the command is truthy, in which case it quotes the command. */
  lemma CommandParagraph(messages: seq<Message>, command: Option<string>)
    ensures var c := ConversationContext(messages, command);
      && Preamble <= c && |c| >= |Closing| && c[|c| - |Closing|..] == Closing
      && (HasCommand(command) <==> CommandLabel <= c[|Preamble|..])
      && (HasCommand(command) ==> CommandLabel + command.value + "\n\n" <= c[|Preamble|..])
  {
    ParagraphAfter(Preamble, messages, command);
  }

  // ---------------------------------------------------------------------------
  // The handlers
  // ---------------------------------------------------------------------------

  /** `!messages || !Array.isArray(messages) || messages.length === 0` fails. */
  predicate HasMessages(req: CommandRequest)
  {
    req.messages.Items? && req.messages.messages != []
  }

  /** The generation overrides the route passes: temperature 0.7 and at most 2048 tokens. */
  const CommandOverrides: Gemini.Config :=
    map["temperature" := Gemini.Number(0.7), "maxOutputTokens" := Gemini.Number(2048.0)]

  /** `POST`: 401 without a session, 500 when the body is not JSON (or is `null`), 400
      without a non-empty message array, and otherwise the streamed generation of the
      conversation context. */
  method Post(session: Option<Session>, body: Http.Body<CommandRequest>) returns (r: Http.Response)
    ensures session.None? ==> r == Http.JsonError(401, "Unauthorized")
    ensures session.Some? && body.Malformed? ==> r == Http.JsonError(500, "Failed to process AI command")
    ensures session.Some? && body.Parsed? && !HasMessages(body.value) ==>
      r == Http.JsonError(400, "Messages array is required")
    ensures r.GeminiStream? <==> session.Some? && body.Parsed? && HasMessages(body.value)
    ensures r.GeminiStream? ==>
      r.request == Gemini.GenerationRequest(
        ConversationContext(body.value.messages.messages, body.value.command),
        Gemini.TextGeneration, CommandOverrides)
  {
    if session.None? {
      return Http.JsonError(401, "Unauthorized");
    }
    if body.Malformed? {
      return Http.JsonError(500, "Failed to process AI command");
    }
    var req := body.value;
    if !HasMessages(req) {
      return Http.JsonError(400, "Messages array is required");
    }
    var context := BuildConversationContext(req.messages.messages, req.command);
    r := Http.GeminiStream(Gemini.GenerationRequest(context, Gemini.TextGeneration, CommandOverrides));
  }

  /** The model the answer is generated with: "gemini-1.5-flash", temperature 0.7,
      2048 output tokens, and the other defaults unchanged. */
  lemma CommandModel()
    ensures Gemini.IsPartialConfig(CommandOverrides)
    ensures Gemini.CreateGeminiModel(Gemini.TextGeneration, CommandOverrides) ==
      Gemini.Model("gemini-1.5-flash",
        map["temperature" := Gemini.Number(0.7), "topP" := Gemini.Number(0.95), "topK" := Gemini.Number(64.0),
            "maxOutputTokens" := Gemini.Number(2048.0), "responseMimeType" := Gemini.Text("text/plain")])
  {
    var m := Gemini.CreateGeminiModel(Gemini.TextGeneration, CommandOverrides);
    assert m.config.Keys == Gemini.DefaultConfig.Keys;
  }

  const CorsHeaders: seq<(string, string)> := [
    ("Access-Control-Allow-Origin", "*"),
    ("Access-Control-Allow-Methods", "POST, OPTIONS"),
    ("Access-Control-Allow-Headers", "Content-Type, Authorization")
  ]

  /** `OPTIONS`: an empty 200 response that allows any origin to `POST` with the
      `Content-Type` and `Authorization` headers; no session is required. */
  function Options(): (r: Http.Response)
    ensures r.Empty? && r.status == 200
    ensures Http.Header(r.headers, "Access-Control-Allow-Origin") == Some("*")
    ensures Http.Header(r.headers, "Access-Control-Allow-Methods") == Some("POST, OPTIONS")
    ensures Http.Header(r.headers, "Access-Control-Allow-Headers") == Some("Content-Type, Authorization")
  {
    Http.Empty(200, CorsHeaders)
  }
}
