/**
 * The request/response adapter of src/services/geminiApi.ts
 * (`GeminiApiService.sendMessage`). The network call and JSON decoding are
 * not modelled: their outcome is the `FetchReply` input, and the request
 * body this adapter builds is its output.
 */
module GeminiClient {
  import opened Wrappers

  // ---------------------------------------------------------------------
  // Conversation turns, as the chat pipeline hands them over

  datatype Role = User | Assistant
  datatype ChatTurn = ChatTurn(role: Role, content: string)

  // ---------------------------------------------------------------------
  // The wire format

  /** The roles the generation service accepts: `"user"` and `"model"`. */
  datatype WireRole = UserRole | ModelRole
  datatype Part = Part(text: string)
  datatype WireMessage = WireMessage(role: WireRole, parts: seq<Part>)

  function RoleName(role: WireRole): string
  {
    match role
    case UserRole => "user"
    case ModelRole => "model"
  }

  /** `user` turns stay `user`; `assistant` turns become `model`. */
  function WireRoleOf(role: Role): WireRole
  {
    match role
    case User => UserRole
    case Assistant => ModelRole
  }

  /** The persona used when no context is given, or an empty one. */
  const DefaultPersona: string :=
    "You are a knowledgeable and versatile assistant, ready to help with any topic."

  /** The number of lines of guidance that follow the persona in the system prompt. */
  const GuidanceLineCount: nat := 33

  /**
   * Line `k` of the fixed answering and formatting guidance that follows the
   * persona in the system prompt; each is preceded there by a line break.
   */
  function GuidanceLine(k: nat): string
    requires k < GuidanceLineCount
  {
    match k
    case 0 => "  "
    case 1 => "  You excel at clear, helpful communication. Your goal: understand what users need and deliver it perfectly."
    case 2 => "  "
    case 3 => "  Response Strategy:"
    case 4 => "  - Simple questions \U{2192} Brief, direct answers (2-4 sentences)"
    case 5 => "  - Complex questions \U{2192} Structured, detailed responses"
    case 6 => "  - Technical questions \U{2192} Code examples + clear explanations"
    case 7 => "  - Always prioritize what's most useful to the user"
    case 8 => "  "
    case 9 => "  Markdown Mastery:"
    case 10 => "  Use markdown thoughtfully to enhance clarity and visual appeal:"
    case 11 => "  - **Bold** key takeaways, important terms, and main concepts"
    case 12 => "  - *Italic* for subtle emphasis or foreign terms"
    case 13 => "  - `code` for technical terms, commands, file names, or values"
    case 14 => "  - Code blocks (```language) for examples - always specify the language"
    case 15 => "  - Tables for comparisons, options, pros/cons, or structured data"
    case 16 => "  - Lists (- or 1.) for steps, options, features, or breaking down information"
    case 17 => "  - > Blockquotes for warnings, tips, important notes, or quotes"
    case 18 => "  - Emojis sparingly for visual markers (\U{2705} \U{274C} \U{1F680} \U{26A0}\U{FE0F} \U{1F4A1})"
    case 19 => "  - Links [with descriptive text](url) when referencing external resources"
    case 20 => "  - Headers (## ###) to structure longer responses into clear sections"
    case 21 => "  "
    case 22 => "  Excellence Standards:"
    case 23 => "  \U{2713} Code examples should be complete, runnable, and properly formatted"
    case 24 => "  \U{2713} Explanations should be clear without being condescending"
    case 25 => "  \U{2713} Anticipate follow-up questions and address them proactively"
    case 26 => "  \U{2713} Admit uncertainty rather than guessing - it's okay to say \"I don't know\""
    case 27 => "  \U{2713} Suggest better approaches or alternatives when relevant"
    case 28 => "  \U{2713} Use examples, analogies, and metaphors for complex concepts"
    case 29 => "  \U{2713} Structure information visually for easier scanning"
    case 30 => "  \U{2713} Balance brevity with completeness"
    case 31 => "  "
    case 32 => "  Adapt to the user: Match their technical level, tone, and communication style. Be conversational yet professional."
  }

  /** `text` followed by guidance lines `0` to `n - 1`, each after a line break. */
  function WithGuidance(text: string, n: nat): (r: string)
    requires n <= GuidanceLineCount
    ensures text <= r
  {
    if n == 0 then text else WithGuidance(text, n - 1) + "\n" + GuidanceLine(n - 1)
  }

  /** `context || DefaultPersona`: an absent or empty context gives the default persona. */
  function BaseContext(context: Option<string>): string
  {
    match context
    case Some(c) => if c != "" then c else DefaultPersona
    case None => DefaultPersona
  }

  /**
   * `createSystemPrompt(context)`: the persona, then the fixed guidance. The
   * prompt starts with a non-empty context as given and otherwise with the
   * default persona.
   */
  function CreateSystemPrompt(context: Option<string>): (prompt: string)
    ensures context.Some? && context.value != "" ==> context.value <= prompt
    ensures (context.None? || context.value == "") ==> DefaultPersona <= prompt
  {
    WithGuidance(BaseContext(context), GuidanceLineCount)
  }

  /** `wire` carries `turns` one for one, in order, each with its role mapped and its text as the only part. */
  ghost predicate MapsTurns(turns: seq<ChatTurn>, wire: seq<WireMessage>)
  {
    && |wire| == |turns|
    && forall i :: 0 <= i < |turns| ==>
         wire[i] == WireMessage(WireRoleOf(turns[i].role), [Part(turns[i].content)])
  }

  /** `contents` is the request body for `turns`: the system prompt as a leading `user` turn, then the turns. */
  ghost predicate CarriesConversation(turns: seq<ChatTurn>, context: Option<string>, contents: seq<WireMessage>)
  {
    && |contents| == |turns| + 1
    && contents[0] == WireMessage(UserRole, [Part(CreateSystemPrompt(context))])
    && MapsTurns(turns, contents[1..])
  }

  /** Reads the conversation back from wire messages: the inverse of the turn mapping. */
  function TurnsFromWire(wire: seq<WireMessage>): (turns: seq<ChatTurn>)
    ensures |turns| == |wire|
  {
    if wire == [] then []
    else
      var m := wire[0];
      [ChatTurn(if m.role == UserRole then User else Assistant, if m.parts != [] then m.parts[0].text else "")]
        + TurnsFromWire(wire[1..])
  }

  /** The mapping loses nothing: reading the wire messages back gives the turns, in order. */
  lemma {:induction false} WireRoundTrip(turns: seq<ChatTurn>, wire: seq<WireMessage>)
    requires MapsTurns(turns, wire)
    ensures TurnsFromWire(wire) == turns
  {
    if turns != [] {
      assert MapsTurns(turns[1..], wire[1..]) by {
        forall i | 0 <= i < |turns| - 1
          ensures wire[1..][i] == WireMessage(WireRoleOf(turns[1..][i].role), [Part(turns[1..][i].content)])
        {
          assert wire[1..][i] == wire[i + 1];
        }
      }
      WireRoundTrip(turns[1..], wire[1..]);
      assert wire[0] == WireMessage(WireRoleOf(turns[0].role), [Part(turns[0].content)]);
    }
  }

  // ---------------------------------------------------------------------
  // The reply

  /** A candidate's `content.parts`; a missing field is `None`. */
  datatype Content = Content(parts: Option<seq<Part>>)
  datatype Candidate = Candidate(content: Option<Content>)

  /** The decoded response body, or the reason decoding threw. */
  datatype Body = Malformed(reason: string) | Parsed(candidates: Option<seq<Candidate>>)

  /** What `fetch` produced: a rejection, or a response with its status and body. */
  datatype FetchReply = NetworkFailure(reason: string) | Received(status: nat, body: Body)

  /** The errors `sendMessage` throws. `Thrown` is an error raised by `fetch` or by decoding, re-thrown as it is. */
  datatype ApiError = QuotaExceeded | HttpStatus(status: nat) | NoResponse | Thrown(reason: string)

  /** `response.ok`. */
  predicate IsOk(status: nat)
  {
    200 <= status <= 299
  }

  /** `candidates[0].content.parts[0].text`, when every step exists and is non-empty. */
  function FirstText(candidates: Option<seq<Candidate>>): Option<string>
  {
    if candidates.Some? && |candidates.value| > 0 then
      var candidate := candidates.value[0];
      if candidate.content.Some? && candidate.content.value.parts.Some? && |candidate.content.value.parts.value| > 0
      then Some(candidate.content.value.parts.value[0].text)
      else None
    else None
  }

  /** The outcome of `sendMessage` for a given fetch outcome. */
  function ReadReply(reply: FetchReply): Result<string, ApiError>
  {
    match reply
    case NetworkFailure(reason) => Err(Thrown(reason))
    case Received(status, body) =>
      if !IsOk(status) then
        if status == 429 then Err(QuotaExceeded) else Err(HttpStatus(status))
      else
        match body
        case Malformed(reason) => Err(Thrown(reason))
        case Parsed(candidates) =>
          match FirstText(candidates)
          case Some(text) => Ok(text)
          case None => Err(NoResponse)
  }

  /**
   * The `geminiMessages` array: the system prompt as a `user` turn, then one
   * pushed message per turn, in order.
   */
  method BuildContents(systemPrompt: string, turns: seq<ChatTurn>) returns (contents: seq<WireMessage>)
    ensures |contents| == |turns| + 1
    ensures contents[0] == WireMessage(UserRole, [Part(systemPrompt)])
    ensures MapsTurns(turns, contents[1..])
  {
    contents := [WireMessage(UserRole, [Part(systemPrompt)])];
    for i := 0 to |turns|
      invariant |contents| == i + 1
      invariant contents[0] == WireMessage(UserRole, [Part(systemPrompt)])
      invariant MapsTurns(turns[..i], contents[1..])
    {
      var turn := turns[i];
      var message := if turn.role == User then WireMessage(UserRole, [Part(turn.content)])
                     else WireMessage(ModelRole, [Part(turn.content)]);
      assert message == WireMessage(WireRoleOf(turn.role), [Part(turn.content)]);
      ghost var before := contents;
      contents := contents + [message];
      assert contents[1..] == before[1..] + [message];
      assert turns[..i + 1] == turns[..i] + [turn];
    }
    assert turns[..|turns|] == turns;
  }

  /**
   * `sendMessage(turns, context)`: build the request body (the system prompt,
   * then each turn mapped to the wire format), send it, and classify the
   * outcome.
   */
  method SendMessage(turns: seq<ChatTurn>, context: Option<string>, reply: FetchReply)
    returns (contents: seq<WireMessage>, result: Result<string, ApiError>)
    ensures CarriesConversation(turns, context, contents)
    ensures result == ReadReply(reply)
  {
    var systemPrompt := CreateSystemPrompt(context);
    contents := BuildContents(systemPrompt, turns);

    result := ReadReply(reply);
  }

  /**
   * A non-OK status of 429 fails with `QuotaExceeded`, any other non-OK
   * status with an error carrying that status, and an OK status with neither.
   */
  lemma StatusClassification(status: nat, body: Body)
    ensures !IsOk(status) && status == 429 ==> ReadReply(Received(status, body)) == Err(QuotaExceeded)
    ensures !IsOk(status) && status != 429 ==> ReadReply(Received(status, body)) == Err(HttpStatus(status))
    ensures IsOk(status) ==>
      var r := ReadReply(Received(status, body));
      r.Err? ==> !r.error.QuotaExceeded? && !r.error.HttpStatus?
  {
  }

  /**
   * An OK response succeeds exactly when it has a first candidate with a
   * first part, and then yields that part's text; otherwise it fails with
   * `NoResponse`.
   */
  lemma ExtractsFirstPart(status: nat, candidates: Option<seq<Candidate>>)
    requires IsOk(status)
    ensures
      var r := ReadReply(Received(status, Parsed(candidates)));
      && (r.Ok? <==>
            && candidates.Some? && candidates.value != []
            && candidates.value[0].content.Some?
            && candidates.value[0].content.value.parts.Some?
            && candidates.value[0].content.value.parts.value != [])
      && (r.Ok? ==> r.value == candidates.value[0].content.value.parts.value[0].text)
      && (r.Err? ==> r.error == NoResponse)
  {
  }

  /** A failure of `fetch` or of decoding reaches the caller unchanged. */
  lemma FailuresPropagate(reason: string, status: nat)
    ensures ReadReply(NetworkFailure(reason)) == Err(Thrown(reason))
    ensures IsOk(status) ==> ReadReply(Received(status, Malformed(reason))) == Err(Thrown(reason))
  {
  }

  // ---------------------------------------------------------------------
  // Error messages

  /** The decimal text of `n`, as a template literal renders a number. */
  function DecimalString(n: nat): (s: string)
    ensures |s| >= 1
    ensures n >= 10 ==> |s| >= 2
  {
    if n < 10 then [Digit(n)] else DecimalString(n / 10) + [Digit(n % 10)]
  }

  function Digit(d: nat): char
    requires d < 10
  {
    "0123456789"[d]
  }

  /** The `message` of the error `sendMessage` throws. */
  function ErrorMessage(e: ApiError): string
  {
    match e
    case QuotaExceeded => "QUOTA_EXCEEDED"
    case HttpStatus(status) => "Gemini API error: " + DecimalString(status)
    case NoResponse => "No response from Gemini API"
    case Thrown(reason) => reason
  }

  lemma {:induction false} DecimalStringInjective(a: nat, b: nat)
    requires DecimalString(a) == DecimalString(b)
    ensures a == b
  {
    var s := DecimalString(a);
    if a >= 10 && b >= 10 {
      assert s[..|s| - 1] == DecimalString(a / 10);
      assert DecimalString(b)[..|s| - 1] == DecimalString(b / 10);
      DecimalStringInjective(a / 10, b / 10);
      assert Digit(a % 10) == s[|s| - 1] == Digit(b % 10);
    }
  }

  /** The message of a status error carries the status: two such errors read alike only for the same status. */
  lemma StatusMessageIdentifiesStatus(a: nat, b: nat)
    requires ErrorMessage(HttpStatus(a)) == ErrorMessage(HttpStatus(b))
    ensures a == b
  {
    var prefix := "Gemini API error: ";
    assert DecimalString(a) == (prefix + DecimalString(a))[|prefix|..];
    assert DecimalString(b) == (prefix + DecimalString(b))[|prefix|..];
    DecimalStringInjective(a, b);
  }
}
