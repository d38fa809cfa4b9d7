/**
 * The response orchestrator: which models answer a user message, the
 * conversation each of them is shown, the prompt sent to it, and what the
 * caller gets back, as one reply per model or as a per-model event stream.
 *
 * The inference endpoint is an oracle passed in as a function: given a
 * model id and a prompt it yields a reply or a thrown value (`call`), or the
 * chunks it delivered followed by completion or failure (`stream`).
 */
module Orchestrator {
  import opened Wrappers
  import opened Strings
  import opened Types
  import Seqs

  datatype OrchestrationOptions = OrchestrationOptions(
    debateMode: bool,
    modelIds: seq<string>,
    conversationHistory: seq<Message>)

  datatype PromptRole = SystemRole | UserRole | AssistantRole

  /** One entry of the message list handed to the inference endpoint. */
  datatype PromptMessage = PromptMessage(role: PromptRole, content: string)

  datatype CallResult = Reply(content: string) | Raised(thrown: Thrown)

  datatype StreamOutcome = Completed | Failed(thrown: Thrown)

  /** The fragments a stream delivered, in arrival order, and how it ended. */
  datatype StreamResult = StreamResult(chunks: seq<string>, outcome: StreamOutcome)

  datatype ModelResponse = ModelResponse(modelId: string, content: string)

  datatype StreamEvent =
    | Start(modelId: string)
    | Chunk(modelId: string, content: string)
    | Done(modelId: string, fullContent: string)
    | Error(modelId: string, error: string)

  // ---------------------------------------------------------------------
  // Who responds

  /** The message addresses every model. */
  predicate IsEveryoneMention(userMessage: string)
  {
    Contains(userMessage, "@everyone")
  }

  /**
   * Debate mode or an `@everyone` mention lets every model respond, in the
   * given order; otherwise only the first model does. On an empty list the
   * single-responder branch has no first model and yields no responder.
   */
  function Responders(debateMode: bool, userMessage: string, modelIds: seq<string>): (r: seq<string>)
    ensures debateMode || IsEveryoneMention(userMessage) ==> r == modelIds
    ensures !(debateMode || IsEveryoneMention(userMessage)) && |modelIds| > 0 ==> r == [modelIds[0]]
    ensures |r| <= |modelIds| && forall id :: id in r ==> id in modelIds
  {
    if debateMode || IsEveryoneMention(userMessage) then modelIds
    else if |modelIds| > 0 then [modelIds[0]]
    else []
  }

  // ---------------------------------------------------------------------
  // The conversation each model sees

  /**
   * The speaker label of an assistant turn: the text after the last '/' of
   * its model id, else the whole id, else "AI". It is never empty, and it
   * holds a '/' only when it is the whole id.
   */
  function SpeakerName(modelId: Option<string>): (r: string)
    ensures r != ""
    ensures modelId.Some? && LastSegment(modelId.value) != "" ==> r == LastSegment(modelId.value)
    ensures modelId.Some? && LastSegment(modelId.value) == "" && modelId.value != "" ==> r == modelId.value
    ensures modelId.None? || modelId.value == "" ==> r == "AI"
    ensures '/' in r ==> modelId == Some(r)
  {
    match modelId
    case None => "AI"
    case Some(id) =>
      if LastSegment(id) != "" then LastSegment(id)
      else if id != "" then id
      else "AI"
  }

  /** A history turn as debate mode shows it: user turns as they are, assistant turns labelled with their speaker. */
  function LabelTurn(m: Message): PromptMessage
  {
    if m.role == User then PromptMessage(UserRole, m.content)
    else PromptMessage(AssistantRole, "[" + SpeakerName(m.modelId) + "]: " + m.content)
  }

  /** A history turn with its role and content only. */
  function PlainTurn(m: Message): PromptMessage
  {
    PromptMessage(if m.role == User then UserRole else AssistantRole, m.content)
  }

  /** The whole history as plain turns. */
  function PlainTurns(ms: seq<Message>): (r: seq<PromptMessage>)
    ensures |r| == |ms| && forall i :: 0 <= i < |ms| ==> r[i] == PlainTurn(ms[i])
  {
    seq(|ms|, i requires 0 <= i < |ms| => PlainTurn(ms[i]))
  }

  /** Regular mode keeps the user's turns and the viewing model's own replies. */
  predicate KeptFor(m: Message, currentModelId: string)
  {
    m.role == User || m.modelId == Some(currentModelId)
  }

  function RegularContext(ms: seq<Message>, currentModelId: string): seq<PromptMessage>
    decreases |ms|
  {
    if |ms| == 0 then []
    else (if KeptFor(ms[0], currentModelId) then [PlainTurn(ms[0])] else []) + RegularContext(ms[1..], currentModelId)
  }

  function DebateContext(ms: seq<Message>): (r: seq<PromptMessage>)
    ensures |r| == |ms| && forall i :: 0 <= i < |ms| ==> r[i] == LabelTurn(ms[i])
  {
    seq(|ms|, i requires 0 <= i < |ms| => LabelTurn(ms[i]))
  }

  /** The conversation shown to `currentModelId`. */
  function BuildModelContext(messages: seq<Message>, currentModelId: string, debateMode: bool): (r: seq<PromptMessage>)
    ensures debateMode ==> |r| == |messages| && forall i :: 0 <= i < |messages| ==> r[i] == LabelTurn(messages[i])
    ensures !debateMode ==> r == RegularContext(messages, currentModelId)
  {
    if debateMode then DebateContext(messages) else RegularContext(messages, currentModelId)
  }

  /** In debate mode every model sees the same conversation. */
  lemma DebateContextIgnoresViewer(messages: seq<Message>, a: string, b: string)
    ensures BuildModelContext(messages, a, true) == BuildModelContext(messages, b, true)
  {
  }

  /** In debate mode user turns pass through and assistant turns read "[speaker]: content". */
  lemma DebateContextTurns(messages: seq<Message>, current: string, i: nat)
    requires i < |messages|
    ensures messages[i].role == User ==> BuildModelContext(messages, current, true)[i] == PromptMessage(UserRole, messages[i].content)
    ensures messages[i].role == Assistant ==>
      BuildModelContext(messages, current, true)[i]
        == PromptMessage(AssistantRole, "[" + SpeakerName(messages[i].modelId) + "]: " + messages[i].content)
  {
  }

  /** The regular context of a concatenation is the concatenation of the regular contexts: selection keeps order. */
  lemma {:induction false} RegularContextAppend(a: seq<Message>, b: seq<Message>, current: string)
    ensures RegularContext(a + b, current) == RegularContext(a, current) + RegularContext(b, current)
    decreases |a|
  {
    if |a| > 0 {
      assert (a + b)[0] == a[0] && (a + b)[1..] == a[1..] + b;
      RegularContextAppend(a[1..], b, current);
    } else {
      assert a + b == b;
    }
  }

  /** The regular context of one turn is that turn, unchanged, exactly when the turn is kept. */
  lemma RegularContextSingle(m: Message, current: string)
    ensures RegularContext([m], current) == if KeptFor(m, current) then [PlainTurn(m)] else []
  {
  }

  /** The regular context is an order-preserving selection of the history's turns with contents unchanged. */
  lemma {:induction false} RegularContextIsSubsequence(messages: seq<Message>, current: string)
    ensures Seqs.IsSubsequence(RegularContext(messages, current), PlainTurns(messages))
    ensures |RegularContext(messages, current)| <= |messages|
    decreases |messages|
  {
    var r := RegularContext(messages, current);
    if |messages| > 0 {
      RegularContextIsSubsequence(messages[1..], current);
      assert PlainTurns(messages)[1..] == PlainTurns(messages[1..]);
      if KeptFor(messages[0], current) {
        assert r[0] == PlainTurns(messages)[0] && r[1..] == RegularContext(messages[1..], current);
      } else {
        assert r == RegularContext(messages[1..], current);
      }
      Seqs.SubsequenceElements(r, PlainTurns(messages));
    }
  }

  /** When every turn is kept (for instance, a history of user turns only) the regular context is the whole history. */
  lemma {:induction false} RegularContextKeepsAll(messages: seq<Message>, current: string)
    requires forall i :: 0 <= i < |messages| ==> KeptFor(messages[i], current)
    ensures RegularContext(messages, current) == PlainTurns(messages)
    decreases |messages|
  {
    if |messages| > 0 {
      RegularContextKeepsAll(messages[1..], current);
      assert PlainTurns(messages) == [PlainTurn(messages[0])] + PlainTurns(messages[1..]);
    }
  }

  // ---------------------------------------------------------------------
  // The prompt

  /** The lines joined with line breaks between them (`lines.join("\n")`). */
  function JoinLines(lines: seq<string>): string
    decreases |lines|
  {
    if |lines| == 0 then ""
    else if |lines| == 1 then lines[0]
    else lines[0] + ("\n" + JoinLines(lines[1..]))
  }

  const DebateModeLines: seq<string> := [
    "You're in a group chat with other AI models. "
      + "Respond like a person texting in a group conversation - not like you're writing an essay.",
    "",
    "VIBE:",
    "- Keep it SHORT (1-3 sentences unless absolutely necessary)",
    "- Be direct and opinionated - you're a person, not a Wikipedia article",
    "- You can reference what others said by name (e.g., \"GPT-4 has a point but...\" or \"I disagree with Claude here\")",
    "- You can just agree briefly (e.g., \"Exactly.\" or \"Yeah, what Gemini said\")",
    "- NO need to restate the question or write an introduction",
    "- NO bullet points unless truly needed",
    "- Casual tone - like texting friends who happen to be smart",
    "",
    "Think: Discord/WhatsApp group chat, NOT academic panel discussion.",
    "",
    "When someone asks a question, give your take. When others respond, you can react to them."]

  const DebateModeSystemPrompt: string := JoinLines(DebateModeLines)

  const RegularModeLines: seq<string> := [
    "You're chatting with a user. " + "Keep it conversational and natural.",
    "",
    "- Be helpful but keep responses concise",
    "- Get straight to the point",
    "- Use a friendly, casual tone",
    "- No need for overly formal language unless the context calls for it"]

  const RegularModeSystemPrompt: string := JoinLines(RegularModeLines)

  /** `getDebateModeSystemPrompt()` when debate mode is on, else `getRegularModeSystemPrompt()`. */
  function SystemPrompt(debateMode: bool): string
  {
    if debateMode then DebateModeSystemPrompt else RegularModeSystemPrompt
  }

  /** Texts whose first lines differ at some character are different texts. */
  lemma JoinLinesFirstLineDiffers(x: seq<string>, y: seq<string>, k: nat)
    requires |x| > 0 && |y| > 0 && k < |x[0]| && k < |y[0]| && x[0][k] != y[0][k]
    ensures JoinLines(x) != JoinLines(y)
  {
    assert JoinLines(x)[k] == x[0][k];
    assert JoinLines(y)[k] == y[0][k];
  }

  /** The two system prompts differ, so the prompt sent tells which mode is on. */
  lemma SystemPromptIdentifiesMode(a: bool, b: bool)
    ensures SystemPrompt(a) == SystemPrompt(b) <==> a == b
  {
    JoinLinesFirstLineDiffers(DebateModeLines, RegularModeLines, 7);
  }

  /** The system prompt first, then the context, then the user's message last. */
  function AssemblePrompt(debateMode: bool, context: seq<PromptMessage>, userMessage: string): (r: seq<PromptMessage>)
    ensures |r| == |context| + 2
    ensures r[0] == PromptMessage(SystemRole, SystemPrompt(debateMode))
    ensures r[1..|r| - 1] == context
    ensures r[|r| - 1] == PromptMessage(UserRole, userMessage)
  {
    [PromptMessage(SystemRole, SystemPrompt(debateMode))] + context + [PromptMessage(UserRole, userMessage)]
  }

  /** The prompt sent on behalf of `modelId`. */
  function PromptFor(userMessage: string, options: OrchestrationOptions, modelId: string): seq<PromptMessage>
  {
    AssemblePrompt(options.debateMode, BuildModelContext(options.conversationHistory, modelId, options.debateMode), userMessage)
  }

  // ---------------------------------------------------------------------
  // Failures

  /** `error instanceof Error ? error.message : 'Unknown error'`. */
  function ErrorText(t: Thrown): string
  {
    match t
    case ErrorValue(message) => message
    case NonErrorValue => "Unknown error"
  }

  function UnavailableText(modelId: string): string
  {
    "\U{26A0}\U{FE0F} " + LastSegment(modelId) + " is currently unavailable."
  }

  const ProviderHint: string := " The model provider is experiencing issues. Try a different model."
  const ApiKeyHint: string := " API key issue detected."

  /** The explanation appended to the unavailability notice. */
  function ErrorHint(errorMessage: string): string
  {
    if Contains(errorMessage, "Provider returned error") then ProviderHint
    else if Contains(errorMessage, "API key") then ApiKeyHint
    else " (" + errorMessage + ")"
  }

  /**
   * The message shown in place of a failed reply. It always opens with the
   * model's short name; a provider error wins over a key error, and any
   * other error is quoted in parentheses.
   */
  function FriendlyErrorMessage(modelId: string, errorMessage: string): (r: string)
    ensures UnavailableText(modelId) <= r
    ensures Contains(errorMessage, "Provider returned error") ==> r == UnavailableText(modelId) + ProviderHint
    ensures !Contains(errorMessage, "Provider returned error") && Contains(errorMessage, "API key")
      ==> r == UnavailableText(modelId) + ApiKeyHint
    ensures !Contains(errorMessage, "Provider returned error") && !Contains(errorMessage, "API key")
      ==> r == UnavailableText(modelId) + (" (" + errorMessage + ")")
  {
    UnavailableText(modelId) + ErrorHint(errorMessage)
  }

  // ---------------------------------------------------------------------
  // One reply per responder

  /** A model's entry in the reply list: what the call returned, or the friendly message in its place. */
  function BranchResponse(modelId: string, result: CallResult): (r: ModelResponse)
    ensures r.modelId == modelId
    ensures result.Reply? ==> r.content == result.content
    ensures result.Raised? ==> r.content == FriendlyErrorMessage(modelId, ErrorText(result.thrown))
  {
    match result
    case Reply(content) => ModelResponse(modelId, content)
    case Raised(t) => ModelResponse(modelId, FriendlyErrorMessage(modelId, ErrorText(t)))
  }

  /**
   * Each responder's reply, in responder order. A failed call contributes
   * its friendly message instead of failing the whole answer.
   */
  function OrchestrateResponses(
    userMessage: string,
    options: OrchestrationOptions,
    call: (string, seq<PromptMessage>) -> CallResult): (r: seq<ModelResponse>)
    requires |options.modelIds| > 0 || options.debateMode || IsEveryoneMention(userMessage)
    ensures var rs := Responders(options.debateMode, userMessage, options.modelIds);
      && |r| == |rs|
      && forall i :: 0 <= i < |rs| ==> r[i] == BranchResponse(rs[i], call(rs[i], PromptFor(userMessage, options, rs[i])))
  {
    var rs := Responders(options.debateMode, userMessage, options.modelIds);
    seq(|rs|, i requires 0 <= i < |rs| => BranchResponse(rs[i], call(rs[i], PromptFor(userMessage, options, rs[i]))))
  }

  /** In debate mode or on `@everyone` every model answers once, in order; otherwise exactly the first model does. */
  lemma OrchestrateResponsesShape(
    userMessage: string,
    options: OrchestrationOptions,
    call: (string, seq<PromptMessage>) -> CallResult)
    requires |options.modelIds| > 0
    ensures var r := OrchestrateResponses(userMessage, options, call);
      && (options.debateMode || IsEveryoneMention(userMessage) ==>
            |r| == |options.modelIds| && forall i :: 0 <= i < |r| ==> r[i].modelId == options.modelIds[i])
      && (!options.debateMode && !IsEveryoneMention(userMessage) ==>
            |r| == 1 && r[0].modelId == options.modelIds[0])
  {
  }

  // ---------------------------------------------------------------------
  // Streaming

  /** The text accumulated from a sequence of fragments. */
  function ConcatAll(chunks: seq<string>): string
    decreases |chunks|
  {
    if |chunks| == 0 then "" else ConcatAll(chunks[..|chunks| - 1]) + chunks[|chunks| - 1]
  }

  function ChunkEvents(modelId: string, chunks: seq<string>): (r: seq<StreamEvent>)
    ensures |r| == |chunks| && forall i :: 0 <= i < |chunks| ==> r[i] == Chunk(modelId, chunks[i])
  {
    seq(|chunks|, i requires 0 <= i < |chunks| => Chunk(modelId, chunks[i]))
  }

  /** One more fragment adds one more chunk event at the end. */
  lemma ChunkEventsSnoc(modelId: string, chunks: seq<string>, c: string)
    ensures ChunkEvents(modelId, chunks + [c]) == ChunkEvents(modelId, chunks) + [Chunk(modelId, c)]
  {
  }

  function TerminalEvent(modelId: string, result: StreamResult): StreamEvent
  {
    match result.outcome
    case Completed => Done(modelId, ConcatAll(result.chunks))
    case Failed(t) => Error(modelId, FriendlyErrorMessage(modelId, ErrorText(t)))
  }

  /** The events one responder's branch emits: start, one chunk per fragment, then done or error. */
  function BranchEvents(modelId: string, result: StreamResult): seq<StreamEvent>
  {
    [Start(modelId)] + ChunkEvents(modelId, result.chunks) + [TerminalEvent(modelId, result)]
  }

  function TextOf(e: StreamEvent): string
  {
    if e.Chunk? then e.content else ""
  }

  function ChunkTexts(events: seq<StreamEvent>): (r: seq<string>)
    ensures |r| == |events| && forall i :: 0 <= i < |events| ==> r[i] == TextOf(events[i])
  {
    seq(|events|, i requires 0 <= i < |events| => TextOf(events[i]))
  }

  predicate IsTerminal(e: StreamEvent)
  {
    e.Done? || e.Error?
  }

  /**
   * The event order of one branch: exactly one `start` first, then only
   * chunks, then exactly one terminal event, all for `modelId`; a `done`
   * carries the concatenation of the chunks before it.
   */
  predicate WellFormedBranch(events: seq<StreamEvent>, modelId: string)
  {
    && |events| >= 2
    && events[0] == Start(modelId)
    && (forall i :: 0 < i < |events| - 1 ==> events[i].Chunk? && events[i].modelId == modelId)
    && IsTerminal(events[|events| - 1]) && events[|events| - 1].modelId == modelId
    && (events[|events| - 1].Done? ==>
          events[|events| - 1].fullContent == ConcatAll(ChunkTexts(events[1..|events| - 1])))
  }

  lemma BranchEventsWellFormed(modelId: string, result: StreamResult)
    ensures WellFormedBranch(BranchEvents(modelId, result), modelId)
  {
    var ev := BranchEvents(modelId, result);
    var body := ChunkEvents(modelId, result.chunks);
    assert ev[1..|ev| - 1] == body;
    forall i | 0 < i < |ev| - 1
      ensures ev[i].Chunk? && ev[i].modelId == modelId
    {
      assert ev[i] == body[i - 1];
    }
    assert ChunkTexts(body) == result.chunks;
  }

  /** A stream that fails after k fragments yields start, k chunks and one error, and never a `done`. */
  lemma StreamFailureEvents(modelId: string, chunks: seq<string>, t: Thrown)
    ensures var ev := BranchEvents(modelId, StreamResult(chunks, Failed(t)));
      && |ev| == |chunks| + 2
      && ev[|ev| - 1] == Error(modelId, FriendlyErrorMessage(modelId, ErrorText(t)))
      && forall i :: 0 <= i < |ev| ==> !ev[i].Done?
  {
    var ev := BranchEvents(modelId, StreamResult(chunks, Failed(t)));
    var body := ChunkEvents(modelId, chunks);
    forall i | 0 < i < |ev| - 1 ensures !ev[i].Done? {
      assert ev[i] == body[i - 1];
    }
  }

  /** A stream that completes ends with `done` carrying the concatenation of its fragments. */
  lemma StreamSuccessEvents(modelId: string, chunks: seq<string>)
    ensures var ev := BranchEvents(modelId, StreamResult(chunks, Completed));
      && |ev| == |chunks| + 2
      && ev[|ev| - 1] == Done(modelId, ConcatAll(chunks))
      && forall i :: 0 <= i < |ev| - 1 ==> !IsTerminal(ev[i])
  {
    var ev := BranchEvents(modelId, StreamResult(chunks, Completed));
    var body := ChunkEvents(modelId, chunks);
    forall i | 0 < i < |ev| - 1 ensures !IsTerminal(ev[i]) {
      assert ev[i] == body[i - 1];
    }
  }

  /** Relays each fragment as a chunk event while accumulating the text, after the start event. */
  method RelayChunks(modelId: string, chunks: seq<string>) returns (events: seq<StreamEvent>, fullContent: string)
    ensures events == [Start(modelId)] + ChunkEvents(modelId, chunks)
    ensures fullContent == ConcatAll(chunks)
  {
    fullContent := "";
    events := [Start(modelId)];
    var i := 0;
    while i < |chunks|
      invariant 0 <= i <= |chunks|
      invariant fullContent == ConcatAll(chunks[..i])
      invariant events == [Start(modelId)] + ChunkEvents(modelId, chunks[..i])
    {
      assert chunks[..i + 1] == chunks[..i] + [chunks[i]];
      ChunkEventsSnoc(modelId, chunks[..i], chunks[i]);
      fullContent := fullContent + chunks[i];
      events := events + [Chunk(modelId, chunks[i])];
      i := i + 1;
    }
    assert chunks[..i] == chunks;
  }

  /**
   * One responder's branch: build its prompt, emit start, relay each
   * fragment while accumulating it, then done or error.
   */
  method StreamBranch(
    modelId: string,
    prompt: string -> seq<PromptMessage>,
    stream: (string, seq<PromptMessage>) -> StreamResult) returns (events: seq<StreamEvent>)
    ensures events == BranchEvents(modelId, stream(modelId, prompt(modelId)))
    ensures WellFormedBranch(events, modelId)
  {
    var messages := prompt(modelId);
    var result := stream(modelId, messages);
    var fullContent;
    events, fullContent := RelayChunks(modelId, result.chunks);
    if result.outcome.Completed? {
      events := events + [Done(modelId, fullContent)];
    } else {
      events := events + [Error(modelId, FriendlyErrorMessage(modelId, ErrorText(result.outcome.thrown)))];
    }
    BranchEventsWellFormed(modelId, result);
  }

  /** Starts one branch per responder, in responder order. */
  method StreamEach(
    rs: seq<string>,
    prompt: string -> seq<PromptMessage>,
    stream: (string, seq<PromptMessage>) -> StreamResult) returns (branches: seq<seq<StreamEvent>>)
    ensures |branches| == |rs|
    ensures forall i :: 0 <= i < |rs| ==>
      branches[i] == BranchEvents(rs[i], stream(rs[i], prompt(rs[i]))) && WellFormedBranch(branches[i], rs[i])
  {
    branches := [];
    var k := 0;
    while k < |rs|
      invariant 0 <= k <= |rs|
      invariant |branches| == k
      invariant forall i :: 0 <= i < k ==>
        branches[i] == BranchEvents(rs[i], stream(rs[i], prompt(rs[i]))) && WellFormedBranch(branches[i], rs[i])
    {
      var events := StreamBranch(rs[k], prompt, stream);
      branches := branches + [events];
      k := k + 1;
    }
  }

  /**
   * The streaming variant: one event branch per responder, in responder
   * order. A branch depends only on its own model's stream, so one model's
   * failure leaves every other branch as it would have been.
   */
  method OrchestrateStreamingResponses(
    userMessage: string,
    options: OrchestrationOptions,
    stream: (string, seq<PromptMessage>) -> StreamResult) returns (branches: seq<seq<StreamEvent>>)
    requires |options.modelIds| > 0 || options.debateMode || IsEveryoneMention(userMessage)
    ensures var rs := Responders(options.debateMode, userMessage, options.modelIds);
      && |branches| == |rs|
      && (forall i :: 0 <= i < |rs| ==>
            branches[i] == BranchEvents(rs[i], stream(rs[i], PromptFor(userMessage, options, rs[i]))))
      && (forall i :: 0 <= i < |rs| ==> WellFormedBranch(branches[i], rs[i]))
  {
    var rs := Responders(options.debateMode, userMessage, options.modelIds);
    branches := StreamEach(rs, m => PromptFor(userMessage, options, m), stream);
  }
}
