/**
 * The records the application passes around: chat messages and mentions,
 * chats, and the model catalogue entry.
 */
module Types {
  import opened Wrappers

  /** `new Date()` values are opaque: only their identity is carried along. */
  datatype Timestamp = Timestamp(millis: int)

  datatype Role = User | Assistant

  datatype MentionKind = EveryoneMention | ModelMention

  /** A mention carried by a sent message: `@everyone` or one model. */
  datatype MentionData = MentionData(kind: MentionKind, modelId: Option<string>, displayName: string)

  /** One turn of a conversation; `modelId` is set on assistant turns. */
  datatype Message = Message(
    id: string,
    role: Role,
    content: string,
    modelId: Option<string>,
    timestamp: Timestamp,
    isEveryoneMention: Option<bool>,
    mentions: Option<seq<MentionData>>,
    targetedModelIds: Option<seq<string>>)

  datatype Chat = Chat(
    id: string,
    modelIds: seq<string>,
    messages: seq<Message>,
    createdAt: Timestamp,
    updatedAt: Timestamp)

  /**
   * What a JavaScript `catch` receives: an `Error` with its message, or
   * some other thrown value (for which the code substitutes a fixed text).
   */
  datatype Thrown = ErrorValue(message: string) | NonErrorValue

  datatype Provider = OpenRouter | OpenAI | Anthropic | Google | XAI

  datatype Pricing = Pricing(prompt: string, completion: string, image: Option<string>, request: Option<string>)

  datatype Architecture = Architecture(modality: string, tokenizer: string, instructType: Option<string>)

  datatype TopProvider = TopProvider(maxCompletionTokens: Option<int>, isModerated: Option<bool>)

  /**
   * A catalogue entry, with every field the catalogue normalisation writes.
   * The fallback table leaves the OpenRouter-only fields absent and
   * `isFree` unset, which behaves as false everywhere it is read.
   */
  datatype Model = Model(
    id: string,
    displayName: string,
    name: string,
    description: Option<string>,
    pricing: Option<Pricing>,
    contextLength: Option<int>,
    architecture: Option<Architecture>,
    topProvider: Option<TopProvider>,
    created: Option<int>,
    provider: Provider,
    logo: string,
    supportsImages: bool,
    supportsDebate: bool,
    isFree: bool)
}
