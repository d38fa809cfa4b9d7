/**
 * The fallback catalogue used when the live model list cannot be loaded,
 * and the canned replies of the mock responder.
 */
module ModelsData {
  import opened Wrappers
  import opened Strings
  import opened Types
  import FetchModels

  /**
   * A fallback entry with id "<namespace>/<short id>": no pricing or
   * OpenRouter metadata, never free, always debating.
   */
  function Entry(namespace: string, shortId: string, displayName: string, provider: Provider, logo: string,
                 supportsImages: bool, description: string): Model
  {
    Model(namespace + "/" + shortId, displayName, displayName, Some(description), None, None, None, None, None,
          provider, logo, supportsImages, true, false)
  }

  const GPT4o: Model := Entry("openai", "gpt-4o", "GPT-4o", OpenAI, "/models/gpt.png", true,
    "Most advanced GPT-4 model with vision capabilities")
  const GPT4Turbo: Model := Entry("openai", "gpt-4-turbo", "GPT-4 Turbo", OpenAI, "/models/gpt.png", true,
    "Faster GPT-4 model with improved performance")
  const GPT35Turbo: Model := Entry("openai", "gpt-3.5-turbo", "GPT-3.5 Turbo", OpenAI, "/models/gpt.png", false,
    "Fast and efficient model for most tasks")
  const Claude3Opus: Model := Entry("anthropic", "claude-3-opus", "Claude 3 Opus", Anthropic, "/models/claude.png", true,
    "Most capable Claude model for complex tasks")
  const Claude3Sonnet: Model := Entry("anthropic", "claude-3-sonnet", "Claude 3 Sonnet", Anthropic, "/models/claude.png", true,
    "Balanced Claude model for everyday use")
  const Claude3Haiku: Model := Entry("anthropic", "claude-3-haiku", "Claude 3 Haiku", Anthropic, "/models/claude.png", true,
    "Fast Claude model for simple tasks")
  const GeminiPro: Model := Entry("google", "gemini-pro", "Gemini Pro", Google, "/models/gemini.png", true,
    "Google's advanced AI model")
  const Gemini15Pro: Model := Entry("google", "gemini-1.5-pro", "Gemini 1.5 Pro", Google, "/models/gemini.png", true,
    "Latest Gemini model with enhanced capabilities")
  const Grok2: Model := Entry("x-ai", "grok-2", "Grok 2", XAI, "/models/grok.png", false,
    "xAI's powerful language model")
  const GrokBeta: Model := Entry("x-ai", "grok-beta", "Grok Beta", XAI, "/models/grok.png", false,
    "Beta version of Grok with experimental features")

  const AvailableModels: seq<Model> := [
    GPT4o, GPT4Turbo, GPT35Turbo, Claude3Opus, Claude3Sonnet, Claude3Haiku,
    GeminiPro, Gemini15Pro, Grok2, GrokBeta]

  // ---------------------------------------------------------------------
  // Facts about the table

  /** No two entries share an id (the ids even differ in length). */
  lemma IdsDistinct()
    ensures forall i, j :: 0 <= i < j < |AvailableModels| ==> AvailableModels[i].id != AvailableModels[j].id
  {
    var lengths := [13, 18, 20, 23, 25, 24, 17, 21, 11, 14];
    forall i | 0 <= i < |AvailableModels| ensures |AvailableModels[i].id| == lengths[i] {
    }
  }

  /** Every entry is named by its display name, takes part in debates and is not free. */
  lemma EntriesUniform()
    ensures forall m :: m in AvailableModels ==> m.name == m.displayName && m.supportsDebate && !m.isFree
    ensures forall m :: m in AvailableModels ==> m.description.Some? && m.pricing.None?
  {
    forall i | 0 <= i < |AvailableModels|
      ensures AvailableModels[i].name == AvailableModels[i].displayName
      ensures AvailableModels[i].supportsDebate && !AvailableModels[i].isFree
      ensures AvailableModels[i].description.Some? && AvailableModels[i].pricing.None?
    {
    }
  }

  lemma StartsWithConcat(p: string, rest: string)
    ensures StartsWith(p + rest, p)
  {
    StartsWithIsPrefix(p + rest, p);
  }

  /**
   * The table's provider and logo are what the catalogue normalisation
   * would derive from the id.
   */
  lemma TableAgreesWithDerivation()
    ensures forall m :: m in AvailableModels ==>
      m.provider == FetchModels.ProviderFromId(m.id) && m.logo == FetchModels.LogoPath(m.id)
  {
    EntryIds();
    EntryGroups();
    forall i | 0 <= i < |AvailableModels|
      ensures AvailableModels[i].provider == FetchModels.ProviderFromId(AvailableModels[i].id)
      ensures AvailableModels[i].logo == FetchModels.LogoPath(AvailableModels[i].id)
    {
      Namespaced(Namespaces[i], ShortIds[i], Group(i));
    }
  }

  /** The logo-map entry an entry's namespace falls under. */
  function Group(i: int): nat
  {
    if i < 3 then 0 else if i < 6 then 1 else if i < 8 then 2 else 3
  }

  /** The providers of the first four logo-map entries. */
  const GroupProviders: seq<Provider> := [OpenAI, Anthropic, Google, XAI]

  /** Each entry's provider, logo and namespace are those of its group. */
  lemma EntryGroups()
    ensures forall i :: 0 <= i < |AvailableModels| ==>
      && AvailableModels[i].provider == GroupProviders[Group(i)]
      && AvailableModels[i].logo == FetchModels.LogoMap[Group(i)].1
      && Namespaces[i] + "/" == FetchModels.LogoMap[Group(i)].0
  {
  }

  /** An id under one of the first four logo-map prefixes gets that entry's provider and logo. */
  lemma Namespaced(namespace: string, shortId: string, k: nat)
    requires k < 4 && FetchModels.LogoMap[k].0 == namespace + "/"
    ensures FetchModels.ProviderFromId(namespace + "/" + shortId) == GroupProviders[k]
    ensures FetchModels.LogoPath(namespace + "/" + shortId) == FetchModels.LogoMap[k].1
  {
    var id := namespace + "/" + shortId;
    assert id == (namespace + "/") + shortId;
    StartsWithConcat(namespace + "/", shortId);
    FetchModels.LogoOfMatchingPrefix(id, k);
    FetchModels.LogoKeysPrefixFree();
    forall j | 0 <= j < 5 && j != k
      ensures !StartsWith(id, FetchModels.LogoMap[j].0)
    {
      if StartsWith(id, FetchModels.LogoMap[j].0) {
        FetchModels.PrefixesOfOneString(id, FetchModels.LogoMap[j].0, FetchModels.LogoMap[k].0);
      }
    }
  }

  // ---------------------------------------------------------------------
  // The mock responder

  /** The canned reply of "gpt-4o", which quotes the user's message. */
  function QuotingReply(userMessage: string): string
  {
    "GPT-4o here. " + "I understand you said: \"" + userMessage + "\". This is a mock response."
  }

  const Gpt4TurboReply: string := "GPT-4 Turbo " + "responding: I've analyzed your message and here's my mock insight."
  const Gpt35TurboReply: string := "GPT-3.5 here " + "with a quick mock response to your query."
  const Claude3OpusReply: string := "Claude 3 Opus " + "here. Let me provide a thoughtful mock response to your question."
  const Claude3SonnetReply: string := "Claude 3 Sonnet " + "responding: Here's my balanced mock perspective."
  const Claude3HaikuReply: string := "Claude 3 Haiku " + "here with a concise mock reply."
  const GeminiProReply: string := "Gemini Pro " + "here. I've processed your input and generated this mock response."
  const Gemini15ProReply: string := "Gemini 1.5 Pro " + "responding with advanced mock capabilities."
  const Grok2Reply: string := "Grok 2 " + "here. Let me give you a witty mock response."
  const GrokBetaReply: string := "Grok Beta " + "chiming in with an experimental mock answer."

  /** The canned replies, keyed by short model id. */
  function MockTable(userMessage: string): map<string, string>
  {
    map[
      "gpt-4o" := QuotingReply(userMessage),
      "gpt-4-turbo" := Gpt4TurboReply,
      "gpt-3.5-turbo" := Gpt35TurboReply,
      "claude-3-opus" := Claude3OpusReply,
      "claude-3-sonnet" := Claude3SonnetReply,
      "claude-3-haiku" := Claude3HaikuReply,
      "gemini-pro" := GeminiProReply,
      "gemini-1.5-pro" := Gemini15ProReply,
      "grok-2" := Grok2Reply,
      "grok-beta" := GrokBetaReply
    ]
  }

  /**
   * `generateMockResponse`: the table entry for the id, falling back (as `||`
   * does for an absent or empty entry) to "<id> mock response".
   */
  function GenerateMockResponse(modelId: string, userMessage: string): (r: string)
    ensures modelId in MockTable(userMessage) ==> r == MockTable(userMessage)[modelId]
    ensures modelId !in MockTable(userMessage) ==> r == modelId + " mock response"
  {
    var table := MockTable(userMessage);
    if modelId in table && table[modelId] != "" then table[modelId]
    else modelId + " mock response"
  }

  /** The reply to "gpt-4o" repeats the user's message. */
  lemma MockQuotesMessage(userMessage: string)
    ensures Contains(GenerateMockResponse("gpt-4o", userMessage), userMessage)
  {
    var head := "GPT-4o here. " + "I understand you said: \"";
    var r := QuotingReply(userMessage);
    assert r == head + userMessage + "\". This is a mock response.";
    assert MatchesAt(r, userMessage, |head|);
    assert r != "";
  }

  /** No key of the mock table contains '/'. */
  lemma MockKeysHaveNoSlash(userMessage: string)
    ensures forall k :: k in MockTable(userMessage) ==> '/' !in k
  {
    MockKeysAreShortIds(userMessage);
    ShortIdsHaveNoSlash();
  }

  /** The mock table is keyed by exactly the short ids. */
  lemma MockKeysAreShortIds(userMessage: string)
    ensures forall k :: k in MockTable(userMessage) ==> k in ShortIds
  {
  }

  lemma ShortIdsHaveNoSlash()
    ensures forall i :: 0 <= i < |ShortIds| ==> '/' !in ShortIds[i]
  {
  }

  /** The table's ids split at their '/': the namespaces and the short ids. */
  const Namespaces: seq<string> := [
    "openai", "openai", "openai", "anthropic", "anthropic", "anthropic", "google", "google", "x-ai", "x-ai"]

  const ShortIds: seq<string> := [
    "gpt-4o", "gpt-4-turbo", "gpt-3.5-turbo", "claude-3-opus", "claude-3-sonnet",
    "claude-3-haiku", "gemini-pro", "gemini-1.5-pro", "grok-2", "grok-beta"]

  lemma EntryIds()
    ensures |ShortIds| == |Namespaces| == |AvailableModels|
    ensures forall i :: 0 <= i < |AvailableModels| ==> AvailableModels[i].id == Namespaces[i] + "/" + ShortIds[i]
  {
  }

  lemma ShortIdsKeyTheTable(userMessage: string)
    ensures forall i :: 0 <= i < |ShortIds| ==> '/' !in ShortIds[i] && ShortIds[i] in MockTable(userMessage)
  {
    ShortIdsHaveNoSlash();
  }

  /** Each catalogue entry's last '/' segment has a canned reply. */
  lemma ShortIdsAreKeys(userMessage: string)
    ensures forall m :: m in AvailableModels ==> LastSegment(m.id) in MockTable(userMessage)
  {
    EntryIds();
    ShortIdsKeyTheTable(userMessage);
    forall i | 0 <= i < |AvailableModels| ensures LastSegment(AvailableModels[i].id) in MockTable(userMessage) {
      LastSegmentAfterSlash(Namespaces[i], ShortIds[i]);
    }
  }

  /** A full namespaced id is not a key of the mock table. */
  lemma FullIdsAreNotKeys(userMessage: string)
    ensures forall m :: m in AvailableModels ==> m.id !in MockTable(userMessage)
  {
    EntryIds();
    SplitIdsAreNotKeys(userMessage);
  }

  lemma SplitIdsAreNotKeys(userMessage: string)
    ensures forall i :: 0 <= i < |Namespaces| && i < |ShortIds| ==> Namespaces[i] + "/" + ShortIds[i] !in MockTable(userMessage)
  {
    MockKeysHaveNoSlash(userMessage);
    NamespacedIdsNotKeys(Namespaces, ShortIds, MockTable(userMessage));
  }

  /** Ids of the form "<namespace>/<short id>" are not keys of a table whose keys hold no '/'. */
  lemma NamespacedIdsNotKeys(namespaces: seq<string>, shortIds: seq<string>, table: map<string, string>)
    requires forall k :: k in table ==> '/' !in k
    ensures forall i :: 0 <= i < |namespaces| && i < |shortIds| ==> namespaces[i] + "/" + shortIds[i] !in table
  {
    forall i | 0 <= i < |namespaces| && i < |shortIds| ensures namespaces[i] + "/" + shortIds[i] !in table {
      NamespacedIdNotAKey(namespaces[i], shortIds[i], table);
    }
  }

  lemma NamespacedIdNotAKey(namespace: string, shortId: string, table: map<string, string>)
    requires forall k :: k in table ==> '/' !in k
    ensures namespace + "/" + shortId !in table
  {
    assert (namespace + "/" + shortId)[|namespace|] == '/';
  }

  /** So the mock responder falls back for every catalogue id as the catalogue spells it. */
  lemma FullIdsFallBack(userMessage: string)
    ensures forall m :: m in AvailableModels ==>
      GenerateMockResponse(m.id, userMessage) == m.id + " mock response"
  {
    FullIdsAreNotKeys(userMessage);
  }
}
