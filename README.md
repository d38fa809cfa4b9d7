# Group chat with several AI models — a Dafny model of its core rules

The application is a chat in which a user talks to several AI models at once.
A message goes to one model, or to all models in *debate mode* or when it
contains `@everyone`. Each model gets its own view of the history and its own
prompt, and a failure becomes a friendly message instead of an error. The
client keeps its state in a store of chats, the selected models, the models
now typing and the debate flag. The model catalogue is normalised from
OpenRouter's list with provider, logo, free flag and a sorted order. The
message box recognises `@` mentions while typing and extracts them on send.
Two pickers search the catalogue, and a fallback catalogue and a mock
responder stand in for the live service.

The project is made of ordinary Dafny modules, one per core source file, over
three shared ones:

| module | file | models |
|---|---|---|
| `Wrappers` | wrappers.dfy | `Option` |
| `Strings` | strings.dfy | `startsWith`, `includes`, ASCII `toLowerCase`/`toUpperCase`, `trim`, the last `/`-segment of an id |
| `Seqs` | seqs.dfy | duplicate-free lists and order-preserving subsequences |
| `Types` | types.dfy | `Message`, `MentionData`, `Chat` and the `Model` record |
| `Orchestrator` | orchestrator.dfy | lib/orchestrator.ts |
| `ChatStore` | chat_store.dfy | store/chat-store.ts, as the class `ChatStore.ChatStore` |
| `FetchModels` | fetch_models.dfy | lib/fetch-models.ts |
| `MentionInput` | mention_input.dfy | components/chat/mention-input.tsx; the component's state is the class `MentionInput.MentionBox` |
| `EnhancedModelSelector` | enhanced_model_selector.dfy | components/chat/enhanced-model-selector.tsx; the component's state is the class `EnhancedModelSelector.ModelSelector` |
| `ModelSearchSelect` | model_search_select.dfy | components/chat/model-search-select.tsx |
| `ModelsData` | models_data.dfy | data/models.ts |

The `Model` record has the fields that `transformModel` writes
(lib/fetch-models.ts:80-95): id, display name, name, description, pricing,
context length, architecture, top provider, creation time, provider, logo,
and the image, debate and free flags. types/model.ts declares only some of
these.

The code decides a few modelling choices:

- The inference call is a parameter. It returns either a reply or a thrown
  value, and the streaming form returns a list of fragments with completion
  or failure.
- Fresh ids (`nanoid()`, `Date.now()`) and the current time are parameters.
- `ChatStore.ChatStore.SendMessage` takes the outcome of its HTTP request as
  a parameter: a list of responses, a rejection or a thrown error.
- Each asynchronous branch is modelled separately and in order.

## Model

| member | source | states |
|---|---|---|
| Orchestrator.Responders | lib/orchestrator.ts:37-42 | In debate mode, or when the message contains "@everyone", every model id responds, in its order. Otherwise exactly the first one does. The responders are always drawn from the given ids. |
| Orchestrator.SpeakerName | lib/orchestrator.ts:108 | The label is never empty. It is the text after the last '/' of the id when that text is non-empty. When it is empty it is the whole id, or "AI" when there is no id or the id is empty. A label holds '/' only when it is the whole id. |
| Orchestrator.DebateContext | lib/orchestrator.ts:101-114 | The debate view has the history's length and order. Each turn is in its labelled form. |
| Orchestrator.BuildModelContext | lib/orchestrator.ts:96-124 | Debate mode gives every history turn, in order and in labelled form. Regular mode gives the filtered context. |
| Orchestrator.DebateContextIgnoresViewer | lib/orchestrator.ts:101-114 | In debate mode every model sees the same context. |
| Orchestrator.DebateContextTurns | lib/orchestrator.ts:101-114 | In debate mode a user turn passes through unchanged. An assistant turn becomes "[name]: content". |
| Orchestrator.RegularContextAppend | lib/orchestrator.ts:117-122 | The regular context of a concatenated history is the concatenation of the two contexts, so each turn is judged on its own. |
| Orchestrator.RegularContextSingle | lib/orchestrator.ts:117-122 | A single turn is kept, with its content unchanged, exactly when it is the user's or the viewing model's own. |
| Orchestrator.RegularContextIsSubsequence | lib/orchestrator.ts:117-122 | The regular context is an order-preserving subsequence of the history's turns. It is no longer than the history. |
| Orchestrator.RegularContextKeepsAll | lib/orchestrator.ts:117-122 | When every turn qualifies, the regular context is the whole history. |
| Orchestrator.SystemPromptIdentifiesMode | lib/orchestrator.ts:130-157 | The debate prompt and the regular prompt differ. The system prompt is the same for two calls exactly when the mode is. |
| Orchestrator.AssemblePrompt | lib/orchestrator.ts:52-60 | The prompt has the system prompt first, then the context unchanged, then the user's message last. Its length is that of the context plus 2. |
| Orchestrator.FriendlyErrorMessage | lib/orchestrator.ts:71-79 | The text always begins "⚠️ <short name> is currently unavailable.". A "Provider returned error" gives the provider hint, even when "API key" also occurs. Otherwise "API key" gives the key hint. Any other error is quoted in parentheses. |
| Orchestrator.BranchResponse | lib/orchestrator.ts:62-84 | Each entry is attributed to its model. A reply is passed on as it is. A thrown value becomes the friendly message built from its error text. |
| Orchestrator.OrchestrateResponses | lib/orchestrator.ts:45-89 | There is one response per responder, in responder order. Each is that responder's branch result on its own prompt. |
| Orchestrator.OrchestrateResponsesShape | lib/orchestrator.ts:45-89 | In debate mode or on "@everyone" there is one response per model id, in order. Otherwise there is a single response, from the first model. |
| Orchestrator.BranchEventsWellFormed | lib/orchestrator.ts:192-236 | A branch emits exactly one start first, then only chunks, then exactly one terminal event, all for its own model. A done event carries the concatenation of the chunks before it. |
| Orchestrator.StreamSuccessEvents | lib/orchestrator.ts:196-219 | A completed stream of k fragments yields k + 2 events. The last is done with the concatenated text, and no earlier event is terminal. |
| Orchestrator.StreamFailureEvents | lib/orchestrator.ts:196-236 | A stream that fails after k fragments yields start, k chunks and one error with the friendly text. It never yields a done. |
| Orchestrator.RelayChunks | lib/orchestrator.ts:192-216 | The loop emits a start event and then one chunk event per fragment, in arrival order. The text it accumulates is the concatenation of the fragments. |
| Orchestrator.StreamBranch | lib/orchestrator.ts:192-236 | One responder's events are the branch sequence of the stream of its own prompt, and they are well formed. |
| Orchestrator.StreamEach | lib/orchestrator.ts:192-236 | Starting every responder's branch gives one well-formed branch per responder, in responder order, each the branch sequence of that responder's own stream. |
| Orchestrator.OrchestrateStreamingResponses | lib/orchestrator.ts:174-239 | There is one event branch per responder, in order. Each branch depends only on that model's own stream and is well formed, so one model's failure leaves the other branches unchanged. |
| ChatStore.WithAdded | store/chat-store.ts:62-68 | After adding, the id is present and nothing else is new. An id already present leaves the list as it was. A new id is appended at the end. |
| ChatStore.WithAddedKeepsDistinct | store/chat-store.ts:62-68 | Adding keeps a duplicate-free list duplicate-free. |
| ChatStore.WithAddedIdempotent | store/chat-store.ts:62-68 | Adding the same id twice is the same as adding it once. |
| ChatStore.Without | store/chat-store.ts:71-75 | Removing keeps exactly the elements that differ from the id. |
| ChatStore.WithoutIsSubsequence | store/chat-store.ts:71-75 | Removing keeps the other ids in their relative order. |
| ChatStore.WithoutAbsent | store/chat-store.ts:71-75 | Removing an absent id changes nothing. |
| ChatStore.WithoutAppend | store/chat-store.ts:71-75 | Removing works element by element over a concatenation. |
| ChatStore.WithoutUndoesWithAdded | store/chat-store.ts:62-75 | Removing an id just added to a list that lacked it gives back the original list. |
| ChatStore.WithoutKeepsDistinct | store/chat-store.ts:71-75 | Removing keeps a duplicate-free list duplicate-free. |
| ChatStore.WithoutAllMembers | store/chat-store.ts:148-162 | Removing several ids in turn keeps exactly the elements outside them. |
| ChatStore.AppendMessage | store/chat-store.ts:182-198 | The message is appended at the end of the named chat, whose update time becomes the given time. Every other chat is untouched, and an unknown chat id changes nothing. |
| ChatStore.HistoryOf | store/chat-store.ts:132-136 | The request history has one entry per message, carrying its role, content and model id. |
| ChatStore.UserTurn | store/chat-store.ts:98-107 | The user turn says whether it is an everyone mention exactly when the content contains "@everyone". |
| ChatStore.ReplyTurns | store/chat-store.ts:148-162 | Each response becomes one assistant turn, in order, attributed to the response's model. |
| ChatStore.ChatStore.constructor | store/chat-store.ts:28-34 | The store starts with no chats, no active chat, no selection, debate off and no typing models. |
| ChatStore.ChatStore.CreateChat | store/chat-store.ts:37-54 | A chat with the given models and no messages is added under the fresh id and made active. Existing chats and every other field are preserved. |
| ChatStore.ChatStore.SetActiveChatId | store/chat-store.ts:57-59 | Only the active chat changes. |
| ChatStore.ChatStore.AddSelectedModel | store/chat-store.ts:62-68 | The selection gains the id without duplicates, and nothing else changes. |
| ChatStore.ChatStore.RemoveSelectedModel | store/chat-store.ts:71-75 | Every occurrence of the id leaves the selection, and nothing else changes. |
| ChatStore.ChatStore.ClearSelectedModels | store/chat-store.ts:78-80 | The selection becomes empty, and nothing else changes. |
| ChatStore.ChatStore.ToggleDebateMode | store/chat-store.ts:83-85 | The debate flag is negated, and nothing else changes. |
| ChatStore.ChatStore.ToggleTwice | store/chat-store.ts:83-85 | Toggling twice restores the whole state. |
| ChatStore.ChatStore.SetDebateMode | store/chat-store.ts:88-90 | The debate flag becomes the given value, and nothing else changes. |
| ChatStore.ChatStore.AddMessage | store/chat-store.ts:182-198 | The chats are updated as the append rule says, and nothing else changes. |
| ChatStore.ChatStore.SetTypingModels | store/chat-store.ts:201-203 | The typing list is replaced. |
| ChatStore.ChatStore.AddTypingModel | store/chat-store.ts:205-211 | The typing list gains the id without duplicates. |
| ChatStore.ChatStore.RemoveTypingModel | store/chat-store.ts:213-217 | Every occurrence of the id leaves the typing list. |
| ChatStore.ChatStore.DeliverResponses | store/chat-store.ts:148-162 | Each response, in order, clears its model's typing mark and is appended as an assistant turn. The chat keeps its creation time, and its update time becomes the delivery time once a turn is appended. The other chats are unchanged. |
| ChatStore.ChatStore.SendMessage | store/chat-store.ts:93-179 | An unknown chat changes nothing and sends nothing. Otherwise the request carries the history from before the new user turn, and the user turn is appended. The chat keeps its creation time and is stamped with the update time. The responders are marked as typing by the same rule the orchestrator uses. Delivered responses follow as assistant turns. A failure clears typing and appends one "Error: …" turn attributed to the chat's first model. |
| FetchModels.ProviderFromId | lib/fetch-models.ts:47-53 | "openai/", "anthropic/" and "google/" map to those providers, and "x-ai/" and "xai/" both map to xai. Each holds in both directions, and every other id maps to openrouter. |
| FetchModels.FirstLogo | lib/fetch-models.ts:56-63 | The scan returns the logo of the first entry whose prefix the id starts with, or the default logo when none matches. |
| FetchModels.LogoKeysPrefixFree | lib/fetch-models.ts:31-44 | No key of the logo map is a prefix of another. |
| FetchModels.LogoOfMatchingPrefix | lib/fetch-models.ts:31-63 | An id that starts with a key gets that key's logo, and it starts with no other key, so the map's order never matters. |
| FetchModels.LogoPathUnderModels | lib/fetch-models.ts:31-63 | Every logo path lies under "/models/". |
| FetchModels.GetLogoPath | lib/fetch-models.ts:56-63 | The loop with its early return computes the prefix-lookup logo. |
| FetchModels.ZeroPointZeroIsNotFree | lib/fetch-models.ts:66-71 | The price test compares strings, so "0.0" prices do not make a model free. |
| FetchModels.FreeByName | lib/fetch-models.ts:66-71 | A name holding "free" in any letter case makes the model free. |
| FetchModels.DisplayName | lib/fetch-models.ts:75-78 | The display name starts with the name. It gains " (free)" exactly when the model is free and the name lacks "(free)". |
| FetchModels.DisplayNameMarksFree | lib/fetch-models.ts:75-78 | The display name contains "(free)" exactly when the model is free or the name already had it. |
| FetchModels.DisplayNameIdempotent | lib/fetch-models.ts:75-78 | Applying the suffix rule twice is the same as applying it once. |
| FetchModels.TransformModel | lib/fetch-models.ts:80-95 | The id, name, description and OpenRouter data are kept. The display name follows the suffix rule. Provider and logo come from the id. Images are supported exactly when the modality contains "image". Debate is always supported. |
| FetchModels.StrLeqTotal | lib/fetch-models.ts:121 | The name order relates any two names. |
| FetchModels.StrLeqAntisymmetric | lib/fetch-models.ts:121 | Two names that precede each other are equal. |
| FetchModels.StrLeqTransitive | lib/fetch-models.ts:121 | The name order is transitive. |
| FetchModels.ModelLeqTotal | lib/fetch-models.ts:118-122 | The comparator relates any two models. |
| FetchModels.ModelLeqTransitive | lib/fetch-models.ts:118-122 | The comparator is transitive. |
| FetchModels.SortedMeansFreeFirst | lib/fetch-models.ts:117-122 | In a sorted list every free model precedes every non-free one, and each group is ordered by display name. |
| FetchModels.InsertLeft | lib/fetch-models.ts:118-122 | One insertion step sorts the prefix one element further, leaves the rest alone and permutes the array. |
| FetchModels.SortModels | lib/fetch-models.ts:118-122 | The in-place sort leaves the array sorted by the comparator and a permutation of what it was. |
| FetchModels.TransformAll | lib/fetch-models.ts:115 | Each fetched entry is transformed, in order. |
| FetchModels.NormaliseCatalogue | lib/fetch-models.ts:114-124 | The catalogue has the input's length, is a permutation of the transformed input, and is sorted free-first and by name. |
| MentionInput.AvailableModels | components/chat/mention-input.tsx:50-52 | The models are restricted to the chat's ids when there are any, and all models otherwise. |
| MentionInput.AvailableModelsIsSubsequence | components/chat/mention-input.tsx:50-52 | The restriction keeps the order of all models. |
| MentionInput.ModelOptions | components/chat/mention-input.tsx:64-73 | The model options are exactly the available models whose lowercased display name, name or id contains the query. |
| MentionInput.ModelOptionsInOrder | components/chat/mention-input.tsx:64-73 | The offered options follow the order of the available models: they form a subsequence of the options for every available model, in order. |
| MentionInput.FilteredOptions | components/chat/mention-input.tsx:55-76 | The "everyone" option comes first exactly when the lowercased query occurs in "everyone", and the model options follow. |
| MentionInput.EmptyQueryOffersMost | components/chat/mention-input.tsx:55-76 | The empty query offers "everyone" and every available model, and no query offers more. |
| MentionInput.EmptyQueryOffersAll | components/chat/mention-input.tsx:64-73 | The empty query offers every available model in order. |
| MentionInput.GetFilteredOptions | components/chat/mention-input.tsx:55-76 | The loop that pushes options builds exactly the option list. |
| MentionInput.TriggerStart | components/chat/mention-input.tsx:89 | A trigger found is an '@' followed only by letters, digits, '-' and '_' up to the end of the text. When none is found, no position is such an '@'. |
| MentionInput.TriggerUnique | components/chat/mention-input.tsx:89 | There is at most one trigger position. |
| MentionInput.TriggerQuery | components/chat/mention-input.tsx:89-93 | The query after a trigger consists only of query characters. When the cursor lies within the text, the trigger position computed back from the cursor is the '@' itself, and the query is the text between it and the cursor. |
| MentionInput.DetectTrigger | components/chat/mention-input.tsx:88-109 | A trigger is found exactly when the text before the cursor ends with one. It is then at that '@', and the query is the characters between it and the cursor. Without a trigger the query is "". |
| MentionInput.SpliceShape | components/chat/mention-input.tsx:116-121 | The new text keeps the text before '@' verbatim, then has "@" + name. Then comes one space, unless the rest already starts with one, and then the text after the query, verbatim. |
| MentionInput.RecordedMention | components/chat/mention-input.tsx:123-130 | The mention starts at the trigger and spans 1 + the name's length. It carries the option's kind, name and model id. |
| MentionInput.ArrowsStayInRange | components/chat/mention-input.tsx:153-156 | A selection index that starts in range stays within the option list under both arrows. |
| MentionInput.LazyEnd | components/chat/mention-input.tsx:173 | The lazy name run ends at the first position followed by white space or the end of the text. Every character before it is a name character. |
| MentionInput.MatchAt | components/chat/mention-input.tsx:173 | A match starts at an '@', and its name is the text from after the '@' to the match's end. |
| MentionInput.CapturedNameShape | components/chat/mention-input.tsx:173 | A captured name is non-empty and holds white space at most in its first character. |
| MentionInput.NextMatch | components/chat/mention-input.tsx:177 | A match `exec` finds starts at or after the search position and is a match of the pattern there. |
| MentionInput.NextMatchIsLeftmost | components/chat/mention-input.tsx:177 | `exec` finds the leftmost match at or after the search position, and none exists when it finds nothing. |
| MentionInput.AllMatches | components/chat/mention-input.tsx:177-192 | The matches are real matches, in text order and non-overlapping. |
| MentionInput.FindModel | components/chat/mention-input.tsx:184-187 | A model found is the first of the models whose display name or name equals the captured name, case-insensitively. No earlier model matches. When none is found, no model matches. |
| MentionInput.ClassifyAllFrom | components/chat/mention-input.tsx:180-191 | Every extracted mention is the contribution of one of the matches. |
| MentionInput.ClassifyAllSound | components/chat/mention-input.tsx:180-191 | Every extracted model mention names an available model that matches some captured name. |
| MentionInput.EveryoneMentionCarriesNoModel | components/chat/mention-input.tsx:180-181 | An everyone mention carries no model id. |
| MentionInput.SpacedNameNeverMentioned | components/chat/mention-input.tsx:173-192 | A model whose display name and name both hold a space after their first character can never be mentioned, "GPT-4 Turbo" for one. |
| MentionInput.ExtractMentionsFromText | components/chat/mention-input.tsx:172-195 | The `exec` loop yields exactly the mentions of the text, in text order. |
| MentionInput.MentionBox.constructor | components/chat/mention-input.tsx:31-39 | The box starts empty, with no mentions, the drop-down closed, no trigger, an empty query and the first option selected. |
| MentionInput.MentionBox.ClearingQueryKeepsSelection | components/chat/mention-input.tsx:106-108 | Clearing the query never shrinks the option list, so the selection stays admissible. |
| MentionInput.MentionBox.HandleInputChange | components/chat/mention-input.tsx:81-110 | The text is stored. A trigger before the cursor opens the drop-down on its query with the first option selected. Otherwise the drop-down closes and the trigger and query are cleared. |
| MentionInput.MentionBox.SelectMention | components/chat/mention-input.tsx:113-146 | Without a trigger nothing changes. Otherwise the spliced text replaces the input and the recorded mention is appended. The drop-down closes and the trigger and query are cleared. |
| MentionInput.MentionBox.HandleKeyDown | components/chat/mention-input.tsx:149-169 | The whole new state on every path. With the drop-down open, the arrows move and clamp the selection and change nothing else. Enter and Tab on an option in range, with a trigger, splice in the option, record the mention, close the drop-down and clear the trigger and query. Out of range or without a trigger they change nothing. Escape only closes the drop-down, and other keys change nothing. With it closed, Enter without Shift submits a non-blank, enabled input and empties the text and the mentions. Every other case sends nothing and changes nothing. |
| Strings.TrimEmptyIff | components/chat/mention-input.tsx:199 | `trim()` yields the empty string exactly when every character of the input is white space, so blank input is never sent. |
| Strings.TrimEndIsPrefix | components/chat/mention-input.tsx:201 | Dropping trailing white space keeps a prefix of the text. |
| Strings.TrimStartIsSuffix | components/chat/mention-input.tsx:201 | Dropping leading white space keeps a suffix of the text. |
| MentionInput.MentionBox.HandleSubmit | components/chat/mention-input.tsx:197-205 | The box sends only a non-blank, enabled input. It sends the trimmed text with the mentions of the untrimmed text, then empties the text and the mentions. Otherwise nothing changes. |
| EnhancedModelSelector.Split | components/chat/enhanced-model-selector.tsx:24 | The pieces hold no separator, and the interior pieces are non-empty. The first piece is empty exactly when the name is empty or starts with a separator, and likewise the last piece at the end. |
| EnhancedModelSelector.GetInitialsAsWritten | components/chat/enhanced-model-selector.tsx:23-29 | With fewer than two pieces, the name's first two characters, uppercased. |
| EnhancedModelSelector.InitialsOfTwoPieces | components/chat/enhanced-model-selector.tsx:23-29 | With two or more pieces, rendering throws exactly when the first two pieces are both empty. Two non-empty pieces give their first characters, uppercased. The one-empty-piece case is shown by TrailingSeparatorShowsUndefined. |
| EnhancedModelSelector.TrailingSeparatorShowsUndefined | components/chat/enhanced-model-selector.tsx:23-29 | "G " renders as "GUNDEFINED". |
| EnhancedModelSelector.LoneSeparatorThrows | components/chat/enhanced-model-selector.tsx:23-29 | "/" throws a TypeError. |
| EnhancedModelSelector.GetInitials | components/chat/enhanced-model-selector.tsx:23-29 | The initials have length at most 2. They are the uppercased first characters of the first two words when there are two words, and the first two characters uppercased otherwise. |
| EnhancedModelSelector.InitialsAgreeWhenTrimmed | components/chat/enhanced-model-selector.tsx:23-29 | For a name that neither starts nor ends with a separator the corrected rule renders what the code renders. |
| EnhancedModelSelector.RedundantHints | components/chat/enhanced-model-selector.tsx:32-53 | Dropping "meta-llama/", "mistralai/" and the second "deepseek" leaves `hasLogo` unchanged: each is implied by a shorter listed hint. |
| EnhancedModelSelector.NoHintWithoutADGO | components/chat/enhanced-model-selector.tsx:32-53 | Every hint holds one of the letters a, d, g, o, so an id with none of them is drawn with initials. |
| EnhancedModelSelector.NoHintWithoutGILSX | components/chat/enhanced-model-selector.tsx:32-53 | Every hint holds one of the letters g, i, l, s, x, so an id with none of them is drawn with initials. |
| EnhancedModelSelector.LogoMapGap | components/chat/enhanced-model-selector.tsx:32-53 | "cohere/" and "perplexity/" ids get their own logo paths from the catalogue. Yet `hasLogo("cohere/command-r")` and `hasLogo("perplexity/r1-1776")` are false, so those models are drawn with initials. |
| EnhancedModelSelector.PickerFiltered | components/chat/enhanced-model-selector.tsx:86-91 | A model is kept exactly when the lowercased search occurs in its lowercased display name, its id, or its description if it has one. |
| EnhancedModelSelector.PickerFilteredIsSubsequence | components/chat/enhanced-model-selector.tsx:86-91 | The filter keeps the models' order. |
| EnhancedModelSelector.EmptySearchKeepsAll | components/chat/enhanced-model-selector.tsx:86-91 | The empty search keeps every model. |
| EnhancedModelSelector.HoverReconcile | components/chat/enhanced-model-selector.tsx:94-104 | With no filtered models the hovered model stays as it was. With some, the hovered model is always a listed one: it stays when still listed, and otherwise the first filtered model takes its place. |
| EnhancedModelSelector.HoverReconcileIdempotent | components/chat/enhanced-model-selector.tsx:94-104 | Reconciling twice is the same as reconciling once, so the effect settles after one update. |
| EnhancedModelSelector.ModelSelector.constructor | components/chat/enhanced-model-selector.tsx:56-60 | The picker starts loading, with an empty search and no models, error or hovered model. |
| EnhancedModelSelector.ModelSelector.FinishLoad | components/chat/enhanced-model-selector.tsx:64-83 | A successful load stores the models, clears the error and hovers the first model if there is one. A failed load keeps the models and sets the failure message. Loading ends either way. |
| EnhancedModelSelector.ModelSelector.SetSearch | components/chat/enhanced-model-selector.tsx:126 | Only the search text changes. |
| EnhancedModelSelector.ModelSelector.ReconcileHover | components/chat/enhanced-model-selector.tsx:94-104 | The effect applies the hover reconciliation to the filtered list, and nothing else changes. |
| EnhancedModelSelector.ModelSelector.MouseEnter | components/chat/enhanced-model-selector.tsx:165 | The entered model becomes the hovered one. |
| EnhancedModelSelector.ModelSelector.MouseLeave | components/chat/enhanced-model-selector.tsx:166 | The hovered model is cleared. |
| EnhancedModelSelector.ModelSelector.ClickModel | components/chat/enhanced-model-selector.tsx:147-164 | A click on a model not yet selected appends it to the store's selection, and a click on a selected model changes nothing. No other store field changes. |
| ModelSearchSelect.SearchFilter | components/chat/model-search-select.tsx:19-24 | A model is kept exactly when the lowercased search occurs in its lowercased display name or id. |
| ModelSearchSelect.SearchResults | components/chat/model-search-select.tsx:15-25 | An empty search shows nothing. A non-empty one shows exactly the matching fallback catalogue entries, and only catalogue entries. |
| ModelSearchSelect.SearchFilterIsSubsequence | components/chat/model-search-select.tsx:19-24 | The filter keeps the models' order. |
| ModelSearchSelect.SearchResultsInCatalogueOrder | components/chat/model-search-select.tsx:15-25 | The results are an order-preserving subsequence of the fallback catalogue. |
| ModelSearchSelect.NarrowerThanCataloguePicker | components/chat/model-search-select.tsx:19-24 | Everything this search keeps, the catalogue picker keeps too. The catalogue picker keeps more only through a description match. |
| ModelSearchSelect.DescriptionOnlyWitness | components/chat/model-search-select.tsx:19-24 | "advanced" finds Gemini Pro in the catalogue picker, through its description, but not here. |
| ModelSearchSelect.ClickModel | components/chat/model-search-select.tsx:52-62 | A click on a model not yet selected appends it to the store's selection, and a click on a selected model changes nothing. |
| ModelsData.IdsDistinct | data/models.ts:4-112 | The fallback ids are pairwise distinct. |
| ModelsData.EntriesUniform | data/models.ts:4-112 | Every fallback entry has its name equal to its display name, supports debate, is not free and has a description. |
| ModelsData.TableAgreesWithDerivation | data/models.ts:4-112 | Every entry's provider and logo are what the catalogue normalisation derives from its id. |
| ModelsData.GenerateMockResponse | data/models.ts:115-130 | An id that is a key gets its canned reply. Any other id gets "<id> mock response". |
| ModelsData.MockQuotesMessage | data/models.ts:117 | The "gpt-4o" reply quotes the user's message. |
| ModelsData.MockKeysHaveNoSlash | data/models.ts:116-127 | No key of the mock table contains '/'. |
| ModelsData.EntryIds | data/models.ts:4-112 | Each entry's id is its namespace, '/', and its short id. |
| ModelsData.ShortIdsAreKeys | data/models.ts:4-127 | The last '/'-segment of every fallback id is a key of the mock table. |
| ModelsData.FullIdsAreNotKeys | data/models.ts:4-127 | No full fallback id is a key of the mock table. |
| ModelsData.FullIdsFallBack | data/models.ts:4-130 | So the mock reply for every fallback id, as the catalogue spells it, is the generic fallback. |

## Left out

- Orchestrator.Responders: with an empty id list, in single-responder mode, the code yields `[undefined]` and the model yields no responder.
- Orchestrator.OrchestrateResponses and Orchestrator.OrchestrateStreamingResponses require a responder to exist. On the `[undefined]` responder the code throws a TypeError inside its own error handler (`undefined.split`), which the model does not represent.
- The inference endpoint lib/openrouter.ts is not part of this model. It is a stub, and the model replaces it with a call parameter.
- The HTTP routes under app/api and their persistence are not part of this model.
- `fetchOpenRouterModels` and `fetchModelsClient` (lib/fetch-models.ts:99-138) are network fetches. Only the mapping and the sort they perform are modelled; the JSON input is given data.
- The request in `sendMessage` (store/chat-store.ts:122-143) is a network fetch. Its outcome is a parameter of `ChatStore.ChatStore.SendMessage`.
- The loading fetch of the catalogue picker (components/chat/enhanced-model-selector.tsx:68) and of the mention box (components/chat/mention-input.tsx:45-47) are network fetches. For the picker the fetched list, or a failure, is the argument of `FinishLoad`. For the mention box it is the constructor's model list.
- Concurrency: the branches under `Promise.all` run one after another here, in responder order. The `setTimeout` staggering of appended responses and the focus restore after a mention are not modelled. Properties are stated per branch and per appended message.
- `nanoid()`, `Date.now()` and `new Date()` become parameters: `mint`, `stamp` and `now`. Timestamps are opaque values.
- FetchModels.StrLeq: `localeCompare` is replaced by lexicographic order on code points. Locale collation rules are not modelled, and the model proves only that the order is total and transitive.
- `toLowerCase`, `toUpperCase` and `trim`: letter case is folded for ASCII letters only. White space is the JavaScript set of white-space characters.
- MentionInput.DetectTrigger, MentionInput.Splice, MentionInput.RecordedMention, EnhancedModelSelector.GetInitialsAsWritten and EnhancedModelSelector.GetInitials count characters where JavaScript counts UTF-16 code units. A Dafny `string` is a sequence of Unicode scalar values. Text with characters outside the Basic Multilingual Plane, such as an emoji, therefore has different lengths, cursor positions, trigger indices, slices and mention spans here. There `word[0]` or `substring(0, 2)` can take half of a surrogate pair, while the model takes the whole character.
- FetchModels.SortModels: the contract leaves the order of ties open. It does not state that models comparing equal on free status and display name keep their input order, as the stable `Array.prototype.sort` guarantees.
- `stringToColor` is left out because it mixes 32-bit shifts and floating point. `formatPrice` is left out because it uses floating point.
- The rendering parts are not modelled: the JSX, the drop-down position, the focus handling and the click-outside handler.
- The other components only display data and are not modelled: message bubble, sidebar, chat window, debug and participation panels, and so on.
- The chat provider component is not part of this model. It calls a store action that the store does not declare.
- ModelsData.GenerateMockResponse: the code looks ids up in a plain object, so inherited keys such as "toString" would answer too. The model treats the table as a plain map.
- MentionInput.MentionBox.HandleSubmit: like the code, it leaves a stale trigger, query and open drop-down in place after the text is cleared. No property is claimed about the state that follows.

## Findings

| source | as written | input that shows it | evidently intended | confidence | as-written member | corrected member |
|---|---|---|---|---|---|---|
| components/chat/enhanced-model-selector.tsx:23-29 | The name is split on separator runs and the first characters of the first two pieces are joined. A leading or trailing separator leaves an empty piece, whose first character is `undefined`. | "G " renders "GUNDEFINED". "/" throws a TypeError, because `undefined + undefined` is `NaN`, which has no `toUpperCase`. | Take the initials of the first two non-empty words. | not executed | EnhancedModelSelector.GetInitialsAsWritten | EnhancedModelSelector.GetInitials |
