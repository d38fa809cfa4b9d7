/**
 * The search-as-you-type picker over the fallback catalogue: nothing is
 * listed until something is typed, and then the models whose display name
 * or id contains the search text, ignoring case.
 */
module ModelSearchSelect {
  import opened Strings
  import opened Types
  import Seqs
  import ModelsData
  import EnhancedModelSelector
  import ChatStore

  /** The lowercased search occurs in the lowercased display name or id; the description is not searched. */
  predicate SearchMatches(m: Model, search: string)
  {
    Contains(Lower(m.displayName), Lower(search)) || Contains(Lower(m.id), Lower(search))
  }

  function SearchFilter(models: seq<Model>, search: string): (r: seq<Model>)
    ensures forall m :: m in r <==> m in models && SearchMatches(m, search)
    ensures |r| <= |models|
  {
    if |models| == 0 then []
    else if SearchMatches(models[0], search) then [models[0]] + SearchFilter(models[1..], search)
    else SearchFilter(models[1..], search)
  }

  /** The list on show for the text typed so far. */
  function SearchResults(search: string): (r: seq<Model>)
    ensures |search| == 0 ==> r == []
    ensures |search| > 0 ==> forall m :: m in r <==> m in ModelsData.AvailableModels && SearchMatches(m, search)
    ensures forall m :: m in r ==> m in ModelsData.AvailableModels
  {
    if |search| > 0 then SearchFilter(ModelsData.AvailableModels, search) else []
  }

  lemma {:induction false} SearchFilterIsSubsequence(models: seq<Model>, search: string)
    ensures Seqs.IsSubsequence(SearchFilter(models, search), models)
  {
    if |models| > 0 {
      SearchFilterIsSubsequence(models[1..], search);
      var rest := SearchFilter(models[1..], search);
      if SearchMatches(models[0], search) {
        assert ([models[0]] + rest)[1..] == rest;
      }
    }
  }

  /** The results keep the catalogue's order. */
  lemma SearchResultsInCatalogueOrder(search: string)
    ensures Seqs.IsSubsequence(SearchResults(search), ModelsData.AvailableModels)
  {
    if |search| > 0 {
      SearchFilterIsSubsequence(ModelsData.AvailableModels, search);
    }
  }

  /**
   * Against the catalogue picker's filter over the same models: every model
   * this search keeps is kept there too, and a model kept there is dropped
   * here only when the search text occurs in its description alone.
   */
  lemma NarrowerThanCataloguePicker(models: seq<Model>, search: string, m: Model)
    ensures m in SearchFilter(models, search) ==> m in EnhancedModelSelector.PickerFiltered(models, search)
    ensures m in EnhancedModelSelector.PickerFiltered(models, search) && m !in SearchFilter(models, search) ==>
      !SearchMatches(m, search) && m.description.Some? && Contains(Lower(m.description.value), Lower(search))
  {
  }

  /** "advanced" occurs only in the description of Gemini Pro: the catalogue picker lists it and this one does not. */
  lemma DescriptionOnlyWitness()
    ensures ModelsData.GeminiPro in EnhancedModelSelector.PickerFiltered([ModelsData.GeminiPro], "advanced")
    ensures ModelsData.GeminiPro !in SearchFilter([ModelsData.GeminiPro], "advanced")
  {
    assert Lower("advanced") == "advanced";
    GeminiProNameAndId();
    GeminiProDescription();
  }

  lemma GeminiProNameAndId()
    ensures !Contains(Lower(ModelsData.GeminiPro.displayName), "advanced")
    ensures !Contains(Lower(ModelsData.GeminiPro.id), "advanced")
  {
    var m := ModelsData.GeminiPro;
    assert m.displayName == "Gemini Pro";
    assert m.id == "google" + "/" + "gemini-pro";
    NameLacksV(m.displayName);
    IdLacksV(m.id);
    LowerLacks(m.displayName, 'v');
    NotContainsMissingChar(Lower(m.displayName), "advanced", 3);
    LowerLacks(m.id, 'v');
    NotContainsMissingChar(Lower(m.id), "advanced", 3);
  }

  lemma NameLacksV(name: string)
    requires name == "Gemini Pro"
    ensures 'v' !in name && 'V' !in name
  {
  }

  lemma IdLacksV(id: string)
    requires id == "google" + "/" + "gemini-pro"
    ensures 'v' !in id && 'V' !in id
  {
  }

  lemma GeminiProDescription()
    ensures ModelsData.GeminiPro.description.Some?
    ensures Contains(Lower(ModelsData.GeminiPro.description.value), "advanced")
  {
    var d := ModelsData.GeminiPro.description.value;
    assert d == "Google's advanced AI model";
    AdvancedAtNine(d);
  }

  lemma AdvancedAtNine(d: string)
    requires d == "Google's advanced AI model"
    ensures MatchesAt(Lower(d), "advanced", 9)
  {
    var w := "advanced";
    assert d[9..17] == w;
    forall k | 0 <= k < |w| ensures Lower(d)[9 + k] == w[k] {
      assert d[9 + k] == w[k];
    }
    assert Lower(d)[9..17] == w;
  }

  /** A click adds the model to the selection only when it is not already selected. */
  method ClickModel(m: Model, store: ChatStore.ChatStore)
    requires store.Valid()
    modifies store
    ensures store.Valid()
    ensures m.id in old(store.selectedModels) ==> store.selectedModels == old(store.selectedModels)
    ensures m.id !in old(store.selectedModels) ==> store.selectedModels == old(store.selectedModels) + [m.id]
    ensures store.chats == old(store.chats) && store.activeChatId == old(store.activeChatId)
    ensures store.debateMode == old(store.debateMode) && store.typingModels == old(store.typingModels)
  {
    if m.id !in store.selectedModels {
      store.AddSelectedModel(m.id);
    }
  }
}
