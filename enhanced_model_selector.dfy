/**
 * The catalogue picker: the avatar initials and logo test for each row, the
 * search filter over the loaded catalogue, the rule that keeps a hovered
 * model inside the filtered list, and the click that adds a model to the
 * selection.
 */
module EnhancedModelSelector {
  import opened Wrappers
  import opened Strings
  import opened Types
  import Seqs
  import FetchModels
  import ChatStore

  // ---------------------------------------------------------------------
  // Splitting a name into words

  /** The separators of `/[\s/:]+/`. */
  predicate IsSeparator(c: char)
  {
    IsSpace(c) || c == '/' || c == ':'
  }

  /** The first index at or after `i` holding a separator, or `|s|`. */
  function NextSeparator(s: string, i: nat): (j: nat)
    requires i <= |s|
    ensures i <= j <= |s|
    ensures forall k :: i <= k < j ==> !IsSeparator(s[k])
    ensures j < |s| ==> IsSeparator(s[j])
    decreases |s| - i
  {
    if i == |s| || IsSeparator(s[i]) then i else NextSeparator(s, i + 1)
  }

  /** The end of the run of separators starting at `i`. */
  function RunEnd(s: string, i: nat): (j: nat)
    requires i <= |s|
    ensures i <= j <= |s|
    ensures forall k :: i <= k < j ==> IsSeparator(s[k])
    ensures j < |s| ==> !IsSeparator(s[j])
    decreases |s| - i
  {
    if i == |s| || !IsSeparator(s[i]) then i else RunEnd(s, i + 1)
  }

  /**
   * `s.split(/[\s/:]+/)`: the pieces between maximal runs of separators.
   * A leading or trailing run leaves an empty piece at that end, and the
   * empty string splits into one empty piece.
   */
  function Split(s: string): (r: seq<string>)
    ensures |r| >= 1
    ensures forall p, k :: p in r && 0 <= k < |p| ==> !IsSeparator(p[k])
    ensures r[0] == "" <==> |s| == 0 || IsSeparator(s[0])
    ensures r[|r| - 1] == "" <==> |s| == 0 || IsSeparator(s[|s| - 1])
    ensures forall i :: 0 < i < |r| - 1 ==> r[i] != ""
    decreases |s|
  {
    var i := NextSeparator(s, 0);
    if i == |s| then [s]
    else
      var j := RunEnd(s, i);
      var rest := Split(s[j..]);
      assert j < |s| ==> s[j..][0] == s[j];
      assert j < |s| ==> s[j..][|s[j..]| - 1] == s[|s| - 1];
      [s[..i]] + rest
  }

  /** The pieces that are not empty, in order. */
  function NonEmpty(pieces: seq<string>): (r: seq<string>)
    ensures forall w :: w in r <==> w in pieces && w != ""
    ensures forall i :: 0 <= i < |r| ==> r[i] != ""
    ensures (forall i :: 0 <= i < |pieces| ==> pieces[i] != "") ==> r == pieces
  {
    if |pieces| == 0 then []
    else if pieces[0] == "" then NonEmpty(pieces[1..])
    else [pieces[0]] + NonEmpty(pieces[1..])
  }

  /** The words of a name: the non-empty pieces of the split. */
  function Words(name: string): seq<string>
  {
    NonEmpty(Split(name))
  }

  // ---------------------------------------------------------------------
  // Initials: the code as written, and as intended

  /** What rendering the initials produces: a text, or a thrown TypeError. */
  datatype Rendered = Text(value: string) | TypeErrorThrown

  /** `word[0]` in JavaScript: the first character, or `undefined` for the empty word. */
  function FirstChar(word: string): Option<char>
  {
    if |word| == 0 then None else Some(word[0])
  }

  /** A string concatenation operand: `undefined` prints as "undefined". */
  function OperandText(c: Option<char>): string
  {
    if c.Some? then [c.value] else "undefined"
  }

  /**
   * `getInitials` as written. The first characters of the first two pieces
   * are added; an empty piece contributes `undefined`, which turns into the
   * text "undefined", and two empty pieces add up to `NaN`, which has no
   * `toUpperCase`. One piece falls back to the first two characters.
   */
  function GetInitialsAsWritten(name: string): (r: Rendered)
    ensures |Split(name)| < 2 ==> r == Text(Upper(name[..Min(2, |name|)]))
  {
    var words := Split(name);
    if |words| >= 2 then
      var a, b := FirstChar(words[0]), FirstChar(words[1]);
      if a.None? && b.None? then TypeErrorThrown
      else Text(Upper(OperandText(a) + OperandText(b)))
    else Text(Upper(name[..Min(2, |name|)]))
  }

  /**
   * With two or more pieces, rendering throws exactly when the first two
   * are both empty, and two non-empty pieces give their first characters,
   * uppercased.
   */
  lemma InitialsOfTwoPieces(name: string)
    requires |Split(name)| >= 2
    ensures var words := Split(name);
      && (GetInitialsAsWritten(name) == TypeErrorThrown <==> words[0] == "" && words[1] == "")
      && (words[0] != "" && words[1] != "" ==>
            GetInitialsAsWritten(name) == Text([UpperChar(words[0][0]), UpperChar(words[1][0])]))
  {
    var words := Split(name);
    if words[0] != "" && words[1] != "" {
      assert OperandText(FirstChar(words[0])) + OperandText(FirstChar(words[1])) == [words[0][0], words[1][0]];
    }
  }

  function Min(a: int, b: int): int
  {
    if a <= b then a else b
  }

  /** A trailing space makes a second, empty piece: the avatar reads "GUNDEFINED". */
  lemma TrailingSeparatorShowsUndefined()
    ensures GetInitialsAsWritten("G ") == Text("GUNDEFINED")
  {
    SplitOfTrailingSpace();
    var t := OperandText(Some('G')) + OperandText(None);
    assert t == "Gundefined";
    assert Upper(t) == "GUNDEFINED";
  }

  lemma SplitOfTrailingSpace()
    ensures Split("G ") == ["G", ""]
  {
    var s := "G ";
    assert !IsSeparator(s[0]) && IsSeparator(s[1]);
    assert NextSeparator(s, 0) == 1;
    assert RunEnd(s, 1) == 2;
    assert Split(s[2..]) == [""];
    assert s[..1] == "G";
  }

  /** A name made only of a separator splits into two empty pieces, and rendering throws. */
  lemma LoneSeparatorThrows()
    ensures GetInitialsAsWritten("/") == TypeErrorThrown
  {
    var s := "/";
    assert NextSeparator(s, 0) == 0;
    assert RunEnd(s, 0) == 1;
    assert Split(s[1..]) == [""];
    assert Split(s) == ["", ""];
  }

  /**
   * The initials as evidently intended: the first characters of the first
   * two words, uppercased, or the name's first two characters when it has
   * fewer than two words. Never longer than two characters.
   */
  function GetInitials(name: string): (r: string)
    ensures |r| <= 2
    ensures |Words(name)| >= 2 ==> r == [UpperChar(Words(name)[0][0]), UpperChar(Words(name)[1][0])]
    ensures |Words(name)| < 2 ==> r == Upper(name[..Min(2, |name|)])
  {
    var words := Words(name);
    if |words| >= 2 then
      assert words[0] in words && words[1] in words;
      Upper([words[0][0], words[1][0]])
    else Upper(name[..Min(2, |name|)])
  }

  /** A name that does not start or end with a separator renders exactly as intended. */
  lemma InitialsAgreeWhenTrimmed(name: string)
    requires |name| > 0 && !IsSeparator(name[0]) && !IsSeparator(name[|name| - 1])
    ensures GetInitialsAsWritten(name) == Text(GetInitials(name))
  {
    var pieces := Split(name);
    assert forall i :: 0 <= i < |pieces| ==> pieces[i] != "" by {
      forall i | 0 <= i < |pieces| ensures pieces[i] != "" {
        if i == 0 {
        } else if i == |pieces| - 1 {
        } else {
        }
      }
    }
    assert Words(name) == pieces;
    if |pieces| >= 2 {
      assert pieces[0] in pieces && pieces[1] in pieces;
      assert OperandText(FirstChar(pieces[0])) + OperandText(FirstChar(pieces[1])) == [pieces[0][0], pieces[1][0]];
    }
  }

  // ---------------------------------------------------------------------
  // The logo test

  /** The id contains one of the listed substrings, tried in the order written. */
  predicate HasLogo(id: string)
  {
    || Contains(id, "openai/")
    || Contains(id, "anthropic/")
    || Contains(id, "google/")
    || Contains(id, "x-ai/")
    || Contains(id, "xai/")
    || Contains(id, "meta-llama/")
    || Contains(id, "mistralai/")
    || Contains(id, "allenai/")
    || Contains(id, "deepseek/")
    || Contains(id, "nvidia/")
    || Contains(id, "gpt")
    || Contains(id, "claude")
    || Contains(id, "gemini")
    || Contains(id, "grok")
    || Contains(id, "llama")
    || Contains(id, "mistral")
    || Contains(id, "olmo")
    || Contains(id, "deepseek")
  }

  /** The same test without the three hints that a shorter hint implies. */
  predicate HasLogoReduced(id: string)
  {
    || Contains(id, "openai/")
    || Contains(id, "anthropic/")
    || Contains(id, "google/")
    || Contains(id, "x-ai/")
    || Contains(id, "xai/")
    || Contains(id, "allenai/")
    || Contains(id, "nvidia/")
    || Contains(id, "gpt")
    || Contains(id, "claude")
    || Contains(id, "gemini")
    || Contains(id, "grok")
    || Contains(id, "llama")
    || Contains(id, "mistral")
    || Contains(id, "olmo")
    || Contains(id, "deepseek")
  }

  /**
   * Three hints are implied by shorter ones ("meta-llama/" by "llama",
   * "mistralai/" by "mistral", and "deepseek/" by its duplicate "deepseek"),
   * so dropping them leaves the test unchanged.
   */
  lemma RedundantHints(id: string)
    ensures HasLogo(id) <==> HasLogoReduced(id)
  {
    assert MatchesAt("meta-llama/", "llama", 5);
    assert MatchesAt("mistralai/", "mistral", 0);
    assert MatchesAt("deepseek/", "deepseek", 0);
    if Contains(id, "meta-llama/") {
      ContainsTransitive(id, "meta-llama/", "llama");
    }
    if Contains(id, "mistralai/") {
      ContainsTransitive(id, "mistralai/", "mistral");
    }
    if Contains(id, "deepseek/") {
      ContainsTransitive(id, "deepseek/", "deepseek");
    }
  }

  /**
   * The logo map knows "cohere/" and "perplexity/", but the logo test lists
   * neither: such ids get a real logo path and yet show initials, unless
   * they happen to contain another hint.
   */
  lemma LogoMapGap(id: string)
    ensures StartsWith(id, "cohere/") ==> FetchModels.LogoPath(id) == "/models/cohere.png"
    ensures StartsWith(id, "perplexity/") ==> FetchModels.LogoPath(id) == "/models/perplexity.png"
    ensures !HasLogo("cohere/command-r") && FetchModels.LogoPath("cohere/command-r") != FetchModels.DefaultLogo
    ensures !HasLogo("perplexity/r1-1776") && FetchModels.LogoPath("perplexity/r1-1776") != FetchModels.DefaultLogo
  {
    if StartsWith(id, "cohere/") {
      FetchModels.LogoOfMatchingPrefix(id, 10);
    }
    if StartsWith(id, "perplexity/") {
      FetchModels.LogoOfMatchingPrefix(id, 11);
    }
    CohereShowsInitials();
    PerplexityShowsInitials();
  }

  /** Every hint holds one of 'a', 'd', 'g' and 'o', so an id with none of them shows initials. */
  lemma NoHintWithoutADGO(id: string)
    requires 'a' !in id && 'd' !in id && 'g' !in id && 'o' !in id
    ensures !HasLogo(id)
  {
    NotContainsMissingChar(id, "openai/", 4);
    NotContainsMissingChar(id, "anthropic/", 0);
    NotContainsMissingChar(id, "google/", 0);
    NotContainsMissingChar(id, "x-ai/", 2);
    NotContainsMissingChar(id, "xai/", 1);
    NotContainsMissingChar(id, "meta-llama/", 3);
    NotContainsMissingChar(id, "mistralai/", 7);
    NotContainsMissingChar(id, "allenai/", 0);
    NotContainsMissingChar(id, "deepseek/", 0);
    NotContainsMissingChar(id, "nvidia/", 3);
    NotContainsMissingChar(id, "gpt", 0);
    NotContainsMissingChar(id, "claude", 2);
    NotContainsMissingChar(id, "gemini", 0);
    NotContainsMissingChar(id, "grok", 0);
    NotContainsMissingChar(id, "llama", 2);
    NotContainsMissingChar(id, "mistral", 5);
    NotContainsMissingChar(id, "olmo", 0);
    NotContainsMissingChar(id, "deepseek", 0);
  }

  /** Every hint holds one of 'g', 'i', 'l', 's' and 'x', so an id with none of them shows initials. */
  lemma NoHintWithoutGILSX(id: string)
    requires 'g' !in id && 'i' !in id && 'l' !in id && 's' !in id && 'x' !in id
    ensures !HasLogo(id)
  {
    NotContainsMissingChar(id, "openai/", 5);
    NotContainsMissingChar(id, "anthropic/", 7);
    NotContainsMissingChar(id, "google/", 0);
    NotContainsMissingChar(id, "x-ai/", 0);
    NotContainsMissingChar(id, "xai/", 0);
    NotContainsMissingChar(id, "meta-llama/", 5);
    NotContainsMissingChar(id, "mistralai/", 1);
    NotContainsMissingChar(id, "allenai/", 1);
    NotContainsMissingChar(id, "deepseek/", 4);
    NotContainsMissingChar(id, "nvidia/", 2);
    NotContainsMissingChar(id, "gpt", 0);
    NotContainsMissingChar(id, "claude", 1);
    NotContainsMissingChar(id, "gemini", 0);
    NotContainsMissingChar(id, "grok", 0);
    NotContainsMissingChar(id, "llama", 0);
    NotContainsMissingChar(id, "mistral", 1);
    NotContainsMissingChar(id, "olmo", 1);
    NotContainsMissingChar(id, "deepseek", 4);
  }

  lemma CohereLogo(id: string)
    requires id == "cohere/command-r"
    ensures FetchModels.LogoPath(id) == "/models/cohere.png"
  {
    assert id == "cohere/" + "command-r";
    StartsWithIsPrefix(id, "cohere/");
    FetchModels.LogoOfMatchingPrefix(id, 10);
  }

  /** "cohere/command-r" holds none of 'g', 'i', 'l', 's' and 'x'. */
  lemma CohereShowsInitials()
    ensures !HasLogo("cohere/command-r") && FetchModels.LogoPath("cohere/command-r") == "/models/cohere.png"
  {
    var id := "cohere/command-r";
    CohereLogo(id);
    CohereLacksGILSX(id);
    NoHintWithoutGILSX(id);
  }

  lemma CohereLacksGILSX(id: string)
    requires id == "cohere/command-r"
    ensures 'g' !in id && 'i' !in id && 'l' !in id && 's' !in id && 'x' !in id
  {
  }

  lemma PerplexityLogo(id: string)
    requires id == "perplexity/r1-1776"
    ensures FetchModels.LogoPath(id) == "/models/perplexity.png"
  {
    assert id == "perplexity/" + "r1-1776";
    StartsWithIsPrefix(id, "perplexity/");
    FetchModels.LogoOfMatchingPrefix(id, 11);
  }

  /** "perplexity/r1-1776" holds none of 'a', 'd', 'g' and 'o'. */
  lemma PerplexityShowsInitials()
    ensures !HasLogo("perplexity/r1-1776") && FetchModels.LogoPath("perplexity/r1-1776") == "/models/perplexity.png"
  {
    var id := "perplexity/r1-1776";
    PerplexityLogo(id);
    PerplexityLacksADGO(id);
    NoHintWithoutADGO(id);
  }

  lemma PerplexityLacksADGO(id: string)
    requires id == "perplexity/r1-1776"
    ensures 'a' !in id && 'd' !in id && 'g' !in id && 'o' !in id
  {
  }

  // ---------------------------------------------------------------------
  // Search filter

  /** The lowercased search occurs in the lowercased display name, id, or description when there is one. */
  predicate PickerMatches(m: Model, search: string)
  {
    || Contains(Lower(m.displayName), Lower(search))
    || Contains(Lower(m.id), Lower(search))
    || (m.description.Some? && Contains(Lower(m.description.value), Lower(search)))
  }

  /** The loaded models that match the search, in catalogue order. */
  function PickerFiltered(models: seq<Model>, search: string): (r: seq<Model>)
    ensures forall m :: m in r <==> m in models && PickerMatches(m, search)
    ensures |r| <= |models|
  {
    if |models| == 0 then []
    else if PickerMatches(models[0], search) then [models[0]] + PickerFiltered(models[1..], search)
    else PickerFiltered(models[1..], search)
  }

  lemma {:induction false} PickerFilteredIsSubsequence(models: seq<Model>, search: string)
    ensures Seqs.IsSubsequence(PickerFiltered(models, search), models)
  {
    if |models| > 0 {
      PickerFilteredIsSubsequence(models[1..], search);
      var rest := PickerFiltered(models[1..], search);
      if PickerMatches(models[0], search) {
        assert ([models[0]] + rest)[1..] == rest;
      }
    }
  }

  /** With an empty search every loaded model is listed. */
  lemma {:induction false} EmptySearchKeepsAll(models: seq<Model>)
    ensures PickerFiltered(models, "") == models
  {
    if |models| > 0 {
      ContainsEmpty(Lower(models[0].displayName));
      assert Lower("") == "";
      EmptySearchKeepsAll(models[1..]);
      assert [models[0]] + models[1..] == models;
    }
  }

  // ---------------------------------------------------------------------
  // Hover reconciliation

  /** Some model of the list has the id. */
  predicate ListsId(models: seq<Model>, id: string)
  {
    exists i :: 0 <= i < |models| && models[i].id == id
  }

  /**
   * The effect run when the filtered list or the hovered model changes: a
   * non-empty list whose models do not include the hovered one (by id), or
   * no hovered model at all, moves the hover to the list's first model.
   */
  function HoverReconcile(filtered: seq<Model>, hovered: Option<Model>): (r: Option<Model>)
    ensures |filtered| == 0 ==> r == hovered
    ensures |filtered| > 0 ==> r.Some? && ListsId(filtered, r.value.id)
    ensures hovered.Some? && ListsId(filtered, hovered.value.id) ==> r == hovered
    ensures |filtered| > 0 && (hovered.None? || !ListsId(filtered, hovered.value.id)) ==> r == Some(filtered[0])
  {
    if |filtered| > 0 && hovered.None? then Some(filtered[0])
    else if |filtered| > 0 && hovered.Some? then
      if ListsId(filtered, hovered.value.id) then hovered else Some(filtered[0])
    else hovered
  }

  /** Running the effect again changes nothing, so it settles after one run. */
  lemma HoverReconcileIdempotent(filtered: seq<Model>, hovered: Option<Model>)
    ensures HoverReconcile(filtered, HoverReconcile(filtered, hovered)) == HoverReconcile(filtered, hovered)
  {
  }

  // ---------------------------------------------------------------------
  // The picker's state

  const LoadFailure: string := "Failed to load models. Please try again."

  class ModelSelector {
    var search: string
    var models: seq<Model>
    var loading: bool
    var error: Option<string>
    var hovered: Option<Model>

    /** The rows on show. */
    function Filtered(): seq<Model>
      reads this
    {
      PickerFiltered(models, search)
    }

    /** On mount: nothing loaded yet and the load in progress. */
    constructor()
      ensures search == "" && models == [] && loading && error == None && hovered == None
    {
      search := "";
      models := [];
      loading := true;
      error := None;
      hovered := None;
    }

    /**
     * The end of the mount-time load: `None` is a load that threw. A
     * successful load hovers its first model; a failure keeps the models and
     * the hover and shows the fixed error text.
     */
    method FinishLoad(fetched: Option<seq<Model>>)
      modifies this
      ensures !loading && search == old(search)
      ensures fetched.Some? ==> models == fetched.value && error == None
      ensures fetched.Some? && |fetched.value| > 0 ==> hovered == Some(fetched.value[0])
      ensures fetched.Some? && |fetched.value| == 0 ==> hovered == old(hovered)
      ensures fetched.None? ==> models == old(models) && error == Some(LoadFailure) && hovered == old(hovered)
    {
      if fetched.Some? {
        models := fetched.value;
        error := None;
        if |fetched.value| > 0 {
          hovered := Some(fetched.value[0]);
        }
      } else {
        error := Some(LoadFailure);
      }
      loading := false;
    }

    method SetSearch(text: string)
      modifies this
      ensures search == text
      ensures models == old(models) && loading == old(loading) && error == old(error) && hovered == old(hovered)
    {
      search := text;
    }

    /** The hover effect, after which the hovered model is on show whenever any row is. */
    method ReconcileHover()
      modifies this
      ensures hovered == HoverReconcile(Filtered(), old(hovered))
      ensures |Filtered()| > 0 ==> hovered.Some? && ListsId(Filtered(), hovered.value.id)
      ensures search == old(search) && models == old(models) && loading == old(loading) && error == old(error)
    {
      hovered := HoverReconcile(Filtered(), hovered);
    }

    method MouseEnter(m: Model)
      modifies this
      ensures hovered == Some(m)
      ensures search == old(search) && models == old(models) && loading == old(loading) && error == old(error)
    {
      hovered := Some(m);
    }

    method MouseLeave()
      modifies this
      ensures hovered == None
      ensures search == old(search) && models == old(models) && loading == old(loading) && error == old(error)
    {
      hovered := None;
    }

    /** A click adds the model to the selection only when it is not already selected. */
    method ClickModel(m: Model, store: ChatStore.ChatStore)
      requires store.Valid()
      modifies store
      ensures store.Valid()
      ensures m.id in old(store.selectedModels) ==> store.selectedModels == old(store.selectedModels)
      ensures m.id !in old(store.selectedModels) ==> store.selectedModels == old(store.selectedModels) + [m.id]
      ensures store.chats == old(store.chats) && store.activeChatId == old(store.activeChatId)
      ensures store.debateMode == old(store.debateMode) && store.typingModels == old(store.typingModels)
    {
      if m.id !in store.selectedModels {
        store.AddSelectedModel(m.id);
      }
    }
  }
}
