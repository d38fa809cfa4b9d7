/**
 * Normalisation of the OpenRouter model catalogue: provider and logo are
 * derived from the id prefix, free models are recognised by name or by
 * zero prices and marked in their display name, and the catalogue is
 * sorted with free models first and then by display name.
 */
module FetchModels {
  import opened Wrappers
  import opened Strings
  import opened Types

  /** One entry of the catalogue payload, as decoded from its JSON. */
  datatype OpenRouterModel = OpenRouterModel(
    id: string,
    name: string,
    description: Option<string>,
    pricing: Pricing,
    contextLength: int,
    architecture: Architecture,
    topProvider: Option<TopProvider>,
    created: int)

  // ---------------------------------------------------------------------
  // Provider and logo

  /** The provider named by the id's prefix; both spellings of xAI count, and everything else goes through OpenRouter. */
  function ProviderFromId(id: string): (r: Provider)
    ensures r == OpenAI <==> StartsWith(id, "openai/")
    ensures r == Anthropic <==> StartsWith(id, "anthropic/")
    ensures r == Google <==> StartsWith(id, "google/")
    ensures r == XAI <==> StartsWith(id, "x-ai/") || StartsWith(id, "xai/")
    ensures r == OpenRouter <==>
      !StartsWith(id, "openai/") && !StartsWith(id, "anthropic/") && !StartsWith(id, "google/")
      && !StartsWith(id, "x-ai/") && !StartsWith(id, "xai/")
  {
    if StartsWith(id, "openai/") then OpenAI
    else if StartsWith(id, "anthropic/") then Anthropic
    else if StartsWith(id, "google/") then Google
    else if StartsWith(id, "x-ai/") || StartsWith(id, "xai/") then XAI
    else OpenRouter
  }

  /** The id prefixes with a logo, in the order the lookup tries them. */
  const LogoMap: seq<(string, string)> := [
    ("openai/", "/models/gpt.png"),
    ("anthropic/", "/models/claude.png"),
    ("google/", "/models/gemini.png"),
    ("x-ai/", "/models/grok.png"),
    ("xai/", "/models/grok.png"),
    ("meta-llama/", "/models/llama.png"),
    ("mistralai/", "/models/mistral.png"),
    ("allenai/", "/models/allenai.png"),
    ("deepseek/", "/models/deepseek.png"),
    ("nvidia/", "/models/nvidia.png"),
    ("cohere/", "/models/cohere.png"),
    ("perplexity/", "/models/perplexity.png")]

  const DefaultLogo: string := "/models/default.png"

  /** The logo of the first entry whose prefix `id` starts with, else the default logo. */
  function FirstLogo(entries: seq<(string, string)>, id: string): (r: string)
    ensures (forall j :: 0 <= j < |entries| ==> !StartsWith(id, entries[j].0)) ==> r == DefaultLogo
    ensures forall i :: (0 <= i < |entries| && StartsWith(id, entries[i].0)
      && (forall j :: 0 <= j < i ==> !StartsWith(id, entries[j].0))) ==> r == entries[i].1
    decreases |entries|
  {
    if |entries| == 0 then DefaultLogo
    else if StartsWith(id, entries[0].0) then entries[0].1
    else
      var r := FirstLogo(entries[1..], id);
      assert forall i :: 1 <= i < |entries| ==> entries[1..][i - 1] == entries[i];
      r
  }

  function LogoPath(id: string): string
  {
    FirstLogo(LogoMap, id)
  }

  /** Two prefixes of one string are prefixes of each other. */
  lemma PrefixesOfOneString(id: string, p: string, q: string)
    requires StartsWith(id, p) && StartsWith(id, q)
    ensures p <= q || q <= p
  {
    StartsWithIsPrefix(id, p);
    StartsWithIsPrefix(id, q);
    if |p| <= |q| {
      assert p == id[..|p|] == q[..|p|];
    } else {
      assert q == id[..|q|] == p[..|q|];
    }
  }

  /** The position in the logo map of the key that starts with `c0` `c1`, or -1. */
  function KeyIndex(c0: char, c1: char): int
  {
    if c0 == 'o' then 0
    else if c0 == 'a' then (if c1 == 'n' then 1 else 7)
    else if c0 == 'g' then 2
    else if c0 == 'x' then (if c1 == '-' then 3 else 4)
    else if c0 == 'm' then (if c1 == 'e' then 5 else 6)
    else if c0 == 'd' then 8
    else if c0 == 'n' then 9
    else if c0 == 'c' then 10
    else if c0 == 'p' then 11
    else -1
  }

  /** The first two characters of each key tell which key it is. */
  lemma KeysByFirstTwoChars()
    ensures forall i :: 0 <= i < |LogoMap| ==>
      |LogoMap[i].0| >= 2 && KeyIndex(LogoMap[i].0[0], LogoMap[i].0[1]) == i
  {
  }

  /** No prefix of the logo map is a prefix of another, so an id matches at most one entry. */
  lemma LogoKeysPrefixFree()
    ensures forall i, j :: 0 <= i < |LogoMap| && 0 <= j < |LogoMap| && i != j ==> !(LogoMap[i].0 <= LogoMap[j].0)
  {
    KeysByFirstTwoChars();
    forall i, j | 0 <= i < |LogoMap| && 0 <= j < |LogoMap| && i != j
      ensures !(LogoMap[i].0 <= LogoMap[j].0)
    {
    }
  }

  /** An id starting with an entry's prefix gets that entry's logo, wherever the entry sits in the map. */
  lemma LogoOfMatchingPrefix(id: string, i: nat)
    requires i < |LogoMap| && StartsWith(id, LogoMap[i].0)
    ensures LogoPath(id) == LogoMap[i].1
  {
    LogoKeysPrefixFree();
    forall j | 0 <= j < i
      ensures !StartsWith(id, LogoMap[j].0)
    {
      if StartsWith(id, LogoMap[j].0) {
        PrefixesOfOneString(id, LogoMap[j].0, LogoMap[i].0);
      }
    }
  }

  /** The lookup returns one of the entries' logos or the default, so it shares any prefix they all share. */
  lemma {:induction false} FirstLogoSharesPrefix(entries: seq<(string, string)>, id: string, p: string)
    requires p <= DefaultLogo
    requires forall k :: 0 <= k < |entries| ==> p <= entries[k].1
    ensures p <= FirstLogo(entries, id)
    decreases |entries|
  {
    if |entries| > 0 && !StartsWith(id, entries[0].0) {
      FirstLogoSharesPrefix(entries[1..], id, p);
    }
  }

  /** Every logo lives under "/models/". */
  lemma LogoPathUnderModels(id: string)
    ensures "/models/" <= LogoPath(id)
  {
    FirstLogoSharesPrefix(LogoMap, id, "/models/");
  }

  /** `getLogoPath`: tries each entry of the logo map in turn and returns at the first prefix that matches. */
  method GetLogoPath(id: string) returns (logo: string)
    ensures logo == LogoPath(id)
  {
    logo := ScanLogos(LogoMap, id);
  }

  /** The loop of `getLogoPath` over any list of entries. */
  method ScanLogos(entries: seq<(string, string)>, id: string) returns (logo: string)
    ensures logo == FirstLogo(entries, id)
  {
    for i := 0 to |entries|
      invariant forall j :: 0 <= j < i ==> !StartsWith(id, entries[j].0)
    {
      if StartsWith(id, entries[i].0) {
        return entries[i].1;
      }
    }
    return DefaultLogo;
  }

  // ---------------------------------------------------------------------
  // Free models and the display name

  /** Free by name (case-insensitively) or by both prices being exactly the string "0". */
  function IsFreeModel(m: OpenRouterModel): bool
  {
    Contains(Lower(m.name), "free") || (m.pricing.prompt == "0" && m.pricing.completion == "0")
  }

  /** The price test compares strings, so "0.0" prices do not make a model free. */
  lemma ZeroPointZeroIsNotFree(m: OpenRouterModel)
    requires m.pricing.prompt == "0.0" && m.pricing.completion == "0.0"
    requires !Contains(Lower(m.name), "free")
    ensures !IsFreeModel(m)
  {
  }

  /** A name that says "Free" in any letter case makes the model free whatever its prices. */
  lemma FreeByName(m: OpenRouterModel, word: string)
    requires Lower(word) == "free"
    requires Contains(m.name, word)
    ensures IsFreeModel(m)
  {
    var i: nat :| i <= |m.name| && MatchesAt(m.name, word, i);
    assert Lower(m.name)[i..i + 4] == Lower(m.name[i..i + 4]);
    assert MatchesAt(Lower(m.name), "free", i);
  }

  /** The name, with " (free)" appended to a free model whose name does not already say "(free)". */
  function DisplayName(name: string, isFree: bool): (r: string)
    ensures name <= r
    ensures isFree && !Contains(name, "(free)") ==> r == name + " (free)"
    ensures !isFree || Contains(name, "(free)") ==> r == name
  {
    if isFree && !Contains(name, "(free)") then name + " (free)" else name
  }

  /** The display name mentions "(free)" exactly when the model is free or its name already does. */
  lemma DisplayNameMarksFree(name: string, isFree: bool)
    ensures Contains(DisplayName(name, isFree), "(free)") <==> isFree || Contains(name, "(free)")
  {
    var r := DisplayName(name, isFree);
    if isFree && !Contains(name, "(free)") {
      assert r[|name| + 1..|name| + 7] == "(free)";
      assert MatchesAt(r, "(free)", |name| + 1);
    }
  }

  /** The suffix is never added twice. */
  lemma DisplayNameIdempotent(name: string, isFree: bool)
    ensures DisplayName(DisplayName(name, isFree), isFree) == DisplayName(name, isFree)
  {
    DisplayNameMarksFree(name, isFree);
  }

  /** The catalogue entry built from one payload entry. */
  function TransformModel(o: OpenRouterModel): (m: Model)
    ensures m.id == o.id && m.name == o.name && m.description == o.description
    ensures m.pricing == Some(o.pricing) && m.contextLength == Some(o.contextLength)
    ensures m.architecture == Some(o.architecture) && m.topProvider == o.topProvider && m.created == Some(o.created)
    ensures m.isFree == IsFreeModel(o)
    ensures m.displayName == DisplayName(o.name, m.isFree)
    ensures m.provider == ProviderFromId(o.id) && m.logo == LogoPath(o.id)
    ensures m.supportsImages <==> Contains(o.architecture.modality, "image")
    ensures m.supportsDebate
  {
    var isFree := IsFreeModel(o);
    Model(o.id, DisplayName(o.name, isFree), o.name, o.description, Some(o.pricing), Some(o.contextLength),
          Some(o.architecture), o.topProvider, Some(o.created), ProviderFromId(o.id), LogoPath(o.id),
          Contains(o.architecture.modality, "image"), true, isFree)
  }

  // ---------------------------------------------------------------------
  // The catalogue order

  /**
   * Lexicographic order on code points, standing in for `localeCompare`,
   * whose locale rules are not modelled.
   */
  predicate StrLeq(a: string, b: string)
  {
    |a| == 0 || (|b| > 0 && (a[0] < b[0] || (a[0] == b[0] && StrLeq(a[1..], b[1..]))))
  }

  lemma {:induction false} StrLeqTotal(a: string, b: string)
    ensures StrLeq(a, b) || StrLeq(b, a)
  {
    if |a| > 0 && |b| > 0 && a[0] == b[0] {
      StrLeqTotal(a[1..], b[1..]);
    }
  }

  lemma {:induction false} StrLeqAntisymmetric(a: string, b: string)
    requires StrLeq(a, b) && StrLeq(b, a)
    ensures a == b
  {
    if |a| > 0 && |b| > 0 {
      StrLeqAntisymmetric(a[1..], b[1..]);
      assert a == [a[0]] + a[1..] && b == [b[0]] + b[1..];
    }
  }

  lemma {:induction false} StrLeqTransitive(a: string, b: string, c: string)
    requires StrLeq(a, b) && StrLeq(b, c)
    ensures StrLeq(a, c)
  {
    if |a| > 0 && |b| > 0 && |c| > 0 && a[0] == b[0] && b[0] == c[0] {
      StrLeqTransitive(a[1..], b[1..], c[1..]);
    }
  }

  /** The comparator: free before non-free, then by display name. */
  predicate ModelLeq(a: Model, b: Model)
  {
    (a.isFree && !b.isFree) || (a.isFree == b.isFree && StrLeq(a.displayName, b.displayName))
  }

  lemma ModelLeqTotal(a: Model, b: Model)
    ensures ModelLeq(a, b) || ModelLeq(b, a)
  {
    StrLeqTotal(a.displayName, b.displayName);
  }

  lemma ModelLeqTransitive(a: Model, b: Model, c: Model)
    requires ModelLeq(a, b) && ModelLeq(b, c)
    ensures ModelLeq(a, c)
  {
    if a.isFree == b.isFree && b.isFree == c.isFree {
      StrLeqTransitive(a.displayName, b.displayName, c.displayName);
    }
  }

  predicate SortedModels(s: seq<Model>)
  {
    forall i, j :: 0 <= i < j < |s| ==> ModelLeq(s[i], s[j])
  }

  /** In a sorted catalogue every free model precedes every non-free one, and each group is ordered by display name. */
  lemma SortedMeansFreeFirst(s: seq<Model>)
    requires SortedModels(s)
    ensures forall i, j :: 0 <= i < j < |s| && s[j].isFree ==> s[i].isFree
    ensures forall i, j :: 0 <= i < j < |s| && s[i].isFree == s[j].isFree ==> StrLeq(s[i].displayName, s[j].displayName)
  {
  }

  /** Within `s[..i + 1]`, every ordered pair avoiding position `j` is in order. */
  predicate SortedApartFrom(s: seq<Model>, j: nat, i: nat)
    requires i < |s|
  {
    forall p, q :: 0 <= p < q <= i && p != j && q != j ==> ModelLeq(s[p], s[q])
  }

  /** The element at `j` is in order with everything after it up to `i`. */
  predicate BelowRest(s: seq<Model>, j: nat, i: nat)
    requires j <= i < |s|
  {
    forall q :: j < q <= i ==> ModelLeq(s[j], s[q])
  }

  /** Swapping an out-of-order element one place left keeps both facts, one place further left. */
  lemma InsertStep(s: seq<Model>, j: nat, i: nat)
    requires 0 < j <= i < |s|
    requires SortedApartFrom(s, j, i) && BelowRest(s, j, i)
    requires !ModelLeq(s[j - 1], s[j])
    ensures SortedApartFrom(s[j - 1 := s[j]][j := s[j - 1]], j - 1, i)
    ensures BelowRest(s[j - 1 := s[j]][j := s[j - 1]], j - 1, i)
  {
    ModelLeqTotal(s[j - 1], s[j]);
    var t := s[j - 1 := s[j]][j := s[j - 1]];
    forall q | j - 1 < q <= i
      ensures ModelLeq(t[j - 1], t[q])
    {
      if q > j {
        assert t[q] == s[q];
      }
    }
  }

  /** Once the element sits after one it is in order with, the whole prefix is sorted. */
  lemma InsertDone(s: seq<Model>, j: nat, i: nat)
    requires j <= i < |s|
    requires SortedApartFrom(s, j, i) && BelowRest(s, j, i)
    requires j == 0 || ModelLeq(s[j - 1], s[j])
    ensures SortedModels(s[..i + 1])
  {
    forall p, q | 0 <= p < q <= i
      ensures ModelLeq(s[p], s[q])
    {
      if q == j && p < j - 1 {
        ModelLeqTransitive(s[p], s[j - 1], s[j]);
      }
    }
  }

  /** Inserting `a[i]` left into the sorted prefix `a[..i]` leaves `a[..i + 1]` sorted. */
  method InsertLeft(a: array<Model>, i: nat)
    requires i < a.Length && SortedModels(a[..i])
    modifies a
    ensures SortedModels(a[..i + 1])
    ensures a[i + 1..] == old(a[i + 1..])
    ensures multiset(a[..]) == multiset(old(a[..]))
  {
    var j := i;
    while j > 0 && !ModelLeq(a[j - 1], a[j])
      invariant 0 <= j <= i
      invariant a[i + 1..] == old(a[i + 1..])
      invariant multiset(a[..]) == multiset(old(a[..]))
      invariant SortedApartFrom(a[..], j, i) && BelowRest(a[..], j, i)
    {
      InsertStep(a[..], j, i);
      a[j - 1], a[j] := a[j], a[j - 1];
      j := j - 1;
    }
    InsertDone(a[..], j, i);
    assert a[..][..i + 1] == a[..i + 1];
  }

  /** `models.sort(...)`: reorders the array in place into catalogue order. */
  method SortModels(a: array<Model>)
    modifies a
    ensures SortedModels(a[..])
    ensures multiset(a[..]) == multiset(old(a[..]))
  {
    var i := 0;
    while i < a.Length
      invariant 0 <= i <= a.Length
      invariant SortedModels(a[..i])
      invariant multiset(a[..]) == multiset(old(a[..]))
    {
      InsertLeft(a, i);
      i := i + 1;
    }
    assert a[..i] == a[..];
  }

  function TransformAll(data: seq<OpenRouterModel>): (r: seq<Model>)
    ensures |r| == |data| && forall i :: 0 <= i < |data| ==> r[i] == TransformModel(data[i])
  {
    seq(|data|, i requires 0 <= i < |data| => TransformModel(data[i]))
  }

  /**
   * The catalogue built from a payload: every entry transformed, then
   * sorted. The result is a reordering of the transformed entries.
   */
  method NormaliseCatalogue(data: seq<OpenRouterModel>) returns (models: seq<Model>)
    ensures |models| == |data|
    ensures multiset(models) == multiset(TransformAll(data))
    ensures SortedModels(models)
  {
    var a := new Model[|data|](i requires 0 <= i < |data| => TransformModel(data[i]));
    assert a[..] == TransformAll(data);
    SortModels(a);
    models := a[..];
    assert |models| == |multiset(models)| == |multiset(TransformAll(data))| == |data|;
  }
}
