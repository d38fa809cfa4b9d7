/**
 * The message box with `@` mentions: which models can be mentioned, the
 * option list shown while typing a mention, the detection of an `@`
 * trigger before the cursor, the splicing of a chosen mention into the
 * text, keyboard selection, and the extraction of mentions from the text
 * that is finally sent.
 */
module MentionInput {
  import opened Wrappers
  import opened Strings
  import opened Types
  import opened Seqs

  // ---------------------------------------------------------------------
  // Which models can be mentioned, and the option list

  /** Models restricted to the chat's models when it names any, else all, in catalogue order. */
  function AvailableModels(allModels: seq<Model>, chatModelIds: seq<string>): (r: seq<Model>)
    ensures |chatModelIds| == 0 ==> r == allModels
    ensures forall m :: m in r <==> m in allModels && (|chatModelIds| == 0 || m.id in chatModelIds)
    ensures |r| <= |allModels|
    decreases |allModels|
  {
    if |chatModelIds| == 0 then allModels
    else if |allModels| == 0 then []
    else (if allModels[0].id in chatModelIds then [allModels[0]] else []) + AvailableModels(allModels[1..], chatModelIds)
  }

  /** The restriction keeps catalogue order. */
  lemma {:induction false} AvailableModelsIsSubsequence(allModels: seq<Model>, chatModelIds: seq<string>)
    ensures IsSubsequence(AvailableModels(allModels, chatModelIds), allModels)
    decreases |allModels|
  {
    if |chatModelIds| == 0 {
      SubsequenceOfItself(allModels);
    } else if |allModels| > 0 {
      AvailableModelsIsSubsequence(allModels[1..], chatModelIds);
      var r := AvailableModels(allModels, chatModelIds);
      if allModels[0].id in chatModelIds {
        assert r[0] == allModels[0] && r[1..] == AvailableModels(allModels[1..], chatModelIds);
      } else {
        assert r == AvailableModels(allModels[1..], chatModelIds);
      }
    }
  }

  lemma {:induction false} SubsequenceOfItself<T>(s: seq<T>)
    ensures IsSubsequence(s, s)
    decreases |s|
  {
    if |s| > 0 {
      SubsequenceOfItself(s[1..]);
    }
  }

  /** An entry of the mention drop-down. */
  datatype DropdownOption = DropdownOption(kind: MentionKind, model: Option<Model>, displayName: string)

  const EveryoneOption: DropdownOption := DropdownOption(EveryoneMention, None, "everyone")

  function ModelOption(m: Model): DropdownOption
  {
    DropdownOption(ModelMention, Some(m), m.displayName)
  }

  /** A model is offered when the lowercased query occurs in its lowercased display name, name or id. */
  predicate OffersModel(m: Model, query: string)
  {
    Contains(Lower(m.displayName), query) || Contains(Lower(m.name), query) || Contains(Lower(m.id), query)
  }

  /** The offered models, in order, each as an option. */
  function ModelOptions(available: seq<Model>, query: string): (r: seq<DropdownOption>)
    ensures |r| <= |available|
    ensures forall o :: o in r <==> exists m :: m in available && OffersModel(m, query) && o == ModelOption(m)
    decreases |available|
  {
    if |available| == 0 then []
    else
      var rest := ModelOptions(available[1..], query);
      assert forall m :: m in available <==> m == available[0] || m in available[1..];
      (if OffersModel(available[0], query) then [ModelOption(available[0])] else []) + rest
  }

  /** The offered models keep the order of the available models. */
  lemma {:induction false} ModelOptionsInOrder(available: seq<Model>, query: string)
    ensures IsSubsequence(ModelOptions(available, query),
      seq(|available|, i requires 0 <= i < |available| => ModelOption(available[i])))
    decreases |available|
  {
    var all := seq(|available|, i requires 0 <= i < |available| => ModelOption(available[i]));
    if |available| > 0 {
      var tail := seq(|available| - 1, i requires 0 <= i < |available| - 1 => ModelOption(available[1..][i]));
      assert all[1..] == tail;
      ModelOptionsInOrder(available[1..], query);
      var rest := ModelOptions(available[1..], query);
      if OffersModel(available[0], query) {
        assert ModelOptions(available, query) == [all[0]] + rest;
        assert ([all[0]] + rest)[1..] == rest;
      } else {
        assert ModelOptions(available, query) == rest;
      }
    }
  }

  /**
   * The option list for the current query: "everyone" first when the
   * lowercased query occurs in "everyone" (the empty query always does),
   * then the offered models in order.
   */
  function FilteredOptions(available: seq<Model>, searchQuery: string): (r: seq<DropdownOption>)
    ensures var query := Lower(searchQuery);
      && (Contains("everyone", query) ==> r == [EveryoneOption] + ModelOptions(available, query))
      && (!Contains("everyone", query) ==> r == ModelOptions(available, query))
  {
    var query := Lower(searchQuery);
    ContainsEmpty("everyone");
    (if Contains("everyone", query) || query == "" then [EveryoneOption] else []) + ModelOptions(available, query)
  }

  /** The empty query offers "everyone" and every model, so no other query offers more. */
  lemma EmptyQueryOffersMost(available: seq<Model>, searchQuery: string)
    ensures |FilteredOptions(available, "")| == |available| + 1
    ensures |FilteredOptions(available, searchQuery)| <= |FilteredOptions(available, "")|
  {
    ContainsEmpty("everyone");
    EmptyQueryOffersAll(available);
  }

  lemma {:induction false} EmptyQueryOffersAll(available: seq<Model>)
    ensures ModelOptions(available, "") == seq(|available|, i requires 0 <= i < |available| => ModelOption(available[i]))
    decreases |available|
  {
    if |available| > 0 {
      ContainsEmpty(Lower(available[0].displayName));
      EmptyQueryOffersAll(available[1..]);
    }
  }

  /** `getFilteredOptions`: pushes the options one by one onto the list. */
  method GetFilteredOptions(available: seq<Model>, searchQuery: string) returns (options: seq<DropdownOption>)
    ensures options == FilteredOptions(available, searchQuery)
  {
    var query := Lower(searchQuery);
    options := [];
    if Contains("everyone", query) || query == "" {
      options := options + [EveryoneOption];
    }
    ghost var head := options;
    var i := 0;
    while i < |available|
      invariant 0 <= i <= |available|
      invariant options == head + ModelOptions(available[..i], query)
    {
      ModelOptionsSnoc(available, i, query);
      if OffersModel(available[i], query) {
        options := options + [ModelOption(available[i])];
      }
      i := i + 1;
    }
    assert available[..i] == available;
  }

  lemma {:induction false} ModelOptionsSnoc(available: seq<Model>, i: nat, query: string)
    requires i < |available|
    ensures ModelOptions(available[..i + 1], query)
      == ModelOptions(available[..i], query) + (if OffersModel(available[i], query) then [ModelOption(available[i])] else [])
    decreases i
  {
    var a := available[..i + 1];
    if i > 0 {
      assert a[1..] == available[1..][..i];
      assert available[..i][1..] == available[1..][..i - 1];
      ModelOptionsSnoc(available[1..], i - 1, query);
    }
  }

  // ---------------------------------------------------------------------
  // The `@` trigger before the cursor (`/@([a-zA-Z0-9-_]*)$/`)

  /** The characters a mention query may consist of: ASCII letters and digits, '-' and '_'. */
  predicate IsQueryChar(c: char)
  {
    ('a' <= c <= 'z') || ('A' <= c <= 'Z') || ('0' <= c <= '9') || c == '-' || c == '_'
  }

  /** `t` ends with an '@' at `p` followed only by query characters. */
  predicate IsTriggerAt(t: string, p: nat)
  {
    p < |t| && t[p] == '@' && forall k :: p < k < |t| ==> IsQueryChar(t[k])
  }

  /** The '@' the pattern anchors on, found by scanning back from the end over query characters. */
  function TriggerStart(t: string): (r: Option<nat>)
    ensures r.Some? ==> IsTriggerAt(t, r.value)
    ensures r.None? ==> forall p :: 0 <= p < |t| ==> !IsTriggerAt(t, p)
    decreases |t|
  {
    if |t| == 0 then None
    else if t[|t| - 1] == '@' then Some(|t| - 1)
    else if IsQueryChar(t[|t| - 1]) then
      var r := TriggerStart(t[..|t| - 1]);
      assert forall p :: 0 <= p < |t| - 1 ==> (IsTriggerAt(t, p) <==> IsTriggerAt(t[..|t| - 1], p));
      r
    else None
  }

  /** '@' is not a query character, so at most one position can anchor the pattern. */
  lemma TriggerUnique(t: string, p: nat, q: nat)
    requires IsTriggerAt(t, p) && IsTriggerAt(t, q)
    ensures p == q
  {
  }

  /**
   * The trigger found in the text before the cursor and the query typed
   * after it. `slice` clamps the cursor to the text, and the trigger
   * position is computed back from the unclamped cursor as
   * cursor - |query| - 1, the length of the whole match being |query| + 1.
   */
  function DetectTrigger(value: string, cursor: nat): (r: (Option<nat>, string))
    ensures var t := value[..if cursor <= |value| then cursor else |value|];
      && (r.0.Some? <==> exists p :: 0 <= p < |t| && IsTriggerAt(t, p))
      && (r.0.None? ==> r.1 == "")
      && (r.0.Some? && cursor <= |value| ==>
            && IsTriggerAt(t, r.0.value)
            && r.1 == value[r.0.value + 1..cursor]
            && forall k :: 0 <= k < |r.1| ==> IsQueryChar(r.1[k]))
  {
    var t := value[..if cursor <= |value| then cursor else |value|];
    var start := TriggerStart(t);
    if start.None? then (None, "")
    else
      var p := start.value;
      var query := t[p + 1..];
      TriggerQuery(value, cursor, t, p, query);
      (Some(cursor - (|t| - p)), query)
  }

  /** The query after a trigger consists of query characters and, cursor within the text, is the text between the '@' and the cursor. */
  lemma TriggerQuery(value: string, cursor: nat, t: string, p: nat, query: string)
    requires t == value[..if cursor <= |value| then cursor else |value|]
    requires IsTriggerAt(t, p) && query == t[p + 1..]
    ensures forall k :: 0 <= k < |query| ==> IsQueryChar(query[k])
    ensures cursor <= |value| ==> cursor - (|t| - p) == p && query == value[p + 1..cursor]
  {
    forall k | 0 <= k < |query| ensures IsQueryChar(query[k]) {
      assert query[k] == t[p + 1 + k];
    }
  }

  // ---------------------------------------------------------------------
  // Splicing a chosen mention into the text

  /** `s.slice(0, end)`. */
  function Prefix(s: string, end: nat): string
  {
    if end <= |s| then s[..end] else s
  }

  /** `s.slice(start)`. */
  function Suffix(s: string, start: nat): string
  {
    if start <= |s| then s[start..] else ""
  }

  /**
   * The text with the '@' at `at` and the `queryLength` characters after it
   * replaced by "@" + `displayName`, followed by a space unless the rest
   * already starts with one.
   */
  function Splice(value: string, at: nat, queryLength: nat, displayName: string): string
  {
    var afterQuery := Suffix(value, at + 1 + queryLength);
    Prefix(value, at) + ("@" + displayName) + (if StartsWith(afterQuery, " ") then "" else " ") + afterQuery
  }

  /**
   * When the trigger lies within the text, the spliced text keeps the text
   * before the '@', holds "@" + name from the trigger on, then one
   * separating space unless the rest starts with one, then the rest of the
   * text after the query, verbatim.
   */
  lemma SpliceShape(value: string, at: nat, queryLength: nat, displayName: string)
    requires at <= |value|
    ensures var r := Splice(value, at, queryLength, displayName);
      var rest := Suffix(value, at + 1 + queryLength);
      var gap := if |rest| > 0 && rest[0] == ' ' then 0 else 1;
      && |r| == at + 1 + |displayName| + gap + |rest|
      && r[..at] == value[..at]
      && r[at..at + 1 + |displayName|] == "@" + displayName
      && r[at + 1 + |displayName|..at + 1 + |displayName| + gap] == (if gap == 1 then " " else "")
      && r[at + 1 + |displayName| + gap..] == rest
  {
    var rest := Suffix(value, at + 1 + queryLength);
    StartsWithIsPrefix(rest, " ");
    var r := Splice(value, at, queryLength, displayName);
    var gap := if |rest| > 0 && rest[0] == ' ' then 0 else 1;
    var sep := if StartsWith(rest, " ") then "" else " ";
    assert sep == (if gap == 1 then " " else "");
    assert r == value[..at] + ("@" + displayName) + sep + rest;
    FourPartSlices(value[..at], "@" + displayName, sep, rest);
  }

  /** Each part of a four-part concatenation can be sliced back out. */
  lemma FourPartSlices(a: string, b: string, c: string, d: string)
    ensures var r := a + b + c + d;
      && |r| == |a| + |b| + |c| + |d|
      && r[..|a|] == a
      && r[|a|..|a| + |b|] == b
      && r[|a| + |b|..|a| + |b| + |c|] == c
      && r[|a| + |b| + |c|..] == d
  {
    var r := a + b + c + d;
    assert r == ((a + b) + c) + d;
    assert r[..|a| + |b| + |c|] == (a + b) + c;
    assert r[..|a| + |b|] == a + b;
  }

  /** A mention recorded in the message box, with where its text starts and ends. */
  datatype Mention = Mention(
    id: string,
    kind: MentionKind,
    modelId: Option<string>,
    displayName: string,
    startIndex: nat,
    endIndex: nat)

  /** The mention recorded for `option` chosen at `at`: it spans "@" and the display name. */
  function RecordedMention(stamp: string, option: DropdownOption, at: nat): (m: Mention)
    ensures m.startIndex == at && m.endIndex - m.startIndex == 1 + |option.displayName|
    ensures m.kind == option.kind && m.displayName == option.displayName
    ensures m.modelId == if option.model.Some? then Some(option.model.value.id) else None
  {
    Mention(stamp, option.kind, if option.model.Some? then Some(option.model.value.id) else None,
            option.displayName, at, at + |"@" + option.displayName|)
  }

  // ---------------------------------------------------------------------
  // Keyboard selection

  function Min(a: int, b: int): int { if a <= b then a else b }
  function Max(a: int, b: int): int { if a >= b then a else b }

  /** `Math.min(prev + 1, length - 1)`. */
  function ArrowDownIndex(prev: int, length: nat): int
  {
    Min(prev + 1, length - 1)
  }

  /** `Math.max(prev - 1, 0)`. */
  function ArrowUpIndex(prev: int): int
  {
    Max(prev - 1, 0)
  }

  /**
   * From any index the list admits (-1 for an empty list's ArrowDown, up
   * to the last option), both arrows land on an option of a non-empty list.
   */
  lemma ArrowsStayInRange(prev: int, length: nat)
    requires length > 0 && -1 <= prev <= length - 1
    ensures 0 <= ArrowDownIndex(prev, length) < length
    ensures 0 <= ArrowUpIndex(prev) < length
  {
  }

  // ---------------------------------------------------------------------
  // Extracting mentions (`/@(everyone|[\w\s.-]+?)(?=\s|$)/g`)

  /** `\w`, `\s`, '.' and '-'. */
  predicate IsNameChar(c: char)
  {
    ('a' <= c <= 'z') || ('A' <= c <= 'Z') || ('0' <= c <= '9') || c == '_' || IsSpace(c) || c == '.' || c == '-'
  }

  /** `(?=\s|$)` at position `e`. */
  predicate EndsName(text: string, e: nat)
  {
    e == |text| || (e < |text| && IsSpace(text[e]))
  }

  /** The first alternative: "everyone" right after the '@' at `p`, then the lookahead. */
  predicate EveryoneAt(text: string, p: nat)
  {
    p + 9 <= |text| && text[p + 1..p + 9] == "everyone" && EndsName(text, p + 9)
  }

  /**
   * The lazy second alternative: the least end `e > from` such that
   * `text[from..e]` are name characters and the lookahead holds at `e`.
   */
  function LazyEnd(text: string, from: nat, e: nat): (r: Option<nat>)
    requires from < e
    requires e <= |text| + 1
    requires forall k :: from <= k < e - 1 ==> IsNameChar(text[k])
    requires forall k :: from < k < e ==> !EndsName(text, k)
    ensures r.Some? ==> e <= r.value <= |text| && EndsName(text, r.value)
    ensures r.Some? ==> forall k :: from <= k < r.value ==> IsNameChar(text[k])
    ensures r.Some? ==> forall k :: from < k < r.value ==> !EndsName(text, k)
    decreases |text| - e
  {
    if e > |text| then None
    else if !IsNameChar(text[e - 1]) then None
    else if EndsName(text, e) then Some(e)
    else LazyEnd(text, from, e + 1)
  }

  /** One match of the pattern. */
  datatype MentionMatch = MentionMatch(at: nat, name: string, end: nat)

  /** The match starting at `p`, if the pattern matches there. */
  function MatchAt(text: string, p: nat): (r: Option<MentionMatch>)
    ensures r.Some? ==> r.value.at == p && p < r.value.end <= |text| && text[p] == '@'
    ensures r.Some? ==> r.value.name == text[p + 1..r.value.end]
  {
    if p >= |text| || text[p] != '@' then None
    else if EveryoneAt(text, p) then Some(MentionMatch(p, "everyone", p + 9))
    else match LazyEnd(text, p + 1, p + 2)
      case Some(e) => Some(MentionMatch(p, text[p + 1..e], e))
      case None => None
  }

  /** Apart from "everyone", a captured name holds white space at most in its first character. */
  lemma CapturedNameShape(text: string, p: nat)
    requires MatchAt(text, p).Some?
    ensures var name := MatchAt(text, p).value.name;
      |name| > 0 && forall i :: 1 <= i < |name| ==> !IsSpace(name[i])
  {
    var m := MatchAt(text, p).value;
    if !EveryoneAt(text, p) {
      forall i | 1 <= i < |m.name|
        ensures !IsSpace(m.name[i])
      {
        assert m.name[i] == text[p + 1 + i];
        assert !EndsName(text, p + 1 + i);
      }
    }
  }

  /** `exec` from `lastIndex`: the leftmost match starting at or after `from`. */
  function NextMatch(text: string, from: nat): (r: Option<MentionMatch>)
    ensures r.Some? ==> from <= r.value.at && MatchAt(text, r.value.at) == r
    decreases |text| - from
  {
    if from >= |text| then None
    else if MatchAt(text, from).Some? then MatchAt(text, from)
    else NextMatch(text, from + 1)
  }

  /** The match found is the leftmost one, and no match is left when none is found. */
  lemma NextMatchIsLeftmost(text: string, from: nat)
    ensures var r := NextMatch(text, from);
      && (r.Some? ==> forall q :: from <= q < r.value.at ==> MatchAt(text, q).None?)
      && (r.None? ==> forall q :: from <= q ==> MatchAt(text, q).None?)
  {
    if NextMatch(text, from).Some? {
      NoMatchBeforeFound(text, from);
    } else {
      NoMatchWhenNoneFound(text, from);
    }
  }

  lemma {:induction false} NoMatchBeforeFound(text: string, from: nat)
    requires NextMatch(text, from).Some?
    ensures forall q :: from <= q < NextMatch(text, from).value.at ==> MatchAt(text, q).None?
    decreases |text| - from
  {
    if MatchAt(text, from).None? {
      assert NextMatch(text, from) == NextMatch(text, from + 1);
      NoMatchBeforeFound(text, from + 1);
    }
  }

  lemma {:induction false} NoMatchWhenNoneFound(text: string, from: nat)
    requires NextMatch(text, from).None?
    ensures forall q :: from <= q ==> MatchAt(text, q).None?
    decreases |text| - from
  {
    if from < |text| {
      assert MatchAt(text, from).None? && NextMatch(text, from + 1).None?;
      NoMatchWhenNoneFound(text, from + 1);
    }
  }

  /** All matches from `from` on, each search resuming where the previous match ended. */
  function AllMatches(text: string, from: nat): (r: seq<MentionMatch>)
    ensures forall i :: 0 <= i < |r| ==> from <= r[i].at && MatchAt(text, r[i].at) == Some(r[i])
    ensures forall i :: 0 <= i < |r| - 1 ==> r[i].end <= r[i + 1].at
    decreases |text| - from
  {
    match NextMatch(text, from)
    case None => []
    case Some(m) =>
      if m.end > |text| then [] else [m] + AllMatches(text, m.end)
  }

  /** The model's lowercased display name or name equals the lowercased captured name. */
  predicate NamedBy(m: Model, name: string)
  {
    Lower(m.displayName) == Lower(name) || Lower(m.name) == Lower(name)
  }

  /** The first model named by the captured name, as `find` returns it. */
  function FindModel(models: seq<Model>, name: string): (r: Option<Model>)
    ensures r.Some? ==> exists i :: (0 <= i < |models| && models[i] == r.value && NamedBy(models[i], name)
      && forall j :: 0 <= j < i ==> !NamedBy(models[j], name))
    ensures r.None? ==> forall m :: m in models ==> !NamedBy(m, name)
    decreases |models|
  {
    if |models| == 0 then None
    else if NamedBy(models[0], name) then Some(models[0])
    else
      var r := FindModel(models[1..], name);
      assert forall m :: m in models ==> m == models[0] || m in models[1..];
      if r.Some? then
        var i :| 0 <= i < |models[1..]| && models[1..][i] == r.value && NamedBy(models[1..][i], name)
          && forall j :: 0 <= j < i ==> !NamedBy(models[1..][j], name);
        assert forall j :: 0 <= j < i + 1 ==> !NamedBy(models[j], name) by {
          forall j | 0 <= j < i + 1 ensures !NamedBy(models[j], name) {
            if j > 0 { assert models[j] == models[1..][j - 1]; }
          }
        }
        assert models[i + 1] == r.value && NamedBy(models[i + 1], name);
        r
      else r
  }

  /** What a captured name contributes: an everyone mention, a model mention, or nothing. */
  function Classify(models: seq<Model>, name: string): seq<MentionData>
  {
    if name == "everyone" then [MentionData(EveryoneMention, None, "everyone")]
    else match FindModel(models, name)
      case Some(m) => [MentionData(ModelMention, Some(m.id), m.displayName)]
      case None => []
  }

  function ClassifyAll(models: seq<Model>, matches: seq<MentionMatch>): seq<MentionData>
    decreases |matches|
  {
    if |matches| == 0 then [] else Classify(models, matches[0].name) + ClassifyAll(models, matches[1..])
  }

  /** The mentions of `text`, in text order. */
  function ExtractedMentions(models: seq<Model>, text: string): seq<MentionData>
  {
    ClassifyAll(models, AllMatches(text, 0))
  }

  /** Every extracted model mention names a model that is among `models` and matches its captured name. */
  lemma ClassifyAllSound(models: seq<Model>, matches: seq<MentionMatch>, d: MentionData)
    requires d in ClassifyAll(models, matches) && d.kind == ModelMention
    ensures exists i, m :: (0 <= i < |matches| && m in models && d.modelId == Some(m.id)
      && (Lower(m.displayName) == Lower(matches[i].name) || Lower(m.name) == Lower(matches[i].name)))
  {
    ClassifyAllFrom(models, matches, d);
    var i :| 0 <= i < |matches| && d in Classify(models, matches[i].name);
    ClassifySound(models, matches[i].name, d);
  }

  /** Each extracted mention comes from one of the matches. */
  lemma {:induction false} ClassifyAllFrom(models: seq<Model>, matches: seq<MentionMatch>, d: MentionData)
    requires d in ClassifyAll(models, matches)
    ensures exists i :: 0 <= i < |matches| && d in Classify(models, matches[i].name)
    decreases |matches|
  {
    if d !in Classify(models, matches[0].name) {
      ClassifyAllFrom(models, matches[1..], d);
      var i :| 0 <= i < |matches[1..]| && d in Classify(models, matches[1..][i].name);
      assert matches[1..][i] == matches[i + 1];
    }
  }

  /** A model mention that a captured name contributes names a model matching that name. */
  lemma ClassifySound(models: seq<Model>, name: string, d: MentionData)
    requires d in Classify(models, name) && d.kind == ModelMention
    ensures exists m :: (m in models && d.modelId == Some(m.id)
      && (Lower(m.displayName) == Lower(name) || Lower(m.name) == Lower(name)))
  {
    var m := FindModel(models, name).value;
    assert d.modelId == Some(m.id);
  }

  /**
   * A model cannot be mentioned when both its display name and its name
   * hold white space after their first character (as "GPT-4 Turbo" does):
   * the lazy pattern stops at the first space.
   */
  lemma SpacedNameNeverMentioned(models: seq<Model>, text: string, target: Model, d: MentionData)
    requires forall i, j :: 0 <= i < j < |models| ==> models[i].id != models[j].id
    requires target in models
    requires exists i :: 1 <= i < |target.displayName| && IsSpace(target.displayName[i])
    requires exists i :: 1 <= i < |target.name| && IsSpace(target.name[i])
    requires d in ExtractedMentions(models, text)
    ensures d.modelId != Some(target.id)
  {
    var matches := AllMatches(text, 0);
    if d.kind == ModelMention {
      ClassifyAllSound(models, matches, d);
      var i, m :| 0 <= i < |matches| && m in models && d.modelId == Some(m.id)
        && (Lower(m.displayName) == Lower(matches[i].name) || Lower(m.name) == Lower(matches[i].name));
      var name := matches[i].name;
      CapturedNameShape(text, matches[i].at);
      SpacedNameDiffers(name, target.displayName);
      SpacedNameDiffers(name, target.name);
      assert m != target;
      DistinctIdsDistinctModels(models, m, target);
    } else if d.kind == EveryoneMention {
      EveryoneMentionCarriesNoModel(models, matches, d);
    }
  }

  /** A text with white space after its first character differs, lowercased, from one without. */
  lemma SpacedNameDiffers(name: string, s: string)
    requires forall i :: 1 <= i < |name| ==> !IsSpace(name[i])
    requires exists i :: 1 <= i < |s| && IsSpace(s[i])
    ensures Lower(s) != Lower(name)
  {
    var i :| 1 <= i < |s| && IsSpace(s[i]);
    LowerKeepsSpaces(s);
    LowerKeepsSpaces(name);
    assert IsSpace(Lower(s)[i]);
    assert i < |name| ==> !IsSpace(Lower(name)[i]);
  }

  /** Two different models of a list whose ids are distinct have different ids. */
  lemma DistinctIdsDistinctModels(models: seq<Model>, m: Model, n: Model)
    requires forall i, j :: 0 <= i < j < |models| ==> models[i].id != models[j].id
    requires m in models && n in models && m != n
    ensures m.id != n.id
  {
    var a :| 0 <= a < |models| && models[a] == m;
    var b :| 0 <= b < |models| && models[b] == n;
    assert a != b;
  }

  lemma {:induction false} EveryoneMentionCarriesNoModel(models: seq<Model>, matches: seq<MentionMatch>, d: MentionData)
    requires d in ClassifyAll(models, matches) && d.kind == EveryoneMention
    ensures d.modelId.None?
    decreases |matches|
  {
    if d !in Classify(models, matches[0].name) {
      EveryoneMentionCarriesNoModel(models, matches[1..], d);
    }
  }

  /** Resuming after the leftmost match: its contribution, then that of the matches after it. */
  lemma ClassifyFromNextMatch(models: seq<Model>, text: string, from: nat)
    requires NextMatch(text, from).Some?
    ensures var m := NextMatch(text, from).value;
      && from < m.end <= |text|
      && ClassifyAll(models, AllMatches(text, from)) == Classify(models, m.name) + ClassifyAll(models, AllMatches(text, m.end))
  {
    var m := NextMatch(text, from).value;
    assert MatchAt(text, m.at) == Some(m);
    var rest := AllMatches(text, m.end);
    assert AllMatches(text, from) == [m] + rest;
    assert ([m] + rest)[1..] == rest;
  }

  /** `extractMentionsFromText`: runs the global pattern over the text and collects what each match yields. */
  method ExtractMentionsFromText(models: seq<Model>, text: string) returns (found: seq<MentionData>)
    ensures found == ExtractedMentions(models, text)
  {
    found := [];
    var lastIndex := 0;
    var next := NextMatch(text, lastIndex);
    while next.Some?
      invariant lastIndex <= |text|
      invariant next == NextMatch(text, lastIndex)
      invariant found + ClassifyAll(models, AllMatches(text, lastIndex)) == ExtractedMentions(models, text)
      decreases |text| - lastIndex
    {
      var m := next.value;
      ClassifyFromNextMatch(models, text, lastIndex);
      AppendAssoc(found, Classify(models, m.name), ClassifyAll(models, AllMatches(text, m.end)));
      found := found + Classify(models, m.name);
      lastIndex := m.end;
      next := NextMatch(text, lastIndex);
    }
    assert AllMatches(text, lastIndex) == [];
  }

  // ---------------------------------------------------------------------
  // The component's state

  datatype Key = ArrowDown | ArrowUp | Enter | Tab | Escape | OtherKey

  /** What `onSend` receives. */
  datatype Submission = Submission(message: string, mentions: seq<MentionData>)

  /** The component state a key press can change. */
  datatype BoxState = BoxState(
    inputValue: string,
    mentions: seq<Mention>,
    showDropdown: bool,
    searchQuery: string,
    selectedIndex: int,
    atTriggerIndex: Option<nat>)

  class MentionBox {
    var inputValue: string
    var mentions: seq<Mention>
    var showDropdown: bool
    var searchQuery: string
    var selectedIndex: int
    var atTriggerIndex: Option<nat>
    var allModels: seq<Model>
    var chatModelIds: seq<string>
    var disabled: bool

    /** The fields the handlers change, taken together. */
    function Snapshot(): BoxState
      reads this
    {
      BoxState(inputValue, mentions, showDropdown, searchQuery, selectedIndex, atTriggerIndex)
    }

    /** The option list as rendered from the current state. */
    function Options(): seq<DropdownOption>
      reads this`allModels, this`chatModelIds, this`searchQuery
    {
      FilteredOptions(AvailableModels(allModels, chatModelIds), searchQuery)
    }

    /** The selection is -1 (only reachable on an empty list) or names an option, or is 0. */
    ghost predicate Valid()
      reads this`allModels, this`chatModelIds, this`searchQuery, this`selectedIndex
    {
      -1 <= selectedIndex <= Max(0, |Options()| - 1)
    }

    constructor(allModels: seq<Model>, chatModelIds: seq<string>, disabled: bool)
      ensures Valid()
      ensures inputValue == "" && mentions == [] && !showDropdown && searchQuery == ""
      ensures selectedIndex == 0 && atTriggerIndex == None
      ensures this.allModels == allModels && this.chatModelIds == chatModelIds && this.disabled == disabled
    {
      inputValue := "";
      mentions := [];
      showDropdown := false;
      searchQuery := "";
      selectedIndex := 0;
      atTriggerIndex := None;
      this.allModels := allModels;
      this.chatModelIds := chatModelIds;
      this.disabled := disabled;
    }

    /** Clearing the query never shrinks the option list, so the selection stays admissible. */
    lemma ClearingQueryKeepsSelection(available: seq<Model>, query: string, index: int)
      requires -1 <= index <= Max(0, |FilteredOptions(available, query)| - 1)
      ensures -1 <= index <= Max(0, |FilteredOptions(available, "")| - 1)
    {
      EmptyQueryOffersMost(available, query);
    }

    /**
     * The text changed to `value` with the cursor at `cursor`: an '@' trigger
     * before the cursor opens the drop-down on its query with the first
     * option selected; otherwise the drop-down closes and the trigger and
     * query are cleared.
     */
    method HandleInputChange(value: string, cursor: nat)
      requires Valid()
      modifies this
      ensures Valid()
      ensures inputValue == value
      ensures (atTriggerIndex, searchQuery) == DetectTrigger(value, cursor)
      ensures atTriggerIndex.Some? ==> showDropdown && selectedIndex == 0
      ensures atTriggerIndex.None? ==> !showDropdown && selectedIndex == old(selectedIndex)
      ensures mentions == old(mentions) && allModels == old(allModels)
      ensures chatModelIds == old(chatModelIds) && disabled == old(disabled)
    {
      inputValue := value;
      var detected := DetectTrigger(value, cursor);
      if detected.0.Some? {
        atTriggerIndex := detected.0;
        searchQuery := detected.1;
        showDropdown := true;
        selectedIndex := 0;
      } else {
        ClearingQueryKeepsSelection(AvailableModels(allModels, chatModelIds), searchQuery, selectedIndex);
        showDropdown := false;
        atTriggerIndex := None;
        searchQuery := "";
      }
    }

    /**
     * Replaces the trigger and its query by the chosen option, records the
     * mention and closes the drop-down. Without a trigger nothing happens.
     */
    method SelectMention(option: DropdownOption, stamp: string)
      requires Valid()
      modifies this
      ensures Valid()
      ensures old(atTriggerIndex).None? ==>
        inputValue == old(inputValue) && mentions == old(mentions) && showDropdown == old(showDropdown)
        && searchQuery == old(searchQuery) && atTriggerIndex == None
      ensures old(atTriggerIndex).Some? ==>
        && inputValue == Splice(old(inputValue), old(atTriggerIndex).value, |old(searchQuery)|, option.displayName)
        && mentions == old(mentions) + [RecordedMention(stamp, option, old(atTriggerIndex).value)]
        && !showDropdown && atTriggerIndex == None && searchQuery == ""
      ensures selectedIndex == old(selectedIndex)
      ensures allModels == old(allModels) && chatModelIds == old(chatModelIds) && disabled == old(disabled)
    {
      if atTriggerIndex.None? {
        return;
      }
      var at := atTriggerIndex.value;
      ClearingQueryKeepsSelection(AvailableModels(allModels, chatModelIds), searchQuery, selectedIndex);
      inputValue := Splice(inputValue, at, |searchQuery|, option.displayName);
      mentions := mentions + [RecordedMention(stamp, option, at)];
      showDropdown := false;
      atTriggerIndex := None;
      searchQuery := "";
    }

    /**
     * Sends the trimmed text with the mentions found in the untrimmed text,
     * unless it is blank or the box is disabled, and then empties the box.
     * The trigger, query and drop-down are left as they were.
     */
    method HandleSubmit() returns (sent: Option<Submission>)
      requires Valid()
      modifies this
      ensures Valid()
      ensures Trim(old(inputValue)) != "" && !disabled ==>
        && sent == Some(Submission(Trim(old(inputValue)),
             ExtractedMentions(AvailableModels(allModels, chatModelIds), old(inputValue))))
        && inputValue == "" && mentions == []
      ensures Trim(old(inputValue)) == "" || disabled ==>
        sent == None && inputValue == old(inputValue) && mentions == old(mentions)
      ensures showDropdown == old(showDropdown) && searchQuery == old(searchQuery)
      ensures selectedIndex == old(selectedIndex) && atTriggerIndex == old(atTriggerIndex)
      ensures allModels == old(allModels) && chatModelIds == old(chatModelIds) && disabled == old(disabled)
    {
      if Trim(inputValue) != "" && !disabled {
        var extracted := ExtractMentionsFromText(AvailableModels(allModels, chatModelIds), inputValue);
        sent := Some(Submission(Trim(inputValue), extracted));
        inputValue := "";
        mentions := [];
      } else {
        sent := None;
      }
    }

    /**
     * A key press. With the drop-down open the arrows move the selection,
     * Enter and Tab choose the selected option if there is one, and Escape
     * closes the drop-down; with it closed, Enter without Shift submits.
     * Each path states the whole new state; any other key changes nothing.
     */
    method HandleKeyDown(key: Key, shift: bool, stamp: string) returns (sent: Option<Submission>)
      requires Valid()
      modifies this
      ensures Valid()
      ensures old(showDropdown) && (key == ArrowDown || key == ArrowUp) && |old(Options())| > 0 ==>
        0 <= selectedIndex < |Options()|
      ensures old(showDropdown) && key == ArrowDown ==>
        Snapshot() == old(Snapshot()).(selectedIndex := ArrowDownIndex(old(selectedIndex), |old(Options())|))
      ensures old(showDropdown) && key == ArrowUp ==>
        Snapshot() == old(Snapshot()).(selectedIndex := ArrowUpIndex(old(selectedIndex)))
      ensures old(showDropdown) && key == Escape ==> Snapshot() == old(Snapshot()).(showDropdown := false)
      ensures old(showDropdown) && key == OtherKey ==> Snapshot() == old(Snapshot())
      ensures (old(showDropdown) && (key == Enter || key == Tab)
        && (!(0 <= old(selectedIndex) < |old(Options())|) || old(atTriggerIndex).None?)) ==>
        Snapshot() == old(Snapshot())
      ensures (old(showDropdown) && (key == Enter || key == Tab) && 0 <= old(selectedIndex) < |old(Options())|
        && old(atTriggerIndex).Some?) ==>
        var chosen := old(Options())[old(selectedIndex)];
        Snapshot() == old(Snapshot()).(
          inputValue := Splice(old(inputValue), old(atTriggerIndex).value, |old(searchQuery)|, chosen.displayName),
          mentions := old(mentions) + [RecordedMention(stamp, chosen, old(atTriggerIndex).value)],
          showDropdown := false,
          atTriggerIndex := None,
          searchQuery := "")
      ensures old(showDropdown) ==> sent == None
      ensures !old(showDropdown) && key == Enter && !shift && Trim(old(inputValue)) != "" && !disabled ==>
        && sent == Some(Submission(Trim(old(inputValue)),
             ExtractedMentions(AvailableModels(allModels, chatModelIds), old(inputValue))))
        && Snapshot() == old(Snapshot()).(inputValue := "", mentions := [])
      ensures !old(showDropdown) && !(key == Enter && !shift && Trim(old(inputValue)) != "" && !disabled) ==>
        sent == None && Snapshot() == old(Snapshot())
      ensures allModels == old(allModels) && chatModelIds == old(chatModelIds) && disabled == old(disabled)
    {
      sent := None;
      if showDropdown {
        var options := Options();
        if key == ArrowDown {
          selectedIndex := ArrowDownIndex(selectedIndex, |options|);
        } else if key == ArrowUp {
          selectedIndex := ArrowUpIndex(selectedIndex);
        } else if key == Enter || key == Tab {
          if 0 <= selectedIndex < |options| {
            SelectMention(options[selectedIndex], stamp);
          }
        } else if key == Escape {
          showDropdown := false;
        }
      } else if key == Enter && !shift {
        sent := HandleSubmit();
      }
    }
  }
}
