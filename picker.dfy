/**
  The client's model picker (script.js:194-257, 394-397): which models the
  two filter drop-downs let through, how the survivors are grouped under
  their provider, the provider labels, and the shortened descriptions of
  the model cards.
 */
module Picker {
  import opened Text

  /**
    A model as the client holds it in `allModels`: its id, its display
    name, whether `model.pricing?.is_free` is truthy (false when the entry
    carries no pricing), and `model.categories || []`.
   */
  datatype ModelInfo = ModelInfo(id: string, name: string, free: bool, categories: seq<string>)

  // ---------------------------------------------------------------------------
  // The filter of `populateModelSelect` (script.js:198-210)

  /** Whether `m` passes the price filter `price` and the category filter `category`. */
  predicate Shown(m: ModelInfo, price: string, category: string) {
    && !(price == "free" && !m.free)
    && !(price == "paid" && m.free)
    && (category != "all" ==> category in m.categories)
  }

  function ShownBy(price: string, category: string): ModelInfo -> bool {
    (m: ModelInfo) => Shown(m, price, category)
  }

  /** `this.allModels.filter(...)`: the models offered in the drop-down, in catalogue order. */
  function Visible(models: seq<ModelInfo>, price: string, category: string): seq<ModelInfo> {
    Filter(models, ShownBy(price, category))
  }

  /**
    A model is offered exactly when it is in the catalogue, is free under
    the `free` filter, is not free under the `paid` filter, and carries the
    chosen category unless that is `all`.
   */
  lemma VisibleMembership(models: seq<ModelInfo>, price: string, category: string, m: ModelInfo)
    ensures m in Visible(models, price, category) <==>
      && m in models
      && (price == "free" ==> m.free)
      && (price == "paid" ==> !m.free)
      && (category != "all" ==> category in m.categories)
  {
    if m in models && Shown(m, price, category) {
      FilterKeeps(models, ShownBy(price, category), m);
    }
  }

  /** With no category chosen, the free and the paid lists together hold every model exactly once. */
  lemma FreeAndPaidSplit(models: seq<ModelInfo>)
    ensures multiset(Visible(models, "free", "all")) + multiset(Visible(models, "paid", "all")) == multiset(models)
  {
    FilterPartition(models, ShownBy("free", "all"), ShownBy("paid", "all"));
  }

  /** A price filter other than `free` and `paid`, with no category chosen, hides nothing. */
  lemma UnfilteredShowsAll(models: seq<ModelInfo>, price: string)
    requires price != "free" && price != "paid"
    ensures Visible(models, price, "all") == models
  {
    FilterAll(models, ShownBy(price, "all"));
  }

  // ---------------------------------------------------------------------------
  // Grouping by provider (script.js:231-243)

  /** `id.split('/')[0] || 'other'`: the text before the first slash, or `other` when that is empty. */
  function ProviderKey(id: string): (p: string)
    ensures p != "" && '/' !in p
    ensures (id == "" || id[0] == '/') ==> p == "other"
    ensures !(id == "" || id[0] == '/') ==> StartsWith(id, p) && (|p| == |id| || id[|p|] == '/')
  {
    var head := PrefixBefore(id, '/');
    if head == "" then "other" else head
  }

  /** The provider key of every model, in order. */
  function Keys(models: seq<ModelInfo>): (keys: seq<string>)
    ensures |keys| == |models|
  {
    seq(|models|, i requires 0 <= i < |models| => ProviderKey(models[i].id))
  }

  function InGroup(p: string): ModelInfo -> bool {
    (m: ModelInfo) => ProviderKey(m.id) == p
  }

  /** The models filed under provider `p`, in their original order. */
  function GroupOf(models: seq<ModelInfo>, p: string): seq<ModelInfo> {
    Filter(models, InGroup(p))
  }

  /** One `optgroup`: a provider key and its models. */
  datatype Group = Group(provider: string, models: seq<ModelInfo>)

  function Providers(groups: seq<Group>): (ps: seq<string>)
    ensures |ps| == |groups|
  {
    seq(|groups|, i requires 0 <= i < |groups| => groups[i].provider)
  }

  /** A filter that keeps nothing of `s` yields the empty sequence. */
  lemma FilterNone<T>(s: seq<T>, keep: T -> bool)
    requires forall x :: x in s ==> !keep(x)
    ensures Filter(s, keep) == []
  {
  }

  /** One model filed: the groups of every other provider stay as they were. */
  lemma GroupStep(models: seq<ModelInfo>, m: ModelInfo, q: string)
    ensures GroupOf(models + [m], q) == GroupOf(models, q) + (if ProviderKey(m.id) == q then [m] else [])
  {
    FilterSnoc(models, m, InGroup(q));
  }

  /** One model filed: the provider keys in order of first appearance. */
  lemma KeysStep(models: seq<ModelInfo>, m: ModelInfo)
    ensures Dedup(Keys(models + [m])) ==
      var d := Dedup(Keys(models)); if ProviderKey(m.id) in d then d else d + [ProviderKey(m.id)]
  {
    assert Keys(models + [m]) == Keys(models) + [ProviderKey(m.id)];
    assert (Keys(models) + [ProviderKey(m.id)])[..|models|] == Keys(models);
  }

  /** A provider no model has an empty group. */
  lemma AbsentProvider(models: seq<ModelInfo>, p: string)
    requires p !in Keys(models)
    ensures GroupOf(models, p) == []
  {
    forall x | x in models ensures !InGroup(p)(x) {
      var i :| 0 <= i < |models| && models[i] == x;
      assert Keys(models)[i] == ProviderKey(x.id);
    }
    FilterNone(models, InGroup(p));
  }

  /** Every key of `grouped` is listed in `order` and the other way round. */
  ghost predicate SameKeys(grouped: map<string, seq<ModelInfo>>, order: seq<string>) {
    forall q :: q in grouped <==> q in order
  }

  /** Each list of `grouped` holds exactly its provider's models among `done`, and at least one. */
  ghost predicate Filed(grouped: map<string, seq<ModelInfo>>, done: seq<ModelInfo>) {
    forall q :: q in grouped ==> grouped[q] == GroupOf(done, q) && grouped[q] != []
  }

  /**
    What the dictionary `grouped` and its key order `order` hold once the
    models `done` have been filed.
   */
  ghost predicate Grouping(grouped: map<string, seq<ModelInfo>>, order: seq<string>, done: seq<ModelInfo>) {
    order == Dedup(Keys(done)) && SameKeys(grouped, order) && Filed(grouped, done)
  }

  /** Filing a model whose provider already has a list: push it there. */
  lemma FiledExisting(grouped: map<string, seq<ModelInfo>>, done: seq<ModelInfo>, m: ModelInfo)
    requires Filed(grouped, done)
    requires ProviderKey(m.id) in grouped
    ensures Filed(grouped[ProviderKey(m.id) := grouped[ProviderKey(m.id)] + [m]], done + [m])
  {
    var g := grouped[ProviderKey(m.id) := grouped[ProviderKey(m.id)] + [m]];
    forall q | q in g
      ensures g[q] == GroupOf(done + [m], q) && g[q] != []
    {
      GroupStep(done, m, q);
    }
  }

  /** Filing a model of a provider not seen yet: a new list holding just that model. */
  lemma FiledNew(grouped: map<string, seq<ModelInfo>>, done: seq<ModelInfo>, m: ModelInfo)
    requires Filed(grouped, done)
    requires ProviderKey(m.id) !in Keys(done)
    ensures Filed(grouped[ProviderKey(m.id) := [m]], done + [m])
  {
    var p := ProviderKey(m.id);
    var g := grouped[p := [m]];
    AbsentProvider(done, p);
    forall q | q in g
      ensures g[q] == GroupOf(done + [m], q) && g[q] != []
    {
      GroupStep(done, m, q);
    }
  }

  /** Filing one more model keeps the dictionary, its key order and the filed models in step. */
  lemma FileOne(grouped: map<string, seq<ModelInfo>>, order: seq<string>, done: seq<ModelInfo>, m: ModelInfo)
    requires Grouping(grouped, order, done)
    ensures var p := ProviderKey(m.id);
      if p in grouped then Grouping(grouped[p := grouped[p] + [m]], order, done + [m])
      else Grouping(grouped[p := [m]], order + [p], done + [m])
  {
    var p := ProviderKey(m.id);
    KeysStep(done, m);
    if p in grouped {
      FiledExisting(grouped, done, m);
    } else {
      assert p !in Dedup(Keys(done));
      FiledNew(grouped, done, m);
    }
  }

  /** The dictionary `grouped` and its key order. */
  datatype Filing = Filing(grouped: map<string, seq<ModelInfo>>, order: seq<string>)

  /** One pass of the loop: push `m` onto its provider's list, creating the list first if needed. */
  function File(f: Filing, m: ModelInfo): Filing {
    var p := ProviderKey(m.id);
    if p in f.grouped then Filing(f.grouped[p := f.grouped[p] + [m]], f.order)
    else Filing(f.grouped[p := [m]], f.order + [p])
  }

  /** The dictionary once the first `k` models have been filed. */
  function FiledUpTo(models: seq<ModelInfo>, k: nat): Filing
    requires k <= |models|
    decreases k
  {
    if k == 0 then Filing(map[], []) else File(FiledUpTo(models, k - 1), models[k - 1])
  }

  /** Filing the models one by one builds the dictionary `Grouping` describes. */
  lemma {:induction false} FilingGroups(models: seq<ModelInfo>, k: nat)
    requires k <= |models|
    ensures Grouping(FiledUpTo(models, k).grouped, FiledUpTo(models, k).order, models[..k])
    decreases k
  {
    if k > 0 {
      var f, m := FiledUpTo(models, k - 1), models[k - 1];
      var p := ProviderKey(m.id);
      FilingGroups(models, k - 1);
      assert models[..k] == models[..k - 1] + [m];
      FileOne(f.grouped, f.order, models[..k - 1], m);
      if p in f.grouped {
        assert FiledUpTo(models, k) == Filing(f.grouped[p := f.grouped[p] + [m]], f.order);
      } else {
        assert FiledUpTo(models, k) == Filing(f.grouped[p := [m]], f.order + [p]);
      }
    }
  }

  /**
    `groupModelsByProvider` (script.js:231-243): the dictionary `grouped`,
    with its key order kept in `order`. The keys are the provider keys in
    order of first appearance; each holds exactly that provider's models,
    in their original order, and at least one.
   */
  method GroupModelsByProvider(models: seq<ModelInfo>) returns (grouped: map<string, seq<ModelInfo>>, order: seq<string>)
    ensures order == Dedup(Keys(models))
    ensures forall p :: p in grouped <==> p in order
    ensures forall p :: p in grouped ==> grouped[p] == GroupOf(models, p) && grouped[p] != []
  {
    grouped := map[];
    order := [];
    var k := 0;
    while k < |models|
      invariant 0 <= k <= |models|
      invariant Filing(grouped, order) == FiledUpTo(models, k)
    {
      var m := models[k];
      var provider := ProviderKey(m.id);
      ghost var before := grouped;
      if provider !in grouped {
        grouped := grouped[provider := []];
        order := order + [provider];
      }
      grouped := grouped[provider := grouped[provider] + [m]];
      if provider !in before {
        NewList(before, provider, m);
      }
      k := k + 1;
    }
    FiledAll(models, grouped, order);
  }

  /** Creating an empty list and pushing onto it is creating a one-element list. */
  lemma NewList(grouped: map<string, seq<ModelInfo>>, p: string, m: ModelInfo)
    ensures grouped[p := []][p := grouped[p := []][p] + [m]] == grouped[p := [m]]
  {
    assert [] + [m] == [m];
  }

  /** Once every model is filed, the dictionary is the grouping of all of them. */
  lemma FiledAll(models: seq<ModelInfo>, grouped: map<string, seq<ModelInfo>>, order: seq<string>)
    requires Filing(grouped, order) == FiledUpTo(models, |models|)
    ensures order == Dedup(Keys(models))
    ensures forall p :: p in grouped <==> p in order
    ensures forall p :: p in grouped ==> grouped[p] == GroupOf(models, p) && grouped[p] != []
  {
    FilingGroups(models, |models|);
    assert models[..|models|] == models;
  }

  /** `Object.keys(groupedModels)` in `populateModelSelect` (script.js:214-228): one option group per key, in key order. */
  function OptionGroups(grouped: map<string, seq<ModelInfo>>, order: seq<string>): (groups: seq<Group>)
    requires forall p :: p in order ==> p in grouped
    ensures |groups| == |order|
    ensures forall i :: 0 <= i < |groups| ==> groups[i] == Group(order[i], grouped[order[i]])
  {
    seq(|order|, i requires 0 <= i < |order| => Group(order[i], grouped[order[i]]))
  }

  /**
    The drop-down's option groups: one per provider, in order of first
    appearance, each holding exactly that provider's models.
   */
  lemma GroupsInOrder(models: seq<ModelInfo>, grouped: map<string, seq<ModelInfo>>, order: seq<string>)
    requires Grouping(grouped, order, models)
    ensures forall p :: p in order ==> p in grouped
    ensures var groups := OptionGroups(grouped, order);
      && Providers(groups) == Dedup(Keys(models))
      && forall i :: 0 <= i < |groups| ==>
           groups[i].models == GroupOf(models, groups[i].provider) && groups[i].models != []
  {
    assert Providers(OptionGroups(grouped, order)) == order;
  }

  /**
    Every model lands in the group of its own provider and in no other,
    and that provider has a group.
   */
  lemma GroupedOnce(models: seq<ModelInfo>, m: ModelInfo, q: string)
    requires m in models
    ensures ProviderKey(m.id) in Dedup(Keys(models))
    ensures m in GroupOf(models, ProviderKey(m.id))
    ensures q != ProviderKey(m.id) ==> m !in GroupOf(models, q)
  {
    var i :| 0 <= i < |models| && models[i] == m;
    assert Keys(models)[i] == ProviderKey(m.id);
    FilterKeeps(models, InGroup(ProviderKey(m.id)), m);
  }

  // ---------------------------------------------------------------------------
  // Provider labels (script.js:245-257)

  /** The providers with a hand-written label. */
  const ProviderNames: map<string, string> := map[
    "meta-llama" := "Meta (Llama)",
    "google" := "Google",
    "mistralai" := "Mistral AI",
    "deepseek" := "DeepSeek",
    "qwen" := "Qwen",
    "anthropic" := "Anthropic",
    "openai" := "OpenAI"
  ]

  /** `s.charAt(0).toUpperCase() + s.slice(1)`. */
  function Capitalize(s: string): (r: string)
    ensures |r| == |s|
  {
    if s == "" then "" else [UpperChar(s[0])] + s[1..]
  }

  /** `formatProviderName`: the hand-written label, or the key with its first letter in upper case. */
  function FormatProviderName(provider: string): (r: string)
    ensures provider in ProviderNames ==> r == ProviderNames[provider]
    ensures provider != "" ==> r != ""
  {
    if provider in ProviderNames then ProviderNames[provider] else Capitalize(provider)
  }

  /**
    An unlisted provider's label is its key with the first letter in upper
    case and the rest unchanged: same length, same text once both are
    lower-cased.
   */
  lemma UnlistedLabel(provider: string)
    requires provider !in ProviderNames
    ensures |FormatProviderName(provider)| == |provider|
    ensures Lower(FormatProviderName(provider)) == Lower(provider)
    ensures provider != "" ==> !IsAsciiLower(FormatProviderName(provider)[0])
    ensures provider != "" ==>
      FormatProviderName(provider)[0] == UpperChar(provider[0]) && FormatProviderName(provider)[1..] == provider[1..]
  {
    var r := FormatProviderName(provider);
    forall i | 0 <= i < |r| ensures LowerChar(r[i]) == LowerChar(provider[i]) {
      if i == 0 {
        assert r[0] == UpperChar(provider[0]);
      } else {
        assert r[i] == provider[i];
      }
    }
  }

  // ---------------------------------------------------------------------------
  // Card descriptions (script.js:394-397)

  const DescriptionLimit: nat := 200

  /**
    `truncateDescription`: at most 200 characters of the description, with
    `...` appended when something was cut. A missing description is given
    as the empty string; both yield the empty string.
   */
  function TruncateDescription(description: string): (r: string)
    ensures |r| <= DescriptionLimit + 3
    ensures |description| <= DescriptionLimit ==> r == description
    ensures |description| > DescriptionLimit ==> r == description[..DescriptionLimit] + "..."
  {
    if |description| > DescriptionLimit then description[..DescriptionLimit] + "..." else description
  }

  /** Shortening a shortened description changes nothing. */
  lemma TruncateIdempotent(description: string)
    ensures TruncateDescription(TruncateDescription(description)) == TruncateDescription(description)
  {
    var r := TruncateDescription(description);
    if |description| > DescriptionLimit {
      assert r[..DescriptionLimit] == description[..DescriptionLimit];
    }
  }
}
