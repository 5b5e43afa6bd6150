/**
  The server's model catalogue (app.py): the entries `get_models` builds
  (with the fallback list it returns when the upstream catalogue cannot be
  read), the price and category filters of `/api/models`, and the sorted,
  labelled category list of `/api/categories`.

  The upstream request is a parameter: `Some(records)` when the catalogue
  answered, `None` when `get_models` fell back.
 */
module Catalog {
  import opened Wrappers
  import opened Text
  import opened Tags

  /** A catalogue entry as the client receives it. */
  datatype CatalogEntry = CatalogEntry(
    id: string,
    name: string,
    pricing: Option<bool>,              // pricing.is_free; None when the entry has no 'pricing'
    categories: Option<set<string>>)    // None when the entry has no 'categories'

  // ---------------------------------------------------------------------------
  // get_models (app.py:110-229)

  /** The names of a set of tags. */
  function Names(cs: set<Category>): set<string> {
    set c | c in cs :: Name(c)
  }

  /** A string is among the names exactly when it parses to one of the tags. */
  lemma NamesMembership(cs: set<Category>, s: string)
    ensures s in Names(cs) <==> Parse(s).Some? && Parse(s).value in cs
  {
    if s in Names(cs) {
      var c :| c in cs && Name(c) == s;
      ParseName(c);
    }
    ParseSound(s);
  }

  /** The prompt price the filter compares, '0' when the model has no pricing or no prompt price. */
  function PromptPrice(m: RawModel): string {
    if m.promptPrice.Some? then m.promptPrice.value else "0"
  }

  /** Free when the prompt price is the string '0' or the id contains ':free'. */
  predicate IsFree(m: RawModel) {
    PromptPrice(m) == "0" || Contains(m.id, ":free")
  }

  /** The entry `get_models` builds for a record ('Unknown' when it has no name). */
  function ToEntry(m: RawModel): (e: CatalogEntry)
    ensures e.id == m.id && e.pricing == Some(IsFree(m)) && e.categories.Some?
  {
    CatalogEntry(m.id, if m.name.Some? then m.name.value else "Unknown",
                 Some(IsFree(m)), Some(Names(GenerateModelCategories(m))))
  }

  /** An entry's 'categories' are the names of the record's tags. */
  lemma EntryCategories(m: RawModel, s: string)
    ensures s in ToEntry(m).categories.value <==>
      Parse(s).Some? && Parse(s).value in GenerateModelCategories(m)
  {
    NamesMembership(GenerateModelCategories(m), s);
  }

  /** `filter_type` keeps a model: 'free' only free ones, 'paid' only the others, anything else all. */
  predicate KeepsPrice(filterType: string, free: bool) {
    !(filterType == "free" && !free) && !(filterType == "paid" && free)
  }

  /** The entry of every record, in catalogue order. */
  function Entries(raws: seq<RawModel>): (es: seq<CatalogEntry>)
    ensures |es| == |raws|
    ensures forall i :: 0 <= i < |raws| ==> es[i] == ToEntry(raws[i])
  {
    seq(|raws|, i requires 0 <= i < |raws| => ToEntry(raws[i]))
  }

  /** `filter_type` keeps an entry built by `get_models` (whose pricing is always present). */
  predicate KeepsEntry(filterType: string, e: CatalogEntry) {
    KeepsPrice(filterType, e.pricing == Some(true))
  }

  /**
    The entries `get_models` builds from the records the catalogue returned:
    the loop skips the records the price filter rejects and builds an entry
    for each of the others, in order.
   */
  function Listed(raws: seq<RawModel>, filterType: string): seq<CatalogEntry> {
    Filter(Entries(raws), Keeps(filterType))
  }

  function Keeps(filterType: string): CatalogEntry -> bool {
    e => KeepsEntry(filterType, e)
  }

  /**
    An entry is listed exactly when it is built from a record the price
    filter keeps.
   */
  lemma ListedMembership(raws: seq<RawModel>, filterType: string, e: CatalogEntry)
    ensures e in Listed(raws, filterType) <==>
      exists i :: 0 <= i < |raws| && e == ToEntry(raws[i]) && KeepsPrice(filterType, IsFree(raws[i]))
  {
    if e in Listed(raws, filterType) {
      ListedFrom(raws, filterType, e);
    }
    if exists i :: 0 <= i < |raws| && e == ToEntry(raws[i]) && KeepsPrice(filterType, IsFree(raws[i])) {
      var i :| 0 <= i < |raws| && e == ToEntry(raws[i]) && KeepsPrice(filterType, IsFree(raws[i]));
      ListedKeeps(raws, filterType, i);
    }
  }

  lemma ListedFrom(raws: seq<RawModel>, filterType: string, e: CatalogEntry)
    requires e in Listed(raws, filterType)
    ensures exists i :: 0 <= i < |raws| && e == ToEntry(raws[i]) && KeepsPrice(filterType, IsFree(raws[i]))
  {
    var es := Entries(raws);
    assert e in es && Keeps(filterType)(e);
    var i :| 0 <= i < |es| && es[i] == e;
  }

  lemma ListedKeeps(raws: seq<RawModel>, filterType: string, i: int)
    requires 0 <= i < |raws| && KeepsPrice(filterType, IsFree(raws[i]))
    ensures ToEntry(raws[i]) in Listed(raws, filterType)
  {
    var es := Entries(raws);
    assert es[i] in es;
    FilterKeeps(es, Keeps(filterType), es[i]);
  }

  /** With no 'free' or 'paid' filter every record is listed, in catalogue order. */
  lemma ListedUnfiltered(raws: seq<RawModel>, filterType: string)
    requires filterType != "free" && filterType != "paid"
    ensures Listed(raws, filterType) == Entries(raws)
  {
    FilterAll(Entries(raws), Keeps(filterType));
  }

  /** The four models `get_models` returns when the catalogue cannot be read: no pricing, no tags. */
  const FallbackModels: seq<CatalogEntry> := [
    CatalogEntry("meta-llama/llama-3.1-8b-instruct:free", "Llama 3.1 8B (Free)", None, None),
    CatalogEntry("google/gemma-2-9b-it:free", "Gemma 2 9B (Free)", None, None),
    CatalogEntry("mistralai/mistral-7b-instruct:free", "Mistral 7B (Free)", None, None),
    CatalogEntry("qwen/qwen-2.5-72b-instruct:free", "Qwen 2.5 72B (Free)", None, None)
  ]

  /** `get_models(filter_type)`: the listed entries, or the fallback list (whatever the filter) on failure. */
  function GetModels(upstream: Option<seq<RawModel>>, filterType: string): seq<CatalogEntry> {
    if upstream.Some? then Listed(upstream.value, filterType) else FallbackModels
  }

  // ---------------------------------------------------------------------------
  // /api/models (app.py:390-420)

  /** The reply of `/api/models` when it succeeds. */
  datatype ModelsPage = ModelsPage(models: seq<CatalogEntry>, count: nat, priceFilter: string, categoryFilter: string)

  /** `model.get('categories', [])`. */
  function CategoriesOf(e: CatalogEntry): set<string> {
    if e.categories.Some? then e.categories.value else {}
  }

  predicate IsFreeEntry(e: CatalogEntry) { e.pricing == Some(true) }
  /** `not m['pricing']['is_free']`, read only once every entry is known to have pricing. */
  predicate IsPaidEntry(e: CatalogEntry) { !IsFreeEntry(e) }

  /** What the endpoint keeps of an entry that has pricing. */
  predicate PassesServerFilters(e: CatalogEntry, price: string, category: string) {
    && (price == "free" ==> IsFreeEntry(e))
    && (price == "paid" ==> IsPaidEntry(e))
    && (category != "all" ==> category in CategoriesOf(e))
  }

  /** The endpoint's price and category filters as one test on an entry. */
  function ServerKeeps(price: string, category: string): CatalogEntry -> bool {
    e => PassesServerFilters(e, price, category)
  }

  /** `category_filter in m.get('categories', [])`. */
  function InCategory(category: string): CatalogEntry -> bool {
    e => category in CategoriesOf(e)
  }

  /** The two comprehensions of the endpoint, price first, then category. */
  function ServerFiltered(models: seq<CatalogEntry>, price: string, category: string): seq<CatalogEntry> {
    var byPrice :=
      if price == "free" then Filter(models, IsFreeEntry)
      else if price == "paid" then Filter(models, IsPaidEntry)
      else models;
    if category != "all" then Filter(byPrice, InCategory(category)) else byPrice
  }

  /** The two comprehensions in turn keep, in order, the entries that pass both filters. */
  lemma ServerFilteredInOrder(models: seq<CatalogEntry>, price: string, category: string)
    ensures ServerFiltered(models, price, category) == Filter(models, ServerKeeps(price, category))
  {
    var keep := ServerKeeps(price, category);
    if price == "free" || price == "paid" {
      var byPrice := if price == "free" then IsFreeEntry else IsPaidEntry;
      assert ServerFiltered(models, price, category) ==
        if category != "all" then Filter(Filter(models, byPrice), InCategory(category)) else Filter(models, byPrice);
      if category != "all" {
        FilterTwice(models, byPrice, InCategory(category), keep);
      } else {
        FilterSame(models, byPrice, keep);
      }
    } else if category != "all" {
      FilterSame(models, InCategory(category), keep);
    } else {
      FilterAll(models, keep);
    }
  }

  /**
    The endpoint's filters over the entries: 'free' and 'paid' read
    `m['pricing']['is_free']`, which raises KeyError('pricing') for an entry
    without pricing (the endpoint then answers 500 with the error text);
    a category other than 'all' must be among the entry's tags. The page
    keeps the entries' order and multiplicity.
   */
  function FilterPage(models: seq<CatalogEntry>, price: string, category: string): (r: Result<ModelsPage, string>)
    ensures r.Failure? <==> (price == "free" || price == "paid") && exists e :: e in models && e.pricing.None?
    ensures r.Failure? ==> r.error == "'pricing'"
    ensures r.Success? ==> r.value.models == Filter(models, ServerKeeps(price, category))
    ensures r.Success? ==> r.value.count == |r.value.models| && |r.value.models| <= |models|
    ensures r.Success? ==> r.value.priceFilter == price && r.value.categoryFilter == category
    ensures r.Success? ==> forall e :: e in r.value.models <==> e in models && PassesServerFilters(e, price, category)
  {
    if (price == "free" || price == "paid") && exists e :: e in models && e.pricing.None? then
      Failure("'pricing'")
    else
      var page := ServerFiltered(models, price, category);
      ServerFilteredInOrder(models, price, category);
      assert forall e :: e in models && PassesServerFilters(e, price, category) ==> e in page by {
        forall e | e in models && PassesServerFilters(e, price, category) ensures e in page {
          FilterKeeps(models, ServerKeeps(price, category), e);
        }
      }
      Success(ModelsPage(page, |page|, price, category))
  }

  /** `/api/models?price=…&category=…`: the filters applied to `get_models('all')`. */
  function ModelsEndpoint(upstream: Option<seq<RawModel>>, price: string, category: string): Result<ModelsPage, string> {
    FilterPage(GetModels(upstream, "all"), price, category)
  }

  /** Every entry `get_models` builds has pricing and tags. */
  lemma ListedPriced(raws: seq<RawModel>, filterType: string)
    ensures forall e :: e in Listed(raws, filterType) ==> e.pricing.Some? && e.categories.Some?
  {
  }

  lemma KeepsFree()
    ensures forall e :: IsFreeEntry(e) == Keeps("free")(e)
  {
  }

  lemma KeepsPaid()
    ensures forall e :: IsPaidEntry(e) == Keeps("paid")(e)
  {
  }

  /**
    Filtering after listing, as the endpoint does, gives the same list, in
    the same order, as `get_models` filtering while it lists.
   */
  lemma ListedFilter(raws: seq<RawModel>)
    ensures Filter(Listed(raws, "all"), IsFreeEntry) == Listed(raws, "free")
    ensures Filter(Listed(raws, "all"), IsPaidEntry) == Listed(raws, "paid")
  {
    ListedUnfiltered(raws, "all");
    KeepsFree();
    FilterSame(Entries(raws), IsFreeEntry, Keeps("free"));
    KeepsPaid();
    FilterSame(Entries(raws), IsPaidEntry, Keeps("paid"));
  }

  /**
    So the endpoint's page for a price filter is what `get_models` lists for
    that filter, narrowed to the category unless it is 'all', in order.
   */
  lemma EndpointAgreesWithGetModels(raws: seq<RawModel>, price: string, category: string)
    ensures ModelsEndpoint(Some(raws), price, category).Success?
    ensures ModelsEndpoint(Some(raws), price, category).value.models ==
      if category == "all" then Listed(raws, price) else Filter(Listed(raws, price), InCategory(category))
  {
    ListedPriced(raws, "all");
    if price == "free" {
      ListedFilter(raws);
      NarrowedPage(Listed(raws, "all"), IsFreeEntry, price, category);
    } else if price == "paid" {
      ListedFilter(raws);
      NarrowedPage(Listed(raws, "all"), IsPaidEntry, price, category);
    } else {
      ListedUnfiltered(raws, price);
      ListedUnfiltered(raws, "all");
      UnpricedPage(Listed(raws, "all"), price, category);
    }
  }

  /** With a price filter, the endpoint's test is that filter, then the category. */
  lemma NarrowedPage(all: seq<CatalogEntry>, byPrice: CatalogEntry -> bool, price: string, category: string)
    requires forall e :: byPrice(e) == ((price == "free" ==> IsFreeEntry(e)) && (price == "paid" ==> IsPaidEntry(e)))
    ensures Filter(all, ServerKeeps(price, category)) ==
      if category == "all" then Filter(all, byPrice) else Filter(Filter(all, byPrice), InCategory(category))
  {
    if category != "all" {
      FilterTwice(all, byPrice, InCategory(category), ServerKeeps(price, category));
    } else {
      FilterSame(all, byPrice, ServerKeeps(price, category));
    }
  }

  /** Without a price filter, the endpoint's test is the category alone. */
  lemma UnpricedPage(all: seq<CatalogEntry>, price: string, category: string)
    requires price != "free" && price != "paid"
    ensures Filter(all, ServerKeeps(price, category)) ==
      if category == "all" then all else Filter(all, InCategory(category))
  {
    if category != "all" {
      FilterSame(all, InCategory(category), ServerKeeps(price, category));
    } else {
      FilterAll(all, ServerKeeps(price, category));
    }
  }

  /**
    When the catalogue cannot be read, the fallback entries have no pricing,
    so a 'free' or 'paid' request fails with KeyError('pricing'), and no
    category other than 'all' matches any of them.
   */
  lemma FallbackEndpoint(price: string, category: string)
    ensures (price == "free" || price == "paid") ==>
      ModelsEndpoint(None, price, category) == Failure("'pricing'")
    ensures price != "free" && price != "paid" && category != "all" ==>
      ModelsEndpoint(None, price, category).Success? &&
      ModelsEndpoint(None, price, category).value.count == 0
  {
    assert FallbackModels[0] in FallbackModels;
    var r := ModelsEndpoint(None, price, category);
    if r.Success? {
      FirstIsMember(r.value.models);
    }
  }

  /** The free and the paid listings split the full listing. */
  lemma ListedSplit(raws: seq<RawModel>)
    ensures multiset(Listed(raws, "free")) + multiset(Listed(raws, "paid")) == multiset(Listed(raws, "all"))
    ensures |Listed(raws, "free")| + |Listed(raws, "paid")| == |raws|
  {
    var all := Listed(raws, "all");
    ListedFilter(raws);
    ListedUnfiltered(raws, "all");
    FilterPartition(all, IsFreeEntry, IsPaidEntry);
    assert |multiset(Listed(raws, "free"))| + |multiset(Listed(raws, "paid"))| == |multiset(all)|;
  }

  /**
    When the catalogue answered, the 'free' and 'paid' pages split it: each
    entry is on exactly one of them, and the two counts add up.
   */
  lemma FreeAndPaidPartition(raws: seq<RawModel>)
    ensures ModelsEndpoint(Some(raws), "free", "all").Success?
    ensures ModelsEndpoint(Some(raws), "paid", "all").Success?
    ensures var free, paid := ModelsEndpoint(Some(raws), "free", "all").value, ModelsEndpoint(Some(raws), "paid", "all").value;
      && free.count + paid.count == |raws|
      && multiset(free.models) + multiset(paid.models) == multiset(Listed(raws, "all"))
  {
    EndpointAgreesWithGetModels(raws, "free", "all");
    EndpointAgreesWithGetModels(raws, "paid", "all");
    ListedSplit(raws);
  }

  // ---------------------------------------------------------------------------
  // /api/categories (app.py:422-477)

  /** One entry of the category list: the tag and the label shown for it. */
  datatype CategoryOption = CategoryOption(value: string, display: string)

  /** The union of every entry's tags (`all_categories.update(model.get('categories', []))`). */
  function AllCategories(models: seq<CatalogEntry>): set<string> {
    if |models| == 0 then {}
    else
      AllCategories(models[..|models| - 1]) + CategoriesOf(models[|models| - 1])
  }

  /** A tag is in the union exactly when some entry carries it. */
  lemma {:induction false} AllCategoriesMembership(models: seq<CatalogEntry>, c: string)
    ensures c in AllCategories(models) <==> exists i :: 0 <= i < |models| && c in CategoriesOf(models[i])
  {
    if |models| > 0 {
      var init := models[..|models| - 1];
      AllCategoriesMembership(init, c);
      assert forall i :: 0 <= i < |init| ==> init[i] == models[i];
    }
  }

  /** The listed tags are exactly the names of the tags some model generates. */
  lemma ListedCategories(raws: seq<RawModel>, s: string)
    ensures s in AllCategories(GetModels(Some(raws), "all")) <==>
      Parse(s).Some? && exists i :: 0 <= i < |raws| && Parse(s).value in GenerateModelCategories(raws[i])
  {
    if s in AllCategories(GetModels(Some(raws), "all")) {
      ListedTagGenerated(raws, s);
    }
    if Parse(s).Some? && exists i :: 0 <= i < |raws| && Parse(s).value in GenerateModelCategories(raws[i]) {
      var i :| 0 <= i < |raws| && Parse(s).value in GenerateModelCategories(raws[i]);
      GeneratedTagListed(raws, s, i);
    }
  }

  /** A listed tag is the name of a tag some record generates. */
  lemma ListedTagGenerated(raws: seq<RawModel>, s: string)
    requires s in AllCategories(GetModels(Some(raws), "all"))
    ensures Parse(s).Some? && exists i :: 0 <= i < |raws| && Parse(s).value in GenerateModelCategories(raws[i])
  {
    var models := Listed(raws, "all");
    ListedUnfiltered(raws, "all");
    AllCategoriesMembership(models, s);
    var i :| 0 <= i < |models| && s in CategoriesOf(models[i]);
    EntryCategories(raws[i], s);
  }

  /** The name of a tag record `i` generates is listed. */
  lemma GeneratedTagListed(raws: seq<RawModel>, s: string, i: int)
    requires 0 <= i < |raws| && Parse(s).Some? && Parse(s).value in GenerateModelCategories(raws[i])
    ensures s in AllCategories(GetModels(Some(raws), "all"))
  {
    var models := Listed(raws, "all");
    ListedUnfiltered(raws, "all");
    EntryCategories(raws[i], s);
    assert s in CategoriesOf(models[i]);
    AllCategoriesMembership(models, s);
  }

  /** The fallback entries carry no tags, so the category list is then empty. */
  lemma FallbackCategories()
    ensures AllCategories(GetModels(None, "all")) == {}
  {
    forall s ensures s !in AllCategories(FallbackModels) {
      AllCategoriesMembership(FallbackModels, s);
    }
  }

  /** Python's `str.title()` on ASCII: a letter is upper-cased after a non-letter and lower-cased after a letter. */
  function TitleFrom(s: string, afterLetter: bool): (r: string)
    ensures |r| == |s|
    ensures forall i :: 0 <= i < |s| ==> (IsAsciiLetter(r[i]) <==> IsAsciiLetter(s[i]))
    ensures forall i :: 0 <= i < |s| ==>
      r[i] == if (if i == 0 then afterLetter else IsAsciiLetter(s[i - 1])) then LowerChar(s[i]) else UpperChar(s[i])
  {
    if |s| == 0 then ""
    else [if afterLetter then LowerChar(s[0]) else UpperChar(s[0])] + TitleFrom(s[1..], IsAsciiLetter(s[0]))
  }

  function Title(s: string): string {
    TitleFrom(s, false)
  }

  lemma {:induction false} TitleFromIdempotent(s: string, afterLetter: bool)
    ensures TitleFrom(TitleFrom(s, afterLetter), afterLetter) == TitleFrom(s, afterLetter)
  {
    if |s| > 0 {
      var t := TitleFrom(s, afterLetter);
      TitleFromIdempotent(s[1..], IsAsciiLetter(s[0]));
      assert t[1..] == TitleFrom(s[1..], IsAsciiLetter(s[0]));
      assert IsAsciiLetter(t[0]) == IsAsciiLetter(s[0]);
    }
  }

  /** Title-casing twice is title-casing once, and it keeps the length. */
  lemma TitleIdempotent(s: string)
    ensures Title(Title(s)) == Title(s)
    ensures |Title(s)| == |s|
  {
    TitleFromIdempotent(s, false);
  }

  /** `category_display_names.get(category, category.title())`. */
  function Label(s: string): string {
    match Parse(s)
    case Some(c) => Display(c)
    case None => Title(s)
  }

  /** A known tag is labelled by its display name. */
  lemma LabelOfTag(c: Category)
    ensures Label(Name(c)) == Display(c)
  {
    ParseName(c);
  }

  /** Any other string is labelled by its title case. */
  lemma LabelOfOther(s: string)
    requires forall c :: Name(c) != s
    ensures Label(s) == Title(s)
  {
    ParseSound(s);
  }

  /** The loop of `get_categories` that gathers every entry's tags into one set. */
  method CollectCategories(models: seq<CatalogEntry>) returns (all: set<string>)
    ensures all == AllCategories(models)
  {
    all := {};
    var k := 0;
    while k < |models|
      invariant 0 <= k <= |models|
      invariant all == AllCategories(models[..k])
    {
      assert models[..k + 1][..k] == models[..k];
      all := all + CategoriesOf(models[k]);
      k := k + 1;
    }
    assert models[..|models|] == models;
  }

  /**
    The loop over `sorted(all_categories)`: each tag once, in ascending
    code-point order, with its label.
   */
  method LabelledInOrder(all: set<string>) returns (options: seq<CategoryOption>)
    ensures forall i, j :: 0 <= i < j < |options| ==> LexLess(options[i].value, options[j].value)
    ensures forall c :: c in all <==> exists i :: 0 <= i < |options| && options[i].value == c
    ensures forall i :: 0 <= i < |options| ==> options[i].display == Label(options[i].value)
  {
    var remaining := all;
    options := [];
    while remaining != {}
      invariant LabelledSoFar(all, remaining, options)
      decreases remaining
    {
      LeastExists(remaining);
      var c :| IsLeast(c, remaining);
      LabelNext(all, remaining, options, c);
      options := options + [CategoryOption(c, Label(c))];
      remaining := remaining - {c};
    }
  }

  /**
    The loop's state: the tags still to place are `remaining`, the others
    are labelled in `options` once each, in ascending order, all before
    any remaining tag.
   */
  ghost predicate LabelledSoFar(all: set<string>, remaining: set<string>, options: seq<CategoryOption>) {
    && remaining <= all
    && (forall i :: 0 <= i < |options| ==>
          options[i].value in all && options[i].value !in remaining && options[i].display == Label(options[i].value))
    && (forall c :: c in all ==> c in remaining || exists i :: 0 <= i < |options| && options[i].value == c)
    && (forall i, j :: 0 <= i < j < |options| ==> LexLess(options[i].value, options[j].value))
    && (forall i, x :: 0 <= i < |options| && x in remaining ==> LexLess(options[i].value, x))
  }

  /** Placing the least remaining tag next keeps the loop's state. */
  lemma LabelNext(all: set<string>, remaining: set<string>, options: seq<CategoryOption>, c: string)
    requires LabelledSoFar(all, remaining, options)
    requires IsLeast(c, remaining)
    ensures LabelledSoFar(all, remaining - {c}, options + [CategoryOption(c, Label(c))])
  {
    var next := options + [CategoryOption(c, Label(c))];
    assert forall i :: 0 <= i < |options| ==> next[i] == options[i];
    assert next[|options|].value == c;
  }

  /** `get_categories`: the labelled, sorted union of the tags of `get_models('all')`. */
  method GetCategories(upstream: Option<seq<RawModel>>) returns (options: seq<CategoryOption>)
    ensures forall i, j :: 0 <= i < j < |options| ==> LexLess(options[i].value, options[j].value)
    ensures forall c :: c in AllCategories(GetModels(upstream, "all")) <==>
      exists i :: 0 <= i < |options| && options[i].value == c
    ensures forall i :: 0 <= i < |options| ==> options[i].display == Label(options[i].value)
  {
    var all := CollectCategories(GetModels(upstream, "all"));
    options := LabelledInOrder(all);
  }
}
