/**
  The tags the server derives from a catalogue record's metadata
  (`generate_model_categories` in app.py), the tag vocabulary and its
  display labels.
 */
module Tags {
  import opened Wrappers
  import opened Text

  /** The `context_length` of a model: an `int` (Python `isinstance(x, int)`), or any other JSON value. */
  datatype ContextLength = IntLength(n: int) | NotAnInt

  /**
    One record of the upstream catalogue, as `generate_model_categories` and
    `get_models` read it. A missing `id` or `description` reads as '' (the
    `.get(..., '')` of the tag rules and of the free test), a missing
    `context_length` as IntLength(0); `name` and the pricing's
    `prompt` keep their absence because their defaults differ between uses.
   */
  datatype RawModel = RawModel(
    id: string,
    name: Option<string>,
    description: string,
    inputModalities: seq<string>,       // architecture.input_modalities
    capabilityParameters: seq<string>,  // capabilities.supported_parameters
    contextLength: ContextLength,
    promptPrice: Option<string>)        // pricing.prompt

  // ---------------------------------------------------------------------------
  // The tag vocabulary (app.py:36-108 and app.py:434-461)

  /** Every tag `generate_model_categories` can produce. */
  datatype Category =
    | Vision | Multimodal | Tools | Reasoning | Code | Math | Creative | Roleplay | Uncensored
    | Fast | Large | Small | LongContext | MediumContext | ShortContext
    | OpenSource | General | Popular | Research | Advanced | Efficient | Multilingual
    | Enterprise | Helpful | Search | Embeddings

  /** The tag as it appears in an entry's 'categories'. */
  function Name(c: Category): string {
    match c
    case Vision => "vision"
    case Multimodal => "multimodal"
    case Tools => "tools"
    case Reasoning => "reasoning"
    case Code => "code"
    case Math => "math"
    case Creative => "creative"
    case Roleplay => "roleplay"
    case Uncensored => "uncensored"
    case Fast => "fast"
    case Large => "large"
    case Small => "small"
    case LongContext => "long-context"
    case MediumContext => "medium-context"
    case ShortContext => "short-context"
    case OpenSource => "open-source"
    case General => "general"
    case Popular => "popular"
    case Research => "research"
    case Advanced => "advanced"
    case Efficient => "efficient"
    case Multilingual => "multilingual"
    case Enterprise => "enterprise"
    case Helpful => "helpful"
    case Search => "search"
    case Embeddings => "embeddings"
  }

  /**
    The tag a string names, if any: the lookup in `category_display_names`.
    No two tag names agree in length and first two characters, so those pick
    the only name that can match, and one comparison decides.
   */
  function Parse(s: string): Option<Category> {
    if |s| < 4 then None
    else
      var c := Candidate(|s|, s[0], s[1]);
      if c.Some? && Name(c.value) == s then c else None
  }

  function Candidate(n: nat, c0: char, c1: char): Option<Category> {
    if n == 4 then (if c0 == 'c' then Some(Code) else if c0 == 'm' then Some(Math) else if c0 == 'f' then Some(Fast) else None)
    else if n == 5 then (if c0 == 't' then Some(Tools) else if c0 == 'l' then Some(Large) else if c0 == 's' then Some(Small) else None)
    else if n == 6 then (if c0 == 'v' then Some(Vision) else if c0 == 's' then Some(Search) else None)
    else if n == 7 then (if c0 == 'g' then Some(General) else if c0 == 'p' then Some(Popular) else if c0 == 'h' then Some(Helpful) else None)
    else if n == 8 then
      (if c0 == 'c' then Some(Creative) else if c0 == 'a' then Some(Advanced)
       else if c0 == 'r' && c1 == 'o' then Some(Roleplay) else if c0 == 'r' && c1 == 'e' then Some(Research) else None)
    else if n == 9 then (if c0 == 'r' then Some(Reasoning) else if c0 == 'e' then Some(Efficient) else None)
    else if n == 10 then
      (if c0 == 'm' then Some(Multimodal) else if c0 == 'u' then Some(Uncensored)
       else if c0 == 'e' && c1 == 'n' then Some(Enterprise) else if c0 == 'e' && c1 == 'm' then Some(Embeddings) else None)
    else if n == 11 then (if c0 == 'o' then Some(OpenSource) else None)
    else if n == 12 then (if c0 == 'l' then Some(LongContext) else if c0 == 'm' then Some(Multilingual) else None)
    else if n == 13 then (if c0 == 's' then Some(ShortContext) else None)
    else if n == 14 then (if c0 == 'm' then Some(MediumContext) else None)
    else None
  }

  /** A string parses to a tag only when it is that tag's name. */
  lemma ParseSound(s: string)
    ensures Parse(s).Some? ==> Name(Parse(s).value) == s
  {
  }

  /** Every tag's name parses back to the tag. */
  lemma ParseName(c: Category)
    ensures Parse(Name(c)) == Some(c)
  {
  }

  /** So no two tags share a name. */
  lemma NameInjective(a: Category, b: Category)
    requires Name(a) == Name(b)
    ensures a == b
  {
    ParseName(a);
    ParseName(b);
  }

  /**
    The label `category_display_names` gives a tag, character for character
    as the table in app.py:434-461 spells it: the table's emoji are stored
    there UTF-8-encoded and decoded again as Windows-1252 text, so each
    label is that sequence of characters, a space and the tag in words.
   */
  function Display(c: Category): string {
    match c
    case Vision => "\U{F0}\U{178}\U{2018}\U{EF}\U{B8} Vision"
    case Multimodal => "\U{F0}\U{178}\U{201D}\U{201E} Multimodal"
    case Tools => "\U{F0}\U{178}\U{203A}\U{A0}\U{EF}\U{B8} Tools"
    case Reasoning => "\U{F0}\U{178}\U{A7}\U{A0} Reasoning"
    case Code => "\U{F0}\U{178}\U{2019}\U{BB} Code"
    case Math => "\U{F0}\U{178}\U{201D}\U{A2} Math"
    case Creative => "\U{F0}\U{178}\U{17D}\U{A8} Creative"
    case Roleplay => "\U{F0}\U{178}\U{17D}\U{AD} Roleplay"
    case Uncensored => "\U{F0}\U{178}\U{201D}\U{201C} Uncensored"
    case Fast => "\U{E2}\U{161}\U{A1} Fast"
    case Large => "\U{F0}\U{178}\U{201C} Large"
    case Small => "\U{F0}\U{178}\U{201C}\U{A6} Small"
    case LongContext => "\U{F0}\U{178}\U{201C}\U{153} Long Context"
    case MediumContext => "\U{F0}\U{178}\U{201C}\U{201E} Medium Context"
    case ShortContext => "\U{F0}\U{178}\U{201C} Short Context"
    case OpenSource => "\U{F0}\U{178}\U{152} Open Source"
    case General => "\U{F0}\U{178}\U{152} General"
    case Popular => "\U{E2}\U{AD} Popular"
    case Research => "\U{F0}\U{178}\U{201D}\U{AC} Research"
    case Advanced => "\U{F0}\U{178}\U{161}\U{20AC} Advanced"
    case Efficient => "\U{E2}\U{161}\U{2122}\U{EF}\U{B8} Efficient"
    case Multilingual => "\U{F0}\U{178}\U{152}\U{17D} Multilingual"
    case Enterprise => "\U{F0}\U{178}\U{A2} Enterprise"
    case Helpful => "\U{F0}\U{178}\U{A4} Helpful"
    case Search => "\U{F0}\U{178}\U{201D} Search"
    case Embeddings => "\U{F0}\U{178}\U{201D}\U{2014} Embeddings"
  }

  // ---------------------------------------------------------------------------
  // generate_model_categories (app.py:36-108)

  /** The keyword categories, in the order of the `content_keywords` table. */
  const KeywordOrder: seq<Category> :=
    [Code, Math, Reasoning, Creative, Roleplay, Uncensored, Fast, Large, Small]

  /** The keywords of a keyword category (none for the others). */
  function Keywords(c: Category): seq<string> {
    match c
    case Code => ["code", "programming", "developer", "coding", "github", "python", "javascript"]
    case Math => ["math", "mathematical", "calculation", "solver", "theorem"]
    case Reasoning => ["reasoning", "logic", "analysis", "think", "step-by-step"]
    case Creative => ["creative", "writing", "story", "literature", "poetry", "novel"]
    case Roleplay => ["roleplay", "character", "persona", "chat", "assistant"]
    case Uncensored => ["uncensored", "nsfw", "unfiltered", "unconstrained"]
    case Fast => ["fast", "speed", "quick", "nano", "turbo", "instant"]
    case Large => ["large", "big", "giant", "huge", "massive"]
    case Small => ["small", "mini", "tiny", "lite", "compact"]
    case _ => []
  }

  /** Tags added for models whose provider is one of these. */
  const ProviderSpecialties: map<string, set<Category>> := map[
    "anthropic" := {Reasoning, Helpful},
    "openai" := {General, Popular},
    "meta-llama" := {OpenSource},
    "google" := {Research, Advanced},
    "mistralai" := {Efficient},
    "deepseek" := {Reasoning, Code},
    "qwen" := {Multilingual},
    "microsoft" := {Enterprise},
    "cohere" := {Search, Embeddings}
  ]

  /** The tags that only the provider table produces. */
  const ProviderOnly: set<Category> := {
    Helpful, General, Popular, OpenSource, Research, Advanced,
    Efficient, Multilingual, Enterprise, Search, Embeddings
  }

  /** The text the keywords are searched in: lower-cased "name description id". */
  function Combined(m: RawModel): string {
    var name := if m.name.Some? then m.name.value else "";
    Lower(name) + " " + Lower(m.description) + " " + Lower(m.id)
  }

  /** The provider is the id up to its first '/' (Python `id.split('/')[0]`), not lower-cased. */
  function ProviderOf(m: RawModel): string {
    PrefixBefore(m.id, '/')
  }

  function ModalityTags(m: RawModel): set<Category> {
    (if "image" in m.inputModalities then {Vision} else {})
    + (if "text" in m.inputModalities && "image" in m.inputModalities then {Multimodal} else {})
  }

  function CapabilityTags(m: RawModel): set<Category> {
    (if "tools" in m.capabilityParameters then {Tools} else {})
    + (if "reasoning" in m.capabilityParameters then {Reasoning} else {})
  }

  /** Python `any(keyword in text for keyword in keywords)`. */
  predicate AnyKeyword(text: string, keywords: seq<string>) {
    exists k :: k in keywords && Contains(text, k)
  }

  /** The keyword categories that have a keyword occurring in `text` (the loop over `content_keywords`). */
  function KeywordTags(text: string): set<Category> {
    KeywordTagsFrom(text, KeywordOrder)
  }

  function KeywordTagsFrom(text: string, order: seq<Category>): set<Category> {
    if |order| == 0 then {}
    else (if AnyKeyword(text, Keywords(order[0])) then {order[0]} else {}) + KeywordTagsFrom(text, order[1..])
  }

  /** A category is added by the keyword loop exactly when it is in the table and one of its keywords occurs. */
  lemma {:induction false} KeywordTagsFromMembership(text: string, order: seq<Category>, c: Category)
    ensures c in KeywordTagsFrom(text, order) <==> c in order && AnyKeyword(text, Keywords(c))
  {
    if |order| > 0 {
      KeywordTagsFromMembership(text, order[1..], c);
      assert c in order <==> c == order[0] || c in order[1..];
    }
  }

  function ProviderTags(m: RawModel): set<Category> {
    var p := ProviderOf(m);
    if p in ProviderSpecialties then ProviderSpecialties[p] else {}
  }

  function ContextTags(m: RawModel): set<Category> {
    match m.contextLength
    case NotAnInt => {}
    case IntLength(n) =>
      if n >= 128000 then {LongContext}
      else if n >= 32000 then {MediumContext}
      else if n <= 8192 then {ShortContext}
      else {}
  }

  /**
    `generate_model_categories`: the tags of the five rules, each once. The
    source returns `list(set(categories))`, whose order Python leaves
    unspecified, so the model keeps the set.
   */
  function GenerateModelCategories(m: RawModel): set<Category> {
    ModalityTags(m) + CapabilityTags(m) + KeywordTags(Combined(m)) + ProviderTags(m) + ContextTags(m)
  }

  predicate ModalityRule(m: RawModel, c: Category) {
    || (c == Vision && "image" in m.inputModalities)
    || (c == Multimodal && "text" in m.inputModalities && "image" in m.inputModalities)
  }

  predicate CapabilityRule(m: RawModel, c: Category) {
    || (c == Tools && "tools" in m.capabilityParameters)
    || (c == Reasoning && "reasoning" in m.capabilityParameters)
  }

  predicate ContextRule(m: RawModel, c: Category) {
    && m.contextLength.IntLength?
    && var n := m.contextLength.n;
    || (c == LongContext && n >= 128000)
    || (c == MediumContext && 32000 <= n < 128000)
    || (c == ShortContext && n <= 8192)
  }

  predicate KeywordRule(m: RawModel, c: Category) {
    c in KeywordOrder && AnyKeyword(Combined(m), Keywords(c))
  }

  predicate ProviderRule(m: RawModel, c: Category) {
    ProviderOf(m) in ProviderSpecialties && c in ProviderSpecialties[ProviderOf(m)]
  }

  lemma ModalityTagsRule(m: RawModel, c: Category)
    ensures c in ModalityTags(m) <==> ModalityRule(m, c)
  {
  }

  lemma CapabilityTagsRule(m: RawModel, c: Category)
    ensures c in CapabilityTags(m) <==> CapabilityRule(m, c)
  {
  }

  lemma ContextTagsRule(m: RawModel, c: Category)
    ensures c in ContextTags(m) <==> ContextRule(m, c)
  {
  }

  /** A tag is generated exactly when one of the five rules of the source produces it. */
  lemma TagRules(m: RawModel, c: Category)
    ensures c in GenerateModelCategories(m) <==>
      ModalityRule(m, c) || CapabilityRule(m, c) || KeywordRule(m, c) || ProviderRule(m, c) || ContextRule(m, c)
  {
    ModalityTagsRule(m, c);
    CapabilityTagsRule(m, c);
    ContextTagsRule(m, c);
    KeywordTagsFromMembership(Combined(m), KeywordOrder, c);
  }

  /** The provider table gives nothing outside the provider-only tags but 'reasoning' and 'code'. */
  lemma ProviderRuleCases(m: RawModel, c: Category)
    ensures ProviderRule(m, c) ==> c in ProviderOnly || c == Reasoning || c == Code
  {
  }

  /** The providers the table gives 'reasoning' and 'code'. */
  lemma ProviderReasoningCode(m: RawModel)
    ensures ProviderRule(m, Reasoning) <==> ProviderOf(m) == "anthropic" || ProviderOf(m) == "deepseek"
    ensures ProviderRule(m, Code) <==> ProviderOf(m) == "deepseek"
  {
  }

  /** The rules other than the keyword loop that can give a keyword category. */
  lemma KeywordCategoryRules(m: RawModel, c: Category)
    requires c in KeywordOrder
    ensures !ModalityRule(m, c) && !ContextRule(m, c)
    ensures CapabilityRule(m, c) ==> c == Reasoning
    ensures ProviderRule(m, c) ==> c == Reasoning || c == Code
  {
    ProviderRuleCases(m, c);
    assert c !in ProviderOnly && c != Vision && c != Multimodal && c != Tools;
    assert c != LongContext && c != MediumContext && c != ShortContext;
  }

  /** The rules other than the context bands that can give a context tag: none. */
  lemma ContextCategoryRules(m: RawModel, c: Category)
    requires c == LongContext || c == MediumContext || c == ShortContext
    ensures !ModalityRule(m, c) && !CapabilityRule(m, c) && !KeywordRule(m, c) && !ProviderRule(m, c)
  {
    ProviderRuleCases(m, c);
    assert c !in KeywordOrder && c !in ProviderOnly;
  }

  /** The rules other than the provider table that can give a provider-only tag: none. */
  lemma ProviderOnlyRules(m: RawModel, c: Category)
    requires c in ProviderOnly
    ensures !ModalityRule(m, c) && !CapabilityRule(m, c) && !ContextRule(m, c) && !KeywordRule(m, c)
  {
    assert c !in KeywordOrder;
  }

  /** 'vision' exactly when images are an input; 'multimodal' exactly when text and images are. */
  lemma ModalityCategories(m: RawModel)
    ensures Vision in GenerateModelCategories(m) <==> "image" in m.inputModalities
    ensures Multimodal in GenerateModelCategories(m) <==>
      "text" in m.inputModalities && "image" in m.inputModalities
    ensures Multimodal in GenerateModelCategories(m) ==> Vision in GenerateModelCategories(m)
  {
    TagRules(m, Vision);
    TagRules(m, Multimodal);
    ProviderRuleCases(m, Vision);
    ProviderRuleCases(m, Multimodal);
  }

  /** 'tools' exactly when the model supports the 'tools' parameter. */
  lemma ToolsCategory(m: RawModel)
    ensures Tools in GenerateModelCategories(m) <==> "tools" in m.capabilityParameters
  {
    TagRules(m, Tools);
    ProviderRuleCases(m, Tools);
  }

  /**
    'reasoning' has three sources: the 'reasoning' parameter, a reasoning
    keyword, or an Anthropic or DeepSeek id.
   */
  lemma ReasoningCategory(m: RawModel)
    ensures Reasoning in GenerateModelCategories(m) <==>
      || "reasoning" in m.capabilityParameters
      || AnyKeyword(Combined(m), Keywords(Reasoning))
      || ProviderOf(m) == "anthropic" || ProviderOf(m) == "deepseek"
  {
    TagRules(m, Reasoning);
    ProviderReasoningCode(m);
  }

  /** 'code' comes from a code keyword or a DeepSeek id. */
  lemma CodeCategory(m: RawModel)
    ensures Code in GenerateModelCategories(m) <==>
      AnyKeyword(Combined(m), Keywords(Code)) || ProviderOf(m) == "deepseek"
  {
    TagRules(m, Code);
    ProviderReasoningCode(m);
  }

  /** The other keyword categories come from their keywords alone. */
  lemma KeywordOnlyCategory(m: RawModel, c: Category)
    requires c in KeywordOrder && c != Code && c != Reasoning
    ensures c in GenerateModelCategories(m) <==> AnyKeyword(Combined(m), Keywords(c))
  {
    TagRules(m, c);
    KeywordCategoryRules(m, c);
  }

  /** A provider-only tag is present exactly when the id's provider lists it. */
  lemma ProviderOnlyCategory(m: RawModel, c: Category)
    requires c in ProviderOnly
    ensures c in GenerateModelCategories(m) <==>
      ProviderOf(m) in ProviderSpecialties && c in ProviderSpecialties[ProviderOf(m)]
  {
    TagRules(m, c);
    ProviderOnlyRules(m, c);
  }

  /**
    Context tags: 'long-context' from 128000 up, 'medium-context' from 32000
    below that, 'short-context' up to 8192; none for an integer in
    8193..31999 or a length that is not an integer. So at most one applies.
   */
  lemma ContextCategories(m: RawModel)
    ensures var r := GenerateModelCategories(m);
      && (LongContext in r <==> m.contextLength.IntLength? && m.contextLength.n >= 128000)
      && (MediumContext in r <==> m.contextLength.IntLength? && 32000 <= m.contextLength.n < 128000)
      && (ShortContext in r <==> m.contextLength.IntLength? && m.contextLength.n <= 8192)
  {
    TagRules(m, LongContext);
    TagRules(m, MediumContext);
    TagRules(m, ShortContext);
    ContextCategoryRules(m, LongContext);
    ContextCategoryRules(m, MediumContext);
    ContextCategoryRules(m, ShortContext);
  }

  /**
    Every keyword is a single word, and a word occurs in "name description id"
    exactly when it occurs in one of the three: the spaces the source puts
    between them create no extra matches.
   */
  lemma KeywordSearchPerField(m: RawModel, k: string)
    requires ' ' !in k
    ensures Contains(Combined(m), k) <==>
      var name := if m.name.Some? then m.name.value else "";
      Contains(Lower(name), k) || Contains(Lower(m.description), k) || Contains(Lower(m.id), k)
  {
    var name := if m.name.Some? then m.name.value else "";
    var a, b, d := Lower(name), Lower(m.description), Lower(m.id);
    ContainsAcrossSpace(a + " " + b, d, k);
    ContainsAcrossSpace(a, b, k);
  }
}
