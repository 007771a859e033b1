/**
 The template catalogue and its access policy (src/lib/templates.ts): a fixed
 table of eight templates, each requiring a tier `free < pro < pro_plus`, the
 rank comparison that decides whether a subscription level may use one, the
 development-only override that unlocks everything, and the tier, category
 and statistics views over the table.
 */
module Templates {
  import opened Common
  import opened Seqs

  /** The subscription a template requires. */
  datatype TemplateTier = Free | Pro | ProPlus

  /** The subscription a user holds ("free" | "pro" | "pro_plus"); a type of
      its own in the source, mapped onto tiers by `tierMapping`. */
  datatype SubscriptionLevel = LevelFree | LevelPro | LevelProPlus

  datatype TemplateLayout = SingleColumn | TwoColumn | CreativeLayout

  datatype Spacing = CompactSpacing | NormalSpacing | RelaxedSpacing

  datatype TemplateStyle = TemplateStyle(
    fontFamily: string,
    headingColor: string,
    accentColor: string,
    spacing: Spacing)

  datatype Template = Template(
    id: string,
    name: string,
    description: string,
    tier: TemplateTier,
    layout: TemplateLayout,
    preview: string,
    thumbnail: string,
    style: TemplateStyle,
    features: seq<string>,
    recommended: seq<string>)

  /** The layout's string value in the source. */
  function LayoutName(layout: TemplateLayout): string
  {
    match layout
    case SingleColumn => "single-column"
    case TwoColumn => "two-column"
    case CreativeLayout => "creative"
  }

  const Classic := Template(
    "classic", "Classic", "Traditional single-column layout with clean design",
    Free, SingleColumn, "/templates/classic-preview.png", "/templates/classic-thumb.png",
    TemplateStyle("system-ui, -apple-system, sans-serif", "#1a202c", "#3b82f6", NormalSpacing),
    ["Single column layout", "Professional styling", "ATS-friendly", "Clean typography"],
    ["Entry-level", "Traditional industries", "Conservative roles"])

  const Modern := Template(
    "modern", "Modern Professional", "Two-column layout with bold section headers and modern styling",
    Pro, TwoColumn, "/templates/modern-preview.png", "/templates/modern-thumb.png",
    TemplateStyle("'Inter', system-ui, sans-serif", "#0f172a", "#6366f1", NormalSpacing),
    ["Two-column design", "Bold section headers", "Modern typography", "Sidebar for skills"],
    ["Tech industry", "Creative roles", "Modern companies"])

  const Minimal := Template(
    "minimal", "Minimalist", "Clean and elegant with lots of whitespace",
    Free, SingleColumn, "/templates/minimal-preview.png", "/templates/minimal-thumb.png",
    TemplateStyle("'Helvetica Neue', Arial, sans-serif", "#1f2937", "#10b981", RelaxedSpacing),
    ["Generous whitespace", "Thin divider lines", "Elegant typography", "Monochrome design"],
    ["Design roles", "Architecture", "Minimalist approach"])

  const Creative := Template(
    "creative", "Creative Edge", "Unique layout with creative elements and vibrant colors",
    Pro, CreativeLayout, "/templates/creative-preview.png", "/templates/creative-thumb.png",
    TemplateStyle("'Poppins', system-ui, sans-serif", "#7c3aed", "#ec4899", NormalSpacing),
    ["Unique asymmetric layout", "Creative color scheme", "Eye-catching design", "Stand-out sections"],
    ["Graphic design", "Marketing", "Creative industries"])

  const Professional := Template(
    "professional", "Executive", "Sophisticated design for senior-level positions",
    ProPlus, TwoColumn, "/templates/professional-preview.png", "/templates/professional-thumb.png",
    TemplateStyle("'Georgia', serif", "#1e293b", "#0369a1", NormalSpacing),
    ["Executive styling", "Sophisticated layout", "Premium typography", "Professional accents"],
    ["Senior positions", "C-suite", "Executive roles"])

  const Compact := Template(
    "compact", "Compact Pro", "Space-efficient design that fits more content",
    Pro, TwoColumn, "/templates/compact-preview.png", "/templates/compact-thumb.png",
    TemplateStyle("'Roboto', system-ui, sans-serif", "#374151", "#059669", CompactSpacing),
    ["Compact spacing", "Fits more content", "Organized sections", "Efficient layout"],
    ["Extensive experience", "Multiple roles", "Academic CVs"])

  const Elegant := Template(
    "elegant", "Elegant Serif", "Timeless design with serif fonts and refined styling",
    ProPlus, SingleColumn, "/templates/elegant-preview.png", "/templates/elegant-thumb.png",
    TemplateStyle("'Crimson Text', Georgia, serif", "#44403c", "#92400e", RelaxedSpacing),
    ["Serif typography", "Refined aesthetics", "Classic elegance", "Timeless design"],
    ["Legal", "Academia", "Publishing"])

  const Tech := Template(
    "tech", "Tech Focus", "Developer-friendly with monospace accents and tech styling",
    Pro, TwoColumn, "/templates/tech-preview.png", "/templates/tech-thumb.png",
    TemplateStyle("'JetBrains Mono', 'Consolas', monospace", "#1e3a8a", "#2563eb", NormalSpacing),
    ["Tech-oriented design", "Monospace accents", "Code-friendly", "Developer aesthetic"],
    ["Software engineering", "DevOps", "Tech startups"])

  /** The keys of the `TEMPLATES` object, in declaration order. */
  const TemplateKeys: seq<string> :=
    ["classic", "modern", "minimal", "creative", "professional", "compact", "elegant", "tech"]

  /** The `TEMPLATES` record, keyed by template id. */
  const TemplateTable: map<string, Template> := map[
    "classic" := Classic, "modern" := Modern, "minimal" := Minimal, "creative" := Creative,
    "professional" := Professional, "compact" := Compact, "elegant" := Elegant, "tech" := Tech]

  /** `DEFAULT_TEMPLATE_ID`. */
  const DefaultTemplateId := "classic"

  /** `getAllTemplates()`: `Object.values(TEMPLATES)`, the table's entries
      in key declaration order. */
  function GetAllTemplates(): (r: seq<Template>)
    ensures |r| == |TemplateKeys| == 8
    ensures forall i :: 0 <= i < |r| ==> TemplateKeys[i] in TemplateTable && r[i] == TemplateTable[TemplateKeys[i]]
  {
    seq(|TemplateKeys|, i requires 0 <= i < |TemplateKeys| => TemplateTable[TemplateKeys[i]])
  }

  /** The catalogue, entry by entry. */
  lemma CatalogueOrder()
    ensures GetAllTemplates() == [Classic, Modern, Minimal, Creative, Professional, Compact, Elegant, Tech]
  {
  }

  /** The table's keys are exactly the listed keys, and each entry's id is
      its key. */
  lemma TableKeyedById()
    ensures TemplateTable.Keys == set k | k in TemplateKeys
    ensures forall k :: k in TemplateTable ==> TemplateTable[k].id == k
  {
  }

  /** No two catalogue entries share an id. */
  lemma CatalogueIdsDistinct()
    ensures forall i, j :: 0 <= i < j < |GetAllTemplates()| ==> GetAllTemplates()[i].id != GetAllTemplates()[j].id
  {
  }

  /** `getAllTemplates` lists every table entry, and each listed template is
      found again under its own id. */
  lemma CatalogueListsTable()
    ensures forall k :: k in TemplateTable ==> TemplateTable[k] in GetAllTemplates()
    ensures forall t :: t in GetAllTemplates() ==> t.id in TemplateTable && TemplateTable[t.id] == t
  {
    var all := GetAllTemplates();
    TableKeyedById();
    forall k | k in TemplateTable ensures TemplateTable[k] in all {
      var i :| 0 <= i < |TemplateKeys| && TemplateKeys[i] == k;
      assert all[i] == TemplateTable[k];
    }
  }

  /** A filter over the catalogue, unfolded entry by entry. */
  lemma FilterCatalogue(p: Template -> bool)
    ensures Filter(GetAllTemplates(), p) ==
      KeepIf(Classic, p) + (KeepIf(Modern, p) + (KeepIf(Minimal, p) + (KeepIf(Creative, p)
      + (KeepIf(Professional, p) + (KeepIf(Compact, p) + (KeepIf(Elegant, p) + KeepIf(Tech, p)))))))
  {
    CatalogueOrder();
    FilterEight(Classic, Modern, Minimal, Creative, Professional, Compact, Elegant, Tech, p);
  }

  /** `getTemplateById(id)`: `TEMPLATES[id]`, `undefined` for an unknown id. */
  function GetTemplateById(id: string): (r: Option<Template>)
    ensures r.Some? <==> id in TemplateKeys
    ensures r.Some? ==> r.value.id == id && r.value in GetAllTemplates()
  {
    if id in TemplateTable then TableEntryListed(id); Some(TemplateTable[id]) else None
  }

  /** The entry stored under a key carries that key as its id and is listed
      by `getAllTemplates`. */
  lemma TableEntryListed(id: string)
    requires id in TemplateTable
    ensures TemplateTable[id].id == id && TemplateTable[id] in GetAllTemplates()
  {
    TableKeyedById();
    var i :| 0 <= i < |TemplateKeys| && TemplateKeys[i] == id;
    assert GetAllTemplates()[i] == TemplateTable[id];
  }

  /** `tierMapping` in canAccessTemplate: free 0, pro 1, pro_plus 2. */
  function TierRank(tier: TemplateTier): nat
  {
    match tier
    case Free => 0
    case Pro => 1
    case ProPlus => 2
  }

  /** `subscriptionTiers` in canAccessTemplate: free 0, pro 1, pro_plus 2. */
  function LevelRank(level: SubscriptionLevel): nat
  {
    match level
    case LevelFree => 0
    case LevelPro => 1
    case LevelProPlus => 2
  }

  /** `tierMapping` in getTemplatesBySubscription. */
  function TierForLevel(level: SubscriptionLevel): (tier: TemplateTier)
    ensures TierRank(tier) == LevelRank(level)
  {
    match level
    case LevelFree => Free
    case LevelPro => Pro
    case LevelProPlus => ProPlus
  }

  /** `UNLOCK_ALL_TEMPLATES`, from the two environment variables it reads
      (`undefined` when unset). */
  function UnlockAllTemplates(nodeEnv: Option<string>, unlockFlag: Option<string>): (unlocked: bool)
    ensures nodeEnv == Some("production") ==> !unlocked
    ensures unlockFlag != Some("true") ==> !unlocked
    ensures nodeEnv != Some("production") && unlockFlag == Some("true") ==> unlocked
  {
    nodeEnv != Some("production") && unlockFlag == Some("true")
  }

  /** `canAccessTemplate(templateId, level)`, with the override passed in as
      `unlockAll`. */
  function CanAccessTemplate(unlockAll: bool, templateId: string, level: SubscriptionLevel): (allowed: bool)
    ensures unlockAll ==> allowed
    ensures !unlockAll && templateId !in TemplateKeys ==> !allowed
    ensures !unlockAll && templateId in TemplateKeys ==>
      (allowed <==> LevelRank(level) >= TierRank(TemplateTable[templateId].tier))
  {
    if unlockAll then true
    else match GetTemplateById(templateId)
      case None => false
      case Some(template) => LevelRank(level) >= TierRank(template.tier)
  }

  /** Access only grows with the level: free ⇒ pro ⇒ pro_plus. */
  lemma AccessMonotone(unlockAll: bool, templateId: string, lower: SubscriptionLevel, higher: SubscriptionLevel)
    requires LevelRank(lower) <= LevelRank(higher)
    ensures CanAccessTemplate(unlockAll, templateId, lower) ==> CanAccessTemplate(unlockAll, templateId, higher)
  {
  }

  /** The default template is free-tier, so every level may use it, with or
      without the override. */
  lemma DefaultTemplateAlwaysAccessible(unlockAll: bool, level: SubscriptionLevel)
    ensures DefaultTemplateId in TemplateKeys && TemplateTable[DefaultTemplateId].tier == Free
    ensures CanAccessTemplate(unlockAll, DefaultTemplateId, level)
  {
  }

  /** `tierHierarchy[tier]`: the tiers a holder of `tier` may use. */
  function AllowedTiers(tier: TemplateTier): (allowed: seq<TemplateTier>)
    ensures forall t :: t in allowed <==> TierRank(t) <= TierRank(tier)
  {
    match tier
    case Free => [Free]
    case Pro => [Free, Pro]
    case ProPlus => [Free, Pro, ProPlus]
  }

  /** The test getTemplatesByTier applies: the template's tier is allowed. */
  function AllowedBy(tier: TemplateTier): Template -> bool
  {
    (t: Template) => t.tier in AllowedTiers(tier)
  }

  /** `getTemplatesByTier(tier)`. */
  function GetTemplatesByTier(tier: TemplateTier): (r: seq<Template>)
    ensures IsSubsequence(r, GetAllTemplates())
    ensures forall t :: t in r <==> t in GetAllTemplates() && TierRank(t.tier) <= TierRank(tier)
  {
    var all := GetAllTemplates();
    FilterIsSubsequence(all, AllowedBy(tier));
    FilterMembers(all, AllowedBy(tier));
    Filter(all, AllowedBy(tier))
  }

  /** A free holder's list is a sub-list of a pro holder's. */
  lemma FreeListWithinPro()
    ensures IsSubsequence(GetTemplatesByTier(Free), GetTemplatesByTier(Pro))
  {
    FilterMonotone(GetAllTemplates(), AllowedBy(Free), AllowedBy(Pro));
  }

  /** A pro holder's list is a sub-list of a pro_plus holder's. */
  lemma ProListWithinProPlus()
    ensures IsSubsequence(GetTemplatesByTier(Pro), GetTemplatesByTier(ProPlus))
  {
    FilterMonotone(GetAllTemplates(), AllowedBy(Pro), AllowedBy(ProPlus));
  }

  /** A pro_plus holder is offered the whole catalogue, in catalogue order. */
  lemma ProPlusListIsCatalogue()
    ensures GetTemplatesByTier(ProPlus) == GetAllTemplates()
  {
    assert forall t :: AllowedBy(ProPlus)(t);
    FilterKeepsAll(GetAllTemplates(), AllowedBy(ProPlus));
  }

  /** The tier lists are nested sub-lists, free ⊆ pro ⊆ pro_plus, and
      pro_plus lists the whole catalogue. */
  lemma TierListsNested()
    ensures IsSubsequence(GetTemplatesByTier(Free), GetTemplatesByTier(Pro))
    ensures IsSubsequence(GetTemplatesByTier(Pro), GetTemplatesByTier(ProPlus))
    ensures GetTemplatesByTier(ProPlus) == GetAllTemplates()
  {
    FreeListWithinPro();
    ProListWithinProPlus();
    ProPlusListIsCatalogue();
  }

  /** `getTemplatesBySubscription(level)`. */
  function GetTemplatesBySubscription(level: SubscriptionLevel): (r: seq<Template>)
    ensures IsSubsequence(r, GetAllTemplates())
  {
    GetTemplatesByTier(TierForLevel(level))
  }

  /** With the override off, the templates listed for a level are exactly the
      catalogue entries that canAccessTemplate allows at that level. */
  lemma SubscriptionListMatchesAccess(level: SubscriptionLevel, t: Template)
    ensures t in GetTemplatesBySubscription(level) <==>
      t in GetAllTemplates() && CanAccessTemplate(false, t.id, level)
  {
    if t in GetAllTemplates() {
      CatalogueListsTable();
      TableKeyedById();
      assert GetTemplateById(t.id) == Some(t);
    }
  }

  /** With the override off, an id outside the catalogue is never accessible,
      whatever the level; with it on, every id is. */
  lemma OverrideDecidesUnknownIds(templateId: string, level: SubscriptionLevel)
    requires templateId !in TemplateKeys
    ensures !CanAccessTemplate(false, templateId, level)
    ensures CanAccessTemplate(true, templateId, level)
  {
  }

  /** `TEMPLATE_CATEGORIES` keys. */
  datatype Category = AllCategory | FreeCategory | PremiumCategory | SingleCategory | DoubleCategory | CreativeCategory

  /** The test `getTemplatesByCategory` applies for a category. */
  function InCategory(category: Category, t: Template): bool
  {
    match category
    case AllCategory => true
    case FreeCategory => t.tier == Free
    case PremiumCategory => t.tier != Free
    case SingleCategory => t.layout == SingleColumn
    case DoubleCategory => t.layout == TwoColumn
    case CreativeCategory => t.layout == CreativeLayout
  }

  /** `InCategory` as the callback handed to `filter`. */
  function CategoryTest(category: Category): Template -> bool
  {
    (t: Template) => InCategory(category, t)
  }

  /** `getTemplatesByCategory(category)`. */
  function GetTemplatesByCategory(category: Category): (r: seq<Template>)
    ensures IsSubsequence(r, GetAllTemplates())
    ensures category == AllCategory ==> r == GetAllTemplates()
    ensures forall i :: 0 <= i < |r| ==> InCategory(category, r[i])
  {
    var all := GetAllTemplates();
    FilterIsSubsequence(all, CategoryTest(category));
    SubsequenceReflexive(all);
    if category == AllCategory then all else Filter(all, CategoryTest(category))
  }

  /** A category other than "all" is the filter of its test. */
  lemma CategoryIsFilter(category: Category)
    requires category != AllCategory
    ensures GetTemplatesByCategory(category) == Filter(GetAllTemplates(), CategoryTest(category))
  {
  }

  /** The "free" and "premium" filters split any list of templates. */
  lemma {:induction false} PricingSplit(s: seq<Template>)
    ensures multiset(Filter(s, CategoryTest(FreeCategory))) + multiset(Filter(s, CategoryTest(PremiumCategory)))
      == multiset(s)
  {
    assert forall t :: CategoryTest(AllCategory)(t);
    FilterKeepsAll(s, CategoryTest(AllCategory));
    FilterSplit(s, CategoryTest(AllCategory), CategoryTest(FreeCategory), CategoryTest(PremiumCategory));
  }

  /** The test "a layout other than single-column". */
  function NotSingleColumn(): Template -> bool
  {
    (t: Template) => t.layout != SingleColumn
  }

  /** The three layout filters split any list of templates. */
  lemma {:induction false} LayoutSplit(s: seq<Template>)
    ensures multiset(Filter(s, CategoryTest(SingleCategory))) + multiset(Filter(s, CategoryTest(DoubleCategory)))
      + multiset(Filter(s, CategoryTest(CreativeCategory))) == multiset(s)
  {
    assert forall t :: CategoryTest(AllCategory)(t);
    FilterKeepsAll(s, CategoryTest(AllCategory));
    FilterSplit(s, CategoryTest(AllCategory), CategoryTest(SingleCategory), NotSingleColumn());
    FilterSplit(s, NotSingleColumn(), CategoryTest(DoubleCategory), CategoryTest(CreativeCategory));
  }

  /** Every template is either free or premium, never both. */
  lemma PricingCategoriesPartitionCatalogue()
    ensures multiset(GetTemplatesByCategory(FreeCategory)) + multiset(GetTemplatesByCategory(PremiumCategory))
      == multiset(GetAllTemplates())
  {
    CategoryIsFilter(FreeCategory);
    CategoryIsFilter(PremiumCategory);
    PricingSplit(GetAllTemplates());
  }

  /** Every template has exactly one of the three layouts. */
  lemma LayoutCategoriesPartitionCatalogue()
    ensures multiset(GetTemplatesByCategory(SingleCategory)) + multiset(GetTemplatesByCategory(DoubleCategory))
      + multiset(GetTemplatesByCategory(CreativeCategory)) == multiset(GetAllTemplates())
  {
    CategoryIsFilter(SingleCategory);
    CategoryIsFilter(DoubleCategory);
    CategoryIsFilter(CreativeCategory);
    LayoutSplit(GetAllTemplates());
  }

  /** The catalogue entries requiring `tier`. */
  function TierIs(tier: TemplateTier): Template -> bool
  {
    (t: Template) => t.tier == tier
  }

  /** The catalogue entries laid out as `layout`. */
  function LayoutIs(layout: TemplateLayout): Template -> bool
  {
    (t: Template) => t.layout == layout
  }

  /** How many catalogue entries require each tier: two free, four pro, two
      pro_plus. */
  lemma {:induction false} TierCounts()
    ensures |Filter(GetAllTemplates(), TierIs(Free))| == 2
    ensures |Filter(GetAllTemplates(), TierIs(Pro))| == 4
    ensures |Filter(GetAllTemplates(), TierIs(ProPlus))| == 2
  {
    FilterCatalogue(TierIs(Free));
    FilterCatalogue(TierIs(Pro));
    FilterCatalogue(TierIs(ProPlus));
  }

  /** How many catalogue entries use each layout: three single-column, four
      two-column, one creative. */
  lemma {:induction false} LayoutCounts()
    ensures |Filter(GetAllTemplates(), LayoutIs(SingleColumn))| == 3
    ensures |Filter(GetAllTemplates(), LayoutIs(TwoColumn))| == 4
    ensures |Filter(GetAllTemplates(), LayoutIs(CreativeLayout))| == 1
  {
    FilterCatalogue(LayoutIs(SingleColumn));
    FilterCatalogue(LayoutIs(TwoColumn));
    FilterCatalogue(LayoutIs(CreativeLayout));
  }

  datatype TemplateStats = TemplateStats(
    total: nat, free: nat, pro: nat, proPlus: nat,
    singleColumn: nat, twoColumn: nat, creative: nat)

  /** `getTemplateStats()`. */
  function GetTemplateStats(): (stats: TemplateStats)
    ensures stats.total == |GetAllTemplates()|
    ensures stats.free + stats.pro + stats.proPlus == stats.total
    ensures stats.singleColumn + stats.twoColumn + stats.creative == stats.total
    ensures stats == TemplateStats(8, 2, 4, 2, 3, 4, 1)
  {
    var all := GetAllTemplates();
    TierCounts();
    LayoutCounts();
    TemplateStats(
      |all|,
      |Filter(all, TierIs(Free))|, |Filter(all, TierIs(Pro))|, |Filter(all, TierIs(ProPlus))|,
      |Filter(all, LayoutIs(SingleColumn))|, |Filter(all, LayoutIs(TwoColumn))|,
      |Filter(all, LayoutIs(CreativeLayout))|)
  }
}
