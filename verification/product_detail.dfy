/**
 * The product detail page: lookup of the route id in the catalog, the
 * hero chips, the digital label with its nutrition grid, and the four tabs
 * of which exactly one panel is shown.
 */
module ProductDetail {
  import opened MockProducts
  import opened Wrappers

  /** Position of the first product with `id` at or after `k`. */
  function FindFrom(catalog: seq<Product>, id: string, k: nat): (r: Option<nat>)
    requires k <= |catalog|
    ensures r.Some? ==> k <= r.value < |catalog| && catalog[r.value].id == id
    ensures r.Some? ==> forall j :: k <= j < r.value ==> catalog[j].id != id
    ensures r.None? <==> forall j :: k <= j < |catalog| ==> catalog[j].id != id
    decreases |catalog| - k
  {
    if k == |catalog| then None
    else if catalog[k].id == id then Some(k)
    else FindFrom(catalog, id, k + 1)
  }

  /** `mockProducts.find(p => p.id === id)`: the first product with that id. */
  function Find(catalog: seq<Product>, id: string): (r: Option<Product>)
    ensures r.None? <==> forall j :: 0 <= j < |catalog| ==> catalog[j].id != id
    ensures r.Some? ==> exists i :: 0 <= i < |catalog| && catalog[i] == r.value && r.value.id == id &&
                                    (forall j :: 0 <= j < i ==> catalog[j].id != id)
  {
    match FindFrom(catalog, id, 0)
    case None => None
    case Some(i) => Some(catalog[i])
  }

  /** With distinct ids, looking up a catalog product's id finds that product. */
  lemma FindOwnId(catalog: seq<Product>, i: nat)
    requires DistinctIds(catalog)
    requires i < |catalog|
    ensures Find(catalog, catalog[i].id) == Some(catalog[i])
  {
    var r := Find(catalog, catalog[i].id);
    var i' :| 0 <= i' < |catalog| && catalog[i'] == r.value && r.value.id == catalog[i].id &&
              (forall j :: 0 <= j < i' ==> catalog[j].id != catalog[i].id);
    if i' < i {
      assert catalog[i'].id != catalog[i].id;
    }
  }

  /** "Region, Country", as the Origin card shows it. */
  function OriginText(p: Product): string {
    p.origin.region + ", " + p.origin.country
  }

  /** The hero's certification chips: `certifications.slice(0, 2)`. */
  function CertChips(p: Product): (chips: seq<string>)
    ensures |chips| == if |p.certifications| < 2 then |p.certifications| else 2
    ensures chips <= p.certifications
  {
    if |p.certifications| < 2 then p.certifications else p.certifications[..2]
  }

  datatype Hero = Hero(name: string, brand: string, volume: string, organicChip: bool, certChips: seq<string>)

  /** The hero: the Organic chip only for organic products, then the first two certifications. */
  function HeroOf(p: Product): (h: Hero)
    ensures h.organicChip <==> p.organic
    ensures h.certChips <= p.certifications && |h.certChips| <= 2
    ensures h.certChips == CertChips(p)
    ensures h.name == p.name && h.brand == p.brand && h.volume == p.volume
  {
    Hero(p.name, p.brand, p.volume, p.organic, CertChips(p))
  }

  /** Upper-case for the pattern `[A-Z]`: ASCII letters only. */
  predicate IsUpper(c: char) {
    'A' <= c <= 'Z'
  }

  function UpperCount(k: string): nat {
    if k == [] then 0 else (if IsUpper(k[0]) then 1 else 0) + UpperCount(k[1..])
  }

  /**
   * `k.replace(/([A-Z])/g, ' $1')`: a space before every upper-case letter.
   * The result never starts with an upper-case letter.
   */
  function NutritionLabel(k: string): (r: string)
    ensures |r| > 0 ==> !IsUpper(r[0])
  {
    if k == [] then []
    else (if IsUpper(k[0]) then [' ', k[0]] else [k[0]]) + NutritionLabel(k[1..])
  }

  /** The label is one character longer per upper-case letter of the key. */
  lemma {:induction false} LabelLength(k: string)
    ensures |NutritionLabel(k)| == |k| + UpperCount(k)
  {
    if k != [] {
      LabelLength(k[1..]);
    }
  }

  /** Removes each space that directly precedes an upper-case letter. */
  function Unlabel(s: string): string {
    if s == [] then []
    else if |s| >= 2 && s[0] == ' ' && IsUpper(s[1]) then [s[1]] + Unlabel(s[2..])
    else [s[0]] + Unlabel(s[1..])
  }

  /** Removing the inserted spaces recovers the key, whatever the key. */
  lemma {:induction false} LabelRoundTrip(k: string)
    ensures Unlabel(NutritionLabel(k)) == k
  {
    if k != [] {
      var rest := NutritionLabel(k[1..]);
      LabelRoundTrip(k[1..]);
      if IsUpper(k[0]) {
        assert NutritionLabel(k) == [' ', k[0]] + rest;
        assert NutritionLabel(k)[2..] == rest;
      } else {
        var s := NutritionLabel(k);
        assert s == [k[0]] + rest;
        assert s[1..] == rest;
        assert |s| >= 2 ==> s[1] == rest[0];
      }
    }
  }

  /** A key without upper-case letters is shown unchanged. */
  lemma {:induction false} LowercaseLabelUnchanged(k: string)
    requires forall i :: 0 <= i < |k| ==> !IsUpper(k[i])
    ensures NutritionLabel(k) == k
  {
    if k != [] {
      LowercaseLabelUnchanged(k[1..]);
    }
  }

  /** The six keys of the nutrition record, in declaration order. */
  datatype NutritionKey = Energy | Fat | SaturatedFat | Sugar | Protein | Salt

  function KeyName(k: NutritionKey): string {
    match k
    case Energy => "energy"
    case Fat => "fat"
    case SaturatedFat => "saturatedFat"
    case Sugar => "sugar"
    case Protein => "protein"
    case Salt => "salt"
  }

  /** `Object.entries(product.nutrition)`: the six keys in declaration order. */
  function NutritionEntries(n: Nutrition): seq<(NutritionKey, string)> {
    [(Energy, n.energy), (Fat, n.fat), (SaturatedFat, n.saturatedFat),
     (Sugar, n.sugar), (Protein, n.protein), (Salt, n.salt)]
  }

  /** The nutrition grid has six distinct keys, in declaration order. */
  lemma NutritionKeys(n: Nutrition)
    ensures |NutritionEntries(n)| == 6
    ensures forall i, j :: 0 <= i < j < 6 ==> NutritionEntries(n)[i].0 != NutritionEntries(n)[j].0
    ensures forall k, k' :: k != k' ==> KeyName(k) != KeyName(k')
  {}

  /** "saturatedFat" is shown as "saturated Fat"; the other five keys unchanged. */
  lemma KeyLabel(k: NutritionKey)
    ensures NutritionLabel(KeyName(k)) == if k == SaturatedFat then "saturated Fat" else KeyName(k)
  {
    match k
    case SaturatedFat =>
      CamelLabel("saturated", 'F', "at");
      assert "saturated" + (['F'] + "at") == "saturatedFat";
      assert "saturated" + ([' ', 'F'] + "at") == "saturated Fat";
    case _ =>
      LowercaseLabelUnchanged(KeyName(k));
  }

  /** One upper-case letter between lower-case words gains one space before it. */
  lemma CamelLabel(a: string, c: char, b: string)
    requires forall i :: 0 <= i < |a| ==> !IsUpper(a[i])
    requires forall i :: 0 <= i < |b| ==> !IsUpper(b[i])
    requires IsUpper(c)
    ensures NutritionLabel(a + ([c] + b)) == a + ([' ', c] + b)
  {
    LabelUpperHead(c, b);
    LowercaseLabelUnchanged(a);
    LabelAppend(a, [c] + b);
  }

  lemma LabelUpperHead(c: char, b: string)
    requires forall i :: 0 <= i < |b| ==> !IsUpper(b[i])
    requires IsUpper(c)
    ensures NutritionLabel([c] + b) == [' ', c] + b
  {
    var cb := [c] + b;
    assert cb[0] == c && cb[1..] == b;
    LowercaseLabelUnchanged(b);
  }

  lemma {:induction false} LabelAppend(a: string, b: string)
    ensures NutritionLabel(a + b) == NutritionLabel(a) + NutritionLabel(b)
  {
    if a != [] {
      assert (a + b)[0] == a[0];
      assert (a + b)[1..] == a[1..] + b;
      LabelAppend(a[1..], b);
    } else {
      assert a + b == b;
    }
  }

  datatype NutritionCell = NutritionCell(caption: string, value: string)

  /** The expanded digital label; the allergen block is present only for a non-empty list. */
  datatype DigitalLabel = DigitalLabel(ingredients: string, allergens: Option<seq<string>>, nutrition: seq<NutritionCell>)

  function DigitalLabelOf(p: Product): (d: DigitalLabel)
    ensures d.allergens.Some? <==> |p.allergens| > 0
    ensures d.allergens.Some? ==> d.allergens.value == p.allergens
    ensures |d.nutrition| == 6
  {
    var entries := NutritionEntries(p.nutrition);
    DigitalLabel(
      p.ingredients,
      if |p.allergens| > 0 then Some(p.allergens) else None,
      seq(|entries|, i requires 0 <= i < |entries| => NutritionCell(NutritionLabel(KeyName(entries[i].0)), entries[i].1)))
  }

  /**
   * The label loses nothing: the ingredients text is the product's, the allergen block, read as empty when it is
   * absent, is the product's list; caption i un-labels to the i-th nutrition
   * key and carries that entry's value; and the six captions are distinct.
   */
  lemma DigitalLabelCaptions(p: Product)
    ensures DigitalLabelOf(p).ingredients == p.ingredients
    ensures (if DigitalLabelOf(p).allergens.Some? then DigitalLabelOf(p).allergens.value else []) == p.allergens
    ensures |DigitalLabelOf(p).nutrition| == 6
    ensures forall i :: 0 <= i < 6 ==>
      && Unlabel(DigitalLabelOf(p).nutrition[i].caption) == KeyName(NutritionEntries(p.nutrition)[i].0)
      && DigitalLabelOf(p).nutrition[i].value == NutritionEntries(p.nutrition)[i].1
    ensures forall i, j :: 0 <= i < j < 6 ==>
      DigitalLabelOf(p).nutrition[i].caption != DigitalLabelOf(p).nutrition[j].caption
  {
    var cells := DigitalLabelOf(p).nutrition;
    var e := NutritionEntries(p.nutrition);
    forall i | 0 <= i < 6
      ensures Unlabel(cells[i].caption) == KeyName(e[i].0)
    {
      LabelRoundTrip(KeyName(e[i].0));
    }
    NutritionKeys(p.nutrition);
    forall i, j | 0 <= i < j < 6
      ensures cells[i].caption != cells[j].caption
    {
      assert Unlabel(cells[i].caption) != Unlabel(cells[j].caption);
    }
  }

  datatype Tab = InfoTab | JourneyTab | SustainabilityTab | CommunityTab

  datatype TabItem = TabItem(key: Tab, title: string)

  const Tabs: seq<TabItem> := [
    TabItem(InfoTab, "Info"),
    TabItem(JourneyTab, "Journey"),
    TabItem(SustainabilityTab, "Eco"),
    TabItem(CommunityTab, "Reviews")
  ]

  /** The page's local state: the active tab and whether the digital label is open. */
  datatype DetailState = DetailState(activeTab: Tab, showLabel: bool)

  const InitialState: DetailState := DetailState(InfoTab, false)

  function SelectTab(st: DetailState, t: Tab): (r: DetailState)
    ensures r.activeTab == t && r.showLabel == st.showLabel
  {
    st.(activeTab := t)
  }

  function ToggleLabel(st: DetailState): (r: DetailState)
    ensures r.showLabel != st.showLabel && r.activeTab == st.activeTab
  {
    st.(showLabel := !st.showLabel)
  }

  /** The tab panel contents, each drawn from the product. */
  datatype Panel =
    | InfoPanel(origin: string, expiry: string, batch: string, serial: string, digitalLabel: Option<DigitalLabel>)
    | JourneyPanel(steps: seq<JourneyStep>)
    | SustainabilityPanel(pillars: Pillars)
    | CommunityPanel(reviewCount: nat, reviews: seq<Review>)

  function PanelTab(panel: Panel): Tab {
    match panel
    case InfoPanel(_, _, _, _, _) => InfoTab
    case JourneyPanel(_) => JourneyTab
    case SustainabilityPanel(_) => SustainabilityTab
    case CommunityPanel(_, _) => CommunityTab
  }

  /** The four `activeTab === key && …` blocks, in page order. */
  function Panels(p: Product, st: DetailState, formatDate: string -> string): seq<Panel> {
    (if st.activeTab == InfoTab
     then [InfoPanel(OriginText(p), formatDate(p.expiry), p.batch, p.serial,
                     if st.showLabel then Some(DigitalLabelOf(p)) else None)]
     else [])
    + (if st.activeTab == JourneyTab then [JourneyPanel(p.journey)] else [])
    + (if st.activeTab == SustainabilityTab then [SustainabilityPanel(p.sustainability)] else [])
    + (if st.activeTab == CommunityTab then [CommunityPanel(|p.reviews|, p.reviews)] else [])
  }

  /** What the route shows: the page for the found product, or "Product not found". */
  datatype Page = NotFound | Found(hero: Hero, panels: seq<Panel>)

  function DetailPage(catalog: seq<Product>, id: string, st: DetailState, formatDate: string -> string): (page: Page)
    ensures page.NotFound? <==> forall j :: 0 <= j < |catalog| ==> catalog[j].id != id
    ensures page.Found? ==>
      && Find(catalog, id).Some?
      && page.hero == HeroOf(Find(catalog, id).value)
      && page.panels == Panels(Find(catalog, id).value, st, formatDate)
  {
    match Find(catalog, id)
    case None => NotFound
    case Some(p) => Found(HeroOf(p), Panels(p, st, formatDate))
  }

  /** Four tabs with distinct keys; the page opens on Info with the label closed. */
  lemma TabsDistinct()
    ensures |Tabs| == 4
    ensures forall i, j :: 0 <= i < j < |Tabs| ==> Tabs[i].key != Tabs[j].key
    ensures InitialState.activeTab == InfoTab && !InitialState.showLabel
  {}

  /** Exactly one panel is shown, the one of the active tab. */
  lemma ExactlyOnePanel(p: Product, st: DetailState, formatDate: string -> string)
    ensures |Panels(p, st, formatDate)| == 1
    ensures PanelTab(Panels(p, st, formatDate)[0]) == st.activeTab
  {}

  /** The label opens only inside the Info panel, and only when toggled open. */
  lemma InfoPanelLabel(p: Product, st: DetailState, formatDate: string -> string)
    requires st.activeTab == InfoTab
    ensures Panels(p, st, formatDate)[0].InfoPanel?
    ensures Panels(p, st, formatDate)[0].digitalLabel.Some? <==> st.showLabel
    ensures Panels(p, st, formatDate)[0].origin == OriginText(p)
  {}

  /** Toggling the label twice restores the state. */
  lemma ToggleTwice(st: DetailState)
    ensures ToggleLabel(ToggleLabel(st)) == st
  {}

  /** On the catalog: milk shows the allergen block and two of three certifications, juice no allergens. */
  lemma CatalogDetail()
    ensures DigitalLabelOf(Catalog[0]).allergens == Some(["Milk"])
    ensures DigitalLabelOf(Catalog[1]).allergens == None
    ensures CertChips(Catalog[0]) == ["EU Organic", "FSC"]
    ensures CertChips(Catalog[1]) == ["Rainforest Alliance", "FSC"]
    ensures Find(Catalog, "nope") == None
  {
    assert Catalog[0].certifications[..2] == ["EU Organic", "FSC"];
  }
}
