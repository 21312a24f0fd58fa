/**
 * The product record of the passport app and its three-item mock catalog.
 *
 * Every field of the record is authored data: `status` is a closed enum
 * stored beside `expiry`, and nothing in the record is computed from
 * anything else.
 */
module MockProducts {

  /** The five product statuses a record may carry. */
  datatype Status = Fresh | Expiring | Expired | Consumed | Recycled

  datatype Origin = Origin(country: string, region: string, producer: string)

  /** The nutrition facts: exactly six keys, each holding display text. */
  datatype Nutrition = Nutrition(
    energy: string, fat: string, saturatedFat: string,
    sugar: string, protein: string, salt: string)

  /** The five sustainability pillars, each a whole-number percentage. */
  datatype Pillars = Pillars(
    co2: int, recyclability: int, animalWelfare: int,
    localSourcing: int, packaging: int)

  datatype JourneyStep = JourneyStep(labelText: string, detail: string, date: string, completed: bool)

  datatype Review = Review(
    id: string, user: string, avatar: string, rating: int,
    text: string, date: string, category: string)

  datatype Product = Product(
    id: string,
    name: string,
    brand: string,
    volume: string,
    image: string,
    origin: Origin,
    expiry: string,
    status: Status,
    organic: bool,
    certifications: seq<string>,
    nutrition: Nutrition,
    ingredients: string,
    allergens: seq<string>,
    sustainability: Pillars,
    batch: string,
    serial: string,
    journey: seq<JourneyStep>,
    reviews: seq<Review>)

  const Milk: Product := Product(
    "milk-001", "Alpine Fresh Whole Milk", "Bergbauer", "1L", "milk-carton-1",
    Origin("Austria", "Tyrol", "Hof Annabella"),
    "2026-02-28", Fresh, true,
    ["EU Organic", "FSC", "Carbon Neutral"],
    Nutrition("272 kJ", "3.6g", "2.3g", "4.8g", "3.4g", "0.1g"),
    "Pasteurised whole milk (3.6% fat)",
    ["Milk"],
    Pillars(85, 92, 90, 95, 88),
    "BRG-2026-0131", "TP-AT-00482917",
    [ JourneyStep("Farm Origin", "Hof Annabella, Tyrol, Austria", "2026-01-28", true),
      JourneyStep("Processing", "Tetra Pak Plant, Innsbruck", "2026-01-29", true),
      JourneyStep("Quality Check", "Passed all 12 quality tests", "2026-01-29", true),
      JourneyStep("Distribution", "Regional warehouse, Vienna", "2026-01-30", true),
      JourneyStep("In Store", "SPAR Mariahilfer Straße", "2026-01-31", true),
      JourneyStep("At Home", "Purchased by you", "2026-02-01", false) ],
    [ Review("r1", "Maria S.", "MS", 5, "Best milk I've ever tasted! So creamy and fresh.", "2026-01-25", "Taste"),
      Review("r2", "Thomas K.", "TK", 4, "Love the sustainable packaging. Great initiative!", "2026-01-20", "Sustainability"),
      Review("r3", "Anna L.", "AL", 5, "Knowing exactly where my milk comes from is amazing.", "2026-01-18", "Sustainability") ])

  const Juice: Product := Product(
    "juice-001", "Sunny Grove Orange Juice", "NaturPur", "1L", "juice-carton-1",
    Origin("Spain", "Valencia", "Finca Sol"),
    "2026-02-15", Expiring, false,
    ["Rainforest Alliance", "FSC"],
    Nutrition("180 kJ", "0.1g", "0g", "8.4g", "0.7g", "0g"),
    "100% squeezed orange juice from concentrate",
    [],
    Pillars(70, 90, 100, 40, 85),
    "NP-2026-0125", "TP-ES-00193847",
    [ JourneyStep("Farm Origin", "Finca Sol, Valencia, Spain", "2026-01-20", true),
      JourneyStep("Processing", "Tetra Pak Plant, Barcelona", "2026-01-22", true),
      JourneyStep("Quality Check", "Passed all tests", "2026-01-22", true),
      JourneyStep("Distribution", "Central warehouse, Munich", "2026-01-24", true),
      JourneyStep("In Store", "REWE Hauptbahnhof", "2026-01-25", true),
      JourneyStep("At Home", "Purchased by you", "2026-01-26", false) ],
    [ Review("r4", "Julia M.", "JM", 4, "Really refreshing, tastes like real oranges!", "2026-01-22", "Taste"),
      Review("r5", "Peter W.", "PW", 3, "Good juice but wish it was organic.", "2026-01-19", "Taste") ])

  const Oat: Product := Product(
    "oat-001", "Nordic Oat Drink", "HavreGård", "1L", "oat-milk-carton",
    Origin("Sweden", "Skåne", "Lundgren Farm"),
    "2026-03-15", Fresh, true,
    ["EU Organic", "FSC", "Vegan Society", "Carbon Neutral"],
    Nutrition("195 kJ", "1.5g", "0.2g", "3.2g", "1.0g", "0.1g"),
    "Water, oats (11%), rapeseed oil, calcium, salt, vitamins (D2, B12, riboflavin)",
    ["Gluten (oats)"],
    Pillars(95, 92, 100, 80, 90),
    "HG-2026-0201", "TP-SE-00739182",
    [ JourneyStep("Farm Origin", "Lundgren Farm, Skåne, Sweden", "2026-01-30", true),
      JourneyStep("Processing", "Tetra Pak Plant, Lund", "2026-02-01", true),
      JourneyStep("Quality Check", "Passed all tests", "2026-02-01", true),
      JourneyStep("Distribution", "Nordic warehouse, Malmö", "2026-02-03", true),
      JourneyStep("In Store", "ICA Maxi", "2026-02-05", true),
      JourneyStep("At Home", "Not purchased yet", "", false) ],
    [ Review("r6", "Erik N.", "EN", 5, "Perfect for coffee, froths beautifully!", "2026-02-03", "Taste"),
      Review("r7", "Sara B.", "SB", 5, "Carbon neutral AND delicious. Win-win!", "2026-02-01", "Sustainability") ])

  /** The catalog, in the order every page lists it. */
  const Catalog: seq<Product> := [Milk, Juice, Oat]

  /** No two products share an id. */
  predicate DistinctIds(ps: seq<Product>) {
    forall i, j :: 0 <= i < j < |ps| ==> ps[i].id != ps[j].id
  }

  predicate PillarsInRange(s: Pillars) {
    && 0 <= s.co2 <= 100 && 0 <= s.recyclability <= 100 && 0 <= s.animalWelfare <= 100
    && 0 <= s.localSourcing <= 100 && 0 <= s.packaging <= 100
  }

  /** The completed flags form a prefix: no completed step follows an open one. */
  predicate CompletedPrefix(steps: seq<JourneyStep>) {
    forall i, j :: 0 <= i < j < |steps| && steps[j].completed ==> steps[i].completed
  }

  lemma CatalogIds()
    ensures |Catalog| == 3
    ensures Catalog[0].id == "milk-001" && Catalog[1].id == "juice-001" && Catalog[2].id == "oat-001"
    ensures DistinctIds(Catalog)
  {}

  lemma CatalogPillarsInRange()
    ensures forall p :: p in Catalog ==> PillarsInRange(p.sustainability)
  {}

  lemma CatalogRatingsInRange()
    ensures forall p, r :: p in Catalog && r in p.reviews ==> 1 <= r.rating <= 5
  {}

  /** Six steps, all completed but the last, "At Home". */
  predicate JourneyShape(steps: seq<JourneyStep>) {
    && |steps| == 6
    && (forall i :: 0 <= i < 5 ==> steps[i].completed)
    && !steps[5].completed && steps[5].labelText == "At Home"
  }

  /** The completed steps of a journey of that shape come first. */
  lemma ShapeIsCompletedPrefix(steps: seq<JourneyStep>)
    requires JourneyShape(steps)
    ensures CompletedPrefix(steps)
  {}

  /**
   * Every journey has six steps: five completed, then an open "At Home"
   * step; hence the completed steps form a prefix.
   */
  lemma CatalogJourneys()
    ensures forall p :: p in Catalog ==> JourneyShape(p.journey) && CompletedPrefix(p.journey)
  {
    assert JourneyShape(Milk.journey);
    assert JourneyShape(Juice.journey);
    assert JourneyShape(Oat.journey);
    ShapeIsCompletedPrefix(Milk.journey);
    ShapeIsCompletedPrefix(Juice.journey);
    ShapeIsCompletedPrefix(Oat.journey);
  }
}
