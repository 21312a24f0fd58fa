/**
 * The comparison page: a fixed list of nine row formatters, each applied
 * to every product of the catalog, giving a 9 × n grid of display text.
 * The page always compares the whole catalog, not the scanned list.
 */
module Compare {
  import opened MockProducts
  import SustainabilityBar
  import Decimal
  import ProductDetail
  import ProductCard
  import opened Wrappers

  datatype Row = OriginRow | ProducerRow | OrganicRow | FatRow | SugarRow | ProteinRow
               | EcoScoreRow | RecyclabilityRow | ExpiryRow

  /** The rows, in page order. */
  const Rows: seq<Row> := [OriginRow, ProducerRow, OrganicRow, FatRow, SugarRow, ProteinRow,
                           EcoScoreRow, RecyclabilityRow, ExpiryRow]

  function RowLabel(r: Row): string {
    match r
    case OriginRow => "Origin"
    case ProducerRow => "Producer"
    case OrganicRow => "Organic"
    case FatRow => "Fat"
    case SugarRow => "Sugar"
    case ProteinRow => "Protein"
    case EcoScoreRow => "Eco Score"
    case RecyclabilityRow => "Recyclability"
    case ExpiryRow => "Expiry"
  }

  /**
   * The row's `render(p)`. The Eco Score row repeats the scorer's formula
   * inline; `formatDate` stands for `new Date(s).toLocaleDateString()`.
   */
  function Render(r: Row, p: Product, formatDate: string -> string): string {
    match r
    case OriginRow => p.origin.region + ", " + p.origin.country
    case ProducerRow => p.origin.producer
    case OrganicRow => if p.organic then "✅ Yes" else "❌ No"
    case FatRow => p.nutrition.fat
    case SugarRow => p.nutrition.sugar
    case ProteinRow => p.nutrition.protein
    case EcoScoreRow =>
      var s := p.sustainability;
      Decimal.IntText(SustainabilityBar.RoundFifth(
        SustainabilityBar.Reduce(0, SustainabilityBar.ObjectValues(s)))) + "%"
    case RecyclabilityRow => Decimal.IntText(p.sustainability.recyclability) + "%"
    case ExpiryRow => formatDate(p.expiry)
  }

  /** One cell per product, in product order (`products.map(p => row.render(p))`). */
  function Cells(r: Row, products: seq<Product>, formatDate: string -> string): seq<string> {
    seq(|products|, j requires 0 <= j < |products| => Render(r, products[j], formatDate))
  }

  /**
   * The table body: nine rows whatever the number of products; each row has
   * one cell per product, and the cell in column j is row i's rendering of
   * product j.
   */
  function Table(products: seq<Product>, formatDate: string -> string): (t: seq<seq<string>>)
    ensures |t| == 9
    ensures forall i :: 0 <= i < 9 ==> |t[i]| == |products|
    ensures forall i, j :: 0 <= i < 9 && 0 <= j < |products| ==> t[i][j] == Render(Rows[i], products[j], formatDate)
  {
    seq(|Rows|, i requires 0 <= i < |Rows| => Cells(Rows[i], products, formatDate))
  }

  /** The page's table, over the whole catalog. */
  function ComparePage(formatDate: string -> string): seq<seq<string>> {
    Table(Catalog, formatDate)
  }

  /** Nine rows with distinct labels, in the fixed order. */
  lemma RowLabels()
    ensures |Rows| == 9
    ensures seq(|Rows|, i requires 0 <= i < |Rows| => RowLabel(Rows[i])) ==
      ["Origin", "Producer", "Organic", "Fat", "Sugar", "Protein", "Eco Score", "Recyclability", "Expiry"]
    ensures forall i, j :: 0 <= i < j < |Rows| ==> RowLabel(Rows[i]) != RowLabel(Rows[j])
  {}

  /** Each column depends only on its own product: tables of two lists sit side by side. */
  lemma TableSideBySide(a: seq<Product>, b: seq<Product>, formatDate: string -> string)
    ensures forall i :: 0 <= i < 9 ==>
      Table(a + b, formatDate)[i] == Table(a, formatDate)[i] + Table(b, formatDate)[i]
  {
    forall i | 0 <= i < 9
      ensures Table(a + b, formatDate)[i] == Table(a, formatDate)[i] + Table(b, formatDate)[i]
    {
      var r := Rows[i];
      assert Cells(r, a + b, formatDate) == Cells(r, a, formatDate) + Cells(r, b, formatDate);
    }
  }

  /** The Eco Score cell is the scorer's headline average followed by "%". */
  lemma EcoScoreMatchesScorer(p: Product, formatDate: string -> string)
    ensures Render(EcoScoreRow, p, formatDate) ==
      Decimal.IntText(SustainabilityBar.Average(p.sustainability)) + "%"
  {}

  /** The Origin cell is exactly the detail page's origin text. */
  lemma OriginMatchesDetail(p: Product, formatDate: string -> string)
    ensures Render(OriginRow, p, formatDate) == ProductDetail.OriginText(p)
  {}

  /**
   * The Organic row agrees with the Organic chips elsewhere: the cell says
   * yes exactly when the detail hero shows the chip, and exactly when the
   * product card shows it.
   */
  lemma OrganicCell(p: Product, compact: Option<bool>, formatDate: string -> string)
    ensures Render(OrganicRow, p, formatDate) == "✅ Yes" <==> ProductDetail.HeroOf(p).organicChip
    ensures Render(OrganicRow, p, formatDate) == "✅ Yes" <==> ProductCard.CardOf(p, compact, formatDate).organicChip
    ensures Render(OrganicRow, p, formatDate) in {"✅ Yes", "❌ No"}
  {}

  /**
   * The nutrition rows show the same values as the digital label's Fat,
   * Sugar and Protein cells, the Recyclability cell names the bar's
   * Recyclability percentage, and the Expiry cell is the card footer's date.
   */
  lemma CellsMatchOtherViews(p: Product, formatDate: string -> string)
    ensures var cells := ProductDetail.DigitalLabelOf(p).nutrition;
      && Render(FatRow, p, formatDate) == cells[1].value
      && Render(SugarRow, p, formatDate) == cells[3].value
      && Render(ProteinRow, p, formatDate) == cells[4].value
    ensures var bar := SustainabilityBar.Render(p.sustainability);
      Render(RecyclabilityRow, p, formatDate) == Decimal.IntText(bar.rows[1].percent) + "%"
    ensures Render(ExpiryRow, p, formatDate) == ProductCard.CardOf(p, None, formatDate).footer.value.expiry
  {
    ProductDetail.DigitalLabelCaptions(p);
    SustainabilityBar.RenderConsistent(p.sustainability);
    SustainabilityBar.SegmentsArePillars();
  }

  /** Two products with the same Recyclability cell have the same Recyclability pillar. */
  lemma RecyclabilityCellDeterminesPillar(p: Product, q: Product, formatDate: string -> string)
    requires Render(RecyclabilityRow, p, formatDate) == Render(RecyclabilityRow, q, formatDate)
    ensures p.sustainability.recyclability == q.sustainability.recyclability
  {
    var a := Decimal.IntText(p.sustainability.recyclability);
    var b := Decimal.IntText(q.sustainability.recyclability);
    assert a + "%" == b + "%";
    assert |a| == |b|;
    assert a == (a + "%")[..|a|];
    Decimal.IntTextInjective(p.sustainability.recyclability, q.sustainability.recyclability);
  }

  /** The decimal texts of the three catalog scores. */
  lemma ScoreTexts()
    ensures Decimal.IntText(90) == "90" && Decimal.IntText(77) == "77" && Decimal.IntText(91) == "91"
  {
    assert Decimal.IntText(90) == "90";
    assert Decimal.IntText(77) == "77";
  }

  /** On the catalog the Eco Score row reads "90%", "77%", "91%". */
  lemma CatalogEcoScores(formatDate: string -> string)
    ensures ComparePage(formatDate)[6] == ["90%", "77%", "91%"]
  {
    SustainabilityBar.CatalogScores();
    var row := ComparePage(formatDate)[6];
    assert Rows[6] == EcoScoreRow;
    forall j | 0 <= j < 3 ensures row[j] == Decimal.IntText(SustainabilityBar.Average(Catalog[j].sustainability)) + "%" {
      EcoScoreMatchesScorer(Catalog[j], formatDate);
    }
    ScoreTexts();
    assert |row| == 3;
    assert row[0] == "90%" && row[1] == "77%" && row[2] == "91%";
  }
}
