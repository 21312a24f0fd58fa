/**
 * The product card: a status badge (label and colour chosen from the
 * `status` field alone), an Organic chip, and a country/expiry footer
 * unless the card is compact.
 */
module ProductCard {
  import opened MockProducts
  import opened Wrappers

  /** `getExpiryColor`: the badge classes for each status. */
  function ExpiryColor(status: Status): string {
    match status
    case Fresh => "bg-fresh/10 text-fresh border-fresh/20"
    case Expiring => "bg-expiring/10 text-expiring border-expiring/20"
    case Expired => "bg-expired/10 text-expired border-expired/20"
    case Consumed => "bg-primary/10 text-primary border-primary/20"
    case Recycled => "bg-success/10 text-success border-success/20"
  }

  /** `getStatusLabel`: the badge text for each status. */
  function StatusLabel(status: Status): string {
    match status
    case Fresh => "🟢 Fresh"
    case Expiring => "🟡 Expires soon"
    case Expired => "🔴 Expired"
    case Consumed => "✅ Consumed"
    case Recycled => "♻️ Recycled"
  }

  /** Both maps are defined for all five statuses and tell them apart. */
  lemma StatusMapsInjective(a: Status, b: Status)
    ensures StatusLabel(a) == StatusLabel(b) <==> a == b
    ensures ExpiryColor(a) == ExpiryColor(b) <==> a == b
  {
    StatusLabelInjective(a, b);
    ExpiryColorInjective(a, b);
  }

  lemma StatusLabelInjective(a: Status, b: Status)
    ensures StatusLabel(a) == StatusLabel(b) <==> a == b
  {
    if a != b {
      assert StatusLabel(a)[0] != StatusLabel(b)[0] || |StatusLabel(a)| != |StatusLabel(b)|;
    }
  }

  lemma ExpiryColorInjective(a: Status, b: Status)
    ensures ExpiryColor(a) == ExpiryColor(b) <==> a == b
  {
    if a != b {
      ExpiryColorTokenEnd(a);
      ExpiryColorTokenEnd(b);
    }
  }

  /** The last letter of each class list's colour token tells the statuses apart. */
  lemma ExpiryColorTokenEnd(s: Status)
    ensures |ExpiryColor(s)| >= 4
    ensures ExpiryColor(s)[|ExpiryColor(s)| - 4] == match s
      case Fresh => 'h' case Expiring => 'g' case Expired => 'd' case Consumed => 'y' case Recycled => 's'
  {
    match s
    case Fresh =>
    case Expiring =>
    case Expired =>
    case Consumed =>
    case Recycled =>
  }

  datatype Badge = Badge(text: string, classes: string)

  datatype Footer = Footer(country: string, expiry: string)

  datatype Card = Card(title: string, subtitle: string, badge: Badge, organicChip: bool, footer: Option<Footer>)

  /**
   * The card for `p`. `compact` is the optional prop: absent (`None`) and
   * `false` both leave the footer on.
   */
  function CardOf(p: Product, compact: Option<bool>, formatDate: string -> string): (c: Card)
    ensures c.organicChip <==> p.organic
    ensures c.footer.Some? <==> compact != Some(true)
    ensures c.footer.Some? ==> c.footer.value.country == p.origin.country
  {
    Card(p.name, p.brand + " · " + p.volume,
         Badge(StatusLabel(p.status), ExpiryColor(p.status)),
         p.organic,
         if compact.GetOr(false) then None else Some(Footer(p.origin.country, formatDate(p.expiry))))
  }

  /** The badge depends on `status` alone: products that differ elsewhere, expiry included, share it. */
  lemma BadgeOnlyFromStatus(p: Product, q: Product, compact: Option<bool>, formatDate: string -> string)
    requires p.status == q.status
    ensures CardOf(p, compact, formatDate).badge == CardOf(q, compact, formatDate).badge
  {}

  /** Different statuses give different badges, whatever the expiry dates. */
  lemma BadgeSeparatesStatuses(p: Product, q: Product, compact: Option<bool>, formatDate: string -> string)
    requires p.status != q.status
    ensures CardOf(p, compact, formatDate).badge.text != CardOf(q, compact, formatDate).badge.text
  {
    StatusMapsInjective(p.status, q.status);
  }

  /** On the catalog, the juice's badge reads "Expires soon" although it carries its own expiry date. */
  lemma CatalogBadges(formatDate: string -> string)
    ensures CardOf(Catalog[0], None, formatDate).badge.text == "🟢 Fresh"
    ensures CardOf(Catalog[1], None, formatDate).badge.text == "🟡 Expires soon"
    ensures CardOf(Catalog[2], None, formatDate).badge.text == "🟢 Fresh"
  {}
}
