/**
 * The scan landing page: the list of scanned products starts with the
 * first catalog product, and "Scan another product" appends the next
 * catalog product until the catalog is exhausted. The list is therefore
 * always a non-empty prefix of the catalog.
 */
module ScanLanding {
  import opened MockProducts

  /** The list starts with the first catalog product (`[mockProducts[0]]`). */
  function InitialScanned(catalog: seq<Product>): (s: seq<Product>)
    requires |catalog| > 0
    ensures IsScanState(catalog, s) && |s| == 1
  {
    [catalog[0]]
  }

  /** `handleScanMore`: append `catalog[len]` while `len < |catalog|`, else do nothing. */
  function ScanMore(catalog: seq<Product>, s: seq<Product>): (r: seq<Product>)
    ensures |s| <= |r| <= |s| + 1 && r[..|s|] == s
    ensures |r| == |s| + 1 <==> |s| < |catalog|
    ensures |r| == |s| + 1 ==> r[|s|] == catalog[|s|]
  {
    if |s| < |catalog| then s + [catalog[|s|]] else s
  }

  /** The page's invariant: a non-empty prefix of the catalog. */
  predicate IsScanState(catalog: seq<Product>, s: seq<Product>) {
    1 <= |s| <= |catalog| && s == catalog[..|s|]
  }

  /** Scanning keeps the invariant and reveals exactly the next catalog product. */
  lemma ScanMorePreserves(catalog: seq<Product>, s: seq<Product>)
    requires IsScanState(catalog, s)
    ensures IsScanState(catalog, ScanMore(catalog, s))
    ensures |s| < |catalog| ==> ScanMore(catalog, s) == catalog[..|s| + 1]
    ensures |s| == |catalog| ==> ScanMore(catalog, s) == s
  {
    if |s| < |catalog| {
      assert catalog[..|s| + 1] == catalog[..|s|] + [catalog[|s|]];
    }
  }

  /** Once the catalog is exhausted, scanning again changes nothing. */
  lemma ScanMoreIdempotent(catalog: seq<Product>, s: seq<Product>)
    requires |s| >= |catalog|
    ensures ScanMore(catalog, s) == s
    ensures ScanMore(catalog, ScanMore(catalog, s)) == ScanMore(catalog, s)
  {}

  /** The state after `n` presses of "Scan another product". */
  function ScanTimes(catalog: seq<Product>, n: nat): seq<Product>
    requires |catalog| > 0
  {
    if n == 0 then InitialScanned(catalog) else ScanMore(catalog, ScanTimes(catalog, n - 1))
  }

  /** After `n` presses the list is the first min(n + 1, |catalog|) catalog products. */
  lemma {:induction false} ScanTimesIsPrefix(catalog: seq<Product>, n: nat)
    requires |catalog| > 0
    ensures IsScanState(catalog, ScanTimes(catalog, n))
    ensures |ScanTimes(catalog, n)| == if n + 1 < |catalog| then n + 1 else |catalog|
  {
    if n > 0 {
      ScanTimesIsPrefix(catalog, n - 1);
      ScanMorePreserves(catalog, ScanTimes(catalog, n - 1));
    }
  }

  /** A prefix of a catalog with distinct ids has distinct ids: scanning never duplicates. */
  lemma NoDuplicateScans(catalog: seq<Product>, s: seq<Product>)
    requires DistinctIds(catalog)
    requires IsScanState(catalog, s)
    ensures DistinctIds(s)
  {
    forall i, j | 0 <= i < j < |s| ensures s[i].id != s[j].id {
      assert s[i] == catalog[i] && s[j] == catalog[j];
    }
  }

  /** The heading count and the Compare link shown on the page. */
  datatype Header = Header(count: nat, compareLink: bool)

  function HeaderOf(s: seq<Product>): (h: Header)
    ensures h.count == |s|
    ensures h.compareLink <==> |s| >= 2
  {
    Header(|s|, |s| >= 2)
  }

  /**
   * The Compare link is hidden at first and shown after the first successful
   * scan; the heading counts the presses made, plus one, up to the catalog size.
   */
  lemma CompareLinkAfterFirstScan(catalog: seq<Product>, n: nat)
    requires |catalog| >= 2
    ensures HeaderOf(ScanTimes(catalog, n)).compareLink <==> n >= 1
    ensures HeaderOf(ScanTimes(catalog, n)).count == if n + 1 < |catalog| then n + 1 else |catalog|
  {
    ScanTimesIsPrefix(catalog, n);
  }

  /** On the three-product catalog: two scans reach all three, a third changes nothing. */
  lemma CatalogScans()
    ensures ScanTimes(Catalog, 0) == [Catalog[0]]
    ensures ScanTimes(Catalog, 2) == Catalog
    ensures ScanTimes(Catalog, 3) == ScanTimes(Catalog, 2)
    ensures DistinctIds(ScanTimes(Catalog, 3))
  {
    CatalogIds();
    ScanTimesIsPrefix(Catalog, 2);
    assert Catalog[..3] == Catalog;
    ScanMoreIdempotent(Catalog, ScanTimes(Catalog, 2));
    ScanTimesIsPrefix(Catalog, 3);
    NoDuplicateScans(Catalog, ScanTimes(Catalog, 3));
  }
}
