/** The price comparison of backend/modules/scraper.py: three fixed site
    catalogues, the case-insensitive substring search over them, and the
    choice of the cheapest site with the savings against it. */
module Catalogue {
  import opened Wrappers
  import opened Text

  /** One catalogue row: a product name with its price and its link. */
  datatype Product = Product(name: string, price: int, link: string)

  /** One entry of the comparison dict: `results[website] = {price, link}`. */
  datatype Offer = Offer(website: string, price: int, link: string)

  /** What `find_cheapest_option` returns when there is something to compare. */
  datatype Cheapest = Cheapest(website: string, price: int, link: string, savings: seq<Saving>)

  /** One entry of the savings dict: `savings[website] = price - cheapest_price`. */
  datatype Saving = Saving(website: string, amount: int)

  const AMAZON: string := "Amazon"
  const FLIPKART: string := "Flipkart"
  const SNAPDEAL: string := "SnapDeal"

  /** The three site keys, in the order the search visits them. */
  const SITES: seq<string> := [AMAZON, FLIPKART, SNAPDEAL]

  /** Ten products, each with a positive price. */
  predicate WellFormedCatalogue(rows: seq<Product>)
  {
    |rows| == 10 && forall i :: 0 <= i < |rows| ==> rows[i].price > 0
  }

  /** A catalogue given column by column: row `i` is the `i`-th name with the
      `i`-th price and the `i`-th link. */
  function Rows(names: seq<string>, prices: seq<int>, links: seq<string>): (rows: seq<Product>)
    requires |names| == |prices| == |links|
    ensures |rows| == |names|
    ensures forall i :: 0 <= i < |rows| ==> rows[i] == Product(names[i], prices[i], links[i])
  {
    seq(|names|, i requires 0 <= i < |names| => Product(names[i], prices[i], links[i]))
  }

  const AMAZON_NAMES: seq<string> :=
    [ "Samsung Galaxy A15",
     "iPhone 15",
     "OnePlus 12",
     "Google Pixel 8",
     "Sony WH-1000XM5",
     "Apple AirPods Pro",
     "Dell XPS 13",
     "Lenovo ThinkPad E14",
     "Apple Watch Series 9",
     "Samsung Galaxy Watch 6"]
  const AMAZON_PRICES: seq<int> :=
    [16999, 79999, 64999, 69999, 24990, 27900, 99999, 54999, 42900, 24999]
  const AMAZON_LINKS: seq<string> :=
    [ "https://www.amazon.in/s?k=Samsung+Galaxy+A15",
     "https://www.amazon.in/s?k=iPhone+15",
     "https://www.amazon.in/s?k=OnePlus+12",
     "https://www.amazon.in/s?k=Google+Pixel+8",
     "https://www.amazon.in/Sony-WH-1000XM5-Cancelling-Headphones/s?k=Sony+WH-1000XM5",
     "https://www.amazon.in/s?k=Apple+AirPods+Pro",
     "https://www.amazon.in/s?k=Dell+XPS+13",
     "https://www.amazon.in/s?k=Lenovo+ThinkPad+E14",
     "https://www.amazon.in/s?k=Apple+Watch+Series+9",
     "https://www.amazon.in/s?k=Samsung+Galaxy+Watch+6"]

  /** `scrape_amazon_sample()`: ten products with positive prices, the
      Galaxy A15 first and the Galaxy Watch 6 last. */
  function AmazonSample(): (rows: seq<Product>)
    ensures WellFormedCatalogue(rows)
    ensures rows[0].name == "Samsung Galaxy A15" && rows[0].price == 16999
    ensures rows[9].name == "Samsung Galaxy Watch 6" && rows[9].price == 24999
  {
    Rows(AMAZON_NAMES, AMAZON_PRICES, AMAZON_LINKS)
  }

  const FLIPKART_NAMES: seq<string> :=
    [ "Samsung Galaxy A15",
     "iPhone 15",
     "OnePlus 12",
     "Google Pixel 8",
     "Sony WH-1000XM5",
     "Apple AirPods Pro",
     "Dell XPS 13",
     "Lenovo ThinkPad E14",
     "Apple Watch Series 9",
     "Samsung Galaxy Watch 6"]
  const FLIPKART_PRICES: seq<int> :=
    [16999, 79499, 64999, 69999, 24990, 27900, 99999, 54999, 42900, 24999]
  const FLIPKART_LINKS: seq<string> :=
    [ "https://www.flipkart.com/search?q=Samsung+Galaxy+A15",
     "https://www.flipkart.com/search?q=iPhone+15",
     "https://www.flipkart.com/search?q=OnePlus+12",
     "https://www.flipkart.com/search?q=Google+Pixel+8",
     "https://www.flipkart.com/search?q=Sony+WH-1000XM5",
     "https://www.flipkart.com/search?q=Apple+AirPods+Pro",
     "https://www.flipkart.com/search?q=Dell+XPS+13",
     "https://www.flipkart.com/search?q=Lenovo+ThinkPad+E14",
     "https://www.flipkart.com/search?q=Apple+Watch+Series+9",
     "https://www.flipkart.com/search?q=Samsung+Galaxy+Watch+6"]

  /** `scrape_flipkart_sample()`: ten products with positive prices, the
      Galaxy A15 first and the Galaxy Watch 6 last. */
  function FlipkartSample(): (rows: seq<Product>)
    ensures WellFormedCatalogue(rows)
    ensures rows[0].name == "Samsung Galaxy A15" && rows[0].price == 16999
    ensures rows[9].name == "Samsung Galaxy Watch 6" && rows[9].price == 24999
  {
    Rows(FLIPKART_NAMES, FLIPKART_PRICES, FLIPKART_LINKS)
  }

  const SNAPDEAL_NAMES: seq<string> :=
    [ "Samsung Galaxy A15",
     "iPhone 15",
     "OnePlus 12",
     "Google Pixel 8",
     "Sony WH-1000XM5",
     "Apple AirPods Pro",
     "Dell XPS 13",
     "Lenovo ThinkPad E14",
     "Apple Watch Series 9",
     "Samsung Galaxy Watch 6"]
  const SNAPDEAL_PRICES: seq<int> :=
    [16799, 79999, 63999, 68999, 24490, 27400, 97999, 53999, 41900, 23999]
  const SNAPDEAL_LINKS: seq<string> :=
    [ "https://www.snapdeal.com/search?keyword=Samsung+Galaxy+A15",
     "https://www.snapdeal.com/search?keyword=iPhone+15",
     "https://www.snapdeal.com/search?keyword=OnePlus+12",
     "https://www.snapdeal.com/search?keyword=Google+Pixel+8",
     "https://www.snapdeal.com/search?keyword=Sony+WH-1000XM5",
     "https://www.snapdeal.com/search?keyword=Apple+AirPods+Pro",
     "https://www.snapdeal.com/search?keyword=Dell+XPS+13",
     "https://www.snapdeal.com/search?keyword=Lenovo+ThinkPad+E14",
     "https://www.snapdeal.com/search?keyword=Apple+Watch+Series+9",
     "https://www.snapdeal.com/search?keyword=Samsung+Galaxy+Watch+6"]

  /** `scrape_snapdeal_sample()`: ten products with positive prices, the
      Galaxy A15 first and the Galaxy Watch 6 last. */
  function SnapdealSample(): (rows: seq<Product>)
    ensures WellFormedCatalogue(rows)
    ensures rows[0].name == "Samsung Galaxy A15" && rows[0].price == 16799
    ensures rows[9].name == "Samsung Galaxy Watch 6" && rows[9].price == 23999
  {
    Rows(SNAPDEAL_NAMES, SNAPDEAL_PRICES, SNAPDEAL_LINKS)
  }

  // ---------------------------------------------------------------------
  // The comparison dict, in insertion order

  predicate HasKey(c: seq<Offer>, key: string)
  {
    exists i :: 0 <= i < |c| && c[i].website == key
  }

  /** No website appears twice, as in any Python dict. */
  predicate DistinctKeys(c: seq<Offer>)
  {
    forall i, j :: 0 <= i < j < |c| ==> c[i].website != c[j].website
  }

  /** `c[o.website] = {price, link}`: a key already present keeps its place
      and takes the new value; a new key goes at the end. */
  function Put(c: seq<Offer>, o: Offer): (r: seq<Offer>)
    ensures !HasKey(c, o.website) ==> r == c + [o]
    ensures forall i :: 0 <= i < |c| && c[i].website == o.website
                        && (forall j :: 0 <= j < i ==> c[j].website != o.website)
                        ==> r == c[i := o]
  {
    if c == [] then [o]
    else if c[0].website == o.website then [o] + c[1..]
    else
      assert !HasKey(c, o.website) ==> !HasKey(c[1..], o.website) by {
        if HasKey(c[1..], o.website) {
          var k :| 0 <= k < |c[1..]| && c[1..][k].website == o.website;
          assert c[k + 1].website == o.website;
        }
      }
      var rest := Put(c[1..], o);
      assert forall i :: 1 <= i < |c| && c[i].website == o.website
                         && (forall j :: 0 <= j < i ==> c[j].website != o.website)
                         ==> rest == c[1..][i - 1 := o] by {
        forall i | 1 <= i < |c| && c[i].website == o.website
                   && (forall j :: 0 <= j < i ==> c[j].website != o.website)
          ensures rest == c[1..][i - 1 := o]
        {
          assert forall j :: 0 <= j < i - 1 ==> c[1..][j].website != o.website by {
            forall j | 0 <= j < i - 1 ensures c[1..][j].website != o.website {
              assert c[1..][j] == c[j + 1];
            }
          }
        }
      }
      [c[0]] + rest
  }

  // ---------------------------------------------------------------------
  // The search

  /** `search_term in product["name"].lower()` */
  predicate Matches(p: Product, term: string)
  {
    Occurs(term, Lower(p.name))
  }

  /** The index of the row the search loop leaves in the dict: the last row
      whose name matches, since every later match overwrites the earlier one. */
  function LastMatch(rows: seq<Product>, term: string): (r: Option<nat>)
    ensures r.None? <==> forall k :: 0 <= k < |rows| ==> !Matches(rows[k], term)
    ensures r.Some? ==> r.value < |rows| && Matches(rows[r.value], term)
    ensures r.Some? ==> forall k :: r.value < k < |rows| ==> !Matches(rows[k], term)
  {
    if rows == [] then None
    else if Matches(rows[|rows| - 1], term) then Some(|rows| - 1)
    else
      var r := LastMatch(rows[..|rows| - 1], term);
      assert forall k :: 0 <= k < |rows| - 1 ==> rows[..|rows| - 1][k] == rows[k];
      r
  }

  /** What one site contributes to the comparison: nothing, or the price and
      the link of its last matching row. */
  function SiteResult(site: string, rows: seq<Product>, term: string): seq<Offer>
  {
    match LastMatch(rows, term)
    case None => []
    case Some(k) => [Offer(site, rows[k].price, rows[k].link)]
  }

  /** The dict the three search loops build over the catalogues `amazon`,
      `flipkart` and `snapdeal`, in that order. */
  function SearchIn(amazon: seq<Product>, flipkart: seq<Product>, snapdeal: seq<Product>,
                    productName: string): seq<Offer>
  {
    var term := Lower(productName);
    SiteResult(AMAZON, amazon, term)
      + SiteResult(FLIPKART, flipkart, term)
      + SiteResult(SNAPDEAL, snapdeal, term)
  }

  /** The dict `scrape_all_websites(productName)` returns. */
  function Search(productName: string): seq<Offer>
  {
    SearchIn(AmazonSample(), FlipkartSample(), SnapdealSample(), productName)
  }

  /** A site contributes at most one entry, under its own key. */
  lemma SiteResultShape(site: string, rows: seq<Product>, term: string)
    ensures |SiteResult(site, rows, term)| <= 1
    ensures forall o <- SiteResult(site, rows, term) :: o.website == site
    ensures SiteResult(site, rows, term) != [] <==> LastMatch(rows, term).Some?
  {
  }

  /** Writing a site's key again, after that site's own entry (if any),
      leaves exactly the new entry in that place. */
  lemma PutOverOwnEntry(results: seq<Offer>, own: seq<Offer>, o: Offer)
    requires !HasKey(results, o.website)
    requires |own| <= 1 && forall p <- own :: p.website == o.website
    ensures Put(results + own, o) == results + [o]
  {
    var c := results + own;
    if own == [] {
      assert c == results;
    } else {
      var i := |results|;
      assert c[i] == own[0];
      assert forall j :: 0 <= j < i ==> c[j].website != o.website;
      assert c[i := o] == results + [o];
    }
  }

  lemma HasKeyConcat(x: seq<Offer>, y: seq<Offer>, key: string)
    ensures HasKey(x + y, key) <==> HasKey(x, key) || HasKey(y, key)
  {
    if HasKey(x + y, key) {
      var i :| 0 <= i < |x + y| && (x + y)[i].website == key;
      if i >= |x| {
        assert y[i - |x|].website == key;
      }
    }
    if HasKey(x, key) {
      var i :| 0 <= i < |x| && x[i].website == key;
      assert (x + y)[i].website == key;
    }
    if HasKey(y, key) {
      var i :| 0 <= i < |y| && y[i].website == key;
      assert (x + y)[|x| + i].website == key;
    }
  }

  /** One of the three `for product in ...` loops: walks the catalogue in
      order and writes every matching row under `site`, overwriting. */
  method MergeMatches(results: seq<Offer>, site: string, rows: seq<Product>, term: string)
    returns (updated: seq<Offer>)
    requires !HasKey(results, site)
    ensures updated == results + SiteResult(site, rows, term)
  {
    updated := results;
    for i := 0 to |rows|
      invariant updated == results + SiteResult(site, rows[..i], term)
    {
      assert rows[..i + 1][..i] == rows[..i];
      if Occurs(term, Lower(rows[i].name)) {
        var o := Offer(site, rows[i].price, rows[i].link);
        SiteResultShape(site, rows[..i], term);
        PutOverOwnEntry(results, SiteResult(site, rows[..i], term), o);
        updated := Put(updated, o);
      }
    }
    assert rows[..|rows|] == rows;
  }

  /** `scrape_all_websites(product_name)` */
  method ScrapeAllWebsites(productName: string) returns (comparisonResults: seq<Offer>)
    ensures comparisonResults == Search(productName)
  {
    var amazonProducts := AmazonSample();
    var flipkartProducts := FlipkartSample();
    var snapdealProducts := SnapdealSample();
    comparisonResults := SearchCatalogues(amazonProducts, flipkartProducts, snapdealProducts, productName);
  }

  /** The body of `scrape_all_websites` over any three catalogues: the three
      search loops, one per site, writing into one dict. */
  method SearchCatalogues(amazon: seq<Product>, flipkart: seq<Product>, snapdeal: seq<Product>,
                          productName: string)
    returns (comparisonResults: seq<Offer>)
    ensures comparisonResults == SearchIn(amazon, flipkart, snapdeal, productName)
  {
    comparisonResults := [];
    var searchTerm := Lower(productName);
    SiteResultHasKey(AMAZON, amazon, searchTerm, FLIPKART);
    SiteResultHasKey(AMAZON, amazon, searchTerm, SNAPDEAL);
    SiteResultHasKey(FLIPKART, flipkart, searchTerm, SNAPDEAL);
    HasKeyConcat(SiteResult(AMAZON, amazon, searchTerm), SiteResult(FLIPKART, flipkart, searchTerm), SNAPDEAL);
    comparisonResults := MergeMatches(comparisonResults, AMAZON, amazon, searchTerm);
    comparisonResults := MergeMatches(comparisonResults, FLIPKART, flipkart, searchTerm);
    comparisonResults := MergeMatches(comparisonResults, SNAPDEAL, snapdeal, searchTerm);
  }

  // ---------------------------------------------------------------------
  // Properties of the search

  /** Every key of the result is one of the three sites, each at most once,
      and in the order Amazon, Flipkart, SnapDeal. */
  lemma SearchKeys(amazon: seq<Product>, flipkart: seq<Product>, snapdeal: seq<Product>, productName: string)
    ensures var r := SearchIn(amazon, flipkart, snapdeal, productName);
            && DistinctKeys(r)
            && (forall i :: 0 <= i < |r| ==> r[i].website in SITES)
            && (forall i, j :: 0 <= i < j < |r| ==> SiteRank(r[i].website) < SiteRank(r[j].website))
  {
    var term := Lower(productName);
    SiteResultShape(AMAZON, amazon, term);
    SiteResultShape(FLIPKART, flipkart, term);
    SiteResultShape(SNAPDEAL, snapdeal, term);
  }

  /** Position of a site key in the visiting order. */
  function SiteRank(site: string): nat
  {
    if site == AMAZON then 0 else if site == FLIPKART then 1 else 2
  }

  /** The catalogue searched under a site key; no rows for any other key. */
  function CatalogueFor(site: string, amazon: seq<Product>, flipkart: seq<Product>, snapdeal: seq<Product>)
    : seq<Product>
  {
    if site == AMAZON then amazon else if site == FLIPKART then flipkart
    else if site == SNAPDEAL then snapdeal else []
  }

  /** A site is in the result exactly when one of its catalogue names
      contains the lower-cased query. */
  lemma SearchHasSiteIff(amazon: seq<Product>, flipkart: seq<Product>, snapdeal: seq<Product>,
                         productName: string, site: string)
    requires site in SITES
    ensures var rows := CatalogueFor(site, amazon, flipkart, snapdeal);
            HasKey(SearchIn(amazon, flipkart, snapdeal, productName), site)
            <==> exists k :: 0 <= k < |rows| && Matches(rows[k], Lower(productName))
  {
    var term := Lower(productName);
    var a, f, s := SiteResult(AMAZON, amazon, term), SiteResult(FLIPKART, flipkart, term),
                   SiteResult(SNAPDEAL, snapdeal, term);
    SiteResultShape(AMAZON, amazon, term);
    SiteResultShape(FLIPKART, flipkart, term);
    SiteResultShape(SNAPDEAL, snapdeal, term);
    HasKeyConcat(a + f, s, site);
    HasKeyConcat(a, f, site);
    SiteResultHasKey(AMAZON, amazon, term, site);
    SiteResultHasKey(FLIPKART, flipkart, term, site);
    SiteResultHasKey(SNAPDEAL, snapdeal, term, site);
    var rows := CatalogueFor(site, amazon, flipkart, snapdeal);
    assert LastMatch(rows, term).None? <==> forall k :: 0 <= k < |rows| ==> !Matches(rows[k], term);
  }

  lemma SiteResultHasKey(site: string, rows: seq<Product>, term: string, key: string)
    ensures HasKey(SiteResult(site, rows, term), key) <==> key == site && LastMatch(rows, term).Some?
  {
    SiteResultShape(site, rows, term);
    if LastMatch(rows, term).Some? && key == site {
      assert SiteResult(site, rows, term)[0].website == key;
    }
  }

  /** Each entry holds the price and the link of one and the same catalogue
      row of its site: the last row that matches. */
  lemma SearchEntryIsLastMatch(amazon: seq<Product>, flipkart: seq<Product>, snapdeal: seq<Product>,
                               productName: string, o: Offer)
    requires o in SearchIn(amazon, flipkart, snapdeal, productName)
    ensures o.website in SITES
    ensures var rows := CatalogueFor(o.website, amazon, flipkart, snapdeal);
            && LastMatch(rows, Lower(productName)).Some?
            && var k := LastMatch(rows, Lower(productName)).value;
               o.price == rows[k].price && o.link == rows[k].link
  {
    var term := Lower(productName);
    var a, f, s := SiteResult(AMAZON, amazon, term), SiteResult(FLIPKART, flipkart, term),
                   SiteResult(SNAPDEAL, snapdeal, term);
    SiteResultShape(AMAZON, amazon, term);
    SiteResultShape(FLIPKART, flipkart, term);
    SiteResultShape(SNAPDEAL, snapdeal, term);
    if o in a {
      assert o.website == AMAZON;
    } else if o in f {
      assert o.website == FLIPKART;
    } else {
      assert o in s && o.website == SNAPDEAL;
    }
  }

  /** Matching ignores case: the query and its lower-cased form give the
      same dict, so any two queries with equal lower-cased forms do too. */
  lemma {:induction false} SearchIgnoresCase(q1: string, q2: string)
    requires Lower(q1) == Lower(q2)
    ensures Search(q1) == Search(q2)
    ensures Search(q1) == Search(Lower(q1))
  {
    LowerIdempotent(q1);
  }

  /** The empty query is in every name, so every site is present with its
      last catalogue row. */
  lemma EmptyQueryKeepsLastRows()
    ensures Search("") == [
      Offer(AMAZON, 24999, "https://www.amazon.in/s?k=Samsung+Galaxy+Watch+6"),
      Offer(FLIPKART, 24999, "https://www.flipkart.com/search?q=Samsung+Galaxy+Watch+6"),
      Offer(SNAPDEAL, 23999, "https://www.snapdeal.com/search?keyword=Samsung+Galaxy+Watch+6") ]
  {
    EmptyOccurs(Lower(AmazonSample()[9].name));
    EmptyOccurs(Lower(FlipkartSample()[9].name));
    EmptyOccurs(Lower(SnapdealSample()[9].name));
  }

  // ---------------------------------------------------------------------
  // The cheapest option

  /** The entry `min(comparison_results, key=price)` picks: a price no entry
      undercuts, and the first such entry in dict order. */
  function CheapestIndex(c: seq<Offer>): (k: nat)
    requires c != []
    ensures k < |c|
    ensures forall j :: 0 <= j < |c| ==> c[k].price <= c[j].price
    ensures forall j :: 0 <= j < k ==> c[k].price < c[j].price
  {
    if |c| == 1 then 0
    else
      var k := CheapestIndex(c[..|c| - 1]);
      if c[|c| - 1].price < c[k].price then |c| - 1 else k
  }

  /** `find_cheapest_option(comparison_results)` */
  function FindCheapestOption(c: seq<Offer>): (r: Option<Cheapest>)
    ensures r.None? <==> c == []
    ensures r.Some? ==> |r.value.savings| == |c|
    ensures r.Some? ==>
              exists k :: 0 <= k < |c|
                && c[k] == Offer(r.value.website, r.value.price, r.value.link)
                && r.value.savings[k].amount == 0
                && (forall j :: 0 <= j < k ==> c[j].price > r.value.price)
    ensures r.Some? ==> forall j :: 0 <= j < |c| ==> r.value.price <= c[j].price
    ensures r.Some? ==> forall i :: 0 <= i < |c| ==>
              r.value.savings[i].website == c[i].website
              && r.value.savings[i].amount == c[i].price - r.value.price
              && r.value.savings[i].amount >= 0
  {
    if c == [] then None
    else
      var k := CheapestIndex(c);
      var cheapestPrice := c[k].price;
      Some(Cheapest(c[k].website, cheapestPrice, c[k].link,
                    seq(|c|, i requires 0 <= i < |c| => Saving(c[i].website, c[i].price - cheapestPrice))))
  }

  // ---------------------------------------------------------------------
  // Worked examples on the fixed catalogues

  /** "samsung galaxy" is in the names of both the Galaxy A15 and the Galaxy
      Watch 6; the Watch 6 row comes later, so its price and link win on
      every site, and SnapDeal is the cheapest. */
  lemma SamsungGalaxyExample()
    ensures Search("samsung galaxy") == [
      Offer(AMAZON, 24999, "https://www.amazon.in/s?k=Samsung+Galaxy+Watch+6"),
      Offer(FLIPKART, 24999, "https://www.flipkart.com/search?q=Samsung+Galaxy+Watch+6"),
      Offer(SNAPDEAL, 23999, "https://www.snapdeal.com/search?keyword=Samsung+Galaxy+Watch+6") ]
    ensures FindCheapestOption(Search("samsung galaxy")) == Some(Cheapest(
      SNAPDEAL, 23999, "https://www.snapdeal.com/search?keyword=Samsung+Galaxy+Watch+6",
      [Saving(AMAZON, 1000), Saving(FLIPKART, 1000), Saving(SNAPDEAL, 0)]))
  {
    var term := Lower("samsung galaxy");
    assert term == "samsung galaxy";
    assert Lower("Samsung Galaxy Watch 6")[..14] == "samsung galaxy";
    assert AmazonSample()[9].name == "Samsung Galaxy Watch 6";
    assert FlipkartSample()[9].name == "Samsung Galaxy Watch 6";
    assert SnapdealSample()[9].name == "Samsung Galaxy Watch 6";
    var r := Search("samsung galaxy");
    assert r == [
      Offer(AMAZON, 24999, "https://www.amazon.in/s?k=Samsung+Galaxy+Watch+6"),
      Offer(FLIPKART, 24999, "https://www.flipkart.com/search?q=Samsung+Galaxy+Watch+6"),
      Offer(SNAPDEAL, 23999, "https://www.snapdeal.com/search?keyword=Samsung+Galaxy+Watch+6") ];
    assert CheapestIndex(r) == 2;
    var c := FindCheapestOption(r).value;
    assert c.savings == [Saving(AMAZON, 1000), Saving(FLIPKART, 1000), Saving(SNAPDEAL, 0)];
  }

  /** No row matches a term holding a non-letter character that every name
      long enough to hold the term lacks. */
  lemma NoRowMatches(rows: seq<Product>, term: string, c: char)
    requires c in term && !IsUpper(c) && !('a' <= c <= 'z')
    requires forall k :: 0 <= k < |rows| ==> |rows[k].name| < |term| || c !in rows[k].name
    ensures LastMatch(rows, term) == None
  {
    forall k | 0 <= k < |rows|
      ensures !Matches(rows[k], term)
    {
      if |rows[k].name| >= |term| {
        LowerKeepsNonLetter(rows[k].name, c);
        NotOccursWithout(term, Lower(rows[k].name), c);
      }
    }
  }

  /** The names long enough to hold "samsung galaxy a12": none holds a '2'. */
  const LONG_NAMES: set<string> :=
    {"Samsung Galaxy A15", "Lenovo ThinkPad E14", "Apple Watch Series 9", "Samsung Galaxy Watch 6"}

  /** A catalogue whose names are short or among LONG_NAMES has no row
      matching "samsung galaxy a12". */
  lemma LacksDocumentedQuery(names: seq<string>, prices: seq<int>, links: seq<string>)
    requires |names| == |prices| == |links|
    requires forall k :: 0 <= k < |names| ==> |names[k]| < 18 || names[k] in LONG_NAMES
    ensures LastMatch(Rows(names, prices, links), "samsung galaxy a12").None?
  {
    assert '2' !in "Samsung Galaxy A15";
    assert '2' !in "Lenovo ThinkPad E14";
    assert '2' !in "Apple Watch Series 9";
    assert '2' !in "Samsung Galaxy Watch 6";
    assert "samsung galaxy a12"[17] == '2';
    NoRowMatches(Rows(names, prices, links), "samsung galaxy a12", '2');
  }

  /** The query of the function's own documentation, "Samsung Galaxy A12",
      is in no catalogue name (the catalogues hold the Galaxy A15), so the
      dict is empty and there is no cheapest option. */
  lemma DocumentedQueryMatchesNothing(query: string)
    requires query == "Samsung Galaxy A12"
    ensures Search(query) == []
    ensures FindCheapestOption(Search(query)) == None
  {
    LowerDocumentedQuery(query);
    SamplesLackDocumentedQuery();
  }

  lemma LowerDocumentedQuery(query: string)
    requires query == "Samsung Galaxy A12"
    ensures Lower(query) == "samsung galaxy a12"
  {
  }

  lemma SamplesLackDocumentedQuery()
    ensures LastMatch(AmazonSample(), "samsung galaxy a12").None?
    ensures LastMatch(FlipkartSample(), "samsung galaxy a12").None?
    ensures LastMatch(SnapdealSample(), "samsung galaxy a12").None?
  {
    AmazonLacksDocumentedQuery();
    FlipkartLacksDocumentedQuery();
    SnapdealLacksDocumentedQuery();
  }

  lemma AmazonLacksDocumentedQuery()
    ensures LastMatch(AmazonSample(), "samsung galaxy a12").None?
  {
    LacksDocumentedQuery(AMAZON_NAMES, AMAZON_PRICES, AMAZON_LINKS);
  }

  lemma FlipkartLacksDocumentedQuery()
    ensures LastMatch(FlipkartSample(), "samsung galaxy a12").None?
  {
    LacksDocumentedQuery(FLIPKART_NAMES, FLIPKART_PRICES, FLIPKART_LINKS);
  }

  lemma SnapdealLacksDocumentedQuery()
    ensures LastMatch(SnapdealSample(), "samsung galaxy a12").None?
  {
    LacksDocumentedQuery(SNAPDEAL_NAMES, SNAPDEAL_PRICES, SNAPDEAL_LINKS);
  }
}
