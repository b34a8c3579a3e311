/** The dashboard's product filter, its category list and the price bound derived
    from the catalogue (src/components/BuyerDashboard.tsx). */
module ProductFilter {
  import opened Records
  import opened Text
  import opened Seqs

  /** A price in cents, in the dollars the price-range bounds are written in. */
  function Dollars(c: Cents): real
  {
    c as real / 100.0
  }

  /** The lower-cased name or the lower-cased description contains the lower-cased query. */
  predicate TextMatch(p: Product, query: string)
  {
    Contains(Lower(p.name), Lower(query)) || Contains(Lower(p.description), Lower(query))
  }

  /** The search stage keeps a product when the query is empty or matches it. */
  predicate QueryKeeps(p: Product, query: string)
  {
    query == [] || TextMatch(p, query)
  }

  /** The category stage keeps a product when the selection is "all" or its category. */
  predicate CategoryKeeps(p: Product, category: string)
  {
    category == "all" || p.category == category
  }

  /** The price stage keeps a product whose price lies in `[lo, hi]`, both ends included. */
  predicate PriceKeeps(p: Product, lo: real, hi: real)
  {
    lo <= Dollars(p.price) <= hi
  }

  /** The conjunction of the three stages. */
  predicate Keeps(p: Product, query: string, category: string, lo: real, hi: real)
  {
    QueryKeeps(p, query) && CategoryKeeps(p, category) && PriceKeeps(p, lo, hi)
  }

  function QueryTest(query: string): Product -> bool
  {
    (p: Product) => QueryKeeps(p, query)
  }

  function CategoryTest(category: string): Product -> bool
  {
    (p: Product) => CategoryKeeps(p, category)
  }

  function PriceTest(lo: real, hi: real): Product -> bool
  {
    (p: Product) => PriceKeeps(p, lo, hi)
  }

  function KeepTest(query: string, category: string, lo: real, hi: real): Product -> bool
  {
    (p: Product) => Keeps(p, query, category, lo, hi)
  }

  /** The search stage: an empty query skips it, any other keeps the text matches. */
  function QueryStage(ps: seq<Product>, query: string): seq<Product>
  {
    if query != [] then Filter(ps, (p: Product) => TextMatch(p, query)) else ps
  }

  /** The category stage: the "all" selection skips it, any other keeps that category. */
  function CategoryStage(ps: seq<Product>, category: string): seq<Product>
  {
    if category != "all" then Filter(ps, (p: Product) => p.category == category) else ps
  }

  function PriceStage(ps: seq<Product>, lo: real, hi: real): seq<Product>
  {
    Filter(ps, PriceTest(lo, hi))
  }

  /** Each stage, skipped or not, is a filter by its keep test. */
  lemma StagesAreFilters(ps: seq<Product>, query: string, category: string)
    ensures QueryStage(ps, query) == Filter(ps, QueryTest(query))
    ensures CategoryStage(ps, category) == Filter(ps, CategoryTest(category))
  {
    SameFilter(ps, (p: Product) => TextMatch(p, query), QueryTest(query));
    SameFilter(ps, (p: Product) => p.category == category, CategoryTest(category));
    FilterAllKept(ps, QueryTest(query));
    FilterAllKept(ps, CategoryTest(category));
  }

  /** Filters by pointwise-equal tests (on the elements present) agree. */
  lemma {:induction false} SameFilter(ps: seq<Product>, f: Product -> bool, g: Product -> bool)
    ensures (forall p :: p in ps ==> f(p) == g(p)) ==> Filter(ps, f) == Filter(ps, g)
  {
    if |ps| > 0 && (forall p :: p in ps ==> f(p) == g(p)) {
      assert forall p :: p in ps[1..] ==> p in ps;
      SameFilter(ps[1..], f, g);
    }
  }

  /** `filterProducts()`: search, then category, then price range. The result holds
      exactly the products that pass all three tests, in catalogue order. */
  function FilterProducts(ps: seq<Product>, query: string, category: string, lo: real, hi: real): (r: seq<Product>)
    ensures forall p :: p in r <==> p in ps && Keeps(p, query, category, lo, hi)
    ensures SubsequenceOf(r, ps)
    ensures r == Filter(ps, KeepTest(query, category, lo, hi))
  {
    OnePass(ps, query, category, lo, hi);
    PriceStage(CategoryStage(QueryStage(ps, query), category), lo, hi)
  }

  /** The three stages in the source's order equal one filter by the conjunction. */
  lemma {:induction false} OnePass(ps: seq<Product>, query: string, category: string, lo: real, hi: real)
    ensures PriceStage(CategoryStage(QueryStage(ps, query), category), lo, hi)
            == Filter(ps, KeepTest(query, category, lo, hi))
  {
    var q, c, pr := QueryTest(query), CategoryTest(category), PriceTest(lo, hi);
    StagesAreFilters(ps, query, category);
    StagesAreFilters(Filter(ps, q), query, category);
    var qc := (p: Product) => q(p) && c(p);
    FilterFuse(ps, q, c, qc);
    FilterFuse(ps, qc, pr, KeepTest(query, category, lo, hi));
  }

  /** The three filters commute: every order of the stages gives the same list. */
  lemma StagesCommute(ps: seq<Product>, query: string, category: string, lo: real, hi: real)
    ensures var r := FilterProducts(ps, query, category, lo, hi);
            && r == PriceStage(QueryStage(CategoryStage(ps, category), query), lo, hi)
            && r == CategoryStage(PriceStage(QueryStage(ps, query), lo, hi), category)
            && r == CategoryStage(QueryStage(PriceStage(ps, lo, hi), query), category)
            && r == QueryStage(CategoryStage(PriceStage(ps, lo, hi), category), query)
            && r == QueryStage(PriceStage(CategoryStage(ps, category), lo, hi), query)
  {
    var q, c, pr := QueryTest(query), CategoryTest(category), PriceTest(lo, hi);
    forall s: seq<Product> ensures QueryStage(s, query) == Filter(s, q)
                              && CategoryStage(s, category) == Filter(s, c) {
      StagesAreFilters(s, query, category);
    }
    var r := FilterProducts(ps, query, category, lo, hi);
    assert r == Filter(Filter(Filter(ps, q), c), pr);
    FilterCommute(ps, q, c);
    FilterCommute(Filter(ps, q), c, pr);
    FilterCommute(Filter(ps, c), q, pr);
    FilterCommute(ps, q, pr);
    FilterCommute(ps, c, pr);
    FilterCommute(Filter(ps, pr), q, c);
  }

  /** With an empty query, the "all" category and a range that covers every price,
      the filter returns the whole list. */
  lemma ShowsEverything(ps: seq<Product>, lo: real, hi: real)
    requires forall i :: 0 <= i < |ps| ==> lo <= Dollars(ps[i].price) <= hi
    ensures FilterProducts(ps, [], "all", lo, hi) == ps
  {
    FilterAllKept(ps, KeepTest([], "all", lo, hi));
  }

  /** The search ignores ASCII case: a query that lower-cases to the product's
      lower-cased name finds it, and so does the lower-cased query itself. */
  lemma SearchIgnoresCase(p: Product, query: string)
    requires Lower(query) == Lower(p.name)
    ensures QueryKeeps(p, query)
    ensures QueryKeeps(p, Lower(query))
  {
    ContainsTrivial(Lower(p.name));
    LowerIdempotent(query);
  }

  /** The distinct elements of `xs` in the order of their first occurrence, the
      iteration order of `new Set(xs)`. */
  function Distinct(xs: seq<string>): (r: seq<string>)
    ensures forall x :: x in r <==> x in xs
    ensures forall i, j :: 0 <= i < j < |r| ==> r[i] != r[j]
    ensures forall i, j :: 0 <= i < j < |r| ==> IndexOf(xs, r[i]) < IndexOf(xs, r[j])
  {
    if |xs| == 0 then []
    else
      var init, last := xs[..|xs| - 1], xs[|xs| - 1];
      var d := Distinct(init);
      assert xs == init + [last];
      forall x | x in init ensures IndexOf(xs, x) == IndexOf(init, x) {
        IndexOfAppend(init, last, x);
      }
      if last in d then d
      else
        assert IndexOf(xs, last) == |init|;
        d + [last]
  }

  function CategoryOf(ps: seq<Product>): (r: seq<string>)
    ensures |r| == |ps|
    ensures forall i :: 0 <= i < |ps| ==> r[i] == ps[i].category
  {
    seq(|ps|, i requires 0 <= i < |ps| => ps[i].category)
  }

  /** `categories`: "all" followed by each product category once, in order of first
      appearance. */
  function Categories(ps: seq<Product>): (r: seq<string>)
    ensures |r| >= 1 && r[0] == "all"
    ensures forall c :: c in r[1..] <==> exists i :: 0 <= i < |ps| && ps[i].category == c
    ensures forall i, j :: 1 <= i < j < |r| ==> r[i] != r[j]
    ensures forall i, j :: 1 <= i < j < |r| ==> IndexOf(CategoryOf(ps), r[i]) < IndexOf(CategoryOf(ps), r[j])
  {
    var d := Distinct(CategoryOf(ps));
    assert (["all"] + d)[1..] == d;
    ["all"] + d
  }
}
