/**
 * The catalog page: a brand selector, a free-text search term and the
 * filtered product list derived from them.
 */
module ProductsPage {
  import opened Wrappers
  import opened Text
  import opened Types
  import opened Sequences

  /** The catch-all brand ("all brands"). */
  const AllBrands: string := "SVE"

  /** The filter buttons, in display order. */
  const Brands: seq<string> := ["SVE", "BMW", "MERCEDES", "AUDI", "PORSCHE", "LAND ROVER"]

  /** Exact, case-sensitive brand test, or the catch-all. The catch-all
      admits every product; every other button compares exactly. */
  predicate MatchesBrand(p: Product, selectedBrand: string)
    ensures selectedBrand == AllBrands ==> MatchesBrand(p, selectedBrand)
    ensures selectedBrand in Brands[1..] ==> (MatchesBrand(p, selectedBrand) <==> p.brand == selectedBrand)
  {
    selectedBrand == AllBrands || p.brand == selectedBrand
  }

  /** The lowered term occurs in the lowered name, brand or model; the
      empty term therefore matches every product. */
  predicate MatchesSearch(p: Product, searchTerm: string)
    ensures MatchesSearch(p, searchTerm) <==>
      (|| Occurs(Lower(p.name), Lower(searchTerm))
       || Occurs(Lower(p.brand), Lower(searchTerm))
       || Occurs(Lower(p.model), Lower(searchTerm)))
    ensures searchTerm == "" ==> MatchesSearch(p, searchTerm)
  {
    IncludesIffOccurs(Lower(p.name), Lower(searchTerm));
    IncludesIffOccurs(Lower(p.brand), Lower(searchTerm));
    IncludesIffOccurs(Lower(p.model), Lower(searchTerm));
    || Includes(Lower(p.name), Lower(searchTerm))
    || Includes(Lower(p.brand), Lower(searchTerm))
    || Includes(Lower(p.model), Lower(searchTerm))
  }

  /** Both tests of the filter callback. In the page's initial state (all
      brands, empty term) every product matches; under a named brand a
      product of any other brand never does. */
  predicate Matches(p: Product, selectedBrand: string, searchTerm: string)
    ensures selectedBrand == AllBrands && searchTerm == "" ==> Matches(p, selectedBrand, searchTerm)
    ensures selectedBrand != AllBrands && p.brand != selectedBrand ==> !Matches(p, selectedBrand, searchTerm)
  {
    MatchesBrand(p, selectedBrand) && MatchesSearch(p, searchTerm)
  }

  /** The memoised `filteredProducts`: sound and complete for `Matches`. */
  function FilteredProducts(products: seq<Product>, selectedBrand: string, searchTerm: string): (r: seq<Product>)
    ensures forall p :: p in r ==> p in products && Matches(p, selectedBrand, searchTerm)
    ensures forall p :: p in products && Matches(p, selectedBrand, searchTerm) ==> p in r
  {
    FilterBy(products, (p: Product) => Matches(p, selectedBrand, searchTerm))
  }

  /** The result is the matching products in catalog order, each as often
      as it occurs in the catalog. */
  lemma FilteredProductsInCatalogOrder(products: seq<Product>, selectedBrand: string, searchTerm: string)
    ensures var r, pos := FilteredProducts(products, selectedBrand, searchTerm),
                          Positions(products, (p: Product) => Matches(p, selectedBrand, searchTerm));
      && |pos| == |r|
      && (forall k :: 0 <= k < |pos| ==> r[k] == products[pos[k]])
      && (forall k, l :: 0 <= k < l < |pos| ==> pos[k] < pos[l])
      && (forall i :: 0 <= i < |products| ==> (Matches(products[i], selectedBrand, searchTerm) <==> i in pos))
    ensures forall p :: multiset(FilteredProducts(products, selectedBrand, searchTerm))[p] ==
                        if Matches(p, selectedBrand, searchTerm) then multiset(products)[p] else 0
  {
    var keep := (p: Product) => Matches(p, selectedBrand, searchTerm);
    FilterBySelectsInOrder(products, keep);
    forall p ensures multiset(FilterBy(products, keep))[p] == if keep(p) then multiset(products)[p] else 0 {
      FilterByCounts(products, keep, p);
    }
  }

  /** Filtering the displayed list again with the same brand and term
      changes nothing. */
  lemma FilteredProductsIdempotent(products: seq<Product>, selectedBrand: string, searchTerm: string)
    ensures var r := FilteredProducts(products, selectedBrand, searchTerm);
      FilteredProducts(r, selectedBrand, searchTerm) == r
  {
    FilterByIdempotent(products, (p: Product) => Matches(p, selectedBrand, searchTerm));
  }

  /** With the catch-all brand only the search decides. */
  lemma AllBrandsFiltersBySearchOnly(products: seq<Product>, searchTerm: string)
    ensures FilteredProducts(products, AllBrands, searchTerm) ==
            FilterBy(products, (p: Product) => MatchesSearch(p, searchTerm))
  {
    FilterByExtensional(products,
      (p: Product) => Matches(p, AllBrands, searchTerm),
      (p: Product) => MatchesSearch(p, searchTerm));
  }

  /** `includes("")` holds, so an empty term keeps every product of the
      selected brand. */
  lemma EmptySearchFiltersByBrandOnly(products: seq<Product>, selectedBrand: string)
    ensures FilteredProducts(products, selectedBrand, "") ==
            FilterBy(products, (p: Product) => MatchesBrand(p, selectedBrand))
  {
    LowerEmpty();
    forall p: Product ensures MatchesSearch(p, "") {
      IncludesEmpty(Lower(p.name));
    }
    FilterByExtensional(products,
      (p: Product) => Matches(p, selectedBrand, ""),
      (p: Product) => MatchesBrand(p, selectedBrand));
  }

  /** The search sees the term only through its lowercased form. */
  lemma SearchDependsOnLoweredTerm(products: seq<Product>, selectedBrand: string, term1: string, term2: string)
    requires Lower(term1) == Lower(term2)
    ensures FilteredProducts(products, selectedBrand, term1) == FilteredProducts(products, selectedBrand, term2)
  {
    FilterByExtensional(products,
      (p: Product) => Matches(p, selectedBrand, term1),
      (p: Product) => Matches(p, selectedBrand, term2));
  }

  /** The brand test is not case-insensitive: a product whose brand
      differs from the selected one only in case is left out. */
  lemma BrandMatchIsCaseSensitive(products: seq<Product>, searchTerm: string, p: Product)
    requires p in products && p.brand == "Bmw"
    ensures p !in FilteredProducts(products, "BMW", searchTerm)
  {
  }

  /** A mixed-case term finds a product by its name under the catch-all. */
  lemma MixedCaseSearchFindsName(products: seq<Product>, p: Product)
    requires p in products && p.name == "BMW X5 Air Suspension"
    ensures p in FilteredProducts(products, AllBrands, "x5")
    ensures p in FilteredProducts(products, AllBrands, "X5")
  {
    assert Lower("x5") == "x5" && Lower("X5") == "x5";
    assert Lower(p.name)[4..6] == "x5";
    assert OccursAt(Lower(p.name), "x5", 4);
    OccursImpliesIncludes(Lower(p.name), "x5", 4);
  }

  /** The "no results" panel shows exactly when no catalog product matches. */
  lemma NoResultsIffNothingMatches(products: seq<Product>, selectedBrand: string, searchTerm: string)
    ensures |FilteredProducts(products, selectedBrand, searchTerm)| == 0 <==>
            forall p :: p in products ==> !Matches(p, selectedBrand, searchTerm)
  {
    FilterByEmptyIff(products, (p: Product) => Matches(p, selectedBrand, searchTerm));
  }

  /** Proof helper for the brand table: a string whose characters uppercase
      one by one to `t` has `Upper` equal to `t`. */
  lemma {:induction false} UpperSpelled(s: string, t: string)
    requires |s| == |t| && forall i :: 0 <= i < |s| ==> UpperChar(s[i]) == t[i]
    ensures Upper(s) == t
  {
  }

  /** The uppercased name of the i-th brand is a filter button. */
  lemma UppercasedCarBrandIsFilterButton(i: nat)
    requires i < |CarBrands|
    ensures Upper(CarBrands[i].name) in Brands
  {
    var name := CarBrands[i].name;
    var upper := ["BMW", "MERCEDES", "LAND ROVER", "AUDI", "PORSCHE"][i];
    assert [CarBrands[0].name, CarBrands[1].name, CarBrands[2].name, CarBrands[3].name, CarBrands[4].name]
        == ["BMW", "Mercedes", "Land Rover", "Audi", "Porsche"];
    UpperSpelled(name, upper);
    assert upper in Brands;
  }

  /** Every brand tile and dropdown entry, uppercased, is one of the
      filter buttons, so a brand chosen elsewhere selects a button here. */
  lemma UppercasedCarBrandsAreFilterButtons()
    ensures forall b :: b in CarBrands ==> Upper(b.name) in Brands
    ensures AllBrands in Brands
  {
    forall b | b in CarBrands ensures Upper(b.name) in Brands {
      var i :| 0 <= i < |CarBrands| && CarBrands[i] == b;
      UppercasedCarBrandIsFilterButton(i);
    }
    assert Brands[0] == AllBrands;
  }

  datatype ViewMode = Grid | List

  /** What the page shows: the result count beside the view-mode buttons,
      and below the filters either the "no results" panel or the cards. */
  datatype Listing = NoResults(count: nat) | Results(count: nat, products: seq<Product>)

  /** The page's local state: selected brand, search term and view mode. */
  class Page {
    var selectedBrand: string
    var searchTerm: string
    var viewMode: ViewMode

    /** `initialBrand` is the optional prop; when absent it is the catch-all. */
    constructor (initialBrand: Option<string>)
      ensures selectedBrand == (if initialBrand.Some? then initialBrand.value else AllBrands)
      ensures searchTerm == "" && viewMode == Grid
    {
      selectedBrand := if initialBrand.Some? then initialBrand.value else AllBrands;
      searchTerm := "";
      viewMode := Grid;
    }

    /** A filter button or a brand forwarded by the navigation bar. */
    method SelectBrand(brand: string)
      modifies this
      ensures selectedBrand == brand
      ensures searchTerm == old(searchTerm) && viewMode == old(viewMode)
    {
      selectedBrand := brand;
    }

    /** The navigation bar's search input, forwarded verbatim. */
    method SetSearchTerm(term: string)
      modifies this
      ensures searchTerm == term
      ensures selectedBrand == old(selectedBrand) && viewMode == old(viewMode)
    {
      searchTerm := term;
    }

    method SetViewMode(mode: ViewMode)
      modifies this
      ensures viewMode == mode
      ensures selectedBrand == old(selectedBrand) && searchTerm == old(searchTerm)
    {
      viewMode := mode;
    }

    /** The count shown is the filtered length; the "no results" panel is
        taken exactly when nothing in the catalog matches, and otherwise the
        cards are the filtered products in catalog order. */
    function Shown(catalog: seq<Product>): (l: Listing)
      reads this
      ensures l.count == |FilteredProducts(catalog, selectedBrand, searchTerm)|
      ensures l.NoResults? <==> l.count == 0
      ensures l.NoResults? <==> forall p :: p in catalog ==> !Matches(p, selectedBrand, searchTerm)
      ensures l.Results? ==> l.products == FilteredProducts(catalog, selectedBrand, searchTerm)
      ensures l.Results? ==> forall p :: p in l.products <==> p in catalog && Matches(p, selectedBrand, searchTerm)
    {
      NoResultsIffNothingMatches(catalog, selectedBrand, searchTerm);
      var r := FilteredProducts(catalog, selectedBrand, searchTerm);
      if |r| == 0 then NoResults(0) else Results(|r|, r)
    }
  }
}
