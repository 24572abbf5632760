/**
 * The product catalogue page (src/pages/Products.tsx): the products shown
 * for a selected category, a search query and a sort option.
 *
 * `toLowerCase` is a parameter (`lower`), so every property holds for any
 * lowering function, the Unicode one included. Prices and ratings are
 * integers.
 */
module Catalogue {
  import opened Opt
  import Seqs
  import Strings

  /** A catalogue product (src/data/products.ts). */
  datatype Product = Product(
    id: string,
    name: string,
    nameAr: string,
    price: int,
    originalPrice: Option<int>,
    imageUrl: Option<string>,
    category: string,
    categoryAr: string,
    rating: Option<int>,
    isNew: Option<bool>,
    isSale: Option<bool>,
    isActive: Option<bool>,
    description: Option<string>,
    descriptionAr: Option<string>,
    stock: Option<int>)

  datatype SortOption = Default | PriceAsc | PriceDesc | ByRating | Newest

  /** `String.prototype.toLowerCase`, left abstract. */
  type Lowering = string -> string

  /** The category id that switches the category filter off. */
  const AllCategories: string := "all"

  /** The rating a product is sorted by: a missing or zero rating counts as 5. */
  function EffectiveRating(p: Product): int {
    if p.rating.None? || p.rating.value == 0 then 5 else p.rating.value
  }

  /** 1 for a product flagged new, 0 otherwise. */
  function NewRank(p: Product): int {
    if p.isNew == Some(true) then 1 else 0
  }

  // The sort keys: each sort orders by non-decreasing key.
  function PriceKey(p: Product): int { p.price }
  function NegPriceKey(p: Product): int { -p.price }
  function NegRatingKey(p: Product): int { -EffectiveRating(p) }
  function NegNewKey(p: Product): int { -NewRank(p) }

  // ---------------------------------------------------------------------
  // What the page promises to show
  // ---------------------------------------------------------------------

  /** The category filter: off for `all`, otherwise an exact category match. */
  predicate InCategory(p: Product, selected: string) {
    selected == AllCategories || p.category == selected
  }

  /**
   * The search filter: off for an empty query; otherwise the lowered query
   * is found in the lowered name or category, or as-is in an Arabic field.
   */
  predicate MatchesQuery(p: Product, query: string, lower: Lowering) {
    query == "" ||
    (Strings.Includes(lower(p.name), lower(query)) ||
     Strings.Includes(lower(p.category), lower(query)) ||
     Strings.Includes(p.nameAr, lower(query)) ||
     Strings.Includes(p.categoryAr, lower(query)))
  }

  // ---------------------------------------------------------------------
  // The page's computation, step by step
  // ---------------------------------------------------------------------

  function FilterByCategory(products: seq<Product>, selected: string): seq<Product> {
    if selected != AllCategories then Seqs.Filter(products, (p: Product) => p.category == selected)
    else products
  }

  function FilterBySearch(products: seq<Product>, query: string, lower: Lowering): seq<Product> {
    if query != "" then
      var q := lower(query);
      Seqs.Filter(products, (p: Product) =>
        Strings.Includes(lower(p.name), q) ||
        Strings.Includes(p.nameAr, q) ||
        Strings.Includes(p.categoryAr, q) ||
        Strings.Includes(lower(p.category), q))
    else products
  }

  /** The products before sorting: category filter, then search filter. */
  function Selected(products: seq<Product>, selected: string, query: string, lower: Lowering): seq<Product> {
    FilterBySearch(FilterByCategory(products, selected), query, lower)
  }

  /** The key a (non-default) sort option orders by. */
  function SortKey(sortBy: SortOption): Product -> int
    requires sortBy != Default
  {
    match sortBy
    case PriceAsc => PriceKey
    case PriceDesc => NegPriceKey
    case ByRating => NegRatingKey
    case Newest => NegNewKey
  }

  /** The sort switch: a stable sort by the option's key, or no sort at all. */
  function SortProducts(products: seq<Product>, sortBy: SortOption): seq<Product> {
    if sortBy == Default then products else Seqs.SortBy(products, SortKey(sortBy))
  }

  /** `filteredAndSortedProducts`. */
  function FilteredAndSorted(products: seq<Product>, selected: string, sortBy: SortOption,
                             query: string, lower: Lowering): (r: seq<Product>)
    // exactly the products that pass both filters are shown ...
    ensures forall p :: p in r <==> p in products && InCategory(p, selected) && MatchesQuery(p, query, lower)
    // ... each as often as the filters keep it (counted in `ShownCounts`)
    ensures multiset(r) == multiset(Selected(products, selected, query, lower))
    ensures |r| <= |products|
    // with no sort, the shown products keep their catalogue order
    ensures sortBy == Default ==> Seqs.IsSubseq(r, products)
    ensures sortBy == PriceAsc ==> forall i, j :: 0 <= i < j < |r| ==> r[i].price <= r[j].price
    ensures sortBy == PriceDesc ==> forall i, j :: 0 <= i < j < |r| ==> r[i].price >= r[j].price
    ensures sortBy == ByRating ==> forall i, j :: 0 <= i < j < |r| ==> EffectiveRating(r[i]) >= EffectiveRating(r[j])
    ensures sortBy == Newest ==> forall i, j :: 0 <= i < j < |r| ==> NewRank(r[i]) >= NewRank(r[j])
    // the sort is stable: products with equal keys keep their filtered order
    ensures sortBy != Default ==> forall k ::
      Seqs.WithKey(r, SortKey(sortBy), k) == Seqs.WithKey(Selected(products, selected, query, lower), SortKey(sortBy), k)
  {
    var s := Selected(products, selected, query, lower);
    SelectedFacts(products, selected, query, lower);
    SortFacts(s, sortBy);
    SortProducts(s, sortBy)
  }

  /** A product that passes both filters is shown as often as it occurs in the catalogue. */
  lemma ShownCounts(products: seq<Product>, selected: string, sortBy: SortOption, query: string, lower: Lowering)
    ensures forall p :: multiset(FilteredAndSorted(products, selected, sortBy, query, lower))[p]
                        == if InCategory(p, selected) && MatchesQuery(p, query, lower) then multiset(products)[p] else 0
  {
    SelectedFacts(products, selected, query, lower);
  }

  /** Sorting permutes its input into key order, stably. */
  lemma SortFacts(s: seq<Product>, sortBy: SortOption)
    ensures multiset(SortProducts(s, sortBy)) == multiset(s)
    ensures forall p :: p in SortProducts(s, sortBy) <==> p in s
    ensures sortBy != Default ==> Seqs.SortedBy(SortProducts(s, sortBy), SortKey(sortBy))
    ensures sortBy != Default ==> forall k ::
      Seqs.WithKey(SortProducts(s, sortBy), SortKey(sortBy), k) == Seqs.WithKey(s, SortKey(sortBy), k)
  {
    if sortBy != Default {
      Seqs.SortByFacts(s, SortKey(sortBy));
      forall p ensures p in SortProducts(s, sortBy) <==> p in s {
        assert p in multiset(SortProducts(s, sortBy)) <==> p in multiset(s);
      }
    }
  }

  /** The two filters keep exactly the products the page promises, in order. */
  lemma SelectedFacts(products: seq<Product>, selected: string, query: string, lower: Lowering)
    ensures forall p :: p in Selected(products, selected, query, lower)
                        <==> p in products && InCategory(p, selected) && MatchesQuery(p, query, lower)
    ensures Seqs.IsSubseq(Selected(products, selected, query, lower), products)
    ensures |Selected(products, selected, query, lower)| <= |products|
    // each product is kept as many times as it occurs, if it passes both filters
    ensures forall p :: multiset(Selected(products, selected, query, lower))[p]
                        == if InCategory(p, selected) && MatchesQuery(p, query, lower) then multiset(products)[p] else 0
  {
    var c := FilterByCategory(products, selected);
    var s := Selected(products, selected, query, lower);
    Seqs.SubseqReflexive(products);
    if selected != AllCategories {
      forall p ensures p in c <==> p in products && p.category == selected {
        Seqs.FilterMembership(products, (p: Product) => p.category == selected, p);
      }
      forall p ensures multiset(c)[p] == if p.category == selected then multiset(products)[p] else 0 {
        Seqs.FilterMultiset(products, (p: Product) => p.category == selected, p);
      }
      Seqs.FilterIsSubseq(products, (p: Product) => p.category == selected);
    }
    if query != "" {
      var q := lower(query);
      var f := (p: Product) =>
        Strings.Includes(lower(p.name), q) ||
        Strings.Includes(p.nameAr, q) ||
        Strings.Includes(p.categoryAr, q) ||
        Strings.Includes(lower(p.category), q);
      assert s == Seqs.Filter(c, f);
      forall p ensures p in s <==> p in c && MatchesQuery(p, query, lower) {
        Seqs.FilterMembership(c, f, p);
      }
      forall p ensures multiset(s)[p] == if MatchesQuery(p, query, lower) then multiset(c)[p] else 0 {
        Seqs.FilterMultiset(c, f, p);
      }
      Seqs.FilterIsSubseq(c, f);
      if selected != AllCategories {
        Seqs.SubseqTransitive(s, c, products);
      }
    }
  }

  /** With the category `all`, an empty query and no sort, the catalogue is shown as is. */
  lemma NoFiltersShowEverything(products: seq<Product>, lower: Lowering)
    ensures FilteredAndSorted(products, AllCategories, Default, "", lower) == products
  {
  }
}
