/**
 * The product page (src/pages/ProductDetail.tsx): the product looked up from
 * the route's id, the related products, the product number and the quantity
 * stepper.
 *
 * The page reads a `products` list that src/data/products.ts does not
 * export, so the product here is abstract: a numeric id, a category, and
 * the rest of its fields opaque.
 */
module ProductDetail {
  import opened Opt
  import Seqs
  import Strings

  /** A product as the page uses it. */
  datatype DetailProduct = DetailProduct(id: int, category: string, categoryAr: string, details: string)

  // ---------------------------------------------------------------------
  // Lookup
  // ---------------------------------------------------------------------

  /**
   * `products.find(p => p.id === Number(id))`. `routeNumber` is `Number(id)`
   * when it is an integer, and `None` when it is `NaN` or fractional, which
   * no product id equals.
   */
  function FindProduct(catalogue: seq<DetailProduct>, routeNumber: Option<int>): (r: Option<DetailProduct>)
    ensures r.None? <==> routeNumber.None? || forall i :: 0 <= i < |catalogue| ==> catalogue[i].id != routeNumber.value
    ensures r.Some? ==> exists i :: 0 <= i < |catalogue| && catalogue[i] == r.value
                          && r.value.id == routeNumber.value
                          && forall j :: 0 <= j < i ==> catalogue[j].id != routeNumber.value
  {
    if routeNumber.None? || |catalogue| == 0 then None
    else if catalogue[0].id == routeNumber.value then Some(catalogue[0])
    else
      var r := FindProduct(catalogue[1..], routeNumber);
      assert forall i :: 1 <= i < |catalogue| ==> catalogue[i] == catalogue[1..][i - 1];
      if r.Some? then
        var i :| 0 <= i < |catalogue[1..]| && catalogue[1..][i] == r.value && r.value.id == routeNumber.value
                 && forall j :: 0 <= j < i ==> catalogue[1..][j].id != routeNumber.value;
        assert catalogue[i + 1] == r.value;
        r
      else r
  }

  datatype PageView = NotFoundView | DetailView(product: DetailProduct)

  /** The page shows the not-found view exactly when no product has the route's id. */
  function ViewFor(catalogue: seq<DetailProduct>, routeNumber: Option<int>): (r: PageView)
    ensures r == NotFoundView <==> routeNumber.None? || forall p :: p in catalogue ==> p.id != routeNumber.value
    ensures r.DetailView? ==> r.product in catalogue && r.product.id == routeNumber.value
  {
    match FindProduct(catalogue, routeNumber)
    case None => NotFoundView
    case Some(p) => DetailView(p)
  }

  // ---------------------------------------------------------------------
  // Related products
  // ---------------------------------------------------------------------

  /** How many related products are shown. */
  const RelatedCount: nat := 4

  predicate SameCategoryOther(p: DetailProduct, current: DetailProduct) {
    p.category == current.category && p.id != current.id
  }

  predicate OtherCategory(p: DetailProduct, current: DetailProduct) {
    p.id != current.id && p.category != current.category
  }

  /** `relatedProducts`: the first four other products of the same category. */
  function RelatedSame(catalogue: seq<DetailProduct>, current: DetailProduct): seq<DetailProduct> {
    Seqs.Take(Seqs.Filter(catalogue, (p: DetailProduct) => SameCategoryOther(p, current)), RelatedCount)
  }

  /** `moreRelated`: products of other categories filling the list up to four. */
  function RelatedMore(catalogue: seq<DetailProduct>, current: DetailProduct): seq<DetailProduct> {
    Seqs.Take(Seqs.Filter(catalogue, (p: DetailProduct) => OtherCategory(p, current)),
              RelatedCount - |RelatedSame(catalogue, current)|)
  }

  /** The number of catalogue entries satisfying `f`. */
  function Count(s: seq<DetailProduct>, f: DetailProduct -> bool): nat {
    |Seqs.Filter(s, f)|
  }

  /** The products that are not the current one split into same-category and other-category ones. */
  lemma {:induction false} CountSplit(s: seq<DetailProduct>, current: DetailProduct)
    ensures Count(s, (p: DetailProduct) => p.id != current.id)
            == Count(s, (p: DetailProduct) => SameCategoryOther(p, current))
               + Count(s, (p: DetailProduct) => OtherCategory(p, current))
    decreases |s|
  {
    if |s| > 0 {
      CountSplit(s[1..], current);
    }
  }

  /** `allRelated`. */
  function AllRelated(catalogue: seq<DetailProduct>, current: DetailProduct): (r: seq<DetailProduct>)
    ensures |r| <= RelatedCount
    // the current product is never listed, nor anything sharing its id
    ensures current !in r
    ensures forall i :: 0 <= i < |r| ==> r[i].id != current.id && r[i] in catalogue
    // same-category products come first, and each group keeps catalogue order
    ensures var same := Count(catalogue, (p: DetailProduct) => SameCategoryOther(p, current));
      var k := if same < RelatedCount then same else RelatedCount;
      && k <= |r|
      && (forall i :: 0 <= i < k ==> r[i].category == current.category)
      && (forall i :: k <= i < |r| ==> r[i].category != current.category)
      && Seqs.IsSubseq(r[..k], catalogue) && Seqs.IsSubseq(r[k..], catalogue)
    // with four or more other products of the category, only they are shown
    ensures Count(catalogue, (p: DetailProduct) => SameCategoryOther(p, current)) >= RelatedCount ==>
      |r| == RelatedCount && forall i :: 0 <= i < |r| ==> r[i].category == current.category
    // the list is as long as it can be: four, or every other product
    ensures var others := Count(catalogue, (p: DetailProduct) => p.id != current.id);
      |r| == if others < RelatedCount then others else RelatedCount
  {
    RelatedGroups(catalogue, current);
    RelatedMembers(catalogue, current);
    RelatedLength(catalogue, current);
    RelatedSame(catalogue, current) + RelatedMore(catalogue, current)
  }

  /**
   * Which products are picked: the first same-category others (up to four),
   * then the first other-category products, each in catalogue order.
   */
  lemma RelatedPicks(catalogue: seq<DetailProduct>, current: DetailProduct)
    ensures var same := Seqs.Filter(catalogue, (p: DetailProduct) => SameCategoryOther(p, current));
      var k := if |same| < RelatedCount then |same| else RelatedCount;
      var other := Seqs.Filter(catalogue, (p: DetailProduct) => OtherCategory(p, current));
      var r := AllRelated(catalogue, current);
      && k <= |r| && r[..k] == same[..k]
      && |r| - k <= |other| && r[k..] == other[..|r| - k]
  {
    var rs := RelatedSame(catalogue, current);
    var rm := RelatedMore(catalogue, current);
    assert (rs + rm)[..|rs|] == rs;
    assert (rs + rm)[|rs|..] == rm;
  }

  /** Each group holds products of its kind, in catalogue order. */
  lemma RelatedGroups(catalogue: seq<DetailProduct>, current: DetailProduct)
    ensures forall p :: p in RelatedSame(catalogue, current) ==> p in catalogue && SameCategoryOther(p, current)
    ensures forall p :: p in RelatedMore(catalogue, current) ==> p in catalogue && OtherCategory(p, current)
    ensures Seqs.IsSubseq(RelatedSame(catalogue, current), catalogue)
    ensures Seqs.IsSubseq(RelatedMore(catalogue, current), catalogue)
  {
    var fs := (p: DetailProduct) => SameCategoryOther(p, current);
    var fo := (p: DetailProduct) => OtherCategory(p, current);
    var same := RelatedSame(catalogue, current);
    var more := RelatedMore(catalogue, current);
    Seqs.FilterIsSubseq(catalogue, fs);
    Seqs.FilterIsSubseq(catalogue, fo);
    Seqs.TakeIsSubseq(Seqs.Filter(catalogue, fs), RelatedCount);
    Seqs.TakeIsSubseq(Seqs.Filter(catalogue, fo), RelatedCount - |same|);
    Seqs.SubseqTransitive(same, Seqs.Filter(catalogue, fs), catalogue);
    Seqs.SubseqTransitive(more, Seqs.Filter(catalogue, fo), catalogue);
    forall p | p in same ensures p in catalogue && fs(p) {
      Seqs.SubseqMembership(same, Seqs.Filter(catalogue, fs), p);
      Seqs.FilterMembership(catalogue, fs, p);
    }
    forall p | p in more ensures p in catalogue && fo(p) {
      Seqs.SubseqMembership(more, Seqs.Filter(catalogue, fo), p);
      Seqs.FilterMembership(catalogue, fo, p);
    }
  }

  /** The concatenated list, read through its two groups. */
  lemma RelatedMembers(catalogue: seq<DetailProduct>, current: DetailProduct)
    ensures var r := RelatedSame(catalogue, current) + RelatedMore(catalogue, current);
      && current !in r
      && (forall i :: 0 <= i < |r| ==> r[i].id != current.id && r[i] in catalogue)
      && r[..|RelatedSame(catalogue, current)|] == RelatedSame(catalogue, current)
      && r[|RelatedSame(catalogue, current)|..] == RelatedMore(catalogue, current)
  {
    var same := RelatedSame(catalogue, current);
    var r := same + RelatedMore(catalogue, current);
    RelatedGroups(catalogue, current);
    assert forall i :: 0 <= i < |r| ==> r[i] in same || r[i] in RelatedMore(catalogue, current);
    assert r[..|same|] == same;
  }

  /** The list has four entries, or as many as there are other products. */
  lemma RelatedLength(catalogue: seq<DetailProduct>, current: DetailProduct)
    ensures var n := |RelatedSame(catalogue, current)| + |RelatedMore(catalogue, current)|;
      var others := Count(catalogue, (p: DetailProduct) => p.id != current.id);
      && n == (if others < RelatedCount then others else RelatedCount)
      && (Count(catalogue, (p: DetailProduct) => SameCategoryOther(p, current)) >= RelatedCount ==>
            |RelatedSame(catalogue, current)| == RelatedCount)
  {
    CountSplit(catalogue, current);
  }

  // ---------------------------------------------------------------------
  // Product number
  // ---------------------------------------------------------------------

  /**
   * The product number: `BU-` and the id, left-padded with zeros to four
   * characters. The id's text is that of `Strings.IntToDecimal`, so this
   * is JavaScript's number for ids below 10^21.
   */
  function ProductNumber(id: int): (r: string)
    ensures Strings.StartsWith(r, "BU-")
    ensures |r| == 3 + if |Strings.IntToDecimal(id)| >= 4 then |Strings.IntToDecimal(id)| else 4
    // the id is never cut: its decimal form ends the number
    ensures r[|r| - |Strings.IntToDecimal(id)|..] == Strings.IntToDecimal(id)
    ensures forall i :: 3 <= i < |r| - |Strings.IntToDecimal(id)| ==> r[i] == '0'
  {
    "BU-" + Strings.PadStart(Strings.IntToDecimal(id), 4, '0')
  }

  /** For a non-negative id the digits after `BU-` read back as the id. */
  lemma ProductNumberRoundTrip(id: nat)
    ensures var digits := ProductNumber(id)[3..];
      && (forall i :: 0 <= i < |digits| ==> Strings.IsDigit(digits[i]))
      && Strings.ParseDecimal(digits) == id
  {
    var d := Strings.NatToDecimal(id);
    var digits := ProductNumber(id)[3..];
    Strings.ParseNatToDecimal(id);
    if |d| >= 4 {
      assert digits == d;
    } else {
      assert digits == Strings.Repeat('0', 4 - |d|) + d;
      Strings.ParseLeadingZeros(4 - |d|, d);
    }
  }

  // ---------------------------------------------------------------------
  // Quantity stepper
  // ---------------------------------------------------------------------

  /** The stepper's starting quantity. */
  const InitialQuantity: int := 1

  /** The minus button: one less, but never below 1. */
  function Decrement(q: int): (r: int)
    ensures r >= 1
    ensures q > 1 ==> r == q - 1
    ensures q <= 1 ==> r == 1
  {
    if q - 1 >= 1 then q - 1 else 1
  }

  /** The plus button: one more. */
  function Increment(q: int): (r: int)
    ensures r - q == 1
  {
    q + 1
  }

  datatype Step = Minus | Plus

  /** The quantity after pressing the buttons in order. */
  function Press(q: int, steps: seq<Step>): (r: int)
    // from any quantity of at least 1, the stepper never shows less than 1 ...
    ensures q >= 1 ==> r >= 1
    // ... and never more than one above per press of plus
    ensures r <= (if q >= 1 then q else 1) + |Seqs.Filter(steps, (s: Step) => s == Plus)|

    decreases |steps|
  {
    if |steps| == 0 then q
    else
      var next := if steps[0] == Minus then Decrement(q) else Increment(q);
      assert steps == [steps[0]] + steps[1..];
      Press(next, steps[1..])
  }

  /** Minus undoes plus. */
  lemma DecrementUndoesIncrement(q: int)
    requires q >= 1
    ensures Decrement(Increment(q)) == q
  {
  }

  /** Every sequence of presses from the start leaves a quantity of at least 1. */
  lemma QuantityStaysPositive(steps: seq<Step>)
    ensures Press(InitialQuantity, steps) >= 1
  {
  }
}
