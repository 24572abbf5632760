/**
 * The product console of the admin page (src/pages/Admin.tsx): the edit
 * form, the record a save writes, the form filled from a stored product,
 * the category selector and the list search.
 *
 * The backend calls are oracles reporting whether they failed. Numbers are
 * integers; `toLowerCase` is a parameter.
 */
module Admin {
  import opened Opt
  import Seqs
  import Strings

  /** A row of the `products` table as the console reads it. */
  datatype StoredProduct = StoredProduct(
    id: string,
    name: string,
    nameAr: string,
    description: Option<string>,
    descriptionAr: Option<string>,
    price: int,
    originalPrice: Option<int>,
    category: string,
    categoryAr: string,
    imageUrl: Option<string>,
    rating: Option<int>,
    isNew: Option<bool>,
    isSale: Option<bool>,
    isActive: Option<bool>,
    stock: Option<int>,
    createdAt: string)

  /** The edit form: the fields of `emptyProduct`, plus the id of the product being edited. */
  datatype ProductForm = ProductForm(
    id: Option<string>,
    name: string,
    nameAr: string,
    description: string,
    descriptionAr: string,
    price: int,
    originalPrice: Option<int>,
    category: string,
    categoryAr: string,
    imageUrl: string,
    rating: int,
    isNew: bool,
    isSale: bool,
    isActive: bool,
    stock: int)

  /** The record a save writes (`productData`). */
  datatype ProductData = ProductData(
    name: string,
    nameAr: string,
    description: Option<string>,
    descriptionAr: Option<string>,
    price: int,
    originalPrice: Option<int>,
    category: string,
    categoryAr: string,
    imageUrl: Option<string>,
    rating: int,
    isNew: bool,
    isSale: bool,
    isActive: bool,
    stock: int)

  datatype Category = Category(id: string, labelAr: string, labelEn: string)

  /** The categories of the console's selector, with their Arabic labels. */
  const Categories: seq<Category> := [
    Category("chairs", "كراسي الحلاقة", "Barber Chairs"),
    Category("mirrors", "المرايا", "Mirrors"),
    Category("cosmetics", "مستحضرات التجميل", "Cosmetics"),
    Category("tools", "أدوات الحلاقة", "Barber Tools"),
    Category("furniture", "الأثاث", "Furniture"),
    Category("accessories", "الإكسسوارات", "Accessories")
  ]

  /** `emptyProduct`: the form for a new product. */
  const EmptyProduct: ProductForm := ProductForm(
    None, "", "", "", "", 0, None, "chairs", "كراسي الحلاقة", "", 5, false, false, true, 0)

  // ---------------------------------------------------------------------
  // Save
  // ---------------------------------------------------------------------

  /** The save guard: both names non-empty and a non-zero price. */
  predicate CanSave(form: ProductForm) {
    form.name != "" && form.nameAr != "" && form.price != 0
  }

  /** `x || null` for a number: zero becomes `null`. */
  function ZeroToNull(x: Option<int>): (r: Option<int>)
    ensures r.None? <==> x.None? || x.value == 0
    ensures r.Some? ==> r == x
  {
    if x.None? || x.value == 0 then None else x
  }

  /** `x || 5` for a rating: zero becomes 5. */
  function ZeroToFive(x: int): (r: int)
    ensures r != 0
    ensures x == 0 ==> r == 5
    ensures x != 0 ==> r == x
  {
    if x == 0 then 5 else x
  }

  /** `productData`: the form normalised for writing. */
  function Normalize(form: ProductForm): (r: ProductData)
    ensures r.name == form.name && r.nameAr == form.nameAr && r.price == form.price
    ensures r.category == form.category && r.categoryAr == form.categoryAr
    // blank text fields are written as null, others as typed
    ensures r.description.None? <==> form.description == ""
    ensures r.descriptionAr.None? <==> form.descriptionAr == ""
    ensures r.imageUrl.None? <==> form.imageUrl == ""
    ensures NullToBlank(r.description) == form.description
    ensures NullToBlank(r.descriptionAr) == form.descriptionAr
    ensures NullToBlank(r.imageUrl) == form.imageUrl
    // a zero original price is written as null
    ensures r.originalPrice.None? <==> form.originalPrice.None? || form.originalPrice.value == 0
    ensures r.originalPrice.Some? ==> r.originalPrice == form.originalPrice
    // a zero rating is written as 5; no zero rating is ever written
    ensures r.rating == if form.rating == 0 then 5 else form.rating
    ensures r.stock == form.stock
    ensures r.isNew == form.isNew && r.isSale == form.isSale && r.isActive == form.isActive
  {
    ProductData(
      form.name,
      form.nameAr,
      BlankToNull(form.description),
      BlankToNull(form.descriptionAr),
      form.price,
      ZeroToNull(form.originalPrice),
      form.category,
      form.categoryAr,
      BlankToNull(form.imageUrl),
      ZeroToFive(form.rating),
      form.isNew,
      form.isSale,
      form.isActive,
      form.stock)
  }

  /** The write a save makes. */
  datatype SaveRequest = UpdateRow(id: string, data: ProductData) | InsertRow(data: ProductData)

  datatype AdminToast = FieldsRequired | Updated | UpdateFailed | Added | AddFailed | Deleted | DeleteFailed

  /** What a save did: the write, whether the dialog stays open, whether the list is reloaded. */
  datatype SaveOutcome = SaveOutcome(request: Option<SaveRequest>, dialogOpen: bool, reload: bool, toast: AdminToast)

  /** `handleSave`; `fails` is the backend's answer to the write. */
  function HandleSave(form: ProductForm, dialogOpen: bool, fails: SaveRequest -> bool): (r: SaveOutcome)
    // a form failing the guard makes no backend call and changes nothing
    ensures !CanSave(form) ==> r == SaveOutcome(None, dialogOpen, false, FieldsRequired)
    ensures CanSave(form) ==> r.request.Some? && r.request.value.data == Normalize(form)
    // a non-empty id updates that row; no id, or an empty one, inserts
    ensures CanSave(form) && TruthyString(form.id) ==> r.request.value == UpdateRow(form.id.value, Normalize(form))
    ensures CanSave(form) && !TruthyString(form.id) ==> r.request.value == InsertRow(Normalize(form))
    // only a successful write closes the dialog and reloads the list
    ensures r.request.Some? ==> (r.reload <==> !fails(r.request.value)) && (r.dialogOpen <==> dialogOpen && !r.reload)
  {
    if !CanSave(form) then SaveOutcome(None, dialogOpen, false, FieldsRequired)
    else
      var data := Normalize(form);
      if TruthyString(form.id) then
        var request := UpdateRow(form.id.value, data);
        if fails(request) then SaveOutcome(Some(request), dialogOpen, false, UpdateFailed)
        else SaveOutcome(Some(request), false, true, Updated)
      else
        var request := InsertRow(data);
        if fails(request) then SaveOutcome(Some(request), dialogOpen, false, AddFailed)
        else SaveOutcome(Some(request), false, true, Added)
  }

  /** The default form cannot be saved: it has no name. */
  lemma EmptyProductRejected(dialogOpen: bool, fails: SaveRequest -> bool)
    ensures HandleSave(EmptyProduct, dialogOpen, fails).request.None?
  {
  }

  /** What a delete did: whether the list is reloaded, and the pending confirmation afterwards. */
  datatype DeleteOutcome = DeleteOutcome(reload: bool, toast: AdminToast, confirmId: Option<string>)

  /** `handleDelete`; `fails` is the backend's answer to deleting the row. */
  function HandleDelete(id: string, fails: string -> bool): (r: DeleteOutcome)
    // the list is reloaded exactly when the delete succeeded
    ensures r.reload <==> !fails(id)
    ensures r.toast == Deleted <==> r.reload
    ensures r.toast in {Deleted, DeleteFailed}
    // the confirmation is dismissed either way
    ensures r.confirmId.None?
  {
    if fails(id) then DeleteOutcome(false, DeleteFailed, None)
    else DeleteOutcome(true, Deleted, None)
  }

  // ---------------------------------------------------------------------
  // Edit dialog
  // ---------------------------------------------------------------------

  /** `x || 5` for a stored rating: null or zero becomes 5. */
  function RatingOrFive(x: Option<int>): (r: int)
    ensures r != 0
    ensures x.None? || x.value == 0 ==> r == 5
    ensures x.Some? && x.value != 0 ==> r == x.value
  {
    if x.None? || x.value == 0 then 5 else x.value
  }

  /** `openEditDialog`: the form for a stored product, or the default form. */
  function OpenEditDialog(product: Option<StoredProduct>): (r: ProductForm)
    ensures product.None? ==> r == EmptyProduct
    ensures product.Some? ==> r.id == Some(product.value.id)
    ensures product.Some? ==> var p := product.value;
      && r.name == p.name && r.nameAr == p.nameAr && r.price == p.price
      && r.originalPrice == p.originalPrice
      && r.category == p.category && r.categoryAr == p.categoryAr
      // null text fields are shown blank
      && (p.description.Some? ==> r.description == p.description.value)
      && (p.descriptionAr.Some? ==> r.descriptionAr == p.descriptionAr.value)
      && (p.imageUrl.Some? ==> r.imageUrl == p.imageUrl.value)
      && (p.description.None? ==> r.description == "")
      && (p.descriptionAr.None? ==> r.descriptionAr == "")
      && (p.imageUrl.None? ==> r.imageUrl == "")
      // a null or zero rating shows as 5, a null stock as 0
      && r.rating == (if p.rating.None? || p.rating.value == 0 then 5 else p.rating.value)
      && (p.stock.Some? ==> r.stock == p.stock.value) && (p.stock.None? ==> r.stock == 0)
      // null flags show as unset, except `is_active`, which shows as set
      && r.isNew == (p.isNew == Some(true)) && r.isSale == (p.isSale == Some(true))
      && r.isActive == (p.isActive != Some(false))
  {
    match product
    case None => EmptyProduct
    case Some(p) =>
      ProductForm(
        Some(p.id),
        p.name,
        p.nameAr,
        NullToBlank(p.description),
        NullToBlank(p.descriptionAr),
        p.price,
        p.originalPrice,
        p.category,
        p.categoryAr,
        NullToBlank(p.imageUrl),
        RatingOrFive(p.rating),
        p.isNew.GetOr(false),
        p.isSale.GetOr(false),
        p.isActive.GetOr(true),
        if p.stock.None? || p.stock.value == 0 then 0 else p.stock.value)
  }

  /** A stored product whose every field survives an unedited re-save. */
  predicate Canonical(p: StoredProduct) {
    && p.description != Some("") && p.descriptionAr != Some("") && p.imageUrl != Some("")
    && p.originalPrice != Some(0)
    && p.rating.Some? && p.rating.value != 0
    && p.stock.Some?
    && p.isNew.Some? && p.isSale.Some? && p.isActive.Some?
  }

  /** The record `d` holds exactly the values stored in `p`. */
  predicate Reproduces(p: StoredProduct, d: ProductData) {
    && d.name == p.name && d.nameAr == p.nameAr
    && d.description == p.description && d.descriptionAr == p.descriptionAr
    && d.price == p.price && d.originalPrice == p.originalPrice
    && d.category == p.category && d.categoryAr == p.categoryAr
    && d.imageUrl == p.imageUrl
    && Some(d.rating) == p.rating && Some(d.stock) == p.stock
    && Some(d.isNew) == p.isNew && Some(d.isSale) == p.isSale && Some(d.isActive) == p.isActive
  }

  /**
   * Opening a stored product and saving it unedited writes back exactly the
   * stored values if and only if the product is canonical.
   */
  lemma RecordFormRecordRoundTrip(p: StoredProduct)
    ensures Reproduces(p, Normalize(OpenEditDialog(Some(p)))) <==> Canonical(p)
  {
  }

  /** An unedited stored product is saved as an update of its own row, when its id is non-empty. */
  lemma EditSavesAsUpdate(p: StoredProduct, fails: SaveRequest -> bool)
    requires p.id != "" && p.name != "" && p.nameAr != "" && p.price != 0
    ensures HandleSave(OpenEditDialog(Some(p)), true, fails).request
            == Some(UpdateRow(p.id, Normalize(OpenEditDialog(Some(p)))))
  {
  }

  /** The row a successful write leaves behind, for a given id and creation time. */
  function StoredRow(id: string, createdAt: string, d: ProductData): StoredProduct {
    StoredProduct(id, d.name, d.nameAr, d.description, d.descriptionAr, d.price, d.originalPrice,
                  d.category, d.categoryAr, d.imageUrl, Some(d.rating), Some(d.isNew), Some(d.isSale),
                  Some(d.isActive), Some(d.stock), createdAt)
  }

  /**
   * Saving a form and opening the written row gives the form back if and
   * only if the form holds no zero original price and no zero rating.
   */
  lemma FormRecordFormRoundTrip(form: ProductForm, id: string, createdAt: string)
    ensures OpenEditDialog(Some(StoredRow(id, createdAt, Normalize(form)))) == form.(id := Some(id))
            <==> form.originalPrice != Some(0) && form.rating != 0
  {
    var f' := OpenEditDialog(Some(StoredRow(id, createdAt, Normalize(form))));
    if form.originalPrice == Some(0) {
      assert f'.originalPrice.None?;
    }
    if form.rating == 0 {
      assert f'.rating == 5;
    }
  }

  // ---------------------------------------------------------------------
  // Category selector
  // ---------------------------------------------------------------------

  /** `categories.find(c => c.id === id)?.label || ""`. */
  function CategoryLabel(cats: seq<Category>, id: string): (r: string)
    ensures (forall i :: 0 <= i < |cats| ==> cats[i].id != id) ==> r == ""
    ensures forall i :: 0 <= i < |cats| && cats[i].id == id && (forall j :: 0 <= j < i ==> cats[j].id != id)
                        ==> r == cats[i].labelAr
  {
    if |cats| == 0 then ""
    else if cats[0].id == id then cats[0].labelAr
    else
      assert forall i :: 1 <= i < |cats| ==> cats[i] == cats[1..][i - 1];
      CategoryLabel(cats[1..], id)
  }

  /** `handleCategoryChange`: sets the category and its Arabic label, nothing else. */
  function HandleCategoryChange(form: ProductForm, categoryId: string): (r: ProductForm)
    ensures r.category == categoryId
    ensures r.categoryAr == CategoryLabel(Categories, categoryId)
    // every other field is left as it was
    ensures r.(category := form.category, categoryAr := form.categoryAr) == form
  {
    form.(category := categoryId, categoryAr := CategoryLabel(Categories, categoryId))
  }

  /** Each known category gets its label; an unknown id gets an empty label. */
  lemma CategoryLabels(form: ProductForm)
    ensures forall i :: 0 <= i < |Categories| ==>
      HandleCategoryChange(form, Categories[i].id).categoryAr == Categories[i].labelAr
    ensures HandleCategoryChange(form, "all").categoryAr == ""
  {
    CategoryIdsDistinct();
  }

  /** The selector's ids are pairwise distinct, and none of them is `all`. */
  lemma CategoryIdsDistinct()
    ensures forall i, j :: 0 <= i < j < |Categories| ==> Categories[i].id != Categories[j].id
    ensures forall i :: 0 <= i < |Categories| ==> Categories[i].id != "all"
  {
  }

  /** The default form's category and label agree with the selector. */
  lemma EmptyProductCategoryConsistent()
    ensures HandleCategoryChange(EmptyProduct, EmptyProduct.category) == EmptyProduct
  {
    CategoryLabels(EmptyProduct);
    assert Categories[0].id == EmptyProduct.category;
  }

  // ---------------------------------------------------------------------
  // List search
  // ---------------------------------------------------------------------

  /** The list search: lowered name contains the lowered query, or the Arabic name contains it as typed. */
  predicate MatchesSearch(p: StoredProduct, query: string, lower: string -> string) {
    Strings.Includes(lower(p.name), lower(query)) || Strings.Includes(p.nameAr, query)
  }

  /** `filteredProducts`. */
  function FilteredProducts(products: seq<StoredProduct>, query: string, lower: string -> string)
    : (r: seq<StoredProduct>)
    ensures Seqs.IsSubseq(r, products)
    ensures forall p :: p in r <==> p in products && MatchesSearch(p, query, lower)
    // a matching product appears as often as in the list, any other not at all
    ensures forall p :: multiset(r)[p] == if MatchesSearch(p, query, lower) then multiset(products)[p] else 0
    // an empty query keeps every product, whatever the lowering does
    ensures query == "" ==> r == products
  {
    var f := (p: StoredProduct) => MatchesSearch(p, query, lower);
    Seqs.FilterIsSubseq(products, f);
    assert forall p :: p in Seqs.Filter(products, f) <==> p in products && f(p) by {
      forall p ensures p in Seqs.Filter(products, f) <==> p in products && f(p) {
        Seqs.FilterMembership(products, f, p);
      }
    }
    assert forall p :: multiset(Seqs.Filter(products, f))[p] == if f(p) then multiset(products)[p] else 0 by {
      forall p ensures multiset(Seqs.Filter(products, f))[p] == if f(p) then multiset(products)[p] else 0 {
        Seqs.FilterMultiset(products, f, p);
      }
    }
    if query == "" then
      assert forall p: StoredProduct :: Strings.Includes(p.nameAr, "") by {
        forall p: StoredProduct ensures Strings.Includes(p.nameAr, "") {
          Strings.IncludesEmpty(p.nameAr);
        }
      }
      Seqs.FilterAll(products, f);
      Seqs.Filter(products, f)
    else
      Seqs.Filter(products, f)
  }
}
