/**
 * Checkout (src/pages/Checkout.tsx): the ordered guard checks, the order
 * record sent to the backend, and the small submit state machine around the
 * insert.
 *
 * The cart store is not part of this model: its `items` and `totalPrice` are
 * inputs, and clearing it is reported as an effect. The insert is an oracle
 * that reports whether the backend returned an error.
 */
module Checkout {
  import opened Opt
  import Strings

  /** The 58 wilayas offered in the region selector, numbered from 01. */
  const Wilayas: seq<string> :=
    Wilayas01To10 + Wilayas11To20 + Wilayas21To30
    + Wilayas31To40 + Wilayas41To50 + Wilayas51To58

  // The table is written in groups of ten only to keep each display small.
  const Wilayas01To10: seq<string> := [
    "01 - Adrar", "02 - Chlef", "03 - Laghouat", "04 - Oum El Bouaghi", "05 - Batna",
    "06 - Béjaïa", "07 - Biskra", "08 - Béchar", "09 - Blida", "10 - Bouira"
  ]

  const Wilayas11To20: seq<string> := [
    "11 - Tamanrasset", "12 - Tébessa", "13 - Tlemcen", "14 - Tiaret", "15 - Tizi Ouzou",
    "16 - Alger", "17 - Djelfa", "18 - Jijel", "19 - Sétif", "20 - Saïda"
  ]

  const Wilayas21To30: seq<string> := [
    "21 - Skikda", "22 - Sidi Bel Abbès", "23 - Annaba", "24 - Guelma", "25 - Constantine",
    "26 - Médéa", "27 - Mostaganem", "28 - M'Sila", "29 - Mascara", "30 - Ouargla"
  ]

  const Wilayas31To40: seq<string> := [
    "31 - Oran", "32 - El Bayadh", "33 - Illizi", "34 - Bordj Bou Arréridj", "35 - Boumerdès",
    "36 - El Tarf", "37 - Tindouf", "38 - Tissemsilt", "39 - El Oued", "40 - Khenchela"
  ]

  const Wilayas41To50: seq<string> := [
    "41 - Souk Ahras", "42 - Tipaza", "43 - Mila", "44 - Aïn Defla", "45 - Naâma",
    "46 - Aïn Témouchent", "47 - Ghardaïa", "48 - Relizane", "49 - El M'Ghair", "50 - El Meniaa"
  ]

  const Wilayas51To58: seq<string> := [
    "51 - Ouled Djellal", "52 - Bordj Badji Mokhtar", "53 - Béni Abbès", "54 - Timimoun", "55 - Touggourt",
    "56 - Djanet", "57 - In Salah", "58 - In Guezzam"
  ]

  /** The two-digit rendering of a number below 100. */
  function TwoDigits(n: nat): (r: string)
    requires n < 100
    ensures |r| == 2
  {
    [Strings.DigitChar(n / 10), Strings.DigitChar(n % 10)]
  }

  /** Each entry of `group` reads `NN - name`, `NN` counting up from `first`. */
  predicate NumberedFrom(group: seq<string>, first: nat)
    requires first + |group| <= 100
  {
    forall i :: 0 <= i < |group| ==> |group[i]| > 5 && group[i][..5] == TwoDigits(first + i) + " - "
  }

  /** Entry `i` (from 0) of the table reads `NN - name` with `NN` = `i + 1`. */
  lemma WilayaNumbering()
    ensures |Wilayas| == 58
    ensures forall i :: 0 <= i < |Wilayas| ==>
      |Wilayas[i]| > 5 && Wilayas[i][..5] == TwoDigits(i + 1) + " - "
  {
    Wilayas01To10Numbering();
    Wilayas11To20Numbering();
    Wilayas21To30Numbering();
    Wilayas31To40Numbering();
    Wilayas41To50Numbering();
    Wilayas51To58Numbering();
    forall i | 0 <= i < |Wilayas|
      ensures |Wilayas[i]| > 5 && Wilayas[i][..5] == TwoDigits(i + 1) + " - "
    {
      if i < 10 {
        assert Wilayas[i] == Wilayas01To10[i - 0];
      } else if i < 20 {
        assert Wilayas[i] == Wilayas11To20[i - 10];
      } else if i < 30 {
        assert Wilayas[i] == Wilayas21To30[i - 20];
      } else if i < 40 {
        assert Wilayas[i] == Wilayas31To40[i - 30];
      } else if i < 50 {
        assert Wilayas[i] == Wilayas41To50[i - 40];
      } else {
        assert Wilayas[i] == Wilayas51To58[i - 50];
      }
    }
  }

  lemma Wilayas01To10Numbering()
    ensures |Wilayas01To10| == 10 && NumberedFrom(Wilayas01To10, 1)
  {
    Wilayas01To10Head();
    Wilayas01To10Tail();
  }

  lemma Wilayas01To10Head()
    ensures |Wilayas01To10| == 10
    ensures forall i :: 0 <= i < 5 ==>
      |Wilayas01To10[i]| > 5 && Wilayas01To10[i][..5] == TwoDigits(1 + i) + " - "
  {
    assert Wilayas01To10[0][..5] == "01 - ";
    assert Wilayas01To10[1][..5] == "02 - ";
    assert Wilayas01To10[2][..5] == "03 - ";
    assert Wilayas01To10[3][..5] == "04 - ";
    assert Wilayas01To10[4][..5] == "05 - ";
  }

  lemma Wilayas01To10Tail()
    ensures |Wilayas01To10| == 10
    ensures forall i :: 5 <= i < 10 ==>
      |Wilayas01To10[i]| > 5 && Wilayas01To10[i][..5] == TwoDigits(1 + i) + " - "
  {
    assert Wilayas01To10[5][..5] == "06 - ";
    assert Wilayas01To10[6][..5] == "07 - ";
    assert Wilayas01To10[7][..5] == "08 - ";
    assert Wilayas01To10[8][..5] == "09 - ";
    assert Wilayas01To10[9][..5] == "10 - ";
  }

  lemma Wilayas11To20Numbering()
    ensures |Wilayas11To20| == 10 && NumberedFrom(Wilayas11To20, 11)
  {
    Wilayas11To20Head();
    Wilayas11To20Tail();
  }

  lemma Wilayas11To20Head()
    ensures |Wilayas11To20| == 10
    ensures forall i :: 0 <= i < 5 ==>
      |Wilayas11To20[i]| > 5 && Wilayas11To20[i][..5] == TwoDigits(11 + i) + " - "
  {
    assert Wilayas11To20[0][..5] == "11 - ";
    assert Wilayas11To20[1][..5] == "12 - ";
    assert Wilayas11To20[2][..5] == "13 - ";
    assert Wilayas11To20[3][..5] == "14 - ";
    assert Wilayas11To20[4][..5] == "15 - ";
  }

  lemma Wilayas11To20Tail()
    ensures |Wilayas11To20| == 10
    ensures forall i :: 5 <= i < 10 ==>
      |Wilayas11To20[i]| > 5 && Wilayas11To20[i][..5] == TwoDigits(11 + i) + " - "
  {
    assert Wilayas11To20[5][..5] == "16 - ";
    assert Wilayas11To20[6][..5] == "17 - ";
    assert Wilayas11To20[7][..5] == "18 - ";
    assert Wilayas11To20[8][..5] == "19 - ";
    assert Wilayas11To20[9][..5] == "20 - ";
  }

  lemma Wilayas21To30Numbering()
    ensures |Wilayas21To30| == 10 && NumberedFrom(Wilayas21To30, 21)
  {
    Wilayas21To30Head();
    Wilayas21To30Tail();
  }

  lemma Wilayas21To30Head()
    ensures |Wilayas21To30| == 10
    ensures forall i :: 0 <= i < 5 ==>
      |Wilayas21To30[i]| > 5 && Wilayas21To30[i][..5] == TwoDigits(21 + i) + " - "
  {
    assert Wilayas21To30[0][..5] == "21 - ";
    assert Wilayas21To30[1][..5] == "22 - ";
    assert Wilayas21To30[2][..5] == "23 - ";
    assert Wilayas21To30[3][..5] == "24 - ";
    assert Wilayas21To30[4][..5] == "25 - ";
  }

  lemma Wilayas21To30Tail()
    ensures |Wilayas21To30| == 10
    ensures forall i :: 5 <= i < 10 ==>
      |Wilayas21To30[i]| > 5 && Wilayas21To30[i][..5] == TwoDigits(21 + i) + " - "
  {
    assert Wilayas21To30[5][..5] == "26 - ";
    assert Wilayas21To30[6][..5] == "27 - ";
    assert Wilayas21To30[7][..5] == "28 - ";
    assert Wilayas21To30[8][..5] == "29 - ";
    assert Wilayas21To30[9][..5] == "30 - ";
  }

  lemma Wilayas31To40Numbering()
    ensures |Wilayas31To40| == 10 && NumberedFrom(Wilayas31To40, 31)
  {
    Wilayas31To40Head();
    Wilayas31To40Tail();
  }

  lemma Wilayas31To40Head()
    ensures |Wilayas31To40| == 10
    ensures forall i :: 0 <= i < 5 ==>
      |Wilayas31To40[i]| > 5 && Wilayas31To40[i][..5] == TwoDigits(31 + i) + " - "
  {
    assert Wilayas31To40[0][..5] == "31 - ";
    assert Wilayas31To40[1][..5] == "32 - ";
    assert Wilayas31To40[2][..5] == "33 - ";
    assert Wilayas31To40[3][..5] == "34 - ";
    assert Wilayas31To40[4][..5] == "35 - ";
  }

  lemma Wilayas31To40Tail()
    ensures |Wilayas31To40| == 10
    ensures forall i :: 5 <= i < 10 ==>
      |Wilayas31To40[i]| > 5 && Wilayas31To40[i][..5] == TwoDigits(31 + i) + " - "
  {
    assert Wilayas31To40[5][..5] == "36 - ";
    assert Wilayas31To40[6][..5] == "37 - ";
    assert Wilayas31To40[7][..5] == "38 - ";
    assert Wilayas31To40[8][..5] == "39 - ";
    assert Wilayas31To40[9][..5] == "40 - ";
  }

  lemma Wilayas41To50Numbering()
    ensures |Wilayas41To50| == 10 && NumberedFrom(Wilayas41To50, 41)
  {
    Wilayas41To50Head();
    Wilayas41To50Tail();
  }

  lemma Wilayas41To50Head()
    ensures |Wilayas41To50| == 10
    ensures forall i :: 0 <= i < 5 ==>
      |Wilayas41To50[i]| > 5 && Wilayas41To50[i][..5] == TwoDigits(41 + i) + " - "
  {
    assert Wilayas41To50[0][..5] == "41 - ";
    assert Wilayas41To50[1][..5] == "42 - ";
    assert Wilayas41To50[2][..5] == "43 - ";
    assert Wilayas41To50[3][..5] == "44 - ";
    assert Wilayas41To50[4][..5] == "45 - ";
  }

  lemma Wilayas41To50Tail()
    ensures |Wilayas41To50| == 10
    ensures forall i :: 5 <= i < 10 ==>
      |Wilayas41To50[i]| > 5 && Wilayas41To50[i][..5] == TwoDigits(41 + i) + " - "
  {
    assert Wilayas41To50[5][..5] == "46 - ";
    assert Wilayas41To50[6][..5] == "47 - ";
    assert Wilayas41To50[7][..5] == "48 - ";
    assert Wilayas41To50[8][..5] == "49 - ";
    assert Wilayas41To50[9][..5] == "50 - ";
  }

  lemma Wilayas51To58Numbering()
    ensures |Wilayas51To58| == 8 && NumberedFrom(Wilayas51To58, 51)
  {
    Wilayas51To58Head();
    Wilayas51To58Tail();
  }

  lemma Wilayas51To58Head()
    ensures |Wilayas51To58| == 8
    ensures forall i :: 0 <= i < 5 ==>
      |Wilayas51To58[i]| > 5 && Wilayas51To58[i][..5] == TwoDigits(51 + i) + " - "
  {
    assert Wilayas51To58[0][..5] == "51 - ";
    assert Wilayas51To58[1][..5] == "52 - ";
    assert Wilayas51To58[2][..5] == "53 - ";
    assert Wilayas51To58[3][..5] == "54 - ";
    assert Wilayas51To58[4][..5] == "55 - ";
  }

  lemma Wilayas51To58Tail()
    ensures |Wilayas51To58| == 8
    ensures forall i :: 5 <= i < 8 ==>
      |Wilayas51To58[i]| > 5 && Wilayas51To58[i][..5] == TwoDigits(51 + i) + " - "
  {
    assert Wilayas51To58[5][..5] == "56 - ";
    assert Wilayas51To58[6][..5] == "57 - ";
    assert Wilayas51To58[7][..5] == "58 - ";
  }

  datatype DeliveryType = Home | StopDesk

  /** The checkout form. */
  datatype FormData = FormData(
    name: string,
    phone: string,
    wilaya: string,
    deliveryType: DeliveryType,
    address: string,
    notes: string)

  const InitialForm: FormData := FormData("", "", "", Home, "", "")

  /** A cart line, with the fields checkout reads from the cart store. */
  datatype CartItem = CartItem(id: string, name: string, nameAr: string, price: int, quantity: int, image: string)

  /** One line of the order record. */
  datatype OrderItem = OrderItem(id: string, name: string, nameAr: string, price: int, quantity: int, imageUrl: string)

  /** The row inserted into the `orders` table. */
  datatype OrderPayload = OrderPayload(
    customerName: string,
    phone: string,
    wilaya: string,
    deliveryType: DeliveryType,
    address: Option<string>,
    notes: Option<string>,
    items: seq<OrderItem>,
    totalAmount: int)

  datatype Rejection = MissingFields | EmptyCart

  /**
   * The guards of `handleSubmit`, in order: required fields first, then a
   * non-empty cart. The wilaya is only checked to be non-empty.
   */
  function Validate(form: FormData, items: seq<CartItem>): (r: Option<Rejection>)
    ensures r.None? <==>
      Strings.Trim(form.name) != "" && Strings.Trim(form.phone) != "" && form.wilaya != "" && |items| > 0
    // a missing field is reported even when the cart is empty too
    ensures r == Some(MissingFields) <==>
      Strings.Trim(form.name) == "" || Strings.Trim(form.phone) == "" || form.wilaya == ""
  {
    if Strings.Trim(form.name) == "" || Strings.Trim(form.phone) == "" || form.wilaya == "" then Some(MissingFields)
    else if |items| == 0 then Some(EmptyCart)
    else None
  }

  /** A blank field (after trimming) is sent as `null`. */
  function TrimmedOrNull(s: string): (r: Option<string>)
    ensures r.None? <==> Strings.IsBlank(s)
    ensures r.Some? ==> r.value == Strings.Trim(s)
    ensures r.Some? ==> !Strings.IsSpace(r.value[0]) && !Strings.IsSpace(r.value[|r.value| - 1])
  {
    BlankToNull(Strings.Trim(s))
  }

  /** A cart line as written into the order (`nameAr` -> `name_ar`, `image` -> `image_url`). */
  function OrderLine(item: CartItem): OrderItem {
    OrderItem(item.id, item.name, item.nameAr, item.price, item.quantity, item.image)
  }

  /** The cart line an order line was written from. */
  function CartLine(line: OrderItem): CartItem {
    CartItem(line.id, line.name, line.nameAr, line.price, line.quantity, line.imageUrl)
  }

  /** The order record built from the form, the cart lines and the cart's total. */
  function BuildPayload(form: FormData, items: seq<CartItem>, totalPrice: int): (r: OrderPayload)
    ensures r.customerName == Strings.Trim(form.name) && r.phone == Strings.Trim(form.phone)
    ensures r.wilaya == form.wilaya && r.deliveryType == form.deliveryType
    // the address is sent whatever the delivery type
    ensures r.address == TrimmedOrNull(form.address) && r.notes == TrimmedOrNull(form.notes)
    // one order line per cart line, in cart order, each recoverable as its cart line
    ensures |r.items| == |items|
    ensures forall i :: 0 <= i < |items| ==> CartLine(r.items[i]) == items[i]
    ensures r.totalAmount == totalPrice
  {
    OrderPayload(
      Strings.Trim(form.name),
      Strings.Trim(form.phone),
      form.wilaya,
      form.deliveryType,
      TrimmedOrNull(form.address),
      TrimmedOrNull(form.notes),
      seq(|items|, i requires 0 <= i < |items| => OrderLine(items[i])),
      totalPrice)
  }

  /** The cart lines are recovered from the order record. */
  lemma PayloadItemsRoundTrip(form: FormData, items: seq<CartItem>, totalPrice: int)
    ensures var p := BuildPayload(form, items, totalPrice);
            seq(|p.items|, i requires 0 <= i < |p.items| => CartLine(p.items[i])) == items
  {
    var p := BuildPayload(form, items, totalPrice);
    var back := seq(|p.items|, i requires 0 <= i < |p.items| => CartLine(p.items[i]));
    assert |back| == |items|;
    assert forall i :: 0 <= i < |items| ==> back[i] == items[i];
  }

  // ---------------------------------------------------------------------
  // Submit state machine
  // ---------------------------------------------------------------------

  /** The page state around a submission. */
  datatype Page = Page(isSubmitting: bool, orderSuccess: bool)

  const InitialPage: Page := Page(false, false)

  datatype Toast = FieldsRequired | CartIsEmpty | OrderSent | OrderFailed

  /** What one submit does to the page and to the world outside it. */
  datatype Submission = Submission(
    page: Page,                   // the page once the submit has settled
    inserted: Option<OrderPayload>,  // the order sent to the backend, if any
    clearCart: bool,              // whether the cart store was told to clear
    toast: Option<Toast>)         // the message shown, if any

  /** The page while the insert is in flight. */
  function Sending(page: Page): (r: Page)
    ensures r.isSubmitting && r.orderSuccess == page.orderSuccess
  {
    page.(isSubmitting := true)
  }

  /** The page once the insert has answered; `failed` is the backend's error. */
  function Settle(page: Page, failed: bool): (r: Page)
    ensures !r.isSubmitting
    ensures r.orderSuccess == (page.orderSuccess || !failed)
  {
    if failed then page.(isSubmitting := false) else Page(false, true)
  }

  /**
   * `handleSubmit`, from the submit event to the settled page. A submit
   * while one is in flight does nothing: the submit button is disabled.
   */
  function HandleSubmit(page: Page, form: FormData, items: seq<CartItem>, totalPrice: int,
                        insertFails: OrderPayload -> bool): (r: Submission)
    // while an order is in flight nothing happens
    ensures page.isSubmitting ==> r == Submission(page, None, false, None)
    // a rejected submit inserts nothing, clears nothing and leaves the page alone
    ensures !page.isSubmitting && Validate(form, items) == Some(MissingFields)
            ==> r == Submission(page, None, false, Some(FieldsRequired))
    ensures !page.isSubmitting && Validate(form, items) == Some(EmptyCart)
            ==> r == Submission(page, None, false, Some(CartIsEmpty))
    // an accepted submit inserts the order built from the form and the cart
    ensures !page.isSubmitting && Validate(form, items).None?
            ==> r.inserted == Some(BuildPayload(form, items, totalPrice))
    // the cart is cleared, and success shown, only when the insert succeeded
    ensures r.clearCart <==> r.inserted.Some? && !insertFails(r.inserted.value)
    ensures r.inserted.Some? ==> (r.page.orderSuccess <==> page.orderSuccess || r.clearCart)
    ensures r.inserted.Some? ==> r.toast == Some(if r.clearCart then OrderSent else OrderFailed)
    // the in-flight flag is down again after both outcomes
    ensures r.inserted.Some? ==> !r.page.isSubmitting
  {
    if page.isSubmitting then Submission(page, None, false, None)
    else match Validate(form, items)
      case Some(MissingFields) => Submission(page, None, false, Some(FieldsRequired))
      case Some(EmptyCart) => Submission(page, None, false, Some(CartIsEmpty))
      case None =>
        var payload := BuildPayload(form, items, totalPrice);
        var failed := insertFails(payload);
        var settled := Settle(Sending(page), failed);
        Submission(settled, Some(payload), !failed, Some(if failed then OrderFailed else OrderSent))
  }

  datatype View = SuccessView | EmptyCartView | FormView

  /** Which of the three screens the page renders. */
  function ViewOf(page: Page, items: seq<CartItem>): (v: View)
    ensures v == SuccessView <==> page.orderSuccess
    ensures v == EmptyCartView <==> !page.orderSuccess && |items| == 0
  {
    if page.orderSuccess then SuccessView
    else if |items| == 0 then EmptyCartView
    else FormView
  }

  /**
   * After a successful order the success screen shows, although the cart,
   * now cleared, is empty; after a failed one the form is back, since the
   * cart is kept (a submit from the success screen cannot happen: it has no form).
   */
  lemma SubmitOutcomeView(page: Page, form: FormData, items: seq<CartItem>, totalPrice: int,
                          insertFails: OrderPayload -> bool)
    ensures var r := HandleSubmit(page, form, items, totalPrice, insertFails);
            r.clearCart ==> ViewOf(r.page, []) == SuccessView
    ensures var r := HandleSubmit(page, form, items, totalPrice, insertFails);
            !page.orderSuccess && r.inserted.Some? && !r.clearCart ==> ViewOf(r.page, items) == FormView
  {
  }

  /** The wilaya is not checked against the table: any non-empty text passes. */
  lemma WilayaNotCheckedAgainstTable(items: seq<CartItem>)
    requires |items| > 0
    ensures "x" !in Wilayas
    ensures Validate(FormData("A", "0", "x", Home, "", ""), items).None?
  {
    assert "x" !in Wilayas by {
      WilayaNumbering();
    }
    assert !Strings.IsSpace("A"[0]) && !Strings.IsSpace("0"[0]);
    assert !Strings.IsBlank("A") && !Strings.IsBlank("0");
  }
}
