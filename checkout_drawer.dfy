/** The checkout drawer: the cart summary, the discount input, the customer
    form and the submission that builds and writes the order. */
module CheckoutDrawer {
  import opened Js
  import opened Text
  import opened Seqs
  import opened OrderSchema
  import opened OrderStore

  // ---------------------------------------------------------------------------
  // Summary

  /** One summary line, `qty || quantity || 1` times `price || unitPrice || 0`:
      the reverse precedence of the order schema, and no item discount. A
      missing count bills one piece and a missing price bills nothing. */
  function SummaryLine(item: CartItem): (r: real)
    ensures TruthyNum(item.qty) && TruthyNum(item.price) ==> r == item.qty.value * item.price.value
    ensures !TruthyNum(item.qty) && TruthyNum(item.quantity) && !TruthyNum(item.price) && TruthyNum(item.unitPrice)
      ==> r == item.quantity.value * item.unitPrice.value
    ensures !TruthyNum(item.qty) && !TruthyNum(item.quantity) ==> r == OrNum(item.price, OrNum(item.unitPrice, 0.0))
    ensures !TruthyNum(item.price) && !TruthyNum(item.unitPrice) ==> r == 0.0
    ensures NonNegativeAmounts(item) ==> r >= 0.0
  {
    var pieces, price := OrNum(item.qty, OrNum(item.quantity, 1.0)), OrNum(item.price, OrNum(item.unitPrice, 0.0));
    if NonNegativeAmounts(item) then
      MulNonNegative(pieces, price);
      pieces * price
    else
      pieces * price
  }

  lemma MulNonNegative(a: real, b: real)
    requires a >= 0.0 && b >= 0.0
    ensures a * b >= 0.0
  {
    if a > 0.0 && b > 0.0 {
      assert a * b > 0.0;
    }
  }

  /** No quantity or price field of the item is negative. */
  predicate NonNegativeAmounts(item: CartItem) {
    (item.qty.None? || item.qty.value >= 0.0) && (item.quantity.None? || item.quantity.value >= 0.0)
    && (item.price.None? || item.price.value >= 0.0) && (item.unitPrice.None? || item.unitPrice.value >= 0.0)
  }

  /** The summary's subtotal, the sum of the lines; items with no negative
      quantity or price give a subtotal of at least 0, and an empty cart 0. */
  function Subtotal(cart: seq<CartItem>): (r: real)
    ensures (forall i :: 0 <= i < |cart| ==> NonNegativeAmounts(cart[i])) ==> r >= 0.0
    ensures cart == [] ==> r == 0.0
  {
    if forall i :: 0 <= i < |cart| ==> NonNegativeAmounts(cart[i]) then
      SumOfNonNegative(cart, SummaryLine);
      SumOf(cart, SummaryLine)
    else
      SumOf(cart, SummaryLine)
  }

  /** `Math.max(0, subtotal - discount)`. */
  function Total(subtotal: real, discount: real): (r: real)
    ensures r >= 0.0 && r >= subtotal - discount
    ensures r == 0.0 || r == subtotal - discount
  {
    MaxReal(0.0, subtotal - discount)
  }

  /** The discount input: `Math.max(0, Math.min(subtotal, parsed || 0))`. */
  function ClampDiscount(subtotal: real, parsed: JsNumber): (d: real)
    ensures d >= 0.0
    ensures subtotal >= 0.0 ==> d <= subtotal
    ensures parsed.Finite? && 0.0 <= parsed.n <= subtotal ==> d == parsed.n
    ensures parsed.NaN? ==> d == 0.0
  {
    MaxReal(0.0, MinReal(subtotal, parsed.OrZero()))
  }

  /** After the clamp the displayed total is the plain difference. */
  lemma TotalAfterClamp(subtotal: real, parsed: JsNumber)
    requires subtotal >= 0.0
    ensures Total(subtotal, ClampDiscount(subtotal, parsed)) == subtotal - ClampDiscount(subtotal, parsed)
  {
  }

  /** The two fields of a pair agree, or only one of them is given. */
  predicate Agree(a: Option<real>, b: Option<real>) {
    a.None? || b.None? || a == b
  }

  /** A cart item on which the summary and the order read the same numbers. */
  predicate ConsistentItem(item: CartItem) {
    Agree(item.qty, item.quantity) && Agree(item.price, item.unitPrice)
    && !TruthyNum(item.discount) && OrNum(item.unitPrice, OrNum(item.price, 0.0)) >= 0.0
  }

  /** When paired fields agree, item discounts are 0 and prices non-negative, the
      drawer's subtotal is the total the stored order will carry. */
  lemma SubtotalMatchesOrderTotal(cart: seq<CartItem>)
    requires forall i :: 0 <= i < |cart| ==> ConsistentItem(cart[i])
    ensures Subtotal(cart) == SumOf(cart, LineTotal)
  {
    SumOfCongruent(cart, SummaryLine, cart, LineTotal);
  }

  /** Without that agreement the two differ: an item with `qty` 2 and
      `quantity` 3 is summarised as 2 pieces and ordered as 3. */
  lemma SubtotalDiffersOnConflictingFields()
    ensures var item := CartItem(None, Some("p1"), Some("Rocket"), Some(3.0), Some(2.0),
                                 Some(10.0), None, None);
      Subtotal([item]) == 20.0 && SumOf([item], LineTotal) == 30.0
  {
  }

  // ---------------------------------------------------------------------------
  // Form

  datatype CheckoutForm = CheckoutForm(name: string, phone: string, address: string, email: string, place: string)

  datatype FormField = Name | Phone | Address | Email | Place

  const EmptyForm := CheckoutForm("", "", "", "", "")

  function FieldOf(f: CheckoutForm, k: FormField): string {
    match k
    case Name => f.name
    case Phone => f.phone
    case Address => f.address
    case Email => f.email
    case Place => f.place
  }

  /** `{ ...form, [name]: value }`. */
  function SetField(f: CheckoutForm, k: FormField, value: string): (r: CheckoutForm)
    ensures FieldOf(r, k) == value
    ensures forall other :: other != k ==> FieldOf(r, other) == FieldOf(f, other)
  {
    match k
    case Name => f.(name := value)
    case Phone => f.(phone := value)
    case Address => f.(address := value)
    case Email => f.(email := value)
    case Place => f.(place := value)
  }

  /** The basic validation: a name, a 10-digit phone and some email. The email
      pattern is not checked here, so the guard passes every form whose name,
      phone and email the order validator accepts, and on a form it passes the
      validator can object to the email alone. */
  predicate GuardPasses(f: CheckoutForm)
    ensures f.name != "" && PhoneOk(f.phone) && EmailOk(f.email) ==> GuardPasses(f)
    ensures GuardPasses(f) ==> f.name != "" && PhoneOk(f.phone) && f.email != ""
  {
    f.name != "" && IsTenDigits(f.phone) && f.email != ""
  }

  const GuardMessage := "Please fill in all required fields correctly."
  const FallbackMessage := "Failed to place order. Please try again."
  /** What reading `success` of `undefined` throws, in the wording of V8
      (Chrome, Node.js); other engines word this TypeError differently. */
  const ResultTypeErrorMessage := "Cannot read properties of undefined (reading 'success')"

  function ClientOf(f: CheckoutForm): ClientData {
    ClientData(Some(f.name), None, Some(f.phone), Some(f.email), Some(f.address), Some(f.place))
  }

  function DrawerOptions(discount: real): OrderOptions {
    OrderOptions(Some(discount), Some("Pending"), Some(""), Some("TO-PAY"), None)
  }

  /** The order `handleSubmit` builds from the form, the cart and the discount. */
  function SubmittedOrder(f: CheckoutForm, cart: seq<CartItem>, discount: real,
                          now: LocalTime, nowMs: int, rand: real): Order
    requires ValidLocalTime(now) && 0.0 <= rand < 1.0
  {
    CreateOrderObject(ClientOf(f), cart, DrawerOptions(discount), now, nowMs, rand)
  }

  /** The submitted order is Pending, TO-PAY, with no transport, and carries the
      form, the drawer's discount and the unchanged cart. */
  lemma SubmittedOrderFields(f: CheckoutForm, cart: seq<CartItem>, discount: real,
                             now: LocalTime, nowMs: int, rand: real)
    requires ValidLocalTime(now) && 0.0 <= rand < 1.0
    ensures var o := SubmittedOrder(f, cart, discount, now, nowMs, rand);
      && o.status == "Pending" && o.deliveryStatus == "Pending" && o.paymentType == "TO-PAY"
      && o.transport == "" && o.discount == discount && o.items == ProcessOrderItems(cart)
      && o.customerName == f.name && o.phone == f.phone && o.email == f.email
      && o.address == f.address && o.place == f.place
  {
  }

  /** On a consistent cart the submitted order's net amount is the drawer's total. */
  lemma SubmittedNetAmountIsDrawerTotal(f: CheckoutForm, cart: seq<CartItem>, discount: real,
                                        now: LocalTime, nowMs: int, rand: real)
    requires ValidLocalTime(now) && 0.0 <= rand < 1.0
    requires forall i :: 0 <= i < |cart| ==> ConsistentItem(cart[i])
    ensures SubmittedOrder(f, cart, discount, now, nowMs, rand).netAmount == Total(Subtotal(cart), discount)
  {
    OrderTotalFormula(cart, OrNum(Some(discount), 0.0));
    SubtotalMatchesOrderTotal(cart);
  }

  /** The guard lets through an email the order validator rejects. */
  lemma GuardWeakerThanValidation(now: LocalTime, nowMs: int, rand: real, cart: seq<CartItem>)
    requires ValidLocalTime(now) && 0.0 <= rand < 1.0
    ensures var f := CheckoutForm("A", "9999999999", "", "x", "");
      GuardPasses(f) && MsgEmail in OrderErrors(SubmittedOrder(f, cart, 0.0, now, nowMs, rand))
  {
    var f := CheckoutForm("A", "9999999999", "", "x", "");
    assert IsTenDigits(f.phone) by {
      forall i | 0 <= i < 10 ensures IsDigit(f.phone[i]) { }
    }
    RequiredFieldViolationsReported(SubmittedOrder(f, cart, 0.0, now, nowMs, rand));
  }

  /** A cart of two Sparklers at 50 with an item discount of 5, for customer A:
      the order total and net amount are 90 while the drawer's own subtotal,
      which ignores item discounts, reads 100. */
  lemma SparklerScenario(now: LocalTime, nowMs: int, rand: real)
    requires ValidLocalTime(now) && 0.0 <= rand < 1.0
    ensures var cart := [CartItem(None, None, Some("Sparkler"), Some(2.0), None, Some(50.0), None, Some(5.0))];
      var f := CheckoutForm("A", "9999999999", "", "a@b.com", "");
      var o := SubmittedOrder(f, cart, 0.0, now, nowMs, rand);
      && GuardPasses(f)
      && o.total == 90.0 && o.netAmount == 90.0 && o.totalAmount == 90.0
      && o.status == "Pending" && o.paymentType == "TO-PAY" && o.orderId != ""
      && Subtotal(cart) == 100.0
  {
    var cart := [CartItem(None, None, Some("Sparkler"), Some(2.0), None, Some(50.0), None, Some(5.0))];
    var f := CheckoutForm("A", "9999999999", "", "a@b.com", "");
    assert IsTenDigits(f.phone) by {
      forall i | 0 <= i < 10 ensures IsDigit(f.phone[i]) { }
    }
    OrderTotalFormula(cart, 0.0);
  }

  // ---------------------------------------------------------------------------
  // The component

  class Drawer {
    /** The `cartItems` prop: the parent may pass a new cart at any time. */
    var cartItems: seq<CartItem>
    var form: CheckoutForm
    var discount: real
    var loading: bool
    var success: bool
    var error: string

    /** The discount is never negative. It is clamped to the subtotal only when
        it is edited: a later, smaller cart leaves it as it was, so it may then
        exceed the subtotal. */
    predicate Valid()
      reads this
    {
      discount >= 0.0
    }

    constructor (cart: seq<CartItem>)
      ensures Valid()
      ensures cartItems == cart && form == EmptyForm && discount == 0.0
      ensures !loading && !success && error == ""
    {
      cartItems := cart;
      form := EmptyForm;
      discount := 0.0;
      loading := false;
      success := false;
      error := "";
    }

    /** `handleChange`: sets the edited field and clears the error. */
    method HandleChange(field: FormField, value: string)
      requires Valid()
      modifies this
      ensures Valid()
      ensures form == SetField(old(form), field, value) && error == ""
      ensures discount == old(discount) && loading == old(loading) && success == old(success)
      ensures cartItems == old(cartItems)
    {
      form := SetField(form, field, value);
      error := "";
    }

    /** The discount input's change handler, with `parseFloat`'s result passed
        in: the discount becomes the input clamped to the current subtotal. */
    method HandleDiscountChange(parsed: JsNumber)
      requires Valid()
      modifies this
      ensures Valid()
      ensures discount == ClampDiscount(Subtotal(cartItems), parsed)
      ensures Subtotal(cartItems) >= 0.0 ==> discount <= Subtotal(cartItems)
      ensures form == old(form) && error == old(error) && loading == old(loading) && success == old(success)
      ensures cartItems == old(cartItems)
    {
      discount := ClampDiscount(Subtotal(cartItems), parsed);
    }

    /** A re-render with a new `cartItems` prop: the subtotal follows the new
        cart, while the discount and the rest of the state are kept, even when
        the discount now exceeds the new subtotal. */
    method ReceiveCart(cart: seq<CartItem>)
      requires Valid()
      modifies this
      ensures Valid()
      ensures cartItems == cart
      ensures discount == old(discount) && form == old(form) && error == old(error)
      ensures loading == old(loading) && success == old(success)
    {
      cartItems := cart;
    }

    /** `handleSubmit` as written. `addOrder` resolves to `undefined`, so reading
        `result.success` throws after a successful write: the order is stored,
        yet the drawer shows that exception's message and never reaches the
        success branch. A failed write shows its message, or the fallback. */
    method HandleSubmit(store: OrderCollection, now: LocalTime, nowMs: int, rand: real,
                        freshId: string, writeOk: bool, writeErrorMessage: string)
      requires Valid() && store.Valid()
      requires ValidLocalTime(now) && 0.0 <= rand < 1.0 && freshId != "" && freshId !in store.docs
      modifies this, store
      ensures Valid() && store.Valid()
      ensures form == old(form) && discount == old(discount) && success == old(success)
      ensures cartItems == old(cartItems)
      ensures !GuardPasses(old(form)) ==>
        error == GuardMessage && loading == old(loading) && store.docs == old(store.docs)
      ensures GuardPasses(old(form)) ==> !loading
      ensures GuardPasses(old(form)) && writeOk ==>
        store.docs == old(store.docs)[freshId := StoredOrderOf(freshId,
          SubmittedOrder(old(form), old(cartItems), old(discount), now, nowMs, rand))]
        && error == ResultTypeErrorMessage
      ensures GuardPasses(old(form)) && !writeOk ==>
        store.docs == old(store.docs) && error == OrText(writeErrorMessage, FallbackMessage)
    {
      // The order is a pure function of the state on entry and the clock and
      // draw passed in, so building it before the guard changes nothing.
      var orderData := SubmittedOrder(form, cartItems, discount, now, nowMs, rand);
      if !GuardPasses(form) {
        error := GuardMessage;
        return;
      }
      loading := true;
      error := "";
      var thrown := store.AddOrder(orderData, freshId, writeOk);
      if thrown {
        error := OrText(writeErrorMessage, FallbackMessage);
      } else {
        // `result` is undefined: `result.success` throws a TypeError.
        error := OrText(ResultTypeErrorMessage, FallbackMessage);
      }
      loading := false;
    }

    /** `handleSubmit` as intended: a completed write is a success. */
    method HandleSubmitIntended(store: OrderCollection, now: LocalTime, nowMs: int, rand: real,
                                freshId: string, writeOk: bool, writeErrorMessage: string)
      requires Valid() && store.Valid()
      requires ValidLocalTime(now) && 0.0 <= rand < 1.0 && freshId != "" && freshId !in store.docs
      modifies this, store
      ensures Valid() && store.Valid()
      ensures form == old(form) && discount == old(discount) && cartItems == old(cartItems)
      ensures !GuardPasses(old(form)) ==>
        error == GuardMessage && loading == old(loading) && success == old(success)
        && store.docs == old(store.docs)
      ensures GuardPasses(old(form)) ==> !loading
      ensures GuardPasses(old(form)) && writeOk ==>
        store.docs == old(store.docs)[freshId := StoredOrderOf(freshId,
          SubmittedOrder(old(form), old(cartItems), old(discount), now, nowMs, rand))]
        && success && error == ""
      ensures GuardPasses(old(form)) && !writeOk ==>
        store.docs == old(store.docs) && success == old(success)
        && error == OrText(writeErrorMessage, FallbackMessage)
    {
      // The order is a pure function of the state on entry and the clock and
      // draw passed in, so building it before the guard changes nothing.
      var orderData := SubmittedOrder(form, cartItems, discount, now, nowMs, rand);
      if !GuardPasses(form) {
        error := GuardMessage;
        return;
      }
      loading := true;
      error := "";
      var thrown := store.AddOrder(orderData, freshId, writeOk);
      if thrown {
        error := OrText(writeErrorMessage, FallbackMessage);
      } else {
        success := true;
      }
      loading := false;
    }

    /** The delayed step of the success branch: the form and discount are reset. */
    method FinishSuccess()
      requires Valid()
      modifies this
      ensures Valid()
      ensures !success && form == EmptyForm && discount == 0.0
      ensures loading == old(loading) && error == old(error) && cartItems == old(cartItems)
    {
      success := false;
      form := EmptyForm;
      discount := 0.0;
    }
  }
}
