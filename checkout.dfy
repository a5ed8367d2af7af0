/** The checkout page (src/pages/Checkout.tsx): shipping fee and total, the
    ordered guards before submission, the order record and its lines, and the
    rule that the cart is emptied only after both writes succeed. */
module CheckoutPage {
  import opened Common
  import opened ShoppingCart

  /** A shipping zone with its flat fee. */
  datatype Governorate = Governorate(
    id: string,
    name: string,
    nameAr: string,
    shippingPrice: int,
    isActive: Option<bool>)

  /** The text fields of the checkout form. */
  datatype OrderForm = OrderForm(
    customerName: string,
    phonePrimary: string,
    phoneSecondary: string,
    address: string,
    notes: string)

  /** The form's inputs, by their `name` attribute. */
  datatype FormField = CustomerName | PhonePrimary | PhoneSecondary | Address | Notes

  /** `{ ...prev, [name]: value }`: the named field takes the value, the others keep theirs. */
  function WithField(form: OrderForm, field: FormField, value: string): (f: OrderForm)
    ensures f.customerName == if field == CustomerName then value else form.customerName
    ensures f.phonePrimary == if field == PhonePrimary then value else form.phonePrimary
    ensures f.phoneSecondary == if field == PhoneSecondary then value else form.phoneSecondary
    ensures f.address == if field == Address then value else form.address
    ensures f.notes == if field == Notes then value else form.notes
  {
    match field
    case CustomerName => form.(customerName := value)
    case PhonePrimary => form.(phonePrimary := value)
    case PhoneSecondary => form.(phoneSecondary := value)
    case Address => form.(address := value)
    case Notes => form.(notes := value)
  }

  /** The row written to the orders table. */
  datatype OrderRecord = OrderRecord(
    customerName: string,
    phonePrimary: string,
    phoneSecondary: Option<string>,
    governorateId: string,
    shippingPrice: int,
    address: string,
    notes: Option<string>,
    subtotal: int,
    totalPrice: int,
    status: string)

  /** A row written to the order-items table. */
  datatype OrderLine = OrderLine(
    orderId: string,
    productId: string,
    productName: string,
    price: int,
    quantity: int,
    color: string,
    size: string)

  /** The writes the page sends to the backend, in the order it sends them. */
  datatype Write = InsertOrder(order: OrderRecord) | InsertOrderLines(lines: seq<OrderLine>)

  /** What the backend answers to the order insert: the new order's id, or an error. */
  datatype InsertResult = Inserted(id: string) | InsertFailed

  /** How a submission ends. */
  datatype Submission =
    | NoGovernorate      // rejected: no shipping zone chosen
    | MissingFields      // rejected: name, primary phone or address empty
    | OrderFailed        // the order insert failed
    | LinesFailed        // the order was written, the lines insert failed
    | Placed(orderId: string)

  /** `selectedGovernorate?.shipping_price || 0`. */
  function ShippingPrice(selected: Option<Governorate>): (fee: int)
    ensures selected == None ==> fee == 0
    ensures selected.Some? ==> fee == selected.value.shippingPrice
  {
    match selected
    case Some(g) => if g.shippingPrice != 0 then g.shippingPrice else 0
    case None => 0
  }

  /** `subtotal + shippingPrice`: the subtotal alone while no zone is chosen. */
  function TotalPrice(subtotal: int, selected: Option<Governorate>): (total: int)
    ensures selected == None ==> total == subtotal
    ensures selected.Some? ==> total == subtotal + selected.value.shippingPrice
  {
    subtotal + ShippingPrice(selected)
  }

  /** `governorates.find((g) => g.id === governorateId) || null`. */
  function FindGovernorate(governorates: seq<Governorate>, id: string): (g: Option<Governorate>)
    ensures g == None <==> forall i :: 0 <= i < |governorates| ==> governorates[i].id != id
    ensures g.Some? ==> g.value in governorates && g.value.id == id
    ensures g.Some? ==> exists i :: (0 <= i < |governorates| && governorates[i] == g.value &&
                                     forall j :: 0 <= j < i ==> governorates[j].id != id)
  {
    if governorates == [] then None
    else if governorates[0].id == id then Some(governorates[0])
    else
      var g := FindGovernorate(governorates[1..], id);
      if g.Some? then
        var i :| (0 <= i < |governorates[1..]| && governorates[1..][i] == g.value &&
                  forall j :: 0 <= j < i ==> governorates[1..][j].id != id);
        assert governorates[i + 1] == g.value;
        g
      else g
  }

  /** The guards of `handleSubmit`, in their order: the governorate first, then the required fields. */
  function FirstRejection(selected: Option<Governorate>, form: OrderForm): (r: Option<Submission>)
    ensures selected == None ==> r == Some(NoGovernorate)
    ensures selected.Some? ==>
      (r == Some(MissingFields) <==> form.customerName == "" || form.phonePrimary == "" || form.address == "")
    ensures r == None <==>
      selected.Some? && form.customerName != "" && form.phonePrimary != "" && form.address != ""
  {
    if selected == None then Some(NoGovernorate)
    else if form.customerName == "" || form.phonePrimary == "" || form.address == "" then Some(MissingFields)
    else None
  }

  /** The order row `handleSubmit` inserts: status "pending", the zone's fee, total = subtotal +
      fee, and null for an empty secondary phone or empty notes. */
  function OrderRecordOf(form: OrderForm, governorate: Governorate, subtotal: int): (r: OrderRecord)
    ensures r.status == "pending"
    ensures r.customerName == form.customerName && r.phonePrimary == form.phonePrimary
    ensures r.address == form.address
    ensures r.governorateId == governorate.id && r.shippingPrice == governorate.shippingPrice
    ensures r.subtotal == subtotal && r.totalPrice == r.subtotal + r.shippingPrice
    ensures r.phoneSecondary == None <==> form.phoneSecondary == ""
    ensures r.phoneSecondary.Some? ==> r.phoneSecondary.value == form.phoneSecondary
    ensures r.notes == None <==> form.notes == ""
    ensures r.notes.Some? ==> r.notes.value == form.notes
  {
    var selected := Some(governorate);
    OrderRecord(form.customerName, form.phonePrimary, NullIfEmpty(form.phoneSecondary),
                governorate.id, ShippingPrice(selected), form.address, NullIfEmpty(form.notes),
                subtotal, TotalPrice(subtotal, selected), "pending")
  }

  /** One order line per cart line, in cart order (`items.map(...)`). */
  function OrderLines(items: seq<CartItem>, orderId: string): (lines: seq<OrderLine>)
    ensures |lines| == |items|
    ensures forall i :: 0 <= i < |items| ==>
      lines[i] == OrderLine(orderId, items[i].productId, items[i].nameAr,
                            EffectivePrice(items[i].price, items[i].discountPrice),
                            items[i].quantity, items[i].color, items[i].size)
  {
    if items == [] then []
    else
      [OrderLine(orderId, items[0].productId, items[0].nameAr,
                 EffectivePrice(items[0].price, items[0].discountPrice),
                 items[0].quantity, items[0].color, items[0].size)]
      + OrderLines(items[1..], orderId)
  }

  /** The sum of price times quantity over order lines. */
  function LinesTotal(lines: seq<OrderLine>): int {
    if lines == [] then 0 else LinesTotal(lines[..|lines| - 1]) + lines[|lines| - 1].price * lines[|lines| - 1].quantity
  }

  /** How a submission ends, given the form state and the two backend answers. */
  function OutcomeOf(selected: Option<Governorate>, form: OrderForm,
                     orderResult: InsertResult, linesOk: bool): (s: Submission)
    ensures s.Placed? <==>
      FirstRejection(selected, form) == None && orderResult.Inserted? && linesOk
    ensures s.Placed? ==> s.orderId == orderResult.id
    ensures selected == None ==> s == NoGovernorate
  {
    match FirstRejection(selected, form)
    case Some(rejection) => rejection
    case None =>
      match orderResult
      case InsertFailed => OrderFailed
      case Inserted(orderId) => if linesOk then Placed(orderId) else LinesFailed
  }

  /** The writes a submission sends: none when a guard rejects it, the order row, and the
      lines only once the order row was written. */
  function WritesOf(selected: Option<Governorate>, form: OrderForm, items: seq<CartItem>,
                    orderResult: InsertResult): (w: seq<Write>)
    ensures FirstRejection(selected, form).Some? ==> w == []
    ensures FirstRejection(selected, form) == None ==>
      1 <= |w| <= 2 && w[0] == InsertOrder(OrderRecordOf(form, selected.value, Subtotal(items)))
    ensures |w| == 2 <==> FirstRejection(selected, form) == None && orderResult.Inserted?
    ensures |w| == 2 ==> w[1] == InsertOrderLines(OrderLines(items, orderResult.id))
  {
    if FirstRejection(selected, form).Some? then []
    else
      var order := InsertOrder(OrderRecordOf(form, selected.value, Subtotal(items)));
      match orderResult
      case InsertFailed => [order]
      case Inserted(orderId) => [order, InsertOrderLines(OrderLines(items, orderId))]
  }

  class Checkout {
    const cart: Cart
    var governorates: seq<Governorate>
    var selected: Option<Governorate>
    var form: OrderForm
    var isLoading: bool
    var showThankYou: bool
    /** The backend writes issued so far. */
    var writes: seq<Write>

    constructor (cart: Cart, governorates: seq<Governorate>)
      ensures this.cart == cart && this.governorates == governorates
      ensures selected == None && form == OrderForm("", "", "", "", "")
      ensures !isLoading && !showThankYou && writes == []
    {
      this.cart := cart;
      this.governorates := governorates;
      selected := None;
      form := OrderForm("", "", "", "", "");
      isLoading := false;
      showThankYou := false;
      writes := [];
    }

    /** Picking a zone by id; an id not in the loaded list leaves no zone selected. */
    method ChangeGovernorate(id: string)
      modifies this
      ensures selected == FindGovernorate(governorates, id)
      ensures !(exists i :: 0 <= i < |governorates| && governorates[i].id == id) ==> selected == None
      ensures governorates == old(governorates) && form == old(form) && writes == old(writes)
      ensures isLoading == old(isLoading) && showThankYou == old(showThankYou)
    {
      selected := FindGovernorate(governorates, id);
    }

    /** `handleInputChange`: one input's new text. */
    method ChangeField(field: FormField, value: string)
      modifies this
      ensures form == WithField(old(form), field, value)
      ensures governorates == old(governorates) && selected == old(selected) && writes == old(writes)
      ensures isLoading == old(isLoading) && showThankYou == old(showThankYou)
    {
      form := WithField(form, field, value);
    }

    /** `handleSubmit`: the guards, the two writes, then clearing the cart and showing the
        thank-you screen only when both writes succeeded. */
    method Submit(orderResult: InsertResult, linesOk: bool) returns (outcome: Submission)
      modifies this, cart
      ensures outcome == OutcomeOf(old(selected), old(form), orderResult, linesOk)
      ensures writes == old(writes) + WritesOf(old(selected), old(form), old(cart.items), orderResult)
      ensures cart.items == if outcome.Placed? then [] else old(cart.items)
      ensures showThankYou == (old(showThankYou) || outcome.Placed?)
      ensures isLoading == if FirstRejection(old(selected), old(form)).Some? then old(isLoading) else false
      ensures governorates == old(governorates) && selected == old(selected) && form == old(form)
    {
      var rejection := FirstRejection(selected, form);
      if rejection.Some? {
        outcome := rejection.value;
        return;
      }
      isLoading := true;
      var order := OrderRecordOf(form, selected.value, Subtotal(cart.items));
      writes := writes + [InsertOrder(order)];
      match orderResult {
        case InsertFailed =>
          outcome := OrderFailed;
        case Inserted(orderId) =>
          writes := writes + [InsertOrderLines(OrderLines(cart.items, orderId))];
          if linesOk {
            cart.ClearCart();
            showThankYou := true;
            outcome := Placed(orderId);
          } else {
            outcome := LinesFailed;
          }
      }
      isLoading := false;
    }
  }

  /** The order's lines add up to the cart subtotal recorded on the order row. */
  lemma {:induction false} LinesTotalIsSubtotal(items: seq<CartItem>, orderId: string)
    ensures LinesTotal(OrderLines(items, orderId)) == Subtotal(items)
  {
    if items != [] {
      var n := |items| - 1;
      var lines := OrderLines(items, orderId);
      assert lines[..n] == OrderLines(items[..n], orderId);
      LinesTotalIsSubtotal(items[..n], orderId);
    }
  }

  /** Filling in the name, primary phone and address of any form, with a zone chosen, gets a
      submission past both guards. */
  lemma FilledFormPasses(g: Governorate, form: OrderForm, name: string, phone: string, address: string)
    requires name != "" && phone != "" && address != ""
    ensures FirstRejection(Some(g),
      WithField(WithField(WithField(form, CustomerName, name), PhonePrimary, phone), Address, address)) == None
  {
  }

  /** The secondary phone and the notes never decide whether a submission is rejected. */
  lemma OptionalFieldsNeverReject(selected: Option<Governorate>, form: OrderForm, field: FormField, value: string)
    requires field == PhoneSecondary || field == Notes
    ensures FirstRejection(selected, WithField(form, field, value)) == FirstRejection(selected, form)
  {
  }
}
