/** The checkout page: the charges shown in the order summary, the
    validation that runs before an order is sent, the order request built
    from the cart and the form, and the page state that its handlers
    update (the contact form, the order type, the loading flag and the
    cart it empties on success). Amounts are exact rupees (`real`). */
module Checkout {
  import opened Common
  import opened Text
  import opened Cart

  datatype OrderType = Delivery | Takeaway

  /** Tax rate applied to the subtotal (5%). */
  const TaxRate: real := 0.05

  /** A flat 40 for a delivery order, nothing for takeaway. */
  function DeliveryFee(orderType: OrderType): (fee: real)
    ensures fee == 40.0 <==> orderType == Delivery
    ensures fee == 0.0 <==> orderType == Takeaway
  {
    match orderType
    case Delivery => 40.0
    case Takeaway => 0.0
  }

  /** The order summary: subtotal, tax, delivery fee and total. */
  datatype Charges = Charges(subtotal: real, tax: real, deliveryFee: real, total: real)

  /** The charges for a cart worth `subtotal`. Tax is one twentieth of the
      subtotal alone, so it is the same for both order types, and the
      delivery fee is added after tax. */
  function ComputeCharges(subtotal: real, orderType: OrderType): (c: Charges)
    ensures c.subtotal == subtotal
    ensures c.tax * 20.0 == subtotal
    ensures c.deliveryFee == DeliveryFee(orderType)
    ensures c.total == c.subtotal + c.tax + c.deliveryFee
  {
    var tax := subtotal * TaxRate;
    var fee := DeliveryFee(orderType);
    Charges(subtotal, tax, fee, subtotal + tax + fee)
  }

  /** For the same cart, choosing delivery changes only the fee, and the
      total grows by exactly the flat charge. */
  lemma DeliveryCostsFortyMore(subtotal: real)
    ensures ComputeCharges(subtotal, Delivery).tax == ComputeCharges(subtotal, Takeaway).tax
    ensures ComputeCharges(subtotal, Delivery).total == ComputeCharges(subtotal, Takeaway).total + 40.0
  {
  }

  /** Two worked totals for a cart worth 250 rupees. */
  lemma ChargesFor250(subtotal: real)
    requires subtotal == 250.0
    ensures ComputeCharges(subtotal, Delivery) == Charges(250.0, 12.5, 40.0, 302.5)
    ensures ComputeCharges(subtotal, Takeaway) == Charges(250.0, 12.5, 0.0, 262.5)
  {
  }

  /** The contact form of the page. */
  datatype Form = Form(
    customerName: string,
    customerPhone: string,
    customerEmail: string,
    deliveryAddress: string,
    notes: string)

  const EmptyForm := Form("", "", "", "", "")

  /** The `name` attributes of the form's inputs. */
  datatype Field = CustomerName | CustomerPhone | CustomerEmail | DeliveryAddress | Notes

  function Get(form: Form, field: Field): string {
    match field
    case CustomerName => form.customerName
    case CustomerPhone => form.customerPhone
    case CustomerEmail => form.customerEmail
    case DeliveryAddress => form.deliveryAddress
    case Notes => form.notes
  }

  /** `{ ...formData, [name]: value }`: the named field takes the value and
      every other field keeps its own. */
  function WithField(form: Form, field: Field, value: string): (r: Form)
    ensures Get(r, field) == value
    ensures forall f :: f != field ==> Get(r, f) == Get(form, f)
  {
    match field
    case CustomerName => form.(customerName := value)
    case CustomerPhone => form.(customerPhone := value)
    case CustomerEmail => form.(customerEmail := value)
    case DeliveryAddress => form.(deliveryAddress := value)
    case Notes => form.(notes := value)
  }

  /** The JSON the profile endpoint answers with. An error reply such as
      `{ error: 'User not found' }` is an object with no profile fields,
      i.e. a `ProfileData` whose fields are all `None`. */
  datatype ProfileData = ProfileData(name: Option<string>, phone: Option<string>, address: Option<string>)

  /** What the profile request gives the page: a parsed body (which may be
      JSON `null`), or a rejected promise. */
  datatype ProfileReply = JsonBody(body: Option<ProfileData>) | FetchFailed

  /** The pre-fill applied to the form once the profile request settles.
      A body overwrites name, phone and address (each absent value becomes
      the empty string) and the email from the session; a failed request
      sets the email only; a `null` body changes nothing. Notes are never
      touched. */
  function PreFilled(form: Form, reply: ProfileReply, sessionEmail: Option<string>): (r: Form)
    ensures r.notes == form.notes
    ensures reply.FetchFailed? ==>
      r.customerEmail == OrEmpty(sessionEmail) && forall f :: f != CustomerEmail ==> Get(r, f) == Get(form, f)
    ensures reply == JsonBody(None) ==> r == form
    ensures reply.JsonBody? && reply.body.Some? ==>
      && r.customerName == OrEmpty(reply.body.value.name)
      && r.customerPhone == OrEmpty(reply.body.value.phone)
      && r.deliveryAddress == OrEmpty(reply.body.value.address)
      && r.customerEmail == OrEmpty(sessionEmail)
  {
    match reply
    case FetchFailed => form.(customerEmail := OrEmpty(sessionEmail))
    case JsonBody(None) => form
    case JsonBody(Some(data)) =>
      form.(customerName := OrEmpty(data.name),
            customerPhone := OrEmpty(data.phone),
            deliveryAddress := OrEmpty(data.address),
            customerEmail := OrEmpty(sessionEmail))
  }

  datatype ValidationError = MissingRequiredFields | MissingDeliveryAddress

  /** The checks made before an order is sent, first failure wins: name and
      phone first, then the address, for delivery orders only. `None` means
      the order may be sent. */
  function Validate(form: Form, orderType: OrderType): (r: Option<ValidationError>)
    ensures form.customerName == "" || form.customerPhone == "" ==> r == Some(MissingRequiredFields)
    ensures form.customerName != "" && form.customerPhone != "" && orderType == Delivery && form.deliveryAddress == ""
      ==> r == Some(MissingDeliveryAddress)
    ensures r == None <==>
      form.customerName != "" && form.customerPhone != "" && (orderType == Delivery ==> form.deliveryAddress != "")
  {
    if form.customerName == "" || form.customerPhone == "" then Some(MissingRequiredFields)
    else if orderType == Delivery && form.deliveryAddress == "" then Some(MissingDeliveryAddress)
    else None
  }

  /** A takeaway order is judged without looking at the address. */
  lemma TakeawayIgnoresAddress(form: Form, address: string)
    ensures Validate(form.(deliveryAddress := address), Takeaway) == Validate(form, Takeaway)
  {
  }

  /** One entry of the request's `items`. */
  datatype OrderItem = OrderItem(id: string, quantity: int, price: real)

  /** The body of the order request. */
  datatype OrderRequest = OrderRequest(
    customerName: string,
    customerPhone: string,
    customerEmail: string,
    restaurantId: Option<string>,
    orderType: OrderType,
    deliveryAddress: Option<string>,
    notes: string,
    items: seq<OrderItem>)

  /** `items.map(item => ({ id, quantity, price }))`. */
  function ToOrderItems(lines: seq<CartLine>): (r: seq<OrderItem>)
    ensures |r| == |lines|
    ensures forall i :: 0 <= i < |lines| ==>
      r[i].id == lines[i].id && r[i].quantity == lines[i].quantity && r[i].price == lines[i].price
  {
    if lines == [] then []
    else [OrderItem(lines[0].id, lines[0].quantity, lines[0].price)] + ToOrderItems(lines[1..])
  }

  /** The request built from the form, the order type and the cart: the
      contact fields and notes are copied, the address is sent only for a
      delivery order (`null` otherwise), and there is one item per cart
      line, in cart order. */
  function BuildRequest(form: Form, orderType: OrderType, restaurantId: Option<string>, lines: seq<CartLine>)
    : (r: OrderRequest)
    ensures r.customerName == form.customerName && r.customerPhone == form.customerPhone
    ensures r.customerEmail == form.customerEmail && r.notes == form.notes
    ensures r.restaurantId == restaurantId && r.orderType == orderType
    ensures r.deliveryAddress.Some? <==> orderType == Delivery
    ensures r.deliveryAddress.Some? ==> r.deliveryAddress.value == form.deliveryAddress
    ensures |r.items| == |lines|
    ensures forall i :: 0 <= i < |lines| ==>
      r.items[i].id == lines[i].id && r.items[i].quantity == lines[i].quantity && r.items[i].price == lines[i].price
  {
    OrderRequest(
      form.customerName,
      form.customerPhone,
      form.customerEmail,
      restaurantId,
      orderType,
      if orderType == Delivery then Some(form.deliveryAddress) else None,
      form.notes,
      ToOrderItems(lines))
  }

  /** `restaurantName?.includes('Canteen')`: a missing name is not a canteen. */
  function IsCanteen(restaurantName: Option<string>): (r: bool)
    ensures restaurantName.None? ==> !r
    ensures restaurantName.Some? ==> (r <==> exists i :: OccursAt(restaurantName.value, "Canteen", i))
  {
    restaurantName.Some? && Contains(restaurantName.value, "Canteen")
  }

  /** How the order service answers: success with an order id; a truthy
      `success` whose body has no `order` object, so reading
      `data.order.order_id` throws after `clearCart()` has run; a reply whose
      `success` flag is false; or a thrown error (network or JSON) before
      any reply is read. */
  datatype OrderReply = Accepted(orderId: string) | AcceptedWithoutOrder | Refused | Threw
  {
    /** The reply's `success` flag is truthy, so `clearCart()` runs. */
    predicate ReportsSuccess() {
      Accepted? || AcceptedWithoutOrder?
    }
  }

  /** What one press of "Place Order" ends in: stopped by validation (no
      request sent), or a request sent that was placed (the page moves to
      the summary of `orderId`) or was not. */
  datatype SubmitOutcome =
    | Blocked(reason: ValidationError)
    | Placed(request: OrderRequest, orderId: string)
    | NotPlaced(request: OrderRequest)

  /** The checkout page's state: the form, the order type, the loading flag
      and the cart it reads from the store. */
  class CheckoutPage {
    var form: Form
    var orderType: OrderType
    var loading: bool
    var items: seq<CartLine>
    var restaurantId: Option<string>
    var restaurantName: Option<string>

    /** The order-type toggle is not rendered for a canteen, so a canteen
        cart stays on the initial takeaway. */
    ghost predicate Valid()
      reads this
    {
      IsCanteen(restaurantName) ==> orderType == Takeaway
    }

    constructor (items: seq<CartLine>, restaurantId: Option<string>, restaurantName: Option<string>)
      ensures Valid()
      ensures form == EmptyForm && orderType == Takeaway && !loading
      ensures this.items == items && this.restaurantId == restaurantId && this.restaurantName == restaurantName
    {
      form := EmptyForm;
      orderType := Takeaway;
      loading := false;
      this.items := items;
      this.restaurantId := restaurantId;
      this.restaurantName := restaurantName;
    }

    /** The summary shown for a cart worth `subtotal`. A canteen cart never
        pays the delivery fee. */
    function Summary(subtotal: real): (c: Charges)
      reads this
      requires Valid()
      ensures c.deliveryFee == DeliveryFee(orderType)
      ensures c.tax * 20.0 == subtotal
      ensures c.total == subtotal + c.tax + c.deliveryFee
      ensures IsCanteen(restaurantName) ==> c.deliveryFee == 0.0 && c.total == subtotal + c.tax
      ensures c == ComputeCharges(subtotal, orderType)
    {
      ComputeCharges(subtotal, orderType)
    }

    /** A press on one of the two order-type buttons, which exist only when
        the cart is not a canteen's. */
    method SelectOrderType(choice: OrderType)
      requires Valid()
      modifies this`orderType
      ensures Valid()
      ensures orderType == if IsCanteen(restaurantName) then Takeaway else choice
    {
      if !IsCanteen(restaurantName) {
        orderType := choice;
      }
    }

    /** `handleInputChange`: the edited input's field takes the new value. */
    method HandleInputChange(field: Field, value: string)
      requires Valid()
      modifies this`form
      ensures Valid()
      ensures form == WithField(old(form), field, value)
      ensures Get(form, field) == value
      ensures forall f :: f != field ==> Get(form, f) == Get(old(form), f)
    {
      form := WithField(form, field, value);
    }

    /** The pre-fill effect: only for a signed-in user, once the profile
        request settles. */
    method PreFill(authenticated: bool, reply: ProfileReply, sessionEmail: Option<string>)
      requires Valid()
      modifies this`form
      ensures Valid()
      ensures form == if authenticated then PreFilled(old(form), reply, sessionEmail) else old(form)
      ensures form.notes == old(form).notes
    {
      if authenticated {
        form := PreFilled(form, reply, sessionEmail);
      }
    }

    /** `handleSubmitOrder`, with the order service's answer as a parameter.
        A form that fails validation sends nothing and changes nothing.
        Otherwise exactly one request is sent; the cart is emptied exactly
        when the service's `success` flag is truthy, even when the reply then
        lacks the order and the page falls into its error path; `loading` is
        false afterwards. */
    method SubmitOrder(reply: OrderReply) returns (outcome: SubmitOutcome)
      requires Valid()
      modifies this`loading, this`items, this`restaurantId, this`restaurantName
      ensures Valid()
      ensures outcome.Blocked? <==> Validate(form, orderType).Some?
      ensures outcome.Blocked? ==>
        && outcome.reason == Validate(form, orderType).value
        && loading == old(loading) && items == old(items)
        && restaurantId == old(restaurantId) && restaurantName == old(restaurantName)
      ensures !outcome.Blocked? ==>
        && outcome.request == BuildRequest(form, orderType, old(restaurantId), old(items))
        && !loading
        && (outcome.Placed? <==> reply.Accepted?)
        && (outcome.Placed? ==> outcome.orderId == reply.orderId)
      ensures !outcome.Blocked? && reply.ReportsSuccess() ==>
        items == [] && restaurantId == None && restaurantName == None
      ensures !reply.ReportsSuccess() ==>
        items == old(items) && restaurantId == old(restaurantId) && restaurantName == old(restaurantName)
    {
      var invalid := Validate(form, orderType);
      if invalid.Some? {
        return Blocked(invalid.value);
      }
      loading := true;
      var request := BuildRequest(form, orderType, restaurantId, items);
      match reply {
        case Accepted(orderId) =>
          // clearCart(): the store drops its lines and its restaurant
          items, restaurantId, restaurantName := [], None, None;
          outcome := Placed(request, orderId);
        case AcceptedWithoutOrder =>
          // clearCart() runs, then reading the missing order throws
          items, restaurantId, restaurantName := [], None, None;
          outcome := NotPlaced(request);
        case Refused =>
          outcome := NotPlaced(request);
        case Threw =>
          outcome := NotPlaced(request);
      }
      loading := false;
    }
  }
}
