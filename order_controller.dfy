/**
 * The order handlers: placing an order by cash on delivery, Stripe or
 * Twint, confirming a Stripe or Twint payment, and the admin and user
 * queries. Each handler runs its store calls in order and answers with a
 * JSON reply; a call that fails ends the handler with `success: false` and
 * leaves whatever the earlier calls wrote.
 */
module OrderController {
  import opened Wrappers
  import opened JsValues
  import opened Store

  /** The currency of every Stripe line. */
  const Currency := "inr"

  /** The delivery charge added to every Stripe checkout, in currency units. */
  const DeliveryCharge := 10

  /** The message of the duplicate-key error `save` throws for a taken id. */
  const DuplicateKey := "E11000 duplicate key error"

  /** `{ userId, items, amount, address }` of a placement request body. */
  datatype PlaceRequest = PlaceRequest(userId: UserId, items: seq<Item>, amount: int, address: Value)

  /** What a Twint placement answers with; the payment itself is not created. */
  datatype TwintPayment = TwintPayment(
    orderId: OrderId,
    amount: int,
    currency: string,
    qrCode: string,
    shortCode: string,
    redirectUrl: string,
    status: string)

  /** The JSON replies of the handlers. */
  datatype Reply =
    | Message(success: bool, message: string)
    | Flag(success: bool)
    | SessionUrl(url: string)
    | TwintPending(payment: TwintPayment)
    | Orders(orders: map<OrderId, Order>)

  /** The order document a placement saves. */
  function NewOrder(req: PlaceRequest, pm: PaymentMethod, now: int): (o: Order)
    ensures o.userId == req.userId && o.items == req.items && o.address == req.address && o.amount == req.amount
    ensures o.paymentMethod == pm && !o.payment && o.date == now
    ensures o.status.None? && o.payrexxTransactionId.None?
  {
    Order(req.userId, req.items, req.address, req.amount, pm, false, now, None, None)
  }

  /** Saving a new order under a free id is an allowed change of the orders. */
  lemma SaveEvolves(orders: map<OrderId, Order>, id: OrderId, o: Order)
    requires id !in orders
    ensures Evolves(orders, orders[id := o])
  {
  }

  /** Deleting an order is an allowed change of the orders. */
  lemma DeleteEvolves(orders: map<OrderId, Order>, id: OrderId)
    ensures Evolves(orders, orders - {id})
  {
  }

  /**
   * `placeOrder`: saves a COD order under `newId`, then empties the user's
   * cart. `now` stands for `Date.now()`.
   */
  method PlaceOrder(db: Database, req: PlaceRequest, newId: OrderId, now: int) returns (reply: Reply)
    modifies db
    ensures newId !in old(db.orders) ==>
      && db.orders == old(db.orders)[newId := NewOrder(req, COD, now)]
      && db.carts == ClearedCarts(old(db.carts), req.userId)
      && reply == Message(true, "Order Placed")
    ensures newId in old(db.orders) ==>
      db.orders == old(db.orders) && db.carts == old(db.carts) && reply == Message(false, DuplicateKey)
    ensures Evolves(old(db.orders), db.orders)
  {
    var ok := db.Save(newId, NewOrder(req, COD, now));
    if !ok {
      return Message(false, DuplicateKey);
    }
    db.ClearCart(req.userId);
    reply := Message(true, "Order Placed");
  }

  /** One `line_items` entry of a Stripe checkout. */
  datatype LineItem = LineItem(currency: string, name: string, unitAmount: int, quantity: int)

  /** The line of one cart item: its price in the smallest currency unit, its quantity. */
  function ItemLine(item: Item): LineItem {
    LineItem(Currency, item.name, item.price * 100, item.quantity)
  }

  /** The line `push`ed after the items. */
  const DeliveryLine := LineItem(Currency, "Delivery Charges", DeliveryCharge * 100, 1)

  /** `items.map(...)`. */
  function ItemLines(items: seq<Item>): (lines: seq<LineItem>)
    ensures |lines| == |items|
    ensures forall i :: 0 <= i < |items| ==> lines[i] == ItemLine(items[i])
  {
    if items == [] then [] else [ItemLine(items[0])] + ItemLines(items[1..])
  }

  /** The `line_items` of a checkout: one line per item, in order, then the delivery line. */
  function LineItems(items: seq<Item>): (lines: seq<LineItem>)
    ensures |lines| == |items| + 1
    ensures forall i :: 0 <= i < |items| ==> lines[i] == ItemLine(items[i])
    ensures lines[|items|] == DeliveryLine
  {
    ItemLines(items) + [DeliveryLine]
  }

  /** What Stripe charges for a list of lines, in the smallest currency unit. */
  function Charged(lines: seq<LineItem>): int {
    if lines == [] then 0 else lines[0].unitAmount * lines[0].quantity + Charged(lines[1..])
  }

  /** The value of the items at their prices, in currency units. */
  function Subtotal(items: seq<Item>): int {
    if items == [] then 0 else items[0].price * items[0].quantity + Subtotal(items[1..])
  }

  lemma {:induction false} ChargedAppend(a: seq<LineItem>, b: seq<LineItem>)
    ensures Charged(a + b) == Charged(a) + Charged(b)
  {
    if a != [] {
      assert (a + b)[0] == a[0] && (a + b)[1..] == a[1..] + b;
      ChargedAppend(a[1..], b);
    } else {
      assert a + b == b;
    }
  }

  lemma {:induction false} ItemLinesCharged(items: seq<Item>)
    ensures Charged(ItemLines(items)) == 100 * Subtotal(items)
  {
    if items != [] {
      ItemLinesCharged(items[1..]);
    }
  }

  /** A checkout charges a hundred times the items' value plus the delivery charge. */
  lemma CheckoutTotal(items: seq<Item>)
    ensures Charged(LineItems(items)) == 100 * (Subtotal(items) + DeliveryCharge)
  {
    ChargedAppend(ItemLines(items), [DeliveryLine]);
    ItemLinesCharged(items);
    assert Charged([DeliveryLine]) == DeliveryCharge * 100;
  }

  /** The page Stripe returns to: `${origin}/verify?success=${flag}&orderId=${id}`. */
  function VerifyUrl(origin: string, flag: string, id: OrderId): string {
    origin + "/verify?success=" + flag + "&orderId=" + id
  }

  /**
   * The success and cancel pages share everything but the flag: both start
   * with the origin's verify page and end with the order id.
   */
  lemma VerifyUrlsDifferOnlyInFlag(origin: string, id: OrderId)
    ensures VerifyUrl(origin, "true", id) != VerifyUrl(origin, "false", id)
    ensures var prefix := origin + "/verify?success=";
            var suffix := "&orderId=" + id;
            && VerifyUrl(origin, "true", id) == prefix + "true" + suffix
            && VerifyUrl(origin, "false", id) == prefix + "false" + suffix
  {
    var prefix := origin + "/verify?success=";
    var t := VerifyUrl(origin, "true", id);
    var f := VerifyUrl(origin, "false", id);
    assert t[|prefix|] == 't';
    assert f[|prefix|] == 'f';
  }

  /** For one origin and flag, different orders return to different pages. */
  lemma VerifyUrlInjective(origin: string, flag: string, id1: OrderId, id2: OrderId)
    requires VerifyUrl(origin, flag, id1) == VerifyUrl(origin, flag, id2)
    ensures id1 == id2
  {
    var n := |origin + "/verify?success=" + flag + "&orderId="|;
    assert id1 == VerifyUrl(origin, flag, id1)[n..];
    assert id2 == VerifyUrl(origin, flag, id2)[n..];
  }

  /** The arguments of `stripe.checkout.sessions.create`. */
  datatype CheckoutRequest = CheckoutRequest(
    successUrl: string,
    cancelUrl: string,
    lineItems: seq<LineItem>,
    mode: string)

  /** What Stripe gives back: a session with its page, or a thrown error. */
  datatype SessionOutcome = Session(url: string) | Thrown(message: string)

  /**
   * `placeOrderStripe`: saves a Stripe order, unpaid, before asking Stripe
   * for a checkout session. If Stripe throws, the saved order stays.
   */
  method PlaceOrderStripe(db: Database, req: PlaceRequest, origin: string, newId: OrderId, now: int,
                          createSession: CheckoutRequest -> SessionOutcome)
    returns (reply: Reply, sent: Option<CheckoutRequest>)
    modifies db
    ensures db.carts == old(db.carts)
    ensures newId in old(db.orders) ==>
      db.orders == old(db.orders) && sent.None? && reply == Message(false, DuplicateKey)
    ensures newId !in old(db.orders) ==>
      && db.orders == old(db.orders)[newId := NewOrder(req, Stripe, now)]
      && sent == Some(CheckoutRequest(VerifyUrl(origin, "true", newId), VerifyUrl(origin, "false", newId),
                                      LineItems(req.items), "payment"))
      && reply == match createSession(sent.value)
                  case Session(url) => SessionUrl(url)
                  case Thrown(message) => Message(false, message)
    ensures Evolves(old(db.orders), db.orders)
  {
    var ok := db.Save(newId, NewOrder(req, Stripe, now));
    if !ok {
      return Message(false, DuplicateKey), None;
    }
    var lines := ItemLines(req.items);
    lines := lines + [DeliveryLine];
    var request := CheckoutRequest(VerifyUrl(origin, "true", newId), VerifyUrl(origin, "false", newId), lines, "payment");
    sent := Some(request);
    match createSession(request)
    case Session(url) => reply := SessionUrl(url);
    case Thrown(message) => reply := Message(false, message);
  }

  /**
   * `verifyStripe`: the flag exactly `"true"` marks the order paid and
   * empties the caller's cart; any other flag deletes the order.
   */
  method VerifyStripe(db: Database, orderId: OrderId, success: Value, userId: UserId) returns (reply: Reply)
    modifies db
    ensures success == Str("true") ==>
      && db.orders == UpdatedOrders(old(db.orders), orderId, OrderPatch(Some(true), None, None))
      && db.carts == ClearedCarts(old(db.carts), userId)
      && reply == Flag(true)
    ensures success != Str("true") ==>
      db.orders == old(db.orders) - {orderId} && db.carts == old(db.carts) && reply == Flag(false)
    ensures Evolves(old(db.orders), db.orders)
  {
    if success == Str("true") {
      db.UpdateOrder(orderId, OrderPatch(Some(true), None, None));
      UpdateEvolves(old(db.orders), orderId, OrderPatch(Some(true), None, None));
      db.ClearCart(userId);
      reply := Flag(true);
    } else {
      db.DeleteOrder(orderId);
      DeleteEvolves(old(db.orders), orderId);
      reply := Flag(false);
    }
  }

  /** The page a Twint payer returns to. */
  function TwintRedirect(frontendUrl: string, id: OrderId): string {
    frontendUrl + "/verify-twint?orderId=" + id
  }

  /** The QR code link of a Twint payment. */
  function TwintQrCode(id: OrderId): string {
    "https://twint.ch/pay/" + id
  }

  /**
   * `placeOrderTwint`: saves a Twint order, unpaid, and answers with a
   * pending payment for it. The cart is kept. `shortCode` stands for the
   * random code and `frontendUrl` for the configured front end.
   */
  method PlaceOrderTwint(db: Database, req: PlaceRequest, newId: OrderId, now: int, shortCode: string, frontendUrl: string)
    returns (reply: Reply)
    modifies db
    ensures db.carts == old(db.carts)
    ensures newId in old(db.orders) ==> db.orders == old(db.orders) && reply == Message(false, DuplicateKey)
    ensures newId !in old(db.orders) ==>
      && db.orders == old(db.orders)[newId := NewOrder(req, Twint, now)]
      && reply.TwintPending?
      && reply.payment.orderId == newId
      && reply.payment.amount == req.amount * 100
      && reply.payment.currency == "CHF"
      && reply.payment.status == "pending"
      && reply.payment.qrCode == TwintQrCode(newId)
      && reply.payment.shortCode == shortCode
      && reply.payment.redirectUrl == TwintRedirect(frontendUrl, newId)
    ensures Evolves(old(db.orders), db.orders)
  {
    var ok := db.Save(newId, NewOrder(req, Twint, now));
    if !ok {
      return Message(false, DuplicateKey);
    }
    var payment := TwintPayment(newId, req.amount * 100, "CHF", TwintQrCode(newId), shortCode,
                                TwintRedirect(frontendUrl, newId), "pending");
    reply := TwintPending(payment);
  }

  /**
   * `verifyTwint`: a status exactly `"success"` marks the order paid and
   * empties the cart; anything else changes nothing and deletes nothing.
   */
  method VerifyTwint(db: Database, orderId: OrderId, paymentStatus: Value, userId: UserId) returns (reply: Reply)
    modifies db
    ensures paymentStatus == Str("success") ==>
      && db.orders == UpdatedOrders(old(db.orders), orderId, OrderPatch(Some(true), None, None))
      && db.carts == ClearedCarts(old(db.carts), userId)
      && reply == Message(true, "Twint Payment Successful")
    ensures paymentStatus != Str("success") ==>
      db.orders == old(db.orders) && db.carts == old(db.carts) && reply == Message(false, "Twint Payment Failed")
    ensures Evolves(old(db.orders), db.orders)
  {
    if paymentStatus == Str("success") {
      db.UpdateOrder(orderId, OrderPatch(Some(true), None, None));
      UpdateEvolves(old(db.orders), orderId, OrderPatch(Some(true), None, None));
      db.ClearCart(userId);
      reply := Message(true, "Twint Payment Successful");
    } else {
      reply := Message(false, "Twint Payment Failed");
    }
  }

  /** `allOrders`: every order. */
  method AllOrders(db: Database) returns (reply: Reply)
    ensures reply == Orders(db.orders)
  {
    var orders := db.FindOrders(None);
    assert orders == db.orders;
    reply := Orders(orders);
  }

  /** `userOrders`: exactly the orders of `userId`, as stored. */
  method UserOrders(db: Database, userId: UserId) returns (reply: Reply)
    ensures reply.Orders?
    ensures forall id :: id in reply.orders <==> id in db.orders && db.orders[id].userId == userId
    ensures forall id :: id in reply.orders ==> reply.orders[id] == db.orders[id]
  {
    var orders := db.FindOrders(Some(userId));
    reply := Orders(orders);
  }

  /** `updateStatus`: sets the status of one order, and of no other; carts are untouched. */
  method UpdateStatus(db: Database, orderId: OrderId, status: string) returns (reply: Reply)
    modifies db
    ensures db.orders.Keys == old(db.orders).Keys
    ensures orderId in db.orders ==> db.orders[orderId] == old(db.orders)[orderId].(status := Some(status))
    ensures forall id :: id in db.orders && id != orderId ==> db.orders[id] == old(db.orders)[id]
    ensures db.carts == old(db.carts)
    ensures reply == Message(true, "Status Updated")
    ensures Evolves(old(db.orders), db.orders)
  {
    db.UpdateOrder(orderId, OrderPatch(None, Some(status), None));
    UpdateEvolves(old(db.orders), orderId, OrderPatch(None, Some(status), None));
    reply := Message(true, "Status Updated");
  }
}
