/**
 * The two collections the order handlers work on: orders by id, and each
 * user's `cartData` by user id. The operations are the Mongoose calls the
 * handlers make, with the document semantics they rely on: `save` inserts a
 * new document and fails on an id already taken, `findByIdAndUpdate` and
 * `findByIdAndDelete` do nothing when no document has the id, and `find`
 * returns the documents matching a filter.
 */
module Store {
  import opened Wrappers
  import opened JsValues

  type OrderId = string
  type UserId = string

  /** One cart line of an order; only the fields the handlers read are kept. */
  datatype Item = Item(name: string, price: int, quantity: int)

  datatype PaymentMethod = COD | Stripe | Twint

  /**
   * An order document. `status` is `None` while it holds the schema's
   * default; `payrexxTransactionId` is `None` until the webhook sets it.
   */
  datatype Order = Order(
    userId: UserId,
    items: seq<Item>,
    address: Value,
    amount: int,
    paymentMethod: PaymentMethod,
    payment: bool,
    date: int,
    status: Option<string>,
    payrexxTransactionId: Option<Value>)

  /** A user's `cartData` object. */
  type Cart = seq<Entry>

  /** `{}`. */
  const EmptyCart: Cart := []

  /** The fields a `findByIdAndUpdate` call on an order sets; `None` leaves a field alone. */
  datatype OrderPatch = OrderPatch(
    payment: Option<bool>,
    status: Option<string>,
    payrexxTransactionId: Option<Value>)

  /** The order after the fields named by `p` are overwritten. */
  function Patched(o: Order, p: OrderPatch): (r: Order)
    ensures r.userId == o.userId && r.items == o.items && r.address == o.address
    ensures r.amount == o.amount && r.paymentMethod == o.paymentMethod && r.date == o.date
    ensures p.payment.None? ==> r.payment == o.payment
    ensures p.status.None? ==> r.status == o.status
    ensures p.payrexxTransactionId.None? ==> r.payrexxTransactionId == o.payrexxTransactionId
    ensures p.payment.Some? ==> r.payment == p.payment.value
    ensures p.status.Some? ==> r.status == p.status
    ensures p.payrexxTransactionId.Some? ==> r.payrexxTransactionId == p.payrexxTransactionId
  {
    o.(payment := if p.payment.Some? then p.payment.value else o.payment,
       status := if p.status.Some? then p.status else o.status,
       payrexxTransactionId := if p.payrexxTransactionId.Some? then p.payrexxTransactionId else o.payrexxTransactionId)
  }

  /** Applying the same patch twice is applying it once. */
  lemma PatchedIdempotent(o: Order, p: OrderPatch)
    ensures Patched(Patched(o, p), p) == Patched(o, p)
  {
  }

  /** The orders after `findByIdAndUpdate(id, p)`. */
  function UpdatedOrders(orders: map<OrderId, Order>, id: OrderId, p: OrderPatch): (r: map<OrderId, Order>)
    ensures r.Keys == orders.Keys
    ensures forall other :: other in orders && other != id ==> r[other] == orders[other]
    ensures id in orders ==> r[id] == Patched(orders[id], p)
  {
    if id in orders then orders[id := Patched(orders[id], p)] else orders
  }

  /** The carts after `userModel.findByIdAndUpdate(user, { cartData: {} })`. */
  function ClearedCarts(carts: map<UserId, Cart>, user: UserId): (r: map<UserId, Cart>)
    ensures r.Keys == carts.Keys
    ensures user in carts ==> r[user] == EmptyCart
    ensures forall other :: other in carts && other != user ==> r[other] == carts[other]
  {
    if user in carts then carts[user := EmptyCart] else carts
  }

  /** Clearing a cart twice is clearing it once. */
  lemma ClearedCartsIdempotent(carts: map<UserId, Cart>, user: UserId)
    ensures ClearedCarts(ClearedCarts(carts, user), user) == ClearedCarts(carts, user)
  {
  }

  /** The orders a `find` filter selects: all of them, or those of one user. */
  predicate Selected(o: Order, user: Option<UserId>) {
    user.None? || o.userId == user.value
  }

  /**
   * How the order collection may change under the handlers: an order keeps
   * its owner, items, address, amount, method and date, and once paid it
   * stays paid for as long as it exists.
   */
  predicate Evolves(before: map<OrderId, Order>, after: map<OrderId, Order>) {
    forall id :: id in before && id in after ==>
      && after[id].userId == before[id].userId
      && after[id].items == before[id].items
      && after[id].address == before[id].address
      && after[id].amount == before[id].amount
      && after[id].paymentMethod == before[id].paymentMethod
      && after[id].date == before[id].date
      && (before[id].payment ==> after[id].payment)
  }

  /** Any chain of allowed changes is an allowed change. */
  lemma EvolvesTransitive(a: map<OrderId, Order>, b: map<OrderId, Order>, c: map<OrderId, Order>)
    requires Evolves(a, b) && Evolves(b, c)
    requires forall id :: id in a && id in c ==> id in b
    ensures Evolves(a, c)
  {
  }

  /** A patch that does not set `payment` to false keeps a paid order paid. */
  lemma UpdateEvolves(orders: map<OrderId, Order>, id: OrderId, p: OrderPatch)
    requires p.payment != Some(false)
    ensures Evolves(orders, UpdatedOrders(orders, id, p))
  {
  }

  class Database {
    var orders: map<OrderId, Order>
    var carts: map<UserId, Cart>

    constructor(orders: map<OrderId, Order>, carts: map<UserId, Cart>)
      ensures this.orders == orders && this.carts == carts
    {
      this.orders := orders;
      this.carts := carts;
    }

    /** `new orderModel(o).save()` under the id `id`; a taken id is a duplicate-key error. */
    method Save(id: OrderId, o: Order) returns (ok: bool)
      modifies this
      ensures ok <==> id !in old(orders)
      ensures orders == if ok then old(orders)[id := o] else old(orders)
      ensures carts == old(carts)
    {
      ok := id !in orders;
      if ok {
        orders := orders[id := o];
      }
    }

    /** `orderModel.findByIdAndUpdate(id, p)`. */
    method UpdateOrder(id: OrderId, p: OrderPatch)
      modifies this
      ensures orders == UpdatedOrders(old(orders), id, p)
      ensures carts == old(carts)
    {
      if id in orders {
        orders := orders[id := Patched(orders[id], p)];
      }
    }

    /** `orderModel.findByIdAndDelete(id)`. */
    method DeleteOrder(id: OrderId)
      modifies this
      ensures orders == old(orders) - {id}
      ensures carts == old(carts)
    {
      orders := orders - {id};
    }

    /** `orderModel.findById(id)`. */
    method FindOrder(id: OrderId) returns (r: Option<Order>)
      ensures r.Some? <==> id in orders
      ensures r.Some? ==> r.value == orders[id]
    {
      if id in orders {
        r := Some(orders[id]);
      } else {
        r := None;
      }
    }

    /** `orderModel.find({})` when `user` is `None`, `orderModel.find({ userId })` otherwise. */
    method FindOrders(user: Option<UserId>) returns (r: map<OrderId, Order>)
      ensures forall id :: id in r <==> id in orders && Selected(orders[id], user)
      ensures forall id :: id in r ==> r[id] == orders[id]
    {
      r := map id | id in orders && Selected(orders[id], user) :: orders[id];
    }

    /** `userModel.findByIdAndUpdate(user, { cartData: {} })`. */
    method ClearCart(user: UserId)
      modifies this
      ensures carts == ClearedCarts(old(carts), user)
      ensures orders == old(orders)
    {
      if user in carts {
        carts := carts[user := EmptyCart];
      }
    }
  }
}
