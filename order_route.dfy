/**
 * The order router: which guard stands in front of each handler, and the
 * Payrexx webhook that the router defines inline. The webhook marks the
 * referenced order paid and empties its owner's cart when a transaction is
 * confirmed; it checks no signature.
 */
module OrderRoute {
  import opened Wrappers
  import opened JsValues
  import opened Store

  /** The middleware a route runs before its handler. */
  datatype Guard = AdminAuth | AuthUser | NoGuard

  datatype Handler =
    | AllOrders
    | UpdateStatus
    | PlaceOrder
    | PlaceOrderStripe
    | PlaceOrderTwint
    | UserOrders
    | VerifyStripe
    | VerifyTwint
    | PayrexxWebhook

  /** `orderRouter.post(path, guard, handler)`. */
  datatype Route = Route(path: string, guard: Guard, handler: Handler)

  /** The routes in registration order; every one is a POST route. */
  const Routes: seq<Route> := [
    Route("/list", AdminAuth, AllOrders),
    Route("/status", AdminAuth, UpdateStatus),
    Route("/place", AuthUser, PlaceOrder),
    Route("/stripe", AuthUser, PlaceOrderStripe),
    Route("/twint", AuthUser, PlaceOrderTwint),
    Route("/userorders", AuthUser, UserOrders),
    Route("/verifyStripe", AuthUser, VerifyStripe),
    Route("/verifyTwint", AuthUser, VerifyTwint),
    Route("/webhook/payrexx", NoGuard, PayrexxWebhook)
  ]

  /** The admin panel's features. */
  predicate AdminFeature(h: Handler) {
    h == AllOrders || h == UpdateStatus
  }

  /** The route a POST to `path` reaches: the first one registered for it. */
  function Lookup(routes: seq<Route>, path: string): (r: Option<Route>)
    ensures r.Some? ==> r.value.path == path
    ensures r.Some? ==> exists i :: 0 <= i < |routes| && routes[i] == r.value && forall j :: 0 <= j < i ==> routes[j].path != path
    ensures r.None? ==> forall i :: 0 <= i < |routes| ==> routes[i].path != path
  {
    if routes == [] then None
    else if routes[0].path == path then Some(routes[0])
    else Lookup(routes[1..], path)
  }

  /**
   * The guard each handler calls for: `adminAuth` for the admin features,
   * nothing for the payment provider's webhook, `authUser` for the rest.
   */
  function ExpectedGuard(h: Handler): Guard {
    if AdminFeature(h) then AdminAuth
    else if h == PayrexxWebhook then NoGuard
    else AuthUser
  }

  /** Every route puts the guard its handler calls for in front of it. */
  lemma GuardsByFeature(i: nat)
    requires i < |Routes|
    ensures Routes[i].guard == ExpectedGuard(Routes[i].handler)
  {
  }

  /** Every handler is reachable through exactly one path. */
  lemma EachHandlerRoutedOnce(h: Handler)
    ensures exists i :: 0 <= i < |Routes| && Routes[i].handler == h
    ensures forall i, j :: 0 <= i < j < |Routes| ==> Routes[i].handler != Routes[j].handler
  {
    match h
    case AllOrders => assert Routes[0].handler == h;
    case UpdateStatus => assert Routes[1].handler == h;
    case PlaceOrder => assert Routes[2].handler == h;
    case PlaceOrderStripe => assert Routes[3].handler == h;
    case PlaceOrderTwint => assert Routes[4].handler == h;
    case UserOrders => assert Routes[5].handler == h;
    case VerifyStripe => assert Routes[6].handler == h;
    case VerifyTwint => assert Routes[7].handler == h;
    case PayrexxWebhook => assert Routes[8].handler == h;
  }

  /** No two routes share a path, so the route a path reaches is its only one. */
  lemma PathsDistinct()
    ensures forall i, j :: 0 <= i < j < |Routes| ==> Routes[i].path != Routes[j].path
  {
  }

  /** The webhook is the only route without a guard. */
  lemma OnlyWebhookUnguarded(i: nat)
    requires i < |Routes| && Routes[i].guard == NoGuard
    ensures Routes[i].path == "/webhook/payrexx" && Routes[i].handler == PayrexxWebhook
  {
  }

  /** `res.status(status).send(text)`. */
  datatype HttpReply = HttpReply(status: int, text: string)

  const Accepted := HttpReply(200, "OK")
  const Failed := HttpReply(500, "Error")

  /** A webhook delivery: the parsed body and the request headers. */
  datatype WebhookRequest = WebhookRequest(body: Value, headers: seq<(string, string)>)

  /** `const { transaction } = req.body`, which throws on a null or undefined body. */
  function Transaction(body: Value): Option<Value> {
    if body == Undefined || body == Null then None else Some(Prop(body, "transaction"))
  }

  /** `transaction && transaction.status === 'confirmed'`. */
  predicate Confirmed(transaction: Value) {
    Truthy(transaction) && Prop(transaction, "status") == Str("confirmed")
  }

  /**
   * The fields the webhook sets on the referenced order. An update drops
   * keys whose value is `undefined`, so a transaction without an `id`
   * leaves the stored transaction id as it was.
   */
  function PaidPatch(transaction: Value): OrderPatch {
    var txId := Prop(transaction, "id");
    OrderPatch(Some(true), None, if txId == Undefined then None else Some(txId))
  }

  /** The state and reply after a webhook delivery. */
  datatype Outcome = Outcome(orders: map<OrderId, Order>, carts: map<UserId, Cart>, reply: HttpReply)

  /**
   * The webhook handler over the two collections. `modelsImported` says
   * whether `orderModel` and `userModel` are in scope: when they are not,
   * the first store call throws a `ReferenceError`. A truthy `referenceId`
   * that is not a string fails the cast to an order id and throws too.
   */
  function Webhook(orders: map<OrderId, Order>, carts: map<UserId, Cart>, req: WebhookRequest, modelsImported: bool): Outcome {
    match Transaction(req.body)
    case None => Outcome(orders, carts, Failed)
    case Some(transaction) =>
      var orderId := Prop(transaction, "referenceId");
      if !Confirmed(transaction) || !Truthy(orderId) then Outcome(orders, carts, Accepted)
      else if !modelsImported || !orderId.Str? then Outcome(orders, carts, Failed)
      else
        var id := orderId.s;
        var updated := UpdatedOrders(orders, id, PaidPatch(transaction));
        var cleared := if id in updated then ClearedCarts(carts, updated[id].userId) else carts;
        Outcome(updated, cleared, Accepted)
  }

  /**
   * Without a confirmed transaction with a truthy `referenceId` nothing
   * changes and the delivery is acknowledged.
   */
  lemma WebhookIgnoresUnconfirmed(orders: map<OrderId, Order>, carts: map<UserId, Cart>, req: WebhookRequest, modelsImported: bool)
    requires Transaction(req.body).Some?
    requires !Confirmed(Transaction(req.body).value) || !Truthy(Prop(Transaction(req.body).value, "referenceId"))
    ensures Webhook(orders, carts, req, modelsImported) == Outcome(orders, carts, Accepted)
  {
  }

  /**
   * A confirmed transaction marks the referenced order paid and records the
   * transaction id when it has one, changing no other field and no other order, and empties
   * the cart of that order's owner; without such an order nothing changes.
   */
  lemma WebhookPaysReferencedOrder(orders: map<OrderId, Order>, carts: map<UserId, Cart>, req: WebhookRequest, id: OrderId)
    requires Transaction(req.body).Some? && Confirmed(Transaction(req.body).value)
    requires Prop(Transaction(req.body).value, "referenceId") == Str(id) && id != ""
    ensures var out := Webhook(orders, carts, req, true);
            var transaction := Transaction(req.body).value;
            && out.reply == Accepted
            && out.orders.Keys == orders.Keys
            && (forall other :: other in orders && other != id ==> out.orders[other] == orders[other])
            && (id in orders ==>
                  && out.orders[id] == orders[id].(payment := true, payrexxTransactionId :=
                       if Prop(transaction, "id") == Undefined then orders[id].payrexxTransactionId
                       else Some(Prop(transaction, "id")))
                  && out.carts == ClearedCarts(carts, orders[id].userId))
            && (id !in orders ==> out.orders == orders && out.carts == carts)
  {
  }

  /** Delivering the same body again leaves the state as the first delivery left it. */
  lemma WebhookIdempotent(orders: map<OrderId, Order>, carts: map<UserId, Cart>, req: WebhookRequest, modelsImported: bool)
    ensures var once := Webhook(orders, carts, req, modelsImported);
            var twice := Webhook(once.orders, once.carts, req, modelsImported);
            twice == once
  {
    var once := Webhook(orders, carts, req, modelsImported);
    if Transaction(req.body).Some? {
      var transaction := Transaction(req.body).value;
      var orderId := Prop(transaction, "referenceId");
      if Confirmed(transaction) && Truthy(orderId) && modelsImported && orderId.Str? {
        var id := orderId.s;
        var p := PaidPatch(transaction);
        if id in orders {
          PatchedIdempotent(orders[id], p);
          assert once.orders == orders[id := Patched(orders[id], p)];
          assert UpdatedOrders(once.orders, id, p) == once.orders;
          ClearedCartsIdempotent(carts, orders[id].userId);
        }
      }
    }
  }

  /** The reply and the new state depend on the body alone: no header is consulted. */
  lemma WebhookIgnoresHeaders(orders: map<OrderId, Order>, carts: map<UserId, Cart>, body: Value,
                              h1: seq<(string, string)>, h2: seq<(string, string)>, modelsImported: bool)
    ensures Webhook(orders, carts, WebhookRequest(body, h1), modelsImported)
         == Webhook(orders, carts, WebhookRequest(body, h2), modelsImported)
  {
  }

  /** Every delivery keeps each order's contents and keeps paid orders paid. */
  lemma WebhookEvolves(orders: map<OrderId, Order>, carts: map<UserId, Cart>, req: WebhookRequest, modelsImported: bool)
    ensures Evolves(orders, Webhook(orders, carts, req, modelsImported).orders)
  {
    if Transaction(req.body).Some? {
      var transaction := Transaction(req.body).value;
      var orderId := Prop(transaction, "referenceId");
      if orderId.Str? {
        UpdateEvolves(orders, orderId.s, PaidPatch(transaction));
      }
    }
  }

  /**
   * As the router is written, the models are not imported: a confirmed
   * transaction with a truthy `referenceId` answers 500 and writes nothing.
   */
  lemma WebhookAsShipped(orders: map<OrderId, Order>, carts: map<UserId, Cart>, req: WebhookRequest)
    requires Transaction(req.body).Some? && Confirmed(Transaction(req.body).value)
    requires Truthy(Prop(Transaction(req.body).value, "referenceId"))
    ensures Webhook(orders, carts, req, false) == Outcome(orders, carts, Failed)
  {
  }

  /** A concrete delivery the shipped router fails on though the corrected one pays the order. */
  lemma WebhookAsShippedExample(o: Order)
    ensures var tx := Obj([Entry("status", Str("confirmed")), Entry("referenceId", Str("o1")), Entry("id", Num(7))]);
            var req := WebhookRequest(Obj([Entry("transaction", tx)]), []);
            && Webhook(map["o1" := o], map[], req, false).reply == Failed
            && Webhook(map["o1" := o], map[], req, false).orders["o1"].payment == o.payment
            && Webhook(map["o1" := o], map[], req, true).reply == Accepted
            && Webhook(map["o1" := o], map[], req, true).orders["o1"].payment
  {
    var tx := Obj([Entry("status", Str("confirmed")), Entry("referenceId", Str("o1")), Entry("id", Num(7))]);
    var body := [Entry("transaction", tx)];
    assert Props(body) == map["transaction" := tx] by {
      assert body[1..] == [];
    }
    var es := tx.entries;
    assert es[1..][1..][1..] == [];
    assert Props(es) == map["status" := Str("confirmed"), "referenceId" := Str("o1"), "id" := Num(7)];
  }

  /**
   * The webhook handler as it runs: update the referenced order, read it
   * back, and empty its owner's cart when it exists.
   */
  method HandleWebhook(db: Database, req: WebhookRequest, modelsImported: bool) returns (reply: HttpReply)
    modifies db
    ensures Outcome(db.orders, db.carts, reply) == Webhook(old(db.orders), old(db.carts), req, modelsImported)
  {
    var transaction := Transaction(req.body);
    if transaction.None? {
      return Failed;
    }
    var tx := transaction.value;
    if Confirmed(tx) {
      var orderId := Prop(tx, "referenceId");
      if Truthy(orderId) {
        if !modelsImported || !orderId.Str? {
          return Failed;
        }
        db.UpdateOrder(orderId.s, PaidPatch(tx));
        var order := db.FindOrder(orderId.s);
        if order.Some? {
          db.ClearCart(order.value.userId);
        }
      }
    }
    reply := Accepted;
  }
}
