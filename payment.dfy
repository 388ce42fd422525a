/** The payment page (src/pages/PaymentPage.jsx): a guard on the navigation
    state, the choice of payment method, cash on delivery (the order is posted
    as Pending) and online payment through a gateway (create a gateway order,
    let the customer pay, verify the signed reply, then post the order as
    Paid). The network and the gateway are parameters: each call's outcome is
    given, and the method returns what the page did, in order. */
module Payment {
  import opened Wrappers
  import opened CartEngine
  import opened Checkout

  const OnlineMethod := "Online"

  datatype PaymentInfo = PaymentInfo(
    paymentMethod: string, status: string, transactionId: Option<string>, paymentDate: Option<int>)

  /** `orderData`, the body of `POST /api/orders`. */
  datatype OrderData = OrderData(
    items: seq<Item>, totalAmount: int, customer: Form, payment: PaymentInfo)

  /** The navigation state the page is opened with (absent parts are None). */
  datatype Arrival = Arrival(customer: Option<Form>, items: Option<seq<Item>>, totalAmount: int)

  /** The gateway order returned by `POST /api/payment/create-order`. */
  datatype GatewayOrder = GatewayOrder(id: string, amount: int, currency: string)

  /** The gateway's signed confirmation handed to the payment handler. */
  datatype GatewayReply = GatewayReply(orderId: string, paymentId: string, signature: string)

  datatype Call =
    | CreateGatewayOrder(amount: int)
    | VerifyPayment(reply: GatewayReply)
    | PostOrder(order: OrderData)

  datatype Notice =
    | SelectMethod | OrderPlaced | OrderFailed
    | PaymentSuccessful | VerificationFailed | CouldNotInitiate

  datatype Route = ToCheckout | ToOrderSuccess(order: OrderData)

  /** One observable step of the page, in the order it happens. */
  datatype Effect =
    | Request(call: Call, ok: bool)
    | OpenGateway(order: GatewayOrder)
    | Toast(notice: Notice)
    | Navigate(route: Route)

  /** The outcomes of the collaborators: the created gateway order (None: the
      call failed), the gateway's reply (None: the customer closed the widget
      and the handler never runs), verification, the order POST, and the clock. */
  datatype Network = Network(
    createOrder: Option<GatewayOrder>, reply: Option<GatewayReply>,
    verifyOk: bool, orderOk: bool, now: int)

  /** The order posted by the cash-on-delivery path. */
  function DeferredOrder(customer: Form, items: seq<Item>, total: int, paymentMethod: string): (o: OrderData)
    ensures o.items == items && o.totalAmount == total && o.customer == customer
    ensures o.payment.paymentMethod == paymentMethod && o.payment.status == "Pending"
    ensures o.payment.transactionId.None? && o.payment.paymentDate.None?
  {
    OrderData(items, total, customer, PaymentInfo(paymentMethod, "Pending", None, None))
  }

  /** The order posted once a gateway payment is verified. */
  function PaidOrder(customer: Form, items: seq<Item>, total: int, reply: GatewayReply, now: int): (o: OrderData)
    ensures o.items == items && o.totalAmount == total && o.customer == customer
    ensures o.payment.paymentMethod == OnlineMethod && o.payment.status == "Paid"
    ensures o.payment.transactionId == Some(reply.paymentId) && o.payment.paymentDate == Some(now)
  {
    OrderData(items, total, customer, PaymentInfo(OnlineMethod, "Paid", Some(reply.paymentId), Some(now)))
  }

  // ---------------------------------------------------------------------
  // Properties of a run of the page

  predicate IsPost(e: Effect) {
    e.Request? && e.call.PostOrder?
  }

  /** The number of order POSTs in a run. */
  function Posts(effects: seq<Effect>): nat {
    if effects == [] then 0
    else (if IsPost(effects[0]) then 1 else 0) + Posts(effects[1..])
  }

  /** Every navigation to the success page comes after a successful POST of the same order. */
  predicate SuccessOnlyAfterPost(effects: seq<Effect>) {
    forall i :: 0 <= i < |effects| && effects[i].Navigate? && effects[i].route.ToOrderSuccess? ==>
      exists j :: 0 <= j < i && effects[j] == Request(PostOrder(effects[i].route.order), true)
  }

  /** Every order posted as Paid comes after a successful verification of that payment. */
  predicate PaidOnlyAfterVerified(effects: seq<Effect>) {
    forall i :: 0 <= i < |effects| && IsPost(effects[i]) && effects[i].call.order.payment.status == "Paid" ==>
      exists j :: 0 <= j < i && effects[j].Request? && effects[j].ok && effects[j].call.VerifyPayment? &&
        effects[i].call.order.payment.transactionId == Some(effects[j].call.reply.paymentId)
  }

  /** A run with no order POST counts none. */
  lemma {:induction false} PostsNone(effects: seq<Effect>)
    requires forall i :: 0 <= i < |effects| ==> !IsPost(effects[i])
    ensures Posts(effects) == 0
  {
    if effects != [] {
      PostsNone(effects[1..]);
    }
  }

  /** A run whose only order POST is at index k counts one. */
  lemma {:induction false} PostsOne(effects: seq<Effect>, k: nat)
    requires k < |effects| && IsPost(effects[k])
    requires forall i :: 0 <= i < |effects| && i != k ==> !IsPost(effects[i])
    ensures Posts(effects) == 1
  {
    if k == 0 {
      PostsNone(effects[1..]);
    } else {
      PostsOne(effects[1..], k - 1);
    }
  }

  // ---------------------------------------------------------------------
  // The handlers

  /** `handleOnlinePayment` together with the gateway's payment handler. */
  method HandleOnlinePayment(customer: Form, items: seq<Item>, total: int, net: Network)
    returns (effects: seq<Effect>)
    ensures |effects| >= 1 && effects[0] == Request(CreateGatewayOrder(total), net.createOrder.Some?)
    ensures Posts(effects) == (if net.createOrder.Some? && net.reply.Some? && net.verifyOk then 1 else 0)
    ensures forall i :: 0 <= i < |effects| && IsPost(effects[i]) ==>
              net.reply.Some? && effects[i].call.order == PaidOrder(customer, items, total, net.reply.value, net.now)
    ensures net.createOrder.None? ==> effects == [effects[0], Toast(CouldNotInitiate)]
    ensures net.createOrder.Some? && net.reply.Some? && !net.verifyOk ==>
              effects[|effects| - 1] == Toast(VerificationFailed)
    ensures SuccessOnlyAfterPost(effects) && PaidOnlyAfterVerified(effects)
    ensures (exists i :: 0 <= i < |effects| && effects[i].Navigate?) <==>
              net.createOrder.Some? && net.reply.Some? && net.verifyOk && net.orderOk
  {
    var create := Request(CreateGatewayOrder(total), net.createOrder.Some?);
    if net.createOrder.None? {
      effects := [create, Toast(CouldNotInitiate)];
      PostsNone(effects);
      return;
    }
    var open := OpenGateway(net.createOrder.value);
    if net.reply.None? {
      effects := [create, open];
      PostsNone(effects);
      return;
    }
    var reply := net.reply.value;
    var verify := Request(VerifyPayment(reply), net.verifyOk);
    if !net.verifyOk {
      effects := [create, open, verify, Toast(VerificationFailed)];
      PostsNone(effects);
      return;
    }
    var order := PaidOrder(customer, items, total, reply, net.now);
    var post := Request(PostOrder(order), net.orderOk);
    if !net.orderOk {
      effects := [create, open, verify, post, Toast(VerificationFailed)];
      assert effects[2] == verify;
      PostsOne(effects, 3);
      return;
    }
    effects := [create, open, verify, post, Toast(PaymentSuccessful), Navigate(ToOrderSuccess(order))];
    assert effects[2] == verify;
    assert effects[3] == Request(PostOrder(order), true);
    assert effects[5].Navigate?;
    PostsOne(effects, 3);
  }

  /** `handleConfirmPayment`: no method is refused, Online goes to the
      gateway path and returns, any other method posts a Pending order. */
  method HandleConfirmPayment(customer: Form, items: seq<Item>, total: int, paymentMethod: string, net: Network)
    returns (effects: seq<Effect>)
    ensures paymentMethod == "" ==> effects == [Toast(SelectMethod)]
    ensures paymentMethod != "" && paymentMethod != OnlineMethod ==>
              var order := DeferredOrder(customer, items, total, paymentMethod);
              Posts(effects) == 1 &&
              (net.orderOk ==>
                 effects == [Request(PostOrder(order), true), Toast(OrderPlaced), Navigate(ToOrderSuccess(order))]) &&
              (!net.orderOk ==> effects == [Request(PostOrder(order), false), Toast(OrderFailed)])
    ensures paymentMethod == OnlineMethod ==>
              |effects| >= 1 && effects[0] == Request(CreateGatewayOrder(total), net.createOrder.Some?) &&
              Posts(effects) == (if net.createOrder.Some? && net.reply.Some? && net.verifyOk then 1 else 0) &&
              (forall i :: 0 <= i < |effects| && IsPost(effects[i]) ==>
                 net.reply.Some? && effects[i].call.order == PaidOrder(customer, items, total, net.reply.value, net.now)) &&
              ((exists i :: 0 <= i < |effects| && effects[i].Navigate?) <==>
                 net.createOrder.Some? && net.reply.Some? && net.verifyOk && net.orderOk)
    ensures Posts(effects) <= 1
    ensures SuccessOnlyAfterPost(effects) && PaidOnlyAfterVerified(effects)
  {
    if paymentMethod == "" {
      effects := [Toast(SelectMethod)];
      PostsNone(effects);
      return;
    }
    if paymentMethod == OnlineMethod {
      effects := HandleOnlinePayment(customer, items, total, net);
      return;
    }
    var order := DeferredOrder(customer, items, total, paymentMethod);
    var post := Request(PostOrder(order), net.orderOk);
    if net.orderOk {
      effects := [post, Toast(OrderPlaced), Navigate(ToOrderSuccess(order))];
      assert effects[0] == Request(PostOrder(order), true);
    } else {
      effects := [post, Toast(OrderFailed)];
    }
    PostsOne(effects, 0);
  }

  /** The whole page: without a customer or items it redirects to the
      checkout and places nothing; otherwise the confirm button runs. */
  method PaymentPage(arrival: Arrival, paymentMethod: string, net: Network) returns (effects: seq<Effect>)
    ensures arrival.customer.None? || arrival.items.None? ==> effects == [Navigate(ToCheckout)]
    ensures arrival.customer.Some? && arrival.items.Some? && paymentMethod != "" && paymentMethod != OnlineMethod ==>
              |effects| >= 1 &&
              effects[0] == Request(PostOrder(DeferredOrder(arrival.customer.value, arrival.items.value,
                                                            arrival.totalAmount, paymentMethod)), net.orderOk)
    ensures Posts(effects) <= 1
    ensures SuccessOnlyAfterPost(effects) && PaidOnlyAfterVerified(effects)
  {
    if arrival.customer.None? || arrival.items.None? {
      effects := [Navigate(ToCheckout)];
      PostsNone(effects);
      return;
    }
    effects := HandleConfirmPayment(arrival.customer.value, arrival.items.value, arrival.totalAmount, paymentMethod, net);
  }
}
