/** The order form for one card (`Orders`): the request it builds, when it
    may be submitted, how inputs change it, what a submit sends, and when
    the bank-transfer QR code is fetched. Dates are integers (the clock and
    the date parser are parameters); `Number(...)` is a parameter too. */
module OrderForm {
  import opened Common

  const NewCard: string := "NEW_CARD"
  const Pending: string := "PENDING"
  const Cash: string := "CASH"
  const Paid: string := "PAID"
  const BankTransfer: string := "BANK_TRANSFER"
  const OrdersPath: string := "/orders"
  const LoginPage: string := "/login"
  const QrBase: string := "/orders/qr/image/"

  /** The card being ordered; `price` is `None` when it is `null` or missing. */
  datatype Card = Card(cardId: int, price: Option<int>)

  datatype PaymentRequest = PaymentRequest(payMethod: string, status: string, payDate: int)

  /** `OrdersRequest`; `totalAmount` is `None` for `NaN`. */
  datatype OrdersRequest = OrdersRequest(orderType: string, totalAmount: Option<int>, status: string,
                                         address: string, ordersDate: int, cardId: int,
                                         paymentRequest: PaymentRequest)

  /** The state the form starts in, at time `now`: a new card at the card's
      price (0 without one), pending, no address, paid in cash. */
  function Initial(card: Card, now: int): (o: OrdersRequest)
    ensures o.orderType == NewCard && o.status == Pending && o.address == "" && o.cardId == card.cardId
    ensures o.totalAmount == Some(if card.price.Some? then card.price.value else 0)
    ensures o.paymentRequest == PaymentRequest(Cash, Paid, now) && o.ordersDate == now
  {
    OrdersRequest(NewCard, Some(if card.price.Some? then card.price.value else 0), Pending, "", now,
                  card.cardId, PaymentRequest(Cash, Paid, now))
  }

  /** `isSubmitted`: a non-blank address, a payment method and an order type. */
  predicate Ready(o: OrdersRequest) {
    Trim(o.address) != "" && o.paymentRequest.payMethod != "" && o.orderType != ""
  }

  /** A fresh form is not ready, and it becomes ready as soon as the address
      is not blank. */
  lemma InitialNeedsOnlyAnAddress(card: Card, now: int, address: string)
    ensures !Ready(Initial(card, now))
    ensures Ready(Initial(card, now).(address := address)) <==> !AllWhitespace(address)
  {
    TrimEmptyIffBlank(address);
  }

  /** `handlePaymentMethod(method)`: only the payment method changes. */
  function WithPaymentMethod(o: OrdersRequest, choice: string): (r: OrdersRequest)
    ensures r.paymentRequest.payMethod == choice
    ensures r.paymentRequest.status == o.paymentRequest.status && r.paymentRequest.payDate == o.paymentRequest.payDate
    ensures r.(paymentRequest := o.paymentRequest) == o
  {
    o.(paymentRequest := o.paymentRequest.(payMethod := choice))
  }

  /** `handleChange` for an input named `name`: the payment method, the
      order date (through the date parser), the amount (through `Number`),
      or the string field of that name; any other name adds a key that is
      not part of the request. */
  function Changed(o: OrdersRequest, name: string, value: string,
                   toNumber: string -> Option<int>, toDate: string -> int): OrdersRequest {
    if name == "paymentMethod" then WithPaymentMethod(o, value)
    else if name == "ordersDate" then o.(ordersDate := toDate(value))
    else if name == "totalAmount" then o.(totalAmount := toNumber(value))
    else if name == "orderType" then o.(orderType := value)
    else if name == "status" then o.(status := value)
    else if name == "address" then o.(address := value)
    else o
  }

  /** Every input changes at most its own field: the amount only through
      `Number`, the others verbatim, the rest of the request as it was. */
  lemma ChangedTouchesOneField(o: OrdersRequest, name: string, value: string,
                               toNumber: string -> Option<int>, toDate: string -> int)
    ensures var r := Changed(o, name, value, toNumber, toDate);
      && (name == "address" ==> r == o.(address := value))
      && (name == "orderType" ==> r == o.(orderType := value))
      && (name == "totalAmount" ==> r == o.(totalAmount := toNumber(value)))
      && (name == "paymentMethod" ==> r == WithPaymentMethod(o, value))
      && (r.cardId == o.cardId && r.paymentRequest.status == o.paymentRequest.status)
      && (name != "address" ==> r.address == o.address)
  {
  }

  /** Choosing either payment method keeps a ready form ready. */
  lemma PaymentChoiceKeepsReadiness(o: OrdersRequest, choice: string)
    requires choice == Cash || choice == BankTransfer
    ensures Ready(WithPaymentMethod(o, choice)) <==> Ready(o.(paymentRequest := o.paymentRequest.(payMethod := Cash)))
  {
  }

  /** The QR image is wanted once there is a (truthy) order id and the
      payment is a bank transfer. */
  predicate WantsQr(orderId: Option<int>, o: OrdersRequest) {
    orderId.Some? && orderId.value != 0 && o.paymentRequest.payMethod == BankTransfer
  }

  /** `responseData.result`: the created order, whose id may be missing. */
  datatype Created = Created(orderId: Option<int>)

  /** The reply to the order request: a failure, or a body whose `result`
      may be missing (reading it then throws). */
  datatype SubmitReply = SubmitFailed | SubmitOk(result: Option<Created>)

  datatype FormState = FormState(orders: OrdersRequest, orderId: Option<int>, navigations: seq<string>,
                                 posts: seq<OrdersRequest>, qrRequests: seq<string>)

  class OrderPage {
    var orders: OrdersRequest
    var orderId: Option<int>
    /** Pages navigated to. */
    var navigations: seq<string>
    /** Order requests posted. */
    var posts: seq<OrdersRequest>
    /** QR images requested. */
    var qrRequests: seq<string>

    function State(): FormState
      reads this
    {
      FormState(orders, orderId, navigations, posts, qrRequests)
    }

    constructor (card: Card, now: int)
      ensures State() == FormState(Initial(card, now), None, [], [], [])
    {
      orders := Initial(card, now);
      orderId := None;
      navigations, posts, qrRequests := [], [], [];
    }

    method Change(name: string, value: string, toNumber: string -> Option<int>, toDate: string -> int)
      modifies this
      ensures State() == old(State()).(orders := Changed(old(orders), name, value, toNumber, toDate))
    {
      orders := Changed(orders, name, value, toNumber, toDate);
    }

    method ChoosePayment(choice: string)
      modifies this
      ensures State() == old(State()).(orders := WithPaymentMethod(old(orders), choice))
    {
      orders := WithPaymentMethod(orders, choice);
    }

    /** `handleSubmit`: navigates to the login page when logged out but does
      not stop, so the order is posted either way. An OK reply with a
      `result` records its order id; when that id changes and the QR
      condition holds, the effect on `[orderId]` requests the QR image. */
    method HandleSubmit(isLogin: bool, reply: SubmitReply)
      modifies this
      ensures orders == old(orders)
      ensures navigations == old(navigations) + (if isLogin then [] else [LoginPage])
      ensures posts == old(posts) + [old(orders)]
      ensures orderId == (if reply.SubmitOk? && reply.result.Some? then reply.result.value.orderId else old(orderId))
      ensures qrRequests == old(qrRequests) +
        (if orderId != old(orderId) && WantsQr(orderId, orders) then [QrBase + IntToString(orderId.value)] else [])
    {
      if !isLogin {
        navigations := navigations + [LoginPage];
      }
      posts := posts + [orders];
      if reply.SubmitOk? && reply.result.Some? {
        var newOrderId := reply.result.value.orderId;
        var changed := newOrderId != orderId;
        orderId := newOrderId;
        if changed && WantsQr(orderId, orders) {
          qrRequests := qrRequests + [QrBase + IntToString(orderId.value)];
        }
      }
    }

    /** The submit button, disabled unless the form is ready. */
    method Submit(isLogin: bool, reply: SubmitReply)
      modifies this
      ensures !Ready(old(orders)) ==> State() == old(State())
      ensures Ready(old(orders)) ==> posts == old(posts) + [old(orders)]
      ensures Ready(old(orders)) ==> navigations == old(navigations) + (if isLogin then [] else [LoginPage])
      ensures Ready(old(orders)) ==> orders == old(orders)
      ensures Ready(old(orders)) ==>
        (orderId == if reply.SubmitOk? && reply.result.Some? then reply.result.value.orderId else old(orderId))
      ensures Ready(old(orders)) ==>
        (qrRequests == old(qrRequests) +
           if orderId != old(orderId) && WantsQr(orderId, orders) then [QrBase + IntToString(orderId.value)] else [])
    {
      if Ready(orders) {
        HandleSubmit(isLogin, reply);
      }
    }
  }

  /** Submitting while logged out still posts the order. */
  method LoggedOutSubmitStillPosts(p: OrderPage, reply: SubmitReply)
    requires Ready(p.orders)
    modifies p
    ensures p.posts == old(p.posts) + [old(p.orders)]
    ensures p.navigations == old(p.navigations) + [LoginPage]
  {
    p.Submit(false, reply);
  }
}
