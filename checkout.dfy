/** The checkout sessions of src/checkout/checkout_handler.py. A session is created from the cart
    summary, moves from "created" to "processing" or "error" when the payment is created, and then
    takes whatever status the payment gateway reports; an approved payment clears the cart.
    The gateway's replies, the fresh order id and the clock are inputs. */
module Checkout {
  import opened Wrappers
  import opened Decimals
  import opened CartStore
  import opened Cart

  /** The statuses the gateway reports (src/checkout/payment_gateway.py). */
  datatype PaymentStatus = Pending | Approved | Rejected | Error
  {
    /** The enum's string value, which is what a session stores as its status. */
    function Value(): string
    {
      match this
      case Pending => "pending"
      case Approved => "approved"
      case Rejected => "rejected"
      case Error => "error"
    }
  }

  /** `PaymentStatus(text)`: only the four values are accepted. */
  function ParsePaymentStatus(text: string): (r: Option<PaymentStatus>)
    ensures r.Some? ==> r.value.Value() == text
    ensures r.None? ==> forall st: PaymentStatus :: st.Value() != text
  {
    if text == "pending" then Some(Pending)
    else if text == "approved" then Some(Approved)
    else if text == "rejected" then Some(Rejected)
    else if text == "error" then Some(Error)
    else None
  }

  /** Every status reads back from its own value. */
  lemma ParseStatusValue(st: PaymentStatus)
    ensures ParsePaymentStatus(st.Value()) == Some(st)
  {
  }

  /** What the gateway answers to a payment request: a JSON body, which may lack `payment_id`
      (and may or may not carry `payment_url`), or a failure carrying the exception's text. */
  datatype CreateReply = PaymentCreated(paymentId: Option<string>, paymentUrl: Option<string>)
                       | CreateFailed(message: string)

  /** What the gateway answers to a status query: the body's `status` field (which may be
      missing), or a failure carrying the exception's text. */
  datatype StatusReply = StatusBody(status: Option<string>) | StatusFailed(message: string)

  const Created := "created"
  const Processing := "processing"
  const Errored := "error"

  datatype Session = Session(orderId: string, userId: string, items: seq<ItemDict>, total: string,
                             currency: string, paymentMethod: string, status: string, createdAt: int,
                             paymentId: Option<string>, paymentUrl: Option<string>,
                             error: Option<string>)

  /** The `CheckoutError`s raised, with their messages. */
  datatype CheckoutError =
    | EmptyCart
    | SessionNotFound
    | AlreadyProcessed
    | PaymentFailed(detail: string)
    | PaymentNotStarted
    | StatusCheckFailed(detail: string)
  {
    function Message(): string
    {
      match this
      case EmptyCart => "Carrinho vazio"
      case SessionNotFound => "Sessão de checkout não encontrada"
      case AlreadyProcessed => "Sessão de checkout já processada"
      case PaymentFailed(d) => "Erro ao processar pagamento: " + d
      case PaymentNotStarted => "Pagamento ainda não iniciado"
      case StatusCheckFailed(d) => "Erro ao verificar status do pagamento: " + d
    }
  }

  /** The request sent to the gateway for a session. */
  datatype PaymentRequest = PaymentRequest(amount: Decimal, currency: string, orderId: string,
                                           customerId: string, paymentMethod: string,
                                           description: string)

  /** What `process_payment` returns on success, and what `verify_payment_status` returns. */
  datatype PaymentView = PaymentView(orderId: string, status: string, paymentUrl: Option<string>, total: string)
  datatype StatusView = StatusView(orderId: string, status: PaymentStatus, total: string)

  /** A session as `create_checkout_session` builds it from the cart summary. */
  function NewSession(orderId: string, user: string, summary: Summary, currency: string,
                      paymentMethod: string, now: int): (s: Session)
    ensures s.status == Created && s.items == summary.items && s.total == summary.total
    ensures s.paymentId == None && s.paymentUrl == None && s.error == None
  {
    Session(orderId, user, summary.items, summary.total, currency, paymentMethod, Created, now,
            None, None, None)
  }

  /** What each stored session satisfies: a session still "created" has no payment and no error,
      a session without a payment id is "created" or "error", and its total reads as a decimal. */
  ghost predicate SessionInvariant(s: Session)
  {
    && (s.status == Created <==> s.paymentId.None? && s.error.None?)
    && (s.paymentId.None? ==> s.status in {Created, Errored})
    && Parse(s.total).Some?
  }

  /** The payment request `process_payment` builds; `Decimal(total)` cannot fail on a stored
      session. */
  function RequestFor(s: Session): (r: PaymentRequest)
    requires SessionInvariant(s)
    ensures Value(r.amount) == Value(Parse(s.total).value)
    ensures r.orderId == s.orderId && r.customerId == s.userId
  {
    PaymentRequest(Parse(s.total).value, s.currency, s.orderId, s.userId, s.paymentMethod,
                   "Pedido " + s.orderId)
  }

  /** The gateway is asked for exactly the cart's total at the time the session was created, in
      the session's currency, for the session's order and user. */
  lemma RequestChargesCartTotal(c: CartItems, orderId: string, user: string, currency: string,
                                paymentMethod: string, now: int)
    requires UniqueIds(c)
    ensures var s := NewSession(orderId, user, SummaryOf(c), currency, paymentMethod, now);
            SessionInvariant(s)
            && RequestFor(s) == PaymentRequest(Total(c), currency, orderId, user, paymentMethod,
                                               "Pedido " + orderId)
  {
    ParseToString(Total(c));
  }

  /** The session after `process_payment` got the gateway's reply: "processing" with the payment
      id and url, or "error" with the error text when the gateway failed or sent no payment id. */
  function AfterPayment(s: Session, reply: CreateReply): (r: Session)
    ensures r.status in {Processing, Errored}
    ensures r.status == Processing <==> reply.PaymentCreated? && reply.paymentId.Some?
    ensures reply.CreateFailed? ==> r.status == Errored && r.error == Some(reply.message)
    ensures reply.PaymentCreated? && reply.paymentId.None? ==> r.error == Some("'payment_id'")
    ensures r.status == Processing ==> r.paymentId == reply.paymentId && r.paymentUrl == reply.paymentUrl
    ensures r.status == Errored ==> r.error.Some? && r.paymentId == s.paymentId
    ensures r.(status := s.status, paymentId := s.paymentId, paymentUrl := s.paymentUrl, error := s.error) == s
  {
    match reply
    case PaymentCreated(Some(id), url) => s.(status := Processing, paymentId := Some(id), paymentUrl := url)
    case PaymentCreated(None, _) => s.(status := Errored, error := Some("'payment_id'"))
    case CreateFailed(message) => s.(status := Errored, error := Some(message))
  }

  /** Processing a "created" session leaves it either paid-for and "processing" or in "error"
      without a payment id, and keeps the session invariant. */
  lemma AfterPaymentInvariant(s: Session, reply: CreateReply)
    requires SessionInvariant(s) && s.status == Created
    ensures SessionInvariant(AfterPayment(s, reply))
    ensures AfterPayment(s, reply).paymentId.None? ==> AfterPayment(s, reply).status == Errored
  {
  }

  /** `PaymentStatus(data['status'])` on the gateway's answer to a status poll: a status exactly
      when the body holds one of the four status values, and otherwise the text of the exception
      that `verify_payment_status` wraps. */
  function PolledStatus(reply: StatusReply): (r: Result<PaymentStatus, string>)
    ensures r.Ok? <==> reply.StatusBody? && reply.status.Some?
                       && ParsePaymentStatus(reply.status.value).Some?
    ensures r.Ok? ==> r.value == ParsePaymentStatus(reply.status.value).value
    ensures reply.StatusFailed? ==> r == Err(reply.message)
  {
    match reply
    case StatusFailed(message) => Err(message)
    case StatusBody(None) => Err("'status'")
    case StatusBody(Some(text)) =>
      match ParsePaymentStatus(text)
      case None => Err("'" + text + "' is not a valid PaymentStatus")
      case Some(st) => Ok(st)
  }

  class CheckoutHandler {
    const shoppingCart: ShoppingCart
    var sessions: map<string, Session>

    ghost predicate Valid()
      reads this, shoppingCart, shoppingCart.state
    {
      && shoppingCart.Valid()
      && forall id :: id in sessions ==> sessions[id].orderId == id && SessionInvariant(sessions[id])
    }

    constructor (cart: ShoppingCart)
      requires cart.Valid()
      ensures Valid() && shoppingCart == cart && sessions == map[]
    {
      shoppingCart := cart;
      sessions := map[];
    }

    /** `create_checkout_session`: an empty cart fails and adds no session; otherwise a "created"
        session holding the cart summary's items and total is stored under the fresh order id,
        every other session untouched. Reading the summary creates an empty cart for an unknown
        user. */
    method CreateCheckoutSession(user: string, paymentMethod: string, currency: string,
                                 orderId: string, now: int)
      returns (r: Result<Session, CheckoutError>)
      requires Valid() && orderId !in sessions
      modifies this, shoppingCart.state
      ensures Valid()
      ensures var summary := SummaryOf(old(shoppingCart.state.CartOf(user)));
              && (summary.items == [] ==> r == Err(EmptyCart) && sessions == old(sessions))
              && (summary.items != [] ==>
                    && r == Ok(NewSession(orderId, user, summary, currency, paymentMethod, now))
                    && sessions == old(sessions)[orderId := r.value])
      ensures shoppingCart.state.carts == old(shoppingCart.state.carts)[user := old(shoppingCart.state.CartOf(user))]
      ensures shoppingCart.state.lastModified ==
                if user in old(shoppingCart.state.carts) then old(shoppingCart.state.lastModified)
                else old(shoppingCart.state.lastModified)[user := now]
    {
      var summary := shoppingCart.GetCartSummary(user, now);
      if summary.items == [] {
        return Err(EmptyCart);
      }
      var session := NewSession(orderId, user, summary, currency, paymentMethod, now);
      ParseToString(Total(old(shoppingCart.state.CartOf(user))));
      sessions := sessions[orderId := session];
      r := Ok(session);
    }

    /** `process_payment`: unknown orders and sessions no longer "created" fail untouched;
        otherwise the session records the gateway's answer, and a gateway failure is both stored
        on the session and raised. */
    method ProcessPayment(orderId: string, reply: CreateReply)
      returns (r: Result<PaymentView, CheckoutError>)
      requires Valid()
      modifies this
      ensures Valid()
      ensures orderId !in old(sessions) ==> r == Err(SessionNotFound) && sessions == old(sessions)
      ensures orderId in old(sessions) && old(sessions[orderId].status) != Created ==>
                r == Err(AlreadyProcessed) && sessions == old(sessions)
      ensures orderId in old(sessions) && old(sessions[orderId].status) == Created ==>
                var s := AfterPayment(old(sessions[orderId]), reply);
                && sessions == old(sessions)[orderId := s]
                && (s.status == Processing ==> r == Ok(PaymentView(orderId, Processing, s.paymentUrl, s.total)))
                && (s.status == Errored ==> r == Err(PaymentFailed(s.error.value)))
    {
      if orderId !in sessions {
        return Err(SessionNotFound);
      }
      var session := sessions[orderId];
      if session.status != Created {
        return Err(AlreadyProcessed);
      }
      // The request sent to the gateway; `RequestChargesCartTotal` states what it holds. The
      // gateway's answer to it is the `reply` parameter.
      var request := RequestFor(session);
      match reply {
        case PaymentCreated(Some(id), url) =>
          session := session.(status := Processing, paymentId := Some(id), paymentUrl := url);
          r := Ok(PaymentView(session.orderId, session.status, session.paymentUrl, session.total));
        case PaymentCreated(None, _) =>
          session := session.(status := Errored, error := Some("'payment_id'"));
          r := Err(PaymentFailed("'payment_id'"));
        case CreateFailed(message) =>
          session := session.(status := Errored, error := Some(message));
          r := Err(PaymentFailed(message));
      }
      sessions := sessions[orderId := session];
    }

    /** `verify_payment_status`: unknown orders and sessions without a payment id fail; a failed
        or unreadable poll fails leaving everything unchanged; otherwise the session takes the
        polled status, and an approved payment also clears the session user's cart. */
    method VerifyPaymentStatus(orderId: string, reply: StatusReply)
      returns (r: Result<StatusView, CheckoutError>)
      requires Valid()
      modifies this, shoppingCart.state
      ensures Valid()
      ensures orderId !in old(sessions) ==> r == Err(SessionNotFound)
      ensures orderId in old(sessions) && old(sessions[orderId].paymentId).None? ==>
                r == Err(PaymentNotStarted)
      ensures r.Err? ==> sessions == old(sessions)
                         && shoppingCart.state.carts == old(shoppingCart.state.carts)
                         && shoppingCart.state.lastModified == old(shoppingCart.state.lastModified)
      ensures r.Ok? <==> orderId in old(sessions) && old(sessions[orderId].paymentId).Some?
                         && PolledStatus(reply).Ok?
      ensures orderId in old(sessions) && old(sessions[orderId].paymentId).Some? && PolledStatus(reply).Err? ==>
                r == Err(StatusCheckFailed(PolledStatus(reply).error))
      ensures r.Ok? ==>
                var s := old(sessions[orderId]);
                var st := PolledStatus(reply).value;
                && r.value == StatusView(orderId, st, s.total)
                && sessions == old(sessions)[orderId := s.(status := st.Value())]
                && (st == Approved ==>
                      && shoppingCart.state.carts == old(shoppingCart.state.carts) - {s.userId}
                      && shoppingCart.state.lastModified == old(shoppingCart.state.lastModified) - {s.userId})
                && (st != Approved ==>
                      && shoppingCart.state.carts == old(shoppingCart.state.carts)
                      && shoppingCart.state.lastModified == old(shoppingCart.state.lastModified))
    {
      if orderId !in sessions {
        return Err(SessionNotFound);
      }
      var session := sessions[orderId];
      if session.paymentId.None? {
        return Err(PaymentNotStarted);
      }
      var polled := PolledStatus(reply);
      if polled.Err? {
        return Err(StatusCheckFailed(polled.error));
      }
      var status := polled.value;
      if status == Approved {
        var _ := shoppingCart.ClearCart(session.userId);
      }
      sessions := sessions[orderId := session.(status := status.Value())];
      r := Ok(StatusView(session.orderId, status, session.total));
    }
  }

  /** A session's payment is created at most once: the second `process_payment` on a known order
      always fails as already processed, whatever the gateway answered the first time. */
  method ProcessTwice(h: CheckoutHandler, orderId: string, first: CreateReply, second: CreateReply)
    returns (r1: Result<PaymentView, CheckoutError>, r2: Result<PaymentView, CheckoutError>)
    requires h.Valid() && orderId in h.sessions
    modifies h
    ensures r2 == Err(AlreadyProcessed)
  {
    r1 := h.ProcessPayment(orderId, first);
    r2 := h.ProcessPayment(orderId, second);
  }

  /** A session whose payment could not be created is left without a payment id, so its status
      can never be checked. */
  method FailedPaymentNotVerifiable(h: CheckoutHandler, orderId: string, reply: CreateReply, poll: StatusReply)
    returns (r1: Result<PaymentView, CheckoutError>, r2: Result<StatusView, CheckoutError>)
    requires h.Valid() && orderId in h.sessions && h.sessions[orderId].status == Created
    requires reply.CreateFailed? || reply.paymentId.None?
    modifies h, h.shoppingCart.state
    ensures r1.Err? && r2 == Err(PaymentNotStarted)
  {
    r1 := h.ProcessPayment(orderId, reply);
    r2 := h.VerifyPaymentStatus(orderId, poll);
  }

  /** The first half of a purchase: one unit of a catalog product is added to the user's cart and
      a checkout session is opened for it, stored as "created" under the new order id. */
  method OpenSession(h: CheckoutHandler, user: string, productId: string,
                     catalog: string -> Option<Product>, orderId: string, now: int)
    returns (created: Result<Session, CheckoutError>)
    requires h.Valid() && catalog(productId).Some? && orderId !in h.sessions
    modifies h, h.shoppingCart.state
    ensures h.Valid() && created.Ok?
    ensures orderId in h.sessions && h.sessions[orderId] == created.value
    ensures created.value.status == Created && created.value.userId == user
    ensures created.value.paymentId.None?
  {
    ghost var before := h.shoppingCart.state.CartOf(user);
    var p := catalog(productId).value;
    ghost var item := CartItem(productId, p.name, p.price, 1, p.imageUrl);
    var added := h.shoppingCart.AddToCart(user, productId, 1, catalog, now);
    ghost var cart := h.shoppingCart.state.CartOf(user);
    assert cart == Added(before, item);
    AddedNotEmpty(before, item);
    created := h.CreateCheckoutSession(user, "credit_card", "BRL", orderId, now);
  }

  /** The complete purchase: a session is opened for one unit of a catalog product, the gateway
      creates the payment and later reports it approved; the order ends "approved" with its
      payment id, and the user's cart is gone. */
  method CheckoutFlow(h: CheckoutHandler, user: string, productId: string,
                      catalog: string -> Option<Product>, orderId: string, paymentId: string,
                      paymentUrl: Option<string>, now: int)
    returns (result: Result<StatusView, CheckoutError>)
    requires h.Valid() && catalog(productId).Some? && orderId !in h.sessions
    modifies h, h.shoppingCart.state
    ensures result.Ok? && result.value.orderId == orderId && result.value.status == Approved
    ensures orderId in h.sessions && h.sessions[orderId].status == "approved"
    ensures h.sessions[orderId].paymentId == Some(paymentId)
    ensures user !in h.shoppingCart.state.carts
  {
    var created := OpenSession(h, user, productId, catalog, orderId, now);
    var paid := h.ProcessPayment(orderId, PaymentCreated(Some(paymentId), paymentUrl));
    assert h.sessions[orderId].paymentId == Some(paymentId);
    assert ParsePaymentStatus("approved") == Some(Approved);
    result := h.VerifyPaymentStatus(orderId, StatusBody(Some("approved")));
  }
}
