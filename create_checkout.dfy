/** The checkout edge function: it dispatches on `action` to create a Stripe
    checkout session or a billing-portal session. The request body and Stripe's
    answers are inputs; what the function asks Stripe for is part of the outcome. */
module CreateCheckout {
  import opened Common

  /** The fields of the JSON body the function reads; a missing field is `None`. */
  datatype Body = Body(
    action: Option<string>, priceId: Option<string>, userId: Option<string>,
    returnUrl: Option<string>, customerId: Option<string>)

  datatype LineItem = LineItem(price: string, quantity: int)

  /** The checkout session parameters sent to Stripe. */
  datatype CheckoutParams = CheckoutParams(
    paymentMethodTypes: seq<string>, lineItems: seq<LineItem>, mode: string,
    successUrl: string, cancelUrl: string, customerEmail: Option<string>, metadataUserId: string)

  /** The single Stripe call a request leads to, if any. */
  datatype StripeCall = NoCall | CheckoutCall(params: CheckoutParams) | PortalCall(customer: string, returnUrl: string)

  /** A Stripe session as returned: its id and its url. */
  datatype Session = Session(id: string, url: string)

  datatype ResponseBody = SessionBody(sessionId: string, url: string) | PortalBody(url: string)

  /** The response: headers only for a preflight, a JSON body with 200, or an error with 400. */
  datatype Response = Preflight | Ok200(body: ResponseBody) | Bad400(error: string)

  datatype Outcome = Outcome(call: StripeCall, response: Response)

  /** The session parameters for a checkout, built from the body's truthy fields. */
  function CheckoutParamsFor(priceId: string, userId: string, returnUrl: string, customerEmail: Option<string>): (p: CheckoutParams)
    ensures p.lineItems == [LineItem(priceId, 1)] && p.mode == "subscription"
    ensures p.successUrl == returnUrl + "?session_id={CHECKOUT_SESSION_ID}"
    ensures p.cancelUrl == returnUrl + "?canceled=true"
    ensures p.metadataUserId == userId && p.customerEmail == customerEmail
  {
    CheckoutParams(["card"], [LineItem(priceId, 1)], "subscription",
                   returnUrl + "?session_id={CHECKOUT_SESSION_ID}", returnUrl + "?canceled=true",
                   customerEmail, userId)
  }

  /** The handler. `body` is the parsed JSON (an error when it does not parse),
      `customerEmail` the `X-Customer-Email` header, and `checkout` and `portal`
      what Stripe answers to the call the handler makes. */
  function Handle(httpMethod: string, body: Result<Body>, customerEmail: Option<string>,
                  checkout: Result<Session>, portal: Result<Session>): (r: Outcome)
    ensures httpMethod == "OPTIONS" ==> r == Outcome(NoCall, Preflight)
    ensures httpMethod != "OPTIONS" && body.Err? ==> r == Outcome(NoCall, Bad400(body.message))
    ensures httpMethod != "OPTIONS" && body.Ok? ==>
      var b := body.value;
      && (b.action == Some("create_checkout") ==>
            if Truthy(b.priceId) && Truthy(b.userId) && Truthy(b.returnUrl) then
              && r.call == CheckoutCall(CheckoutParamsFor(b.priceId.value, b.userId.value, b.returnUrl.value, customerEmail))
              && r.response == (if checkout.Ok? then Ok200(SessionBody(checkout.value.id, checkout.value.url))
                                else Bad400(checkout.message))
            else r == Outcome(NoCall, Bad400("Missing required parameters for checkout")))
      && (b.action == Some("create_portal") ==>
            if Truthy(b.customerId) && Truthy(b.returnUrl) then
              && r.call == PortalCall(b.customerId.value, b.returnUrl.value)
              && r.response == (if portal.Ok? then Ok200(PortalBody(portal.value.url)) else Bad400(portal.message))
            else r == Outcome(NoCall, Bad400("Missing required parameters for portal")))
      && (b.action !in {Some("create_checkout"), Some("create_portal")} ==>
            r == Outcome(NoCall, Bad400("Invalid action specified")))
  {
    if httpMethod == "OPTIONS" then Outcome(NoCall, Preflight)
    else if body.Err? then Outcome(NoCall, Bad400(body.message))
    else
      var b := body.value;
      if b.action == Some("create_checkout") then
        if !Truthy(b.priceId) || !Truthy(b.userId) || !Truthy(b.returnUrl) then
          Outcome(NoCall, Bad400("Missing required parameters for checkout"))
        else
          var call := CheckoutCall(CheckoutParamsFor(b.priceId.value, b.userId.value, b.returnUrl.value, customerEmail));
          if checkout.Err? then Outcome(call, Bad400(checkout.message))
          else Outcome(call, Ok200(SessionBody(checkout.value.id, checkout.value.url)))
      else if b.action == Some("create_portal") then
        if !Truthy(b.customerId) || !Truthy(b.returnUrl) then
          Outcome(NoCall, Bad400("Missing required parameters for portal"))
        else
          var call := PortalCall(b.customerId.value, b.returnUrl.value);
          if portal.Err? then Outcome(call, Bad400(portal.message))
          else Outcome(call, Ok200(PortalBody(portal.value.url)))
      else Outcome(NoCall, Bad400("Invalid action specified"))
  }

  /** Stripe is called only after validation passes, and a 200 answer always comes
      from the Stripe call the request asked for. */
  lemma CallOnlyWhenValid(httpMethod: string, body: Result<Body>, customerEmail: Option<string>,
                          checkout: Result<Session>, portal: Result<Session>)
    ensures var r := Handle(httpMethod, body, customerEmail, checkout, portal);
      && (r.call.CheckoutCall? ==>
            body.Ok? && body.value.action == Some("create_checkout")
            && Truthy(body.value.priceId) && Truthy(body.value.userId) && Truthy(body.value.returnUrl))
      && (r.call.PortalCall? ==>
            body.Ok? && body.value.action == Some("create_portal")
            && Truthy(body.value.customerId) && Truthy(body.value.returnUrl))
      && (r.response.Ok200? ==> !r.call.NoCall?)
  {
  }

  /** Both redirect targets lead back to the caller's return url, and Stripe's
      two exits can be told apart: the success and cancel urls always differ. */
  lemma UrlsExtendReturnUrl(priceId: string, userId: string, returnUrl: string, customerEmail: Option<string>)
    ensures var p := CheckoutParamsFor(priceId, userId, returnUrl, customerEmail);
      StartsWith(p.successUrl, returnUrl + "?") && StartsWith(p.cancelUrl, returnUrl + "?")
      && p.successUrl != p.cancelUrl
  {
    var p := CheckoutParamsFor(priceId, userId, returnUrl, customerEmail);
    assert p.successUrl == (returnUrl + "?") + "session_id={CHECKOUT_SESSION_ID}";
    assert p.cancelUrl == (returnUrl + "?") + "canceled=true";
    assert p.successUrl[|returnUrl| + 1] == 's' && p.cancelUrl[|returnUrl| + 1] == 'c';
  }

  /** The success url determines the return url it was built from. */
  lemma SuccessUrlDeterminesReturnUrl(priceId: string, userId: string, a: string, b: string, customerEmail: Option<string>)
    requires CheckoutParamsFor(priceId, userId, a, customerEmail).successUrl
          == CheckoutParamsFor(priceId, userId, b, customerEmail).successUrl
    ensures a == b
  {
    var sa := CheckoutParamsFor(priceId, userId, a, customerEmail).successUrl;
    assert |a| == |b|;
    assert sa[..|a|] == a;
    assert CheckoutParamsFor(priceId, userId, b, customerEmail).successUrl[..|b|] == b;
  }
}
