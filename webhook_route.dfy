/** `POST /api/stripe/webhook`: the payment provider's notification that a
    checkout completed. Signature verification is the provider library's
    `constructEvent`, passed in as a function. */
module WebhookRoute {
  import opened Common
  import opened Store
  import opened Http

  /** The parts of a verified event the handler reads: its type and, for a
      checkout session, the customer's email and customer id. */
  datatype Event = Event(eventType: string, customerEmail: Option<string>, customer: Option<string>)

  const CheckoutCompleted := "checkout.session.completed"
  const MissingSignature := Response(400, Text("Missing stripe signature"))
  const Received := Response(200, ReceivedJson)

  function WebhookError(message: string): Response {
    Response(400, Text("Webhook Error: " + message))
  }

  /** The update a completed checkout applies: status ACTIVE and the customer id. */
  function Activation(e: Event): UserPatch {
    UserPatch(Some(Some("ACTIVE")), Some(e.customer))
  }

  /** The answer and the store after one delivery of `payload` with the
      `stripe-signature` header `signature`. */
  function Webhook(s: StoreState, payload: string, signature: Option<string>,
                   constructEvent: (string, string) -> Result<Event, string>): (o: Outcome)
    ensures !Truthy(signature) ==> o == Outcome(MissingSignature, s)
    ensures Truthy(signature) && constructEvent(payload, signature.value).Failure? ==>
              o == Outcome(WebhookError(constructEvent(payload, signature.value).error), s)
    ensures Truthy(signature) && constructEvent(payload, signature.value).Success? ==>
              var e := constructEvent(payload, signature.value).value;
              && (e.eventType != CheckoutCompleted || !Truthy(e.customerEmail) ==> o == Outcome(Received, s))
              && (e.eventType == CheckoutCompleted && Truthy(e.customerEmail) && e.customerEmail.value !in s.users ==>
                    o == Outcome(InternalError, s))
              && (e.eventType == CheckoutCompleted && Truthy(e.customerEmail) && e.customerEmail.value in s.users ==>
                    var u := s.users[e.customerEmail.value];
                    && o.response == Received
                    && o.store.users == s.users[e.customerEmail.value :=
                         u.(subscriptionStatus := Some("ACTIVE"), stripeCustomerId := e.customer)]
                    && o.store.locations == s.locations)
    ensures Valid(s) ==> Valid(o.store)
  {
    if !Truthy(signature) then Outcome(MissingSignature, s)
    else
      match constructEvent(payload, signature.value)
      case Failure(message) => Outcome(WebhookError(message), s)
      case Success(e) =>
        if e.eventType == CheckoutCompleted && Truthy(e.customerEmail) then
          match UpdateUser(s, e.customerEmail.value, Activation(e))
          case None => Outcome(InternalError, s)
          case Some(s') => Outcome(Received, s')
        else Outcome(Received, s)
  }

  /** The handler over the live database. */
  method Post(db: Db, payload: string, signature: Option<string>,
              constructEvent: (string, string) -> Result<Event, string>) returns (resp: Response)
    modifies db
    ensures Outcome(resp, db.State()) == Webhook(old(db.State()), payload, signature, constructEvent)
  {
    if !Truthy(signature) {
      return MissingSignature;
    }
    var verified := constructEvent(payload, signature.value);
    if verified.Failure? {
      return WebhookError(verified.error);
    }
    var e := verified.value;
    if e.eventType == CheckoutCompleted && Truthy(e.customerEmail) {
      var found := db.Update(e.customerEmail.value, Activation(e));
      if !found {
        return InternalError;
      }
    }
    resp := Received;
  }

  /** Delivering the same event twice has the same effect and answer as
      delivering it once: the update assigns fixed values. */
  lemma WebhookIdempotent(s: StoreState, payload: string, signature: Option<string>,
                          constructEvent: (string, string) -> Result<Event, string>)
    ensures var once := Webhook(s, payload, signature, constructEvent);
      Webhook(once.store, payload, signature, constructEvent) == once
  {
    var once := Webhook(s, payload, signature, constructEvent);
    if Truthy(signature) && constructEvent(payload, signature.value).Success? {
      var e := constructEvent(payload, signature.value).value;
      if e.eventType == CheckoutCompleted && Truthy(e.customerEmail) && e.customerEmail.value in s.users {
        ApplyPatchIdempotent(s.users[e.customerEmail.value], Activation(e));
      }
    }
  }
}
