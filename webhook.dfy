/** server.js's `/webhook` handler and `fulfillCheckout`.  Stripe is an oracle:
    `constructEvent` (the signature check, which throws on a bad signature) and
    `retrieveSession` (the `k`-th `checkout.sessions.retrieve` of the server's
    life).  The server records the session ids it retrieves in `retrievals`, and
    the MTProto client records its calls.  Fulfilment runs to completion inside
    the request here; in the source it is started without being awaited, and
    README's "Left out" section says what that leaves unmodelled (the order of
    the response and the calls, interleaving between requests, and an unhandled
    rejection). */
module Webhook {
  import opened Wrappers
  import opened Mtproto
  import opened Invitation

  /** A verified event: its `type` and `data.object.id`. */
  datatype Event = Event(eventType: string, objectId: string)

  datatype CheckoutSession = CheckoutSession(paymentStatus: string)

  datatype HttpResponse = HttpResponse(status: nat, body: string)

  /** The raw request body and the `stripe-signature` header (possibly absent). */
  datatype Delivery = Delivery(payload: seq<bv8>, signature: Option<string>)

  datatype Stripe = Stripe(
    constructEvent: (seq<bv8>, Option<string>, string) -> Result<Event, string>,
    retrieveSession: (nat, string) -> Result<CheckoutSession, string>)

  /** The endpoint secret and the configured channel and user usernames. */
  datatype Settings = Settings(endpointSecret: string, channelUsername: string, userUsername: string)

  /** Everything a webhook delivery can change: the MTProto client's trace and the
      list of retrieved checkout sessions. */
  datatype World = World(trace: seq<Sent>, retrievals: seq<string>)

  datatype Handled = Handled(world: World, response: HttpResponse)

  /** The two event types that lead to fulfilment. */
  predicate IsFulfilmentEvent(eventType: string)
    ensures IsFulfilmentEvent(eventType) ==> "checkout.session." <= eventType
    ensures IsFulfilmentEvent(eventType) ==> eventType != "checkout.session.async_payment_failed"
    ensures IsFulfilmentEvent(eventType) ==> eventType != "checkout.session.expired"
  {
    eventType == "checkout.session.completed"
    || eventType == "checkout.session.async_payment_succeeded"
  }

  /** Fulfilment invites unless the payment status is exactly "unpaid". */
  predicate NeedsFulfilment(session: CheckoutSession)
    ensures session.paymentStatus == "paid" ==> NeedsFulfilment(session)
    ensures session.paymentStatus == "no_payment_required" ==> NeedsFulfilment(session)
    ensures !NeedsFulfilment(session) ==> session.paymentStatus == "unpaid"
  {
    session.paymentStatus != "unpaid"
  }

  /** The specification of `fulfillCheckout(sessionId)`.  A failed retrieval
      rejects the un-awaited promise: nothing further happens. */
  function Fulfil(stripe: Stripe, settings: Settings, respond: Oracle, dc: Option<int>,
                  w: World, sessionId: string): World
  {
    var retrieved := World(w.trace, w.retrievals + [sessionId]);
    match stripe.retrieveSession(|w.retrievals|, sessionId)
    case Failure(_) => retrieved
    case Success(session) =>
      if NeedsFulfilment(session) then
        retrieved.(trace := InviteCalls(respond, w.trace, dc, settings.channelUsername, settings.userUsername))
      else retrieved
  }

  /** The specification of one `/webhook` request. */
  function Handle(stripe: Stripe, settings: Settings, respond: Oracle, dc: Option<int>,
                  w: World, d: Delivery): Handled
  {
    match stripe.constructEvent(d.payload, d.signature, settings.endpointSecret)
    case Failure(message) => Handled(w, HttpResponse(400, "Webhook Error: " + message))
    case Success(event) =>
      var after := if IsFulfilmentEvent(event.eventType)
                   then Fulfil(stripe, settings, respond, dc, w, event.objectId)
                   else w;
      Handled(after, HttpResponse(200, ""))
  }

  /** A sequence of deliveries, handled one after another. */
  function HandleAll(stripe: Stripe, settings: Settings, respond: Oracle, dc: Option<int>,
                     w: World, ds: seq<Delivery>): World
    decreases |ds|
  {
    if ds == [] then w
    else HandleAll(stripe, settings, respond, dc, Handle(stripe, settings, respond, dc, w, ds[0]).world, ds[1..])
  }

  /** The session id a single delivery hands to fulfilment: its object id when it
      verifies and carries one of the two fulfilment event types, none otherwise. */
  function AcceptedSession(stripe: Stripe, settings: Settings, d: Delivery): seq<string> {
    match stripe.constructEvent(d.payload, d.signature, settings.endpointSecret)
    case Success(event) => if IsFulfilmentEvent(event.eventType) then [event.objectId] else []
    case Failure(_) => []
  }

  /** Reference definition: the session ids of the deliveries that verify and carry
      one of the two fulfilment event types, in delivery order, repeats kept. */
  function AcceptedSessions(stripe: Stripe, settings: Settings, ds: seq<Delivery>): seq<string>
    decreases |ds|
  {
    if ds == [] then []
    else AcceptedSession(stripe, settings, ds[0]) + AcceptedSessions(stripe, settings, ds[1..])
  }

  class Server {
    const api: Client
    const stripe: Stripe
    const settings: Settings
    var retrievals: seq<string>

    constructor (api: Client, stripe: Stripe, settings: Settings)
      ensures this.api == api && this.stripe == stripe && this.settings == settings
      ensures retrievals == []
    {
      this.api := api;
      this.stripe := stripe;
      this.settings := settings;
      retrievals := [];
    }

    method FulfillCheckout(sessionId: string)
      modifies this, api
      ensures api.defaultDc == old(api.defaultDc)
      ensures World(api.trace, retrievals)
           == Fulfil(stripe, settings, api.respond, old(api.defaultDc),
                     World(old(api.trace), old(retrievals)), sessionId)
    {
      var checkoutSession := stripe.retrieveSession(|retrievals|, sessionId);
      retrievals := retrievals + [sessionId];
      if checkoutSession.Success? && NeedsFulfilment(checkoutSession.value) {
        InviteUserToChannel(api, settings.channelUsername, settings.userUsername);
      }
    }

    method HandleWebhook(payload: seq<bv8>, signature: Option<string>) returns (response: HttpResponse)
      modifies this, api
      ensures api.defaultDc == old(api.defaultDc)
      ensures Handled(World(api.trace, retrievals), response)
           == Handle(stripe, settings, api.respond, old(api.defaultDc),
                     World(old(api.trace), old(retrievals)), Delivery(payload, signature))
    {
      var event := stripe.constructEvent(payload, signature, settings.endpointSecret);
      if event.Failure? {
        return HttpResponse(400, "Webhook Error: " + event.error);
      }
      if IsFulfilmentEvent(event.value.eventType) {
        FulfillCheckout(event.value.objectId);
      }
      response := HttpResponse(200, "");
    }
  }

  /** A delivery whose signature does not verify is answered 400, and nothing is
      retrieved or sent. */
  lemma BadSignatureRejected(stripe: Stripe, settings: Settings, respond: Oracle, dc: Option<int>,
                             w: World, d: Delivery)
    requires stripe.constructEvent(d.payload, d.signature, settings.endpointSecret).Failure?
    ensures Handle(stripe, settings, respond, dc, w, d).response.status == 400
    ensures Handle(stripe, settings, respond, dc, w, d).world == w
  {
  }

  /** A verified delivery is answered 200 whatever its type and whatever
      fulfilment did; it retrieves its session exactly once when its type is one
      of the two fulfilment types, and nothing otherwise. */
  lemma VerifiedAcknowledged(stripe: Stripe, settings: Settings, respond: Oracle, dc: Option<int>,
                             w: World, d: Delivery)
    requires stripe.constructEvent(d.payload, d.signature, settings.endpointSecret).Success?
    ensures var event := stripe.constructEvent(d.payload, d.signature, settings.endpointSecret).value;
      var h := Handle(stripe, settings, respond, dc, w, d);
      && h.response == HttpResponse(200, "")
      && h.world.retrievals
         == w.retrievals + (if IsFulfilmentEvent(event.eventType) then [event.objectId] else [])
      && (!IsFulfilmentEvent(event.eventType) ==> h.world == w)
  {
  }

  /** Fulfilment sends a call only for a session it retrieved whose payment status
      is not "unpaid", and then it is exactly one run of the invitation workflow
      with the configured usernames. */
  lemma FulfilmentGate(stripe: Stripe, settings: Settings, respond: Oracle, dc: Option<int>,
                       w: World, sessionId: string)
    ensures var after := Fulfil(stripe, settings, respond, dc, w, sessionId);
      var retrieved := stripe.retrieveSession(|w.retrievals|, sessionId);
      && after.retrievals == w.retrievals + [sessionId]
      && (if retrieved.Success? && retrieved.value.paymentStatus != "unpaid"
          then after.trace
               == InviteCalls(respond, w.trace, dc, settings.channelUsername, settings.userUsername)
          else after.trace == w.trace)
  {
  }

  /** Over any sequence of deliveries, the sessions retrieved are exactly those of
      the verified fulfilment events, once per delivery and in order: nothing
      remembers a session already fulfilled. */
  lemma {:induction false} OneFulfilmentPerAcceptedDelivery(
    stripe: Stripe, settings: Settings, respond: Oracle, dc: Option<int>, w: World, ds: seq<Delivery>)
    ensures HandleAll(stripe, settings, respond, dc, w, ds).retrievals
         == w.retrievals + AcceptedSessions(stripe, settings, ds)
    decreases |ds|
  {
    if ds == [] {
      assert w.retrievals + [] == w.retrievals;
    } else {
      var w1 := Handle(stripe, settings, respond, dc, w, ds[0]).world;
      var head := AcceptedSession(stripe, settings, ds[0]);
      assert w1.retrievals == w.retrievals + head;
      OneFulfilmentPerAcceptedDelivery(stripe, settings, respond, dc, w1, ds[1..]);
      assert AcceptedSessions(stripe, settings, ds) == head + AcceptedSessions(stripe, settings, ds[1..]);
      assert w.retrievals + head + AcceptedSessions(stripe, settings, ds[1..])
          == w.retrievals + (head + AcceptedSessions(stripe, settings, ds[1..]));
    }
  }

  /** Two verified fulfilment deliveries naming the same checkout session (a
      redelivery with a fresh signature, or "checkout.session.completed" followed
      by "checkout.session.async_payment_succeeded") fulfil that session twice;
      when both retrievals report a status other than "unpaid", the invitation
      workflow runs twice, each run starting with a channel resolve. */
  lemma DuplicateDeliveryFulfilsTwice(stripe: Stripe, settings: Settings, respond: Oracle,
                                      dc: Option<int>, w: World, d1: Delivery, d2: Delivery)
    requires stripe.constructEvent(d1.payload, d1.signature, settings.endpointSecret).Success?
    requires stripe.constructEvent(d2.payload, d2.signature, settings.endpointSecret).Success?
    requires IsFulfilmentEvent(stripe.constructEvent(d1.payload, d1.signature, settings.endpointSecret).value.eventType)
    requires IsFulfilmentEvent(stripe.constructEvent(d2.payload, d2.signature, settings.endpointSecret).value.eventType)
    requires stripe.constructEvent(d1.payload, d1.signature, settings.endpointSecret).value.objectId
          == stripe.constructEvent(d2.payload, d2.signature, settings.endpointSecret).value.objectId
    ensures var id := stripe.constructEvent(d1.payload, d1.signature, settings.endpointSecret).value.objectId;
      var once := Handle(stripe, settings, respond, dc, w, d1).world;
      var twice := Handle(stripe, settings, respond, dc, once, d2).world;
      && twice.retrievals == w.retrievals + [id, id]
      && (stripe.retrieveSession(|w.retrievals|, id).Success?
          && NeedsFulfilment(stripe.retrieveSession(|w.retrievals|, id).value)
          && stripe.retrieveSession(|w.retrievals| + 1, id).Success?
          && NeedsFulfilment(stripe.retrieveSession(|w.retrievals| + 1, id).value)
          ==> && |w.trace| < |once.trace| < |twice.trace|
              && twice.trace[|w.trace|].rpc == ResolveUsername(settings.channelUsername)
              && twice.trace[|once.trace|].rpc == ResolveUsername(settings.channelUsername))
  {
    var id := stripe.constructEvent(d1.payload, d1.signature, settings.endpointSecret).value.objectId;
    var once := Handle(stripe, settings, respond, dc, w, d1).world;
    var twice := Handle(stripe, settings, respond, dc, once, d2).world;
    assert w.retrievals + [id] + [id] == w.retrievals + [id, id];
    if stripe.retrieveSession(|w.retrievals|, id).Success?
       && NeedsFulfilment(stripe.retrieveSession(|w.retrievals|, id).value)
       && stripe.retrieveSession(|w.retrievals| + 1, id).Success?
       && NeedsFulfilment(stripe.retrieveSession(|w.retrievals| + 1, id).value)
    {
      InviteCallsShape(respond, w.trace, dc, settings.channelUsername, settings.userUsername);
      InviteCallsShape(respond, once.trace, dc, settings.channelUsername, settings.userUsername);
      assert twice.trace[..|once.trace|] == once.trace;
      assert twice.trace[|w.trace|] == twice.trace[..|once.trace|][|w.trace|];
    }
  }
}
