/**
 * The server's payment side: the parameters of a checkout session built
 * from a request, the origin fallback, the health flag and the lazily
 * created payment client. Creating the session at the provider is foreign
 * code; its outcome is an input here.
 */
module Checkout {
  import opened Wrappers

  /** The process environment the server reads. */
  datatype Env = Env(stripeSecretKey: Option<string>, appUrl: Option<string>)

  /** JavaScript truthiness of an optional string: present and non-empty. */
  predicate Truthy(s: Option<string>)
  {
    s.Some? && s.value != ""
  }

  const DefaultOrigin: string := "http://localhost:3000"

  /** `req.headers.origin || process.env.APP_URL || "http://localhost:3000"`. */
  function Origin(header: Option<string>, env: Env): (r: string)
    ensures r != ""
    ensures Truthy(header) ==> r == header.value
    ensures !Truthy(header) && Truthy(env.appUrl) ==> r == env.appUrl.value
    ensures !Truthy(header) && !Truthy(env.appUrl) ==> r == DefaultOrigin
  {
    if Truthy(header) then header.value
    else if Truthy(env.appUrl) then env.appUrl.value
    else DefaultOrigin
  }

  /** A value interpolated into a template literal: a missing field prints as "undefined". */
  function Interpolate(s: Option<string>): string
  {
    if s.Some? then s.value else "undefined"
  }

  /** The JSON body of a checkout request; `priceId` is read but never used. */
  datatype CheckoutBody = CheckoutBody(priceId: Option<string>, email: Option<string>, personaId: Option<string>)

  /** The one test every tier decision uses: `personaId === "lifetime"`. */
  predicate IsLifetime(personaId: Option<string>)
  {
    personaId == Some("lifetime")
  }

  const LifetimeCents: int := 4999
  const PersonaCents: int := 999
  const LifetimeName: string := "Lifetime Privacy Unlock"
  const LifetimeDescription: string := "Unlock Vector Search & Long-term Memory"

  function UnitAmount(personaId: Option<string>): int
  {
    if IsLifetime(personaId) then LifetimeCents else PersonaCents
  }

  function ProductName(personaId: Option<string>): string
  {
    if IsLifetime(personaId) then LifetimeName else "Persona Unlock: " + Interpolate(personaId)
  }

  function ProductDescription(personaId: Option<string>): string
  {
    if IsLifetime(personaId) then LifetimeDescription
    else "Unlock the " + Interpolate(personaId) + " persona for your Privacy Vault."
  }

  /** `${origin}?success=true&personaId=${personaId}`. */
  function SuccessUrl(origin: string, personaId: Option<string>): string
  {
    origin + "?success=true&personaId=" + Interpolate(personaId)
  }

  /** `${origin}?canceled=true`. */
  function CancelUrl(origin: string): string
  {
    origin + "?canceled=true"
  }

  /** What the server hands to the provider's session-creation call. */
  datatype SessionParams = SessionParams(
    paymentMethodTypes: seq<string>,
    currency: string,
    productName: string,
    productDescription: string,
    unitAmount: int,
    quantity: int,
    mode: string,
    customerEmail: Option<string>,
    successUrl: string,
    cancelUrl: string,
    metadataPersonaId: Option<string>,
    metadataEmail: Option<string>)

  function SessionParamsFor(body: CheckoutBody, origin: string): (p: SessionParams)
    ensures p.unitAmount == LifetimeCents <==> IsLifetime(body.personaId)
    ensures p.unitAmount == PersonaCents <==> !IsLifetime(body.personaId)
    ensures p.quantity == 1 && p.currency == "usd" && p.mode == "payment"
    ensures p.customerEmail == body.email && p.metadataEmail == body.email
    ensures p.metadataPersonaId == body.personaId
    ensures p.successUrl == SuccessUrl(origin, body.personaId) && p.cancelUrl == CancelUrl(origin)
  {
    SessionParams(
      ["card", "link"], "usd",
      ProductName(body.personaId), ProductDescription(body.personaId), UnitAmount(body.personaId), 1,
      "payment", body.email,
      SuccessUrl(origin, body.personaId), CancelUrl(origin),
      body.personaId, body.email)
  }

  /**
   * Price, product name and description are decided by the same test: the
   * higher price is charged exactly when the lifetime name and description
   * are shown, whatever the persona id is.
   */
  lemma {:induction false} TierIsConsistent(body: CheckoutBody, origin: string)
    ensures var p := SessionParamsFor(body, origin);
      && (p.unitAmount == LifetimeCents <==> p.productName == LifetimeName)
      && (p.unitAmount == LifetimeCents <==> p.productDescription == LifetimeDescription)
  {
    var p := SessionParamsFor(body, origin);
    if !IsLifetime(body.personaId) {
      var x := Interpolate(body.personaId);
      assert p.productName[0] == 'P' != LifetimeName[0];
      assert p.productDescription[7] == 't' != LifetimeDescription[7];
    }
  }

  /** The `/api/health` reply. */
  datatype HealthReport = HealthReport(status: string, stripeConfigured: bool)

  function Health(env: Env): (r: HealthReport)
    ensures r.status == "ok"
    ensures r.stripeConfigured <==> env.stripeSecretKey.Some? && env.stripeSecretKey.value != ""
  {
    HealthReport("ok", Truthy(env.stripeSecretKey))
  }

  /** The constructed payment client; it remembers the key it was built with. */
  datatype StripeClient = StripeClient(secretKey: string)

  const MissingKeyMessage: string := "STRIPE_SECRET_KEY is not set in environment variables."

  /** What the checkout route answers. */
  datatype CheckoutReply =
    | SessionUrl(url: Option<string>)   // 200 `{ url: session.url }`
    | ServerError(message: string)      // 500 `{ error: error.message }`

  /** The module-level `stripeClient` slot and the routes that use it. */
  class PaymentGateway {
    var client: Option<StripeClient>

    constructor ()
      ensures client == None
    {
      client := None;
    }

    /**
     * `getStripe()`: builds the client on first successful use and returns
     * the same one afterwards without looking at the environment again.
     */
    method GetStripe(env: Env) returns (r: Result<StripeClient>)
      modifies this
      ensures old(client).Some? ==> client == old(client) && r == Ok(old(client).value)
      ensures old(client).None? && !Truthy(env.stripeSecretKey) ==> client == None && r == Err(MissingKeyMessage)
      ensures old(client).None? && Truthy(env.stripeSecretKey) ==>
                client == Some(StripeClient(env.stripeSecretKey.value)) && r == Ok(client.value)
      ensures r.Ok? <==> old(client).Some? || Health(env).stripeConfigured
    {
      if client.None? {
        if !Truthy(env.stripeSecretKey) {
          return Err(MissingKeyMessage);
        }
        client := Some(StripeClient(env.stripeSecretKey.value));
      }
      r := Ok(client.value);
    }

    /**
     * POST /api/create-checkout-session. `provider` is what the provider's
     * session-creation call does with the parameters: return a session URL
     * (possibly null) or throw with a message. `sent` is what was handed to it.
     */
    method CreateCheckoutSession(body: CheckoutBody, originHeader: Option<string>, env: Env,
                                 provider: Result<Option<string>>)
      returns (reply: CheckoutReply, sent: Option<SessionParams>)
      modifies this
      ensures client == (if old(client).Some? then old(client)
                         else if Truthy(env.stripeSecretKey) then Some(StripeClient(env.stripeSecretKey.value))
                         else None)
      ensures old(client).None? && !Truthy(env.stripeSecretKey) ==>
                reply == ServerError(MissingKeyMessage) && sent == None && client == None
      ensures old(client).Some? || Truthy(env.stripeSecretKey) ==>
                && client.Some?
                && sent == Some(SessionParamsFor(body, Origin(originHeader, env)))
                && reply == (if provider.Ok? then SessionUrl(provider.value) else ServerError(provider.message))
    {
      var stripe := GetStripe(env);
      if stripe.Err? {
        return ServerError(stripe.message), None;
      }
      var origin := Origin(originHeader, env);
      var params := SessionParamsFor(body, origin);
      sent := Some(params);
      match provider
      case Ok(url) => reply := SessionUrl(url);
      case Err(msg) => reply := ServerError(msg);
    }
  }
}
