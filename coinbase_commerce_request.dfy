// The Coinbase Commerce request tool: six operations on charges and
// checkouts, each one HTTPS request to api.commerce.coinbase.com
// authenticated by the `api_key` keyword argument. `run` looks the tool
// name up in its registry and calls the matching handler. It catches
// nothing, so an error of the request reaches the key-rotation wrapper.
//
// The HTTPS exchange is a parameter: `Net` maps the request the tool sends
// (method, path, JSON body as an ordered field list, API key) to the text
// of the response or to the exception raised.

module CoinbaseCommerceRequest {
  import opened Values
  import opened Mech
  import opened Params
  import opened KeyRotation

  /** A body and its key: no body (`payload = ''`), or `json.dumps` of the fields in order. */
  datatype Body = NoBody | Json(fields: seq<(string, Value)>)

  /** `conn.request(method, path, payload, headers)` with the `X-CC-Api-Key` header. */
  datatype HttpRequest = HttpRequest(verb: string, path: string, body: Body, apiKey: Value)

  /** The response text of a request, or the exception it raises. */
  type Net = HttpRequest -> Result<string>

  /** `AVAILABLE_TOOLS`, in insertion order. */
  const Tools: seq<string> :=
    ["create_charge", "get_charge", "get_all_charges", "create_new_checkout",
     "get_all_checkout_sessions", "get_checkout_session"]

  // ---- payloads ----

  /** The candidate fields of `create_charge`, in the order it tests them. */
  function ChargeCandidates(name: Value, description: Value, buyerLocale: Value, cancelUrl: Value,
                            checkoutId: Value, localPrice: Value, metadata: Value, pricingType: Value,
                            redirectUrl: Value): seq<(string, Value)>
  {
    [("buyer_locale", buyerLocale), ("name", name), ("description", description), ("cancel_url", cancelUrl),
     ("checkout_id", checkoutId), ("local_price", localPrice), ("metadata", metadata),
     ("pricing_type", pricingType), ("redirect_url", redirectUrl)]
  }

  /** The payload `create_charge` fills field by field: each field only when it is truthy. */
  method ChargePayload(name: Value, description: Value, buyerLocale: Value, cancelUrl: Value,
                       checkoutId: Value, localPrice: Value, metadata: Value, pricingType: Value,
                       redirectUrl: Value) returns (payload: seq<(string, Value)>)
    ensures payload == KeepTruthy(ChargeCandidates(name, description, buyerLocale, cancelUrl, checkoutId,
                                                   localPrice, metadata, pricingType, redirectUrl))
  {
    ghost var ps: seq<(string, Value)> := [];
    payload := [];
    payload, ps := PutIfTruthy(ps, payload, "buyer_locale", buyerLocale);
    payload, ps := PutIfTruthy(ps, payload, "name", name);
    payload, ps := PutIfTruthy(ps, payload, "description", description);
    payload, ps := PutIfTruthy(ps, payload, "cancel_url", cancelUrl);
    payload, ps := PutIfTruthy(ps, payload, "checkout_id", checkoutId);
    payload, ps := PutIfTruthy(ps, payload, "local_price", localPrice);
    payload, ps := PutIfTruthy(ps, payload, "metadata", metadata);
    payload, ps := PutIfTruthy(ps, payload, "pricing_type", pricingType);
    payload, ps := PutIfTruthy(ps, payload, "redirect_url", redirectUrl);
    assert ps == ChargeCandidates(name, description, buyerLocale, cancelUrl, checkoutId, localPrice, metadata,
                                  pricingType, redirectUrl);
  }

  /** The candidate fields of `create_new_checkout`, in the order it tests them. */
  function CheckoutCandidates(name: Value, description: Value, buyerLocale: Value, localPrice: Value,
                              totalPrice: Value, metadata: Value, pricingType: Value,
                              requestedInfo: Value): seq<(string, Value)>
  {
    [("name", name), ("description", description), ("buyer_locale", buyerLocale), ("local_price", localPrice),
     ("total_price", totalPrice), ("metadata", metadata), ("pricing_type", pricingType),
     ("requested_info", requestedInfo)]
  }

  /** The payload `create_new_checkout` fills field by field: each field only when it is truthy. */
  method CheckoutPayload(name: Value, description: Value, buyerLocale: Value, localPrice: Value,
                         totalPrice: Value, metadata: Value, pricingType: Value,
                         requestedInfo: Value) returns (payload: seq<(string, Value)>)
    ensures payload == KeepTruthy(CheckoutCandidates(name, description, buyerLocale, localPrice, totalPrice,
                                                     metadata, pricingType, requestedInfo))
  {
    ghost var ps: seq<(string, Value)> := [];
    payload := [];
    payload, ps := PutIfTruthy(ps, payload, "name", name);
    payload, ps := PutIfTruthy(ps, payload, "description", description);
    payload, ps := PutIfTruthy(ps, payload, "buyer_locale", buyerLocale);
    payload, ps := PutIfTruthy(ps, payload, "local_price", localPrice);
    payload, ps := PutIfTruthy(ps, payload, "total_price", totalPrice);
    payload, ps := PutIfTruthy(ps, payload, "metadata", metadata);
    payload, ps := PutIfTruthy(ps, payload, "pricing_type", pricingType);
    payload, ps := PutIfTruthy(ps, payload, "requested_info", requestedInfo);
    assert ps == CheckoutCandidates(name, description, buyerLocale, localPrice, totalPrice, metadata, pricingType,
                                    requestedInfo);
  }

  // ---- the handlers: the request each one sends ----

  /** `handle_create_charge`: every field defaults to `''`. */
  function HandleCreateCharge(kw: Kwargs, apiKey: Value): HttpRequest
  {
    var e := StrV("");
    HttpRequest("POST", "/charges",
      Json(KeepTruthy(ChargeCandidates(Get(kw, "name", e), Get(kw, "description", e), Get(kw, "buyer_locale", e),
                                       Get(kw, "cancel_url", e), Get(kw, "checkout_id", e), Get(kw, "local_price", e),
                                       Get(kw, "metadata", e), Get(kw, "pricing_type", e), Get(kw, "redirect_url", e)))),
      apiKey)
  }

  function HandleGetCharge(kw: Kwargs, apiKey: Value): HttpRequest
  {
    HttpRequest("GET", "/charges/" + Str(Get(kw, "charge_code_or_charge_id", StrV(""))), NoBody, apiKey)
  }

  function HandleGetAllCharges(apiKey: Value): HttpRequest
  {
    HttpRequest("GET", "/charges", NoBody, apiKey)
  }

  /** `handle_create_new_checkout`: every field defaults to `''`. */
  function HandleCreateNewCheckout(kw: Kwargs, apiKey: Value): HttpRequest
  {
    var e := StrV("");
    HttpRequest("POST", "/checkouts",
      Json(KeepTruthy(CheckoutCandidates(Get(kw, "name", e), Get(kw, "description", e), Get(kw, "buyer_locale", e),
                                         Get(kw, "local_price", e), Get(kw, "total_price", e), Get(kw, "metadata", e),
                                         Get(kw, "pricing_type", e), Get(kw, "requested_info", e)))),
      apiKey)
  }

  function HandleGetAllCheckoutSessions(apiKey: Value): HttpRequest
  {
    HttpRequest("GET", "/checkouts", NoBody, apiKey)
  }

  function HandleGetCheckoutSession(kw: Kwargs, apiKey: Value): HttpRequest
  {
    HttpRequest("GET", "/checkouts/" + Str(Get(kw, "checkout_id", StrV(""))), NoBody, apiKey)
  }

  /**
   * The `if`/`elif` chain of `run`, reached only with a registered name:
   * the request of the matching handler.
   */
  function Request(name: string, kw: Kwargs, apiKey: Value): HttpRequest
    requires name in Tools
  {
    if name == "create_charge" then HandleCreateCharge(kw, apiKey)
    else if name == "get_charge" then HandleGetCharge(kw, apiKey)
    else if name == "get_all_charges" then HandleGetAllCharges(apiKey)
    else if name == "create_new_checkout" then HandleCreateNewCheckout(kw, apiKey)
    else if name == "get_all_checkout_sessions" then HandleGetAllCheckoutSessions(apiKey)
    else HandleGetCheckoutSession(kw, apiKey)
  }

  /** `kwargs.get('api_key', '')`. */
  function ApiKey(kw: Kwargs): Value
  {
    Get(kw, "api_key", StrV(""))
  }

  /** The message for a tool that is not registered. */
  function UnknownTool(name: Value): string
  {
    "Tool " + Repr(name) + " is not in supported tools: " + TupleRepr(Tools) + "."
  }

  /** `run(**kwargs)` before wrapping, with `net` answering its request. */
  function Run(kw: Kwargs, net: Net): Outcome
  {
    var name := Get(kw, "command", NoneV);
    if name == NoneV then Returned(ErrorResponse("No tool has been specified."))
    else if !Hashable(name) then Raised(Unhashable(name))
    else if !(name.StrV? && name.s in Tools) then Returned(ErrorResponse(UnknownTool(name)))
    else
      match net(Request(name.s, kw, ApiKey(kw)))
      case Ok(text) => Returned(Success(text))
      case Err(e) => Raised(e)
  }

  /**
   * The inner call the wrapper retries: the same keyword arguments every
   * time, the network answering as it does after the rotations so far.
   */
  function Attempt(kw: Kwargs, net: seq<string> -> Net): Call
  {
    h => Run(kw, net(h))
  }

  // ---- properties ----

  /** Without a tool name the wrapped call replies at once, with nothing rotated. */
  lemma NoToolSpecified(m: map<string, int>, kw: Kwargs, net: seq<string> -> Net, h: seq<string>)
    requires "command" !in kw || kw["command"] == NoneV
    ensures Execute(m, Attempt(kw, net), h) == Trace(Replied(Reply("No tool has been specified.", NoneV, NoneV, NoneV)), [])
  {
    assert Attempt(kw, net)(h) == Run(kw, net(h)) == Returned(ErrorResponse("No tool has been specified."));
    ReturnedPassesThrough(m, Attempt(kw, net), h, ErrorResponse("No tool has been specified."));
  }

  /**
   * An unknown tool gets a message quoting it and listing the six
   * registered names in order, from which the registry can be parsed back.
   */
  lemma UnknownToolListsRegistry(kw: Kwargs, net: Net)
    requires var name := Get(kw, "command", NoneV);
             name != NoneV && Hashable(name) && !(name.StrV? && name.s in Tools)
    ensures Run(kw, net) == Returned(ErrorResponse("Tool " + Repr(Get(kw, "command", NoneV))
                                                   + " is not in supported tools: " + TupleRepr(Tools) + "."))
    ensures ParseTupleRepr(TupleRepr(Tools)) == Tools
  {
    ToolsPlain();
    ListingRoundTrip(Tools);
  }

  /** The registered names are plain, so `repr` quotes them unchanged. */
  lemma ToolsPlain()
    ensures forall i :: 0 <= i < |Tools| ==> Plain(Tools[i])
  {
    ChargeToolNames();
    CheckoutToolNames();
    forall i | 0 <= i < |Tools| ensures Plain(Tools[i]) {
      IdentifierIsPlain(Tools[i]);
    }
  }

  lemma ChargeToolNames()
    ensures Identifier("create_charge") && Identifier("get_charge") && Identifier("get_all_charges")
  {
  }

  lemma CheckoutToolNames()
    ensures Identifier("create_new_checkout") && Identifier("get_all_checkout_sessions")
    ensures Identifier("get_checkout_session")
  {
  }

  /** `get_all_charges` replies with the response text, and the wrapper adds the pool. */
  lemma GetAllChargesReplies(m: map<string, int>, kw: Kwargs, net: seq<string> -> Net, h: seq<string>, text: string)
    requires Get(kw, "command", NoneV) == StrV("get_all_charges")
    requires net(h)(HttpRequest("GET", "/charges", NoBody, ApiKey(kw))) == Ok(text)
    ensures Execute(m, Attempt(kw, net), h) == Trace(Replied(Reply(text, NoneV, NoneV, NoneV)), [])
  {
    assert "get_all_charges" in Tools;
    ReturnedPassesThrough(m, Attempt(kw, net), h, Success(text));
  }

  /**
   * An error of a registered tool's request escapes `run`: a rate limit
   * with retries left is retried after rotating, any other error becomes
   * the soft reply.
   */
  lemma HandlerErrorsReachWrapper(m: map<string, int>, kw: Kwargs, net: seq<string> -> Net, h: seq<string>,
                                  name: string, e: Exception)
    requires Get(kw, "command", NoneV) == StrV(name) && name in Tools
    requires net(h)(Request(name, kw, ApiKey(kw))) == Err(e)
    ensures Attempt(kw, net)(h) == Raised(e)
    ensures !RateLimited(e) ==> Execute(m, Attempt(kw, net), h) == Trace(Replied(Reply(e.message, StrV(""), NoneV, NoneV)), [])
    ensures RateLimited(e) && Budget(m, ServiceOf(e)) > 0 ==>
              var s := ServiceOf(e);
              var rest := Execute(m[s := m[s] - 1], Attempt(kw, net), h + [s]);
              Execute(m, Attempt(kw, net), h) == Trace(rest.final, [s] + rest.rotations)
    ensures RateLimited(e) && Budget(m, ServiceOf(e)) <= 0 ==> Execute(m, Attempt(kw, net), h) == Trace(Reraised(e), [])
  {
    var call := Attempt(kw, net);
    if !RateLimited(e) {
      OtherErrorIsSoft(m, call, h, e);
    } else if Budget(m, ServiceOf(e)) > 0 {
      RateLimitRotatesOnce(m, call, h, e);
    } else {
      ExhaustedReraises(m, call, h, e);
    }
  }

  /**
   * Every attempt sends the same request, authenticated by the same
   * `api_key` (`''` when absent): two attempts whose network answers that
   * request alike end alike.
   */
  lemma SameRequestEveryAttempt(kw: Kwargs, net: seq<string> -> Net, h1: seq<string>, h2: seq<string>, name: string)
    requires Get(kw, "command", NoneV) == StrV(name) && name in Tools
    requires net(h1)(Request(name, kw, ApiKey(kw))) == net(h2)(Request(name, kw, ApiKey(kw)))
    ensures Request(name, kw, ApiKey(kw)).apiKey == (if "api_key" in kw then kw["api_key"] else StrV(""))
    ensures Attempt(kw, net)(h1) == Attempt(kw, net)(h2)
  {
  }

  /**
   * `create_charge` sends exactly the truthy fields, in its fixed order;
   * the `''` defaults of the handler drop every field not given.
   */
  lemma ChargePayloadExactlyTruthy(kw: Kwargs, apiKey: Value, p: (string, Value))
    ensures var fields := HandleCreateCharge(kw, apiKey).body.fields;
            var e := StrV("");
            var cs := ChargeCandidates(Get(kw, "name", e), Get(kw, "description", e), Get(kw, "buyer_locale", e),
                                       Get(kw, "cancel_url", e), Get(kw, "checkout_id", e), Get(kw, "local_price", e),
                                       Get(kw, "metadata", e), Get(kw, "pricing_type", e), Get(kw, "redirect_url", e));
            (p in fields <==> p in cs && Truthy(p.1)) && Subsequence(fields, cs)
  {
    var e := StrV("");
    var cs := ChargeCandidates(Get(kw, "name", e), Get(kw, "description", e), Get(kw, "buyer_locale", e),
                               Get(kw, "cancel_url", e), Get(kw, "checkout_id", e), Get(kw, "local_price", e),
                               Get(kw, "metadata", e), Get(kw, "pricing_type", e), Get(kw, "redirect_url", e));
    KeepTruthyMembers(cs, p);
    KeepTruthyInOrder(cs);
  }

  /** `create_new_checkout` sends exactly the truthy fields, in its fixed order. */
  lemma CheckoutPayloadExactlyTruthy(kw: Kwargs, apiKey: Value, p: (string, Value))
    ensures var fields := HandleCreateNewCheckout(kw, apiKey).body.fields;
            var e := StrV("");
            var cs := CheckoutCandidates(Get(kw, "name", e), Get(kw, "description", e), Get(kw, "buyer_locale", e),
                                         Get(kw, "local_price", e), Get(kw, "total_price", e), Get(kw, "metadata", e),
                                         Get(kw, "pricing_type", e), Get(kw, "requested_info", e));
            (p in fields <==> p in cs && Truthy(p.1)) && Subsequence(fields, cs)
  {
    var e := StrV("");
    var cs := CheckoutCandidates(Get(kw, "name", e), Get(kw, "description", e), Get(kw, "buyer_locale", e),
                                 Get(kw, "local_price", e), Get(kw, "total_price", e), Get(kw, "metadata", e),
                                 Get(kw, "pricing_type", e), Get(kw, "requested_info", e));
    KeepTruthyMembers(cs, p);
    KeepTruthyInOrder(cs);
  }

  /**
   * Called with nothing but the tool name and the key, `create_charge`
   * posts an empty object: every field defaults to `''`, which is dropped.
   */
  lemma ChargeDefaultsDropped(kw: Kwargs, apiKey: Value)
    requires kw.Keys <= {"command", "api_key"}
    ensures HandleCreateCharge(kw, apiKey) == HttpRequest("POST", "/charges", Json([]), apiKey)
  {
    assert "buyer_locale" !in kw && "name" !in kw && "description" !in kw;
    assert "cancel_url" !in kw && "checkout_id" !in kw && "local_price" !in kw;
    assert "metadata" !in kw && "pricing_type" !in kw && "redirect_url" !in kw;
    var e := StrV("");
    var cs := ChargeCandidates(e, e, e, e, e, e, e, e, e);
    if KeepTruthy(cs) != [] {
      KeepTruthyMembers(cs, KeepTruthy(cs)[0]);
      assert false;
    }
  }

  // ---- the wrapped tool ----

  /** The decorated `run`: the wrapper retrying `run` with the same keyword arguments. */
  method Invoke(keys: KeysArg, kw: Kwargs, net: seq<string> -> Net) returns (r: MechResult)
    modifies Footprint(keys)
    ensures keys.Absent? ==> r == Raise(KeyError("api_keys"))
    ensures keys == Given(null) ==> r == Raise(AttributeError(NoneV, "max_retries"))
    ensures keys.Given? && keys.pool != null ==>
              var t := Execute(keys.pool.limits, Attempt(kw, net), old(keys.pool.rotated));
              keys.pool.rotated == old(keys.pool.rotated) + t.rotations && r == Deliver(t.final, keys.pool)
  {
    r := WithKeyRotation(keys, Attempt(kw, net));
  }
}
