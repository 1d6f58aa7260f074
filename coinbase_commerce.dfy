// The Coinbase Commerce tool: eight operations on charges, checkouts and
// events, chosen by a lower-cased English phrase given as `prompt`. The two
// operations that create something take a ready-made JSON `payload`, which
// they check and re-serialise before posting it. `run` catches nothing, so
// every error reaches the key-rotation wrapper.
//
// The HTTPS exchange is a parameter (`Net`), and so is JSON parsing:
// `JsonText` maps a string to the text `json.dumps(json.loads(s))` gives,
// or to None when `json.loads` rejects it.

module CoinbaseCommerce {
  import opened Values
  import opened Text
  import opened Mech
  import opened KeyRotation

  /** `conn.request(method, path, payload, headers)` with the `X-CC-Api-Key` header. */
  datatype HttpRequest = HttpRequest(verb: string, path: string, body: string, apiKey: Value)

  /** The response text of a request, or the exception it raises. */
  type Net = HttpRequest -> Result<string>

  /** `json.dumps(json.loads(s))`, or None when `s` is not a JSON document. */
  type JsonText = string -> Option<string>

  /** What every JSON parser agrees on and the tool relies on: the empty string is no document. */
  predicate RejectsEmpty(json: JsonText)
  {
    json("") == None
  }

  /** `AVAILABLE_TOOLS`, in insertion order. */
  const Tools: seq<string> :=
    ["creates a charge", "returns the charge with the order code", "returns all charges",
     "creates a new checkout", "returns all checkout sessions", "returns a specific checkout session",
     "list events", "show an event"]

  // ---- the operations ----

  /**
   * The check `create_charge` and `create_new_checkout` make of their
   * payload: a string holding a JSON document, sent in re-serialised form.
   */
  function CheckPayload(payload: Value, json: JsonText): (r: Result<string>)
    ensures r.Ok? <==> payload.StrV? && json(payload.s).Some?
    ensures r.Ok? ==> r.value == json(payload.s).value
  {
    if !payload.StrV? then Err(TypeError("payload must be a string"))
    else match json(payload.s)
      case None => Err(ValueError("payload must be a valid JSON string"))
      case Some(text) => Ok(text)
  }

  /** The handler registered for `name`, as the request it sends (or the error it raises first). */
  function Handle(name: string, kw: Kwargs, apiKey: Value, json: JsonText): Result<HttpRequest>
    requires name in Tools
  {
    if name == "creates a charge" then
      match CheckPayload(Get(kw, "payload", StrV("")), json)
      case Err(e) => Err(e)
      case Ok(body) => Ok(HttpRequest("POST", "/charges", body, apiKey))
    else if name == "returns the charge with the order code" then
      Ok(HttpRequest("GET", "/charges/" + Str(Get(kw, "charge_code_or_charge_id", StrV(""))), "", apiKey))
    else if name == "returns all charges" then Ok(HttpRequest("GET", "/charges", "", apiKey))
    else if name == "creates a new checkout" then
      match CheckPayload(Get(kw, "payload", StrV("")), json)
      case Err(e) => Err(e)
      case Ok(body) => Ok(HttpRequest("POST", "/checkouts", body, apiKey))
    else if name == "returns all checkout sessions" then Ok(HttpRequest("GET", "/checkouts", "", apiKey))
    else if name == "returns a specific checkout session" then
      Ok(HttpRequest("GET", "/checkouts/" + Str(Get(kw, "checkout_id", StrV(""))), "", apiKey))
    else if name == "list events" then Ok(HttpRequest("GET", "/events", "", apiKey))
    else Ok(HttpRequest("GET", "/events/" + Str(Get(kw, "event_id", StrV(""))), "", apiKey))
  }

  /** The Python name of the handler registered for `name`. */
  function HandlerName(name: string): string
  {
    if name == "creates a charge" then "handle_create_charge"
    else if name == "returns the charge with the order code" then "handle_get_charge"
    else if name == "returns all charges" then "handle_get_all_charges"
    else if name == "creates a new checkout" then "handle_create_new_checkout"
    else if name == "returns all checkout sessions" then "handle_get_all_checkout_sessions"
    else if name == "returns a specific checkout session" then "handle_get_checkout_session"
    else if name == "list events" then "handle_list_events"
    else "handle_show_an_event"
  }

  /** `kwargs.get('cc_api_key', '')`. */
  function CcApiKey(kw: Kwargs): Value
  {
    Get(kw, "cc_api_key", StrV(""))
  }

  /** The message for a tool that is not registered. */
  function UnknownTool(name: string): string
  {
    "Tool " + QuoteStr(name) + " is not in supported tools: " + TupleRepr(Tools) + "."
  }

  /**
   * `run(**kwargs)` before wrapping. The prompt is lower-cased first, so a
   * missing prompt fails on `.lower()` and the None check after it can
   * never succeed.
   */
  function Run(kw: Kwargs, net: Net, json: JsonText): Outcome
  {
    var prompt := Get(kw, "prompt", NoneV);
    if !prompt.StrV? then Raised(AttributeError(prompt, "lower"))
    else Dispatch(Lower(prompt.s), kw, net, json)
  }

  /**
   * The rest of `run`, from the registry lookup of the lower-cased name on.
   * `handler_func(api_key, **kwargs)` passes `api_key` a second time when
   * the keyword arguments hold one.
   */
  function Dispatch(name: string, kw: Kwargs, net: Net, json: JsonText): Outcome
  {
    if name !in Tools then Returned(ErrorResponse(UnknownTool(name)))
    else if "api_key" in kw then
      Raised(TypeError(HandlerName(name) + "() got multiple values for argument 'api_key'"))
    else
      match Handle(name, kw, CcApiKey(kw), json)
      case Err(e) => Raised(e)
      case Ok(request) =>
        match net(request)
        case Ok(text) => Returned(Success(text))
        case Err(e) => Raised(e)
  }

  /** The inner call the wrapper retries, the network answering as it does after the rotations so far. */
  function Attempt(kw: Kwargs, net: seq<string> -> Net, json: JsonText): Call
  {
    h => Run(kw, net(h), json)
  }

  // ---- properties ----

  /**
   * The lookup ignores case: prompts that lower-case alike select the same
   * operation and end alike.
   */
  lemma CaseInsensitiveLookup(kw: Kwargs, net: Net, json: JsonText, p: string, q: string)
    requires Lower(p) == Lower(q)
    ensures Run(kw["prompt" := StrV(p)], net, json) == Run(kw["prompt" := StrV(q)], net, json)
  {
    assert Run(kw["prompt" := StrV(p)], net, json) == Dispatch(Lower(p), kw["prompt" := StrV(p)], net, json);
    assert Run(kw["prompt" := StrV(q)], net, json) == Dispatch(Lower(p), kw["prompt" := StrV(q)], net, json);
    DispatchIgnoresPrompt(Lower(p), kw, StrV(p), StrV(q), net, json);
  }

  /** Past the lookup, nothing depends on the prompt. */
  lemma DispatchIgnoresPrompt(name: string, kw: Kwargs, v1: Value, v2: Value, net: Net, json: JsonText)
    ensures Dispatch(name, kw["prompt" := v1], net, json) == Dispatch(name, kw["prompt" := v2], net, json)
  {
    var kw1, kw2 := kw["prompt" := v1], kw["prompt" := v2];
    if name in Tools {
      assert Handle(name, kw1, CcApiKey(kw1), json) == Handle(name, kw2, CcApiKey(kw2), json);
    }
  }

  /**
   * A string prompt is looked up by its lower-cased form; one whose
   * lower-cased form is not registered gets a message quoting that form and
   * listing the registry.
   */
  lemma UnknownToolListsRegistry(kw: Kwargs, net: Net, json: JsonText, p: string)
    requires Get(kw, "prompt", NoneV) == StrV(p) && Lower(p) !in Tools
    ensures Run(kw, net, json) == Returned(ErrorResponse("Tool " + QuoteStr(Lower(p)) + " is not in supported tools: "
                                                         + TupleRepr(Tools) + "."))
    ensures ParseTupleRepr(TupleRepr(Tools)) == Tools
  {
    ToolsPlain();
    ListingRoundTrip(Tools);
  }

  /** The registered phrases are plain, so `repr` quotes them unchanged. */
  lemma ToolsPlain()
    ensures forall i :: 0 <= i < |Tools| ==> Plain(Tools[i])
  {
    ToolsArePhrases();
    forall i | 0 <= i < |Tools| ensures Plain(Tools[i]) {
      PhraseIsPlain(Tools[i]);
    }
  }

  /** The registered phrases are lower-case. */
  lemma ToolsLowerCase()
    ensures forall i :: 0 <= i < |Tools| ==> NoUpper(Tools[i])
  {
    ToolsArePhrases();
    forall i | 0 <= i < |Tools| ensures NoUpper(Tools[i]) {
      PhraseIsPlain(Tools[i]);
    }
  }

  /** Lower-case letters and spaces only. */
  predicate Phrase(s: string)
  {
    forall i :: 0 <= i < |s| ==> s[i] == ' ' || 'a' <= s[i] <= 'z'
  }

  lemma PhraseIsPlain(s: string)
    requires Phrase(s)
    ensures Plain(s) && NoUpper(s)
  {
  }

  lemma ToolsArePhrases()
    ensures forall i :: 0 <= i < |Tools| ==> Phrase(Tools[i])
  {
    PhrasesOfCharges();
    PhrasesOfCheckouts();
    PhrasesOfEvents();
  }

  lemma PhrasesOfCharges()
    ensures Phrase("creates a charge") && Phrase("returns the charge with the order code")
    ensures Phrase("returns all charges")
  {
  }

  lemma PhrasesOfCheckouts()
    ensures Phrase("creates a new checkout") && Phrase("returns all checkout sessions")
    ensures Phrase("returns a specific checkout session")
  {
  }

  lemma PhrasesOfEvents()
    ensures Phrase("list events") && Phrase("show an event")
  {
  }

  /**
   * Because the registered phrases are lower-case, a prompt selects a
   * registered operation exactly when it equals its phrase up to case.
   */
  lemma SelectedUpToCase(kw: Kwargs, net: Net, json: JsonText, p: string, i: nat)
    requires Get(kw, "prompt", NoneV) == StrV(p) && i < |Tools|
    ensures Lower(p) == Tools[i] <==> Lower(p) == Lower(Tools[i])
    ensures Lower(p) == Tools[i] ==> Run(kw, net, json) == Dispatch(Tools[i], kw, net, json)
  {
    ToolsLowerCase();
    LowerOfNoUpper(Tools[i]);
  }

  /**
   * A missing prompt never reaches "No tool has been specified.": `.lower()`
   * on None raises, and the wrapper makes that the soft reply, with no
   * rotation.
   */
  lemma MissingPromptIsSoft(m: map<string, int>, kw: Kwargs, net: seq<string> -> Net, json: JsonText, h: seq<string>)
    requires "prompt" !in kw || kw["prompt"] == NoneV
    ensures Attempt(kw, net, json)(h) == Raised(AttributeError(NoneV, "lower"))
    ensures Execute(m, Attempt(kw, net, json), h)
            == Trace(Replied(Reply(AttributeError(NoneV, "lower").message, StrV(""), NoneV, NoneV)), [])
  {
    assert Attempt(kw, net, json)(h) == Run(kw, net(h), json);
    OtherErrorIsSoft(m, Attempt(kw, net, json), h, AttributeError(NoneV, "lower"));
  }

  /**
   * A registered operation sends its request with `cc_api_key` (default
   * `''`) and replies with the response text; the wrapper adds the pool.
   */
  lemma KnownToolReplies(m: map<string, int>, kw: Kwargs, net: seq<string> -> Net, json: JsonText, h: seq<string>,
                         p: string, request: HttpRequest, text: string)
    requires Get(kw, "prompt", NoneV) == StrV(p) && Lower(p) in Tools && "api_key" !in kw
    requires Handle(Lower(p), kw, CcApiKey(kw), json) == Ok(request) && net(h)(request) == Ok(text)
    ensures request.apiKey == (if "cc_api_key" in kw then kw["cc_api_key"] else StrV(""))
    ensures Execute(m, Attempt(kw, net, json), h) == Trace(Replied(Reply(text, NoneV, NoneV, NoneV)), [])
  {
    assert Attempt(kw, net, json)(h) == Returned(Success(text));
    ReturnedPassesThrough(m, Attempt(kw, net, json), h, Success(text));
    HandleUsesKey(Lower(p), kw, CcApiKey(kw), json);
  }

  /** Every request a handler sends carries the key it was given. */
  lemma HandleUsesKey(name: string, kw: Kwargs, apiKey: Value, json: JsonText)
    requires name in Tools
    ensures Handle(name, kw, apiKey, json).Ok? ==> Handle(name, kw, apiKey, json).value.apiKey == apiKey
  {
  }

  /**
   * Creating a charge or a checkout posts the re-serialised payload when it
   * is a JSON string, and otherwise raises before sending anything: a
   * TypeError for a payload that is not a string, a ValueError for one that
   * is not JSON.
   */
  lemma PayloadChecked(name: string, kw: Kwargs, apiKey: Value, json: JsonText)
    requires name == "creates a charge" || name == "creates a new checkout"
    ensures var payload := Get(kw, "payload", StrV(""));
            var r := Handle(name, kw, apiKey, json);
            (!payload.StrV? ==> r == Err(Exception("TypeError", None, "payload must be a string")))
            && (payload.StrV? && json(payload.s) == None ==>
                  r == Err(Exception("ValueError", None, "payload must be a valid JSON string")))
            && (payload.StrV? && json(payload.s).Some? ==>
                  r.Ok? && r.value.verb == "POST" && r.value.body == json(payload.s).value)
  {
    assert name in Tools;
  }

  /**
   * Without a `payload`, creating a charge or a checkout fails on the
   * empty default: the wrapper replies softly with the ValueError's
   * message and rotates nothing.
   */
  lemma DefaultPayloadIsSoft(m: map<string, int>, kw: Kwargs, net: seq<string> -> Net, json: JsonText,
                             h: seq<string>, p: string)
    requires RejectsEmpty(json)
    requires Get(kw, "prompt", NoneV) == StrV(p)
    requires Lower(p) == "creates a charge" || Lower(p) == "creates a new checkout"
    requires "payload" !in kw && "api_key" !in kw
    ensures Execute(m, Attempt(kw, net, json), h)
            == Trace(Replied(Reply("payload must be a valid JSON string", StrV(""), NoneV, NoneV)), [])
  {
    PayloadChecked(Lower(p), kw, CcApiKey(kw), json);
    assert Lower(p) in Tools;
    assert Handle(Lower(p), kw, CcApiKey(kw), json) == Err(ValueError("payload must be a valid JSON string"));
    assert Attempt(kw, net, json)(h) == Run(kw, net(h), json);
    OtherErrorIsSoft(m, Attempt(kw, net, json), h, ValueError("payload must be a valid JSON string"));
  }

  /** An `api_key` keyword argument makes every registered operation fail before its handler runs. */
  lemma DuplicateApiKeyRaises(kw: Kwargs, net: Net, json: JsonText, p: string)
    requires Get(kw, "prompt", NoneV) == StrV(p) && Lower(p) in Tools && "api_key" in kw
    ensures Run(kw, net, json).Raised?
    ensures Run(kw, net, json).error
            == Exception("TypeError", None, HandlerName(Lower(p)) + "() got multiple values for argument 'api_key'")
  {
  }

  // ---- the wrapped tool ----

  /** The decorated `run`: the wrapper retrying `run` with the same keyword arguments. */
  method Invoke(keys: KeysArg, kw: Kwargs, net: seq<string> -> Net, json: JsonText) returns (r: MechResult)
    modifies Footprint(keys)
    ensures keys.Absent? ==> r == Raise(KeyError("api_keys"))
    ensures keys == Given(null) ==> r == Raise(AttributeError(NoneV, "max_retries"))
    ensures keys.Given? && keys.pool != null ==>
              var t := Execute(keys.pool.limits, Attempt(kw, net, json), old(keys.pool.rotated));
              keys.pool.rotated == old(keys.pool.rotated) + t.rotations && r == Deliver(t.final, keys.pool)
  {
    r := WithKeyRotation(keys, Attempt(kw, net, json));
  }
}
