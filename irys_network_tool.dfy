// The second Irys network tool: seven commands on a devnet SDK client,
// the command name in the `prompt` keyword argument. `run` builds the
// client before it looks at the command, and builds it as
// `IrysNetworkClient()`, without the wallet its constructor requires, so
// the construction raises a `TypeError` on every call: each command, known
// or not, is reported as "An error occurred: ...", and the dispatch behind
// it is never reached. The dispatch is modelled all the same, as the code
// writes it.
//
// The SDK is a parameter (`Sdk`): what `str` of a client call's answer is,
// or the exception it raises.

module IrysNetworkTool {
  import opened Text
  import opened Values
  import opened Mech
  import opened KeyRotation

  /** An `IrysNetworkClient`, with the wallet it was built for. */
  datatype Client = Client(wallet: Value)

  /** A call on the SDK client (`fund` with its default multiplier 1.0). */
  datatype ClientOp =
    | QueryAddress
    | UploadData(data: Value, tags: Value, target: Value, anchor: Value)
    | QueryBalance
    | QueryPrice(bytes: Value)
    | FundAccount(amountAtomic: Value)

  /** `str` of the answer of a client call, or the exception it raises. */
  type Sdk = (Client, ClientOp) -> Result<string>

  /** `IrysNetworkClient(*args)`: the constructor takes exactly one positional argument, `wallet`. */
  function NewClient(args: seq<Value>): (r: Result<Client>)
    ensures r.Ok? <==> |args| == 1
    ensures |args| == 1 ==> r == Ok(Client(args[0]))
    ensures r.Err? ==> r.error.className == "TypeError"
  {
    if |args| == 0 then Err(TypeError("IrysNetworkClient.__init__() missing 1 required positional argument: 'wallet'"))
    else if |args| == 1 then Ok(Client(args[0]))
    else Err(TypeError("IrysNetworkClient.__init__() takes 2 positional arguments but " + IntToString(|args| + 1)
                       + " were given"))
  }

  /** The branches of the if/elif chain. */
  datatype Command = Address | Upload | GetBalance | GetPrice | Fund | GetData | GetTxMetadata

  /** The command names, in the order the chain tests them. */
  const Commands: seq<string> := ["address", "upload", "get_balance", "get_price", "fund", "get_data", "get_tx_metadata"]

  /** The branch of the chain a command name takes; None for the final `else`. */
  function Select(name: Value): Option<Command>
  {
    if name == StrV("address") then Some(Address)
    else if name == StrV("upload") then Some(Upload)
    else if name == StrV("get_balance") then Some(GetBalance)
    else if name == StrV("get_price") then Some(GetPrice)
    else if name == StrV("fund") then Some(Fund)
    else if name == StrV("get_data") then Some(GetData)
    else if name == StrV("get_tx_metadata") then Some(GetTxMetadata)
    else None
  }

  /** Looking up a method the client class does not define. */
  function NoClientMethod(attribute: string): Exception
  {
    Exception("AttributeError", None, "'IrysNetworkClient' object has no attribute '" + attribute + "'")
  }

  /**
   * The `handle_*` functions. `handle_get_data` and `handle_get_tx_metadata`
   * call client methods that do not exist (the functions of those names are
   * module-level), so they raise.
   */
  function Handle(c: Command, client: Client, kw: Kwargs, sdk: Sdk): Result<string>
  {
    match c
    case Address => sdk(client, QueryAddress)
    case Upload =>
      sdk(client, UploadData(Get(kw, "data", NoneV), Get(kw, "tags", NoneV), Get(kw, "target", NoneV), Get(kw, "anchor", NoneV)))
    case GetBalance => sdk(client, QueryBalance)
    case GetPrice => sdk(client, QueryPrice(Get(kw, "bytes", NoneV)))
    case Fund => sdk(client, FundAccount(Get(kw, "amount_atomic", NoneV)))
    case GetData => Err(NoClientMethod("get_data"))
    case GetTxMetadata => Err(NoClientMethod("get_tx_metadata"))
  }

  /** `f"Command {command_name!r} is not in supported commands!"`. */
  function UnknownCommand(name: Value): string
  {
    "Command " + Repr(name) + " is not in supported commands!"
  }

  /** The branches that call their handler as `handle_*(client, **kwargs)`. */
  predicate PassesKwargs(c: Command)
  {
    c !in {Address, GetBalance}
  }

  /** The name of a branch's handler function. */
  function HandlerName(c: Command): string
  {
    match c
    case Address => "handle_address"
    case Upload => "handle_upload"
    case GetBalance => "handle_get_balance"
    case GetPrice => "handle_get_price"
    case Fund => "handle_fund"
    case GetData => "handle_get_data"
    case GetTxMetadata => "handle_get_tx_metadata"
  }

  /**
   * The chain after the client is built: the reply, or the exception a
   * handler raised. `handle_*(client, **kwargs)` passes `client` a second
   * time when the keyword arguments hold one, and the call raises before the
   * handler's body runs.
   */
  function Dispatch(name: Value, client: Client, kw: Kwargs, sdk: Sdk): Result<Reply>
  {
    match Select(name)
    case None => Ok(ErrorResponse(UnknownCommand(name)))
    case Some(c) =>
      if PassesKwargs(c) && "client" in kw then
        Err(TypeError(HandlerName(c) + "() got multiple values for argument 'client'"))
      else
        match Handle(c, client, kw, sdk)
        case Err(e) => Err(e)
        case Ok(text) => Ok(Success(text))
  }

  /** The `try` block of `run`: build the client with no arguments, then dispatch. */
  function Guarded(name: Value, kw: Kwargs, sdk: Sdk): Result<Reply>
  {
    match NewClient([])
    case Err(e) => Err(e)
    case Ok(client) => Dispatch(name, client, kw, sdk)
  }

  /** `run(**kwargs)`: nothing escapes, the `try` catches every exception. */
  function Run(kw: Kwargs, sdk: Sdk): Reply
  {
    var name := Get(kw, "prompt", NoneV);
    if name == NoneV then ErrorResponse("No command has been specified.")
    else
      match Guarded(name, kw, sdk)
      case Ok(reply) => reply
      case Err(e) => ErrorOccurred(e)
  }

  // ---- properties ----

  /** The chain accepts exactly the seven command names. */
  lemma {:induction false} SelectAcceptsCommands(name: Value)
    ensures Select(name).Some? <==> name.StrV? && name.s in Commands
  {
    if name.StrV? && name.s in Commands {
      var i :| 0 <= i < |Commands| && Commands[i] == name.s;
      assert i == 0 || i == 1 || i == 2 || i == 3 || i == 4 || i == 5 || i == 6;
    }
  }

  /** Without a command, the reply says so. */
  lemma NoCommandSpecified(kw: Kwargs, sdk: Sdk)
    requires "prompt" !in kw || kw["prompt"] == NoneV
    ensures Run(kw, sdk) == Reply("No command has been specified.", NoneV, NoneV, NoneV)
  {
  }

  /** The client is built without its wallet, which always raises. */
  lemma ConstructionAlwaysFails()
    ensures NewClient([]) == Err(TypeError("IrysNetworkClient.__init__() missing 1 required positional argument: 'wallet'"))
  {
  }

  /**
   * Every command, known or not, gets the construction error, whatever the
   * SDK would have answered.
   */
  lemma EveryCommandFails(kw: Kwargs, sdk: Sdk)
    requires "prompt" in kw && kw["prompt"] != NoneV
    ensures Run(kw, sdk)
            == Reply("An error occurred: " + "IrysNetworkClient.__init__() missing 1 required positional argument: 'wallet'",
                     NoneV, NoneV, NoneV)
  {
    ConstructionAlwaysFails();
  }

  /** The unknown-command message is never the reply: the construction fails before the chain. */
  lemma UnknownCommandUnreachable(kw: Kwargs, sdk: Sdk, v: Value)
    ensures Run(kw, sdk).response != UnknownCommand(v)
  {
    var u := UnknownCommand(v);
    assert u[0] == 'C';
    var r := Run(kw, sdk);
    if Get(kw, "prompt", NoneV) == NoneV {
      assert r.response[0] == 'N';
    } else {
      ConstructionAlwaysFails();
      assert r.response[0] == 'A';
    }
  }

  /** Unlike the other Irys tool, the prompt slot is never filled. */
  lemma PromptSlotAlwaysNone(kw: Kwargs, sdk: Sdk)
    ensures Run(kw, sdk).prompt == NoneV
  {
    if Get(kw, "prompt", NoneV) != NoneV {
      ConstructionAlwaysFails();
    }
  }

  /**
   * Even on a built client, `get_data` and `get_tx_metadata` raise: the
   * client has no method of either name.
   */
  lemma DownloadsHaveNoClientMethod(client: Client, kw: Kwargs, sdk: Sdk)
    ensures "client" !in kw ==> Dispatch(StrV("get_data"), client, kw, sdk) == Err(NoClientMethod("get_data"))
    ensures "client" !in kw ==> Dispatch(StrV("get_tx_metadata"), client, kw, sdk) == Err(NoClientMethod("get_tx_metadata"))
  {
    SelectGetData();
    SelectGetTxMetadata();
  }

  lemma SelectGetData()
    ensures Select(StrV("get_data")) == Some(GetData)
  {
    assert |"get_data"| == 8;
  }

  lemma SelectGetTxMetadata()
    ensures Select(StrV("get_tx_metadata")) == Some(GetTxMetadata)
  {
    assert |"get_tx_metadata"| == 15;
  }

  /**
   * On a built client, the other five commands reply with `str` of the SDK's
   * answer; `address` and `get_balance` do so whatever the keyword arguments,
   * the three others when they hold no `client`.
   */
  lemma ClientCommandsReply(name: Value, client: Client, kw: Kwargs, sdk: Sdk)
    requires Select(name).Some? && Select(name).value !in {GetData, GetTxMetadata}
    ensures var answer := Handle(Select(name).value, client, kw, sdk);
            (!PassesKwargs(Select(name).value) || "client" !in kw) ==>
              (answer.Ok? ==> Dispatch(name, client, kw, sdk) == Ok(Reply(answer.value, NoneV, NoneV, NoneV)))
              && (answer.Err? ==> Dispatch(name, client, kw, sdk) == Err(answer.error))
  {
  }

  /**
   * A `client` keyword argument makes every `handle_*(client, **kwargs)`
   * call raise TypeError, before the SDK or the missing client methods are
   * reached.
   */
  lemma DuplicateClientRaises(name: Value, client: Client, kw: Kwargs, sdk: Sdk)
    requires "client" in kw
    ensures Select(name).Some? && PassesKwargs(Select(name).value) ==>
            Dispatch(name, client, kw, sdk)
            == Err(TypeError(HandlerName(Select(name).value) + "() got multiple values for argument 'client'"))
    ensures !(Select(name).Some? && PassesKwargs(Select(name).value)) ==>
            Dispatch(name, client, kw, sdk) == Dispatch(name, client, kw - {"client"}, sdk)
  {
  }

  /**
   * `run` never raises, so the wrapper calls it exactly once, rotates
   * nothing and passes its reply on.
   */
  lemma NeverRotates(m: map<string, int>, kw: Kwargs, sdk: Sdk, h: seq<string>)
    ensures Execute(m, _ => Returned(Run(kw, sdk)), h) == Trace(Replied(Run(kw, sdk)), [])
  {
    ReturnedPassesThrough(m, _ => Returned(Run(kw, sdk)), h, Run(kw, sdk));
  }

  /** The decorated `run`: one attempt, the pool untouched. */
  method Invoke(keys: KeysArg, kw: Kwargs, sdk: Sdk) returns (r: MechResult)
    modifies Footprint(keys)
    ensures keys.Absent? ==> r == Raise(KeyError("api_keys"))
    ensures keys == Given(null) ==> r == Raise(AttributeError(NoneV, "max_retries"))
    ensures keys.Given? && keys.pool != null ==>
              keys.pool.rotated == old(keys.pool.rotated) && r == Respond(Run(kw, sdk), keys.pool)
  {
    if keys.Given? && keys.pool != null {
      NeverRotates(keys.pool.limits, kw, sdk, keys.pool.rotated);
    }
    r := WithKeyRotation(keys, _ => Returned(Run(kw, sdk)));
  }
}
