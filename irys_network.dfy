// The Irys network tool: five commands on the Irys data network, run for
// the wallet held in the credential pool under "irys_wallet". The command
// name comes in the `prompt` keyword argument. `run` checks the command,
// then the wallet, builds an SDK client for the wallet (on devnet when
// `devnet` is truthy) and then dispatches; every exception raised on the
// way is caught and reported as "An error occurred: ...". A successful
// command echoes its name in the prompt slot of the reply.
//
// What lies outside the tool is a parameter (`Env`): whether the SDK can
// build a client, what a client call or a gateway download answers,
// `eval` of a `tags` string and `int()` of values other than None, bools
// and ints.

module IrysNetwork {
  import opened Values
  import opened Mech
  import opened KeyRotation

  /** A call on the SDK client. */
  datatype ClientOp =
    | QueryAddress
    | UploadData(data: Value, tags: Value, target: Value, anchor: Value)
    | QueryPrice(bytes: int)

  /**
   * What a command sends out: a call on the client built for a wallet and
   * network (devnet or not), or a GET of a gateway URL.
   */
  datatype Request =
    | ClientCall(wallet: string, devnet: bool, op: ClientOp)
    | Fetch(url: string)

  /**
   * The parts of the world the tool relies on: `build` says whether
   * `IrysNetworkClient(wallet, devnet)` raises; `send` gives `str` of the
   * response to a request, or the exception raised; `evalTags` is `eval`
   * of a `tags` string; `toInt` is `int(v)` for values other than None,
   * bools and ints.
   */
  datatype Env = Env(build: (string, bool) -> Option<Exception>,
                     send: Request -> Result<string>,
                     evalTags: string -> Result<Value>,
                     toInt: Value -> Result<int>)

  /** The branches of the if/elif chain (`get_balance` and `fund` are commented out). */
  datatype Command = Address | Upload | GetPrice | GetData | GetTxMetadata

  /** The command names, in the order the chain tests them. */
  const Commands: seq<string> := ["address", "upload", "get_price", "get_data", "get_tx_metadata"]

  /** The branch of the chain a command name takes; None for the final `else`. */
  function Select(name: Value): Option<Command>
  {
    if name == StrV("address") then Some(Address)
    else if name == StrV("upload") then Some(Upload)
    else if name == StrV("get_price") then Some(GetPrice)
    else if name == StrV("get_data") then Some(GetData)
    else if name == StrV("get_tx_metadata") then Some(GetTxMetadata)
    else None
  }

  const Gateway: string := "https://gateway.irys.xyz/"

  /** The `TypeError` of `int(v)` on a value that is no number and no string. */
  function IntArgError(v: Value): Exception
  {
    TypeError("int() argument must be a string, a bytes-like object or a real number, not '" + TypeName(v) + "'")
  }

  /** `int(v)`. */
  function IntOf(v: Value, toInt: Value -> Result<int>): (r: Result<int>)
    ensures v.IntV? ==> r == Ok(v.i)
    ensures v.BoolV? ==> r == Ok(if v.b then 1 else 0)
    ensures v == NoneV ==> r == Err(IntArgError(NoneV))
  {
    match v
    case NoneV => Err(IntArgError(v))
    case BoolV(b) => Ok(if b then 1 else 0)
    case IntV(i) => Ok(i)
    case _ => toInt(v)
  }

  /** `f"Command {command_name!r} is not in supported commands!"`. */
  function UnknownCommand(name: Value): string
  {
    "Command " + Repr(name) + " is not in supported commands!"
  }

  /** The request a command sends, or the exception raised while preparing it. */
  function CommandRequest(c: Command, kw: Kwargs, wallet: string, devnet: bool, env: Env): Result<Request>
  {
    match c
    case Address => Ok(ClientCall(wallet, devnet, QueryAddress))
    case Upload =>
      var tags := Get(kw, "tags", NoneV);
      var evaluated := if tags.StrV? then env.evalTags(tags.s) else Ok(tags);
      (match evaluated
       case Err(e) => Err(e)
       case Ok(t) =>
         Ok(ClientCall(wallet, devnet, UploadData(Get(kw, "data", NoneV), t, Get(kw, "target", NoneV), Get(kw, "anchor", NoneV)))))
    case GetPrice =>
      (match IntOf(Get(kw, "bytes", NoneV), env.toInt)
       case Err(e) => Err(e)
       case Ok(n) => Ok(ClientCall(wallet, devnet, QueryPrice(n))))
    case GetData => Ok(Fetch(Gateway + Str(Get(kw, "tx_id", NoneV))))
    case GetTxMetadata => Ok(Fetch(Gateway + "tx/" + Str(Get(kw, "tx_id", NoneV))))
  }

  /** A command on a built client: its request is sent, and the reply echoes the command name. */
  function Perform(name: Value, c: Command, kw: Kwargs, wallet: string, devnet: bool, env: Env): Result<Reply>
  {
    match CommandRequest(c, kw, wallet, devnet, env)
    case Err(e) => Err(e)
    case Ok(request) =>
      match env.send(request)
      case Err(e) => Err(e)
      case Ok(text) => Ok(Reply(text, name, NoneV, NoneV))
  }

  /** The `try` block of `run`: the reply it returns, or the exception it raises. */
  function Guarded(name: Value, kw: Kwargs, wallet: Option<string>, env: Env): Result<Reply>
  {
    if wallet.None? then Ok(ErrorResponse("No wallet has been specified."))
    else
      var devnet := Truthy(Get(kw, "devnet", BoolV(false)));
      match env.build(wallet.value, devnet)
      case Some(e) => Err(e)
      case None =>
        match Select(name)
        case None => Ok(ErrorResponse(UnknownCommand(name)))
        case Some(c) => Perform(name, c, kw, wallet.value, devnet, env)
  }

  /**
   * `run(**kwargs)` with `wallet` the credential the pool hands out for
   * "irys_wallet". Nothing escapes: the `try` catches every exception.
   */
  function Run(kw: Kwargs, wallet: Option<string>, env: Env): Reply
  {
    var name := Get(kw, "prompt", NoneV);
    if name == NoneV then ErrorResponse("No command has been specified.")
    else
      match Guarded(name, kw, wallet, env)
      case Ok(reply) => reply
      case Err(e) => ErrorOccurred(e)
  }

  /** The inner call the wrapper makes: the wallet is looked up in the pool as it is after `h`. */
  function Attempt(kw: Kwargs, credentials: (seq<string>, string) -> Option<string>, env: Env): Call
  {
    h => Returned(Run(kw, credentials(h, "irys_wallet"), env))
  }

  // ---- properties ----

  /** The chain accepts exactly the five command names. */
  lemma {:induction false} SelectAcceptsCommands(name: Value)
    ensures Select(name).Some? <==> name.StrV? && name.s in Commands
  {
    if name.StrV? && name.s in Commands {
      var i :| 0 <= i < |Commands| && Commands[i] == name.s;
      assert i == 0 || i == 1 || i == 2 || i == 3 || i == 4;
    }
  }

  /** Without a command, nothing else is looked at. */
  lemma NoCommandSpecified(kw: Kwargs, wallet: Option<string>, env: Env)
    requires "prompt" !in kw || kw["prompt"] == NoneV
    ensures Run(kw, wallet, env) == Reply("No command has been specified.", NoneV, NoneV, NoneV)
  {
  }

  /** Without a wallet, any command, known or not, gets the wallet message: the wallet is checked first. */
  lemma WalletCheckedFirst(kw: Kwargs, env: Env)
    requires "prompt" in kw && kw["prompt"] != NoneV
    ensures Run(kw, None, env) == Reply("No wallet has been specified.", NoneV, NoneV, NoneV)
  {
  }

  /**
   * A client that cannot be built makes every command, known or not,
   * report the error: the client is built before the command is looked at.
   */
  lemma BuildErrorReported(kw: Kwargs, wallet: string, env: Env, e: Exception)
    requires "prompt" in kw && kw["prompt"] != NoneV
    requires env.build(wallet, Truthy(Get(kw, "devnet", BoolV(false)))) == Some(e)
    ensures Run(kw, Some(wallet), env) == Reply("An error occurred: " + e.message, NoneV, NoneV, NoneV)
  {
  }

  /**
   * With a wallet and a client, the unknown-command message is the reply
   * exactly when the command is not one of the five.
   */
  lemma AcceptedCommandsExactly(kw: Kwargs, wallet: string, env: Env)
    requires "prompt" in kw && kw["prompt"] != NoneV
    requires env.build(wallet, Truthy(Get(kw, "devnet", BoolV(false)))) == None
    ensures var name := kw["prompt"];
            Run(kw, Some(wallet), env) == ErrorResponse(UnknownCommand(name))
            <==> !(name.StrV? && name.s in Commands)
  {
    var name := kw["prompt"];
    SelectAcceptsCommands(name);
    var r := Run(kw, Some(wallet), env);
    match Select(name)
    case None =>
    case Some(c) =>
      var u := UnknownCommand(name);
      assert u[0] == 'C';
      match Perform(name, c, kw, wallet, Truthy(Get(kw, "devnet", BoolV(false))), env)
      case Ok(reply) =>
        assert reply.prompt == name;
      case Err(e) =>
        assert r.response[0] == 'A';
  }

  /** `get_balance` and `fund` are not accepted. */
  lemma CommentedOutCommandsRejected(kw: Kwargs, wallet: string, env: Env, name: string)
    requires name == "get_balance" || name == "fund"
    requires "prompt" in kw && kw["prompt"] == StrV(name)
    requires env.build(wallet, Truthy(Get(kw, "devnet", BoolV(false)))) == None
    ensures name !in Commands
    ensures Run(kw, Some(wallet), env) == ErrorResponse("Command " + "'" + name + "'" + " is not in supported commands!")
  {
    Unselected(name);
    assert Run(kw, Some(wallet), env) == ErrorResponse(UnknownCommand(StrV(name)));
    QuotedName(name);
  }

  lemma Unselected(name: string)
    requires name == "get_balance" || name == "fund"
    ensures name !in Commands && Select(StrV(name)) == None
  {
    SelectAcceptsCommands(StrV(name));
  }

  lemma QuotedName(name: string)
    requires name == "get_balance" || name == "fund"
    ensures UnknownCommand(StrV(name)) == "Command " + "'" + name + "'" + " is not in supported commands!"
  {
    assert Plain(name);
    QuotePlain(name);
  }

  /**
   * The prompt slot is filled exactly when a command fully succeeds, and
   * then it echoes the command; every other reply has None there.
   */
  lemma PromptEchoesSuccess(kw: Kwargs, wallet: Option<string>, env: Env)
    ensures var r := Run(kw, wallet, env);
            var name := Get(kw, "prompt", NoneV);
            r.prompt != NoneV <==>
              name != NoneV && Select(name).Some? && wallet.Some?
              && var devnet := Truthy(Get(kw, "devnet", BoolV(false)));
                 env.build(wallet.value, devnet) == None
                 && var q := CommandRequest(Select(name).value, kw, wallet.value, devnet, env);
                    q.Ok? && env.send(q.value).Ok?
    ensures var r := Run(kw, wallet, env);
            r.prompt != NoneV ==> r.prompt == Get(kw, "prompt", NoneV) && r.transaction == NoneV && r.cost == NoneV
  {
  }

  /** A successful `address` replies with the client's answer and echoes "address". */
  lemma AddressReply(kw: Kwargs, wallet: string, env: Env, text: string)
    requires "prompt" in kw && kw["prompt"] == StrV("address")
    requires var devnet := Truthy(Get(kw, "devnet", BoolV(false)));
             env.build(wallet, devnet) == None && env.send(ClientCall(wallet, devnet, QueryAddress)) == Ok(text)
    ensures Run(kw, Some(wallet), env) == Reply(text, StrV("address"), NoneV, NoneV)
  {
  }

  /** `upload` passes its four arguments, a `tags` string replaced by what `eval` makes of it. */
  lemma UploadArguments(kw: Kwargs, wallet: string, devnet: bool, env: Env)
    ensures var tags := Get(kw, "tags", NoneV);
            var args := (Get(kw, "data", NoneV), Get(kw, "target", NoneV), Get(kw, "anchor", NoneV));
            var q := CommandRequest(Upload, kw, wallet, devnet, env);
            if tags.StrV? then
              (env.evalTags(tags.s).Err? ==> q == Err(env.evalTags(tags.s).error))
              && (env.evalTags(tags.s).Ok? ==>
                    q == Ok(ClientCall(wallet, devnet, UploadData(args.0, env.evalTags(tags.s).value, args.1, args.2))))
            else q == Ok(ClientCall(wallet, devnet, UploadData(args.0, tags, args.1, args.2)))
  {
  }

  /** `get_price` asks the client for the price of `int(bytes)` bytes, and fails on a missing `bytes`. */
  lemma PriceRequest(kw: Kwargs, wallet: string, devnet: bool, env: Env)
    ensures var bytes := Get(kw, "bytes", NoneV);
            var q := CommandRequest(GetPrice, kw, wallet, devnet, env);
            && (bytes.IntV? ==> q == Ok(ClientCall(wallet, devnet, QueryPrice(bytes.i))))
            && (bytes == NoneV ==> q == Err(IntArgError(NoneV)))
  {
  }

  /** `get_price` without `bytes` fails in `int(None)` and reports it. */
  lemma PriceNeedsBytes(kw: Kwargs, wallet: string, env: Env)
    requires "prompt" in kw && kw["prompt"] == StrV("get_price") && "bytes" !in kw
    requires env.build(wallet, Truthy(Get(kw, "devnet", BoolV(false)))) == None
    ensures Run(kw, Some(wallet), env) == ErrorOccurred(IntArgError(NoneV))
  {
    PriceRequest(kw, wallet, Truthy(Get(kw, "devnet", BoolV(false))), env);
  }

  /** The two download commands fetch the transaction from the gateway, data or metadata. */
  lemma GatewayUrls(kw: Kwargs, wallet: string, devnet: bool, env: Env)
    ensures var tx := Str(Get(kw, "tx_id", NoneV));
            CommandRequest(GetData, kw, wallet, devnet, env) == Ok(Fetch(Gateway + tx))
            && CommandRequest(GetTxMetadata, kw, wallet, devnet, env) == Ok(Fetch(Gateway + "tx/" + tx))
  {
  }

  /**
   * `run` never raises, so the wrapper calls it exactly once, rotates
   * nothing and passes its reply on.
   */
  lemma NeverRotates(m: map<string, int>, kw: Kwargs, credentials: (seq<string>, string) -> Option<string>,
                     env: Env, h: seq<string>)
    ensures Execute(m, Attempt(kw, credentials, env), h) == Trace(Replied(Run(kw, credentials(h, "irys_wallet"), env)), [])
  {
    assert Attempt(kw, credentials, env)(h) == Returned(Run(kw, credentials(h, "irys_wallet"), env));
    ReturnedPassesThrough(m, Attempt(kw, credentials, env), h, Run(kw, credentials(h, "irys_wallet"), env));
  }

  /** The decorated `run`: one attempt with the pool's current wallet, the pool untouched. */
  method Invoke(keys: KeysArg, kw: Kwargs, env: Env) returns (r: MechResult)
    modifies Footprint(keys)
    ensures keys.Absent? ==> r == Raise(KeyError("api_keys"))
    ensures keys == Given(null) ==> r == Raise(AttributeError(NoneV, "max_retries"))
    ensures keys.Given? && keys.pool != null ==>
              keys.pool.rotated == old(keys.pool.rotated)
              && r == Respond(Run(kw, keys.pool.credentials(old(keys.pool.rotated), "irys_wallet"), env), keys.pool)
  {
    var credentials: (seq<string>, string) -> Option<string> := (_, _) => None;
    if keys.Given? && keys.pool != null {
      credentials := keys.pool.credentials;
      NeverRotates(keys.pool.limits, kw, credentials, env, keys.pool.rotated);
    }
    r := WithKeyRotation(keys, Attempt(kw, credentials, env));
  }
}
