/** Start-up configuration of the tip bot (bot.js lines 10-35).

    Every setting is read as `argv[flag] || process.env[VAR]`, so the model
    needs JavaScript's `||`: it yields its left operand when that operand is
    truthy and its right operand otherwise. The model takes a flag's
    value as already parsed into a string, an integer or a boolean;
    environment variables are always strings; a missing key reads as
    `undefined`. */
module Config {
  import opened Wrappers

  /** The JavaScript values a setting can hold at this point. */
  datatype JsValue = Undefined | Str(s: string) | Num(n: int) | Bool(b: bool)

  /** JavaScript truthiness for those values: the falsy ones are exactly
      `undefined`, the empty string, `0` and `false`. */
  predicate Truthy(v: JsValue): (b: bool)
    ensures b <==> v != Undefined && v != Str("") && v != Num(0) && v != Bool(false)
  {
    match v
    case Undefined => false
    case Str(s) => s != ""
    case Num(n) => n != 0
    case Bool(b) => b
  }

  /** JavaScript `a || b`. */
  function Or(a: JsValue, b: JsValue): (r: JsValue)
    ensures Truthy(a) ==> r == a
    ensures !Truthy(a) ==> r == b
    ensures Truthy(r) <==> Truthy(a) || Truthy(b)
  {
    if Truthy(a) then a else b
  }

  /** `argv[key]`: an absent flag reads as `undefined`. */
  function Arg(argv: map<string, JsValue>, key: string): JsValue {
    if key in argv then argv[key] else Undefined
  }

  /** `process.env[name]`: an environment variable is a string or `undefined`. */
  function Env(env: map<string, string>, name: string): JsValue {
    if name in env then Str(env[name]) else Undefined
  }

  /** A setting taken from a command-line flag, else from an environment variable. */
  function Setting(argv: map<string, JsValue>, env: map<string, string>, flag: string, name: string): JsValue {
    Or(Arg(argv, flag), Env(env, name))
  }

  const DefaultRpcPort := 9998

  /** The five resolved credentials and connection values (lines 12-16). */
  datatype Settings = Settings(
    slackToken: JsValue,
    rpcUser: JsValue,
    rpcPassword: JsValue,
    rpcPort: JsValue,
    walletPassword: JsValue)

  function Resolve(argv: map<string, JsValue>, env: map<string, string>): (s: Settings)
    ensures s.slackToken == Setting(argv, env, "slack-token", "TIPBOT_SLACK_TOKEN")
    ensures s.rpcUser == Setting(argv, env, "rpc-user", "TIPBOT_RPC_USER")
    ensures s.rpcPassword == Setting(argv, env, "rpc-password", "TIPBOT_RPC_PASSWORD")
    ensures s.walletPassword == Setting(argv, env, "wallet-password", "TIPBOT_WALLET_PASSWORD")
    ensures Truthy(s.rpcPort)
    ensures !Truthy(Setting(argv, env, "rpc-port", "TIPBOT_RPC_PORT")) ==> s.rpcPort == Num(DefaultRpcPort)
    ensures Truthy(Setting(argv, env, "rpc-port", "TIPBOT_RPC_PORT")) ==> s.rpcPort == Setting(argv, env, "rpc-port", "TIPBOT_RPC_PORT")
  {
    Settings(
      Setting(argv, env, "slack-token", "TIPBOT_SLACK_TOKEN"),
      Setting(argv, env, "rpc-user", "TIPBOT_RPC_USER"),
      Setting(argv, env, "rpc-password", "TIPBOT_RPC_PASSWORD"),
      Or(Setting(argv, env, "rpc-port", "TIPBOT_RPC_PORT"), Num(DefaultRpcPort)),
      Setting(argv, env, "wallet-password", "TIPBOT_WALLET_PASSWORD"))
  }

  /** The three required values, in the order they are asserted (lines 33-35). */
  datatype StartupError = MissingSlackToken | MissingRpcUser | MissingRpcPassword

  /** Resolution followed by the three assertions: the first falsy required
      value stops start-up before anything else is set up. */
  function Startup(argv: map<string, JsValue>, env: map<string, string>): (r: Result<Settings, StartupError>)
    ensures r.Success? ==> r.value == Resolve(argv, env)
  {
    var s := Resolve(argv, env);
    if !Truthy(s.slackToken) then Failure(MissingSlackToken)
    else if !Truthy(s.rpcUser) then Failure(MissingRpcUser)
    else if !Truthy(s.rpcPassword) then Failure(MissingRpcPassword)
    else Success(s)
  }

  /** A setting is truthy exactly when its flag or its variable is. */
  predicate Given(argv: map<string, JsValue>, env: map<string, string>, flag: string, name: string) {
    Truthy(Arg(argv, flag)) || (name in env && env[name] != "")
  }

  /** Start-up succeeds exactly when each required value is supplied, by flag
      or by variable, and otherwise reports the first one missing. */
  lemma StartupOutcome(argv: map<string, JsValue>, env: map<string, string>)
    ensures Startup(argv, env).Success? <==>
      Given(argv, env, "slack-token", "TIPBOT_SLACK_TOKEN") &&
      Given(argv, env, "rpc-user", "TIPBOT_RPC_USER") &&
      Given(argv, env, "rpc-password", "TIPBOT_RPC_PASSWORD")
    ensures !Given(argv, env, "slack-token", "TIPBOT_SLACK_TOKEN") ==>
      Startup(argv, env) == Failure(MissingSlackToken)
    ensures Given(argv, env, "slack-token", "TIPBOT_SLACK_TOKEN") && !Given(argv, env, "rpc-user", "TIPBOT_RPC_USER") ==>
      Startup(argv, env) == Failure(MissingRpcUser)
    ensures (Given(argv, env, "slack-token", "TIPBOT_SLACK_TOKEN") && Given(argv, env, "rpc-user", "TIPBOT_RPC_USER") &&
             !Given(argv, env, "rpc-password", "TIPBOT_RPC_PASSWORD")) ==>
      Startup(argv, env) == Failure(MissingRpcPassword)
  {
  }

  /** A flag that is truthy wins; otherwise the variable is used as it is,
      falsy or not. */
  lemma SettingTruthy(argv: map<string, JsValue>, env: map<string, string>, flag: string, name: string)
    ensures Truthy(Setting(argv, env, flag, name)) <==> Given(argv, env, flag, name)
    ensures Truthy(Arg(argv, flag)) ==> Setting(argv, env, flag, name) == argv[flag]
    ensures !Truthy(Arg(argv, flag)) ==> Setting(argv, env, flag, name) == Env(env, name)
  {
  }

  /** The entries of the OPTIONS object (lines 18-25) that this layer reads;
      an option left out of it is `None`. */
  datatype Options = Options(
    priceChannelName: Option<string>,
    moderatorChannelName: Option<string>,
    mainChannelName: Option<string>,
    showRandomHelpTimer: Option<int>)   // minutes

  const DefaultOptions := Options(
    Some("price_speculation"), Some("moderators"), Some("dash_chat"), Some(360))

  /** Initial value of the help countdown (line 31): the timer in minutes
      times 60, the code counting one tick per second, or 0 when no timer is configured. */
  function InitialHelpTicker(opts: Options): (t: int)
    ensures opts.showRandomHelpTimer.None? ==> t == 0
    ensures opts.showRandomHelpTimer.Some? ==> t == opts.showRandomHelpTimer.value * 60
    ensures opts.showRandomHelpTimer.Some? && opts.showRandomHelpTimer.value >= 0 ==> t >= 0
  {
    match opts.showRandomHelpTimer
    case None => 0
    case Some(minutes) => minutes * 60
  }

  /** With the shipped options the first random help is shown after six hours. */
  lemma DefaultHelpTicker()
    ensures InitialHelpTicker(DefaultOptions) == 21600
  {
  }
}
