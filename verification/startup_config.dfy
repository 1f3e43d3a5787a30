/** Validation of the per-server startup configuration (`McpStartupConfig`)
    and of the servers map (`McpServersConfig`). A server is launched either
    as a process (`command`, `args`, `env`) or reached over HTTP (`url`,
    `headers`); exactly one of `command` and `url` must be given, and the
    transport is derived from which one it is, never stored. */
module StartupConfig {
  import opened Wrappers
  import opened Strings

  /** How the engine reaches a server. */
  datatype Transport = Stdio | Http {
    /** The value of the `transport` property. */
    function Name(): string {
      match this
      case Stdio => "stdio"
      case Http => "http"
    }
  }

  /** The fields as supplied in the configuration file; `None` means omitted. */
  datatype RawConfig = RawConfig(
    command: Option<string>,
    args: Option<seq<string>>,
    env: Option<map<string, string>>,
    url: Option<string>,
    headers: Option<map<string, string>>,
    timeout: Option<real>,
    overwrite: Option<bool>,
    ignore: Option<bool>,
    hints: Option<seq<string>>,
    blockedTools: Option<seq<string>>)

  /** A constructed configuration: every optional field has its value. */
  datatype Config = Config(
    command: Option<string>,
    args: seq<string>,
    env: map<string, string>,
    url: Option<string>,
    headers: map<string, string>,
    timeout: real,
    overwrite: bool,
    ignore: bool,
    hints: Option<seq<string>>,
    blockedTools: Option<seq<string>>)
  {
    /** Exactly one of `command` and `url` is present. */
    predicate Valid() {
      command.Some? != url.Some?
    }

    /** The derived `transport` property. */
    function Transport(): Transport {
      if command.Some? then Stdio else Http
    }
  }

  /** Why a configuration was refused. */
  datatype ConfigError = BothTransports | NoTransport {
    /** The validator's error text. The tests check only that the refusal
        text contains each phrase; the model takes the "both" phrase as the
        whole message and the "neither" phrase as its start. */
    function Message(): (r: string)
      ensures BothTransports? ==> r == "Cannot specify both 'url' and 'command'"
      ensures NoTransport? ==> "Must specify either 'url'" <= r
      ensures BothTransports? ==> !("Must specify either 'url'" <= r)
    {
      match this
      case BothTransports =>
        var m := "Cannot specify both 'url' and 'command'";
        assert m[0] != "Must specify either 'url'"[0];
        m
      case NoTransport => "Must specify either 'url' or 'command'"
    }
  }

  /** Startup budget in seconds when `timeout` is omitted. */
  const DefaultTimeout: real := 30.0

  /** Construct a configuration, filling defaults and enforcing the exactly-one-of rule. */
  function Validate(raw: RawConfig): (r: Result<Config, ConfigError>)
    ensures r.Success? <==> (raw.command.Some? <==> raw.url.None?)
    ensures raw.command.Some? && raw.url.Some? ==> r == Failure(BothTransports)
    ensures raw.command.None? && raw.url.None? ==> r == Failure(NoTransport)
    ensures r.Success? ==> r.value.Valid()
    ensures r.Success? ==> (r.value.Transport() == Stdio <==> raw.command.Some?)
    ensures r.Success? ==> Agrees(raw, r.value) && DefaultsFilled(raw, r.value)
  {
    if raw.command.Some? && raw.url.Some? then Failure(BothTransports)
    else if raw.command.None? && raw.url.None? then Failure(NoTransport)
    else Success(Config(
      raw.command,
      raw.args.GetOr([]),
      raw.env.GetOr(map[]),
      raw.url,
      raw.headers.GetOr(map[]),
      raw.timeout.GetOr(DefaultTimeout),
      raw.overwrite.GetOr(false),
      raw.ignore.GetOr(false),
      raw.hints,
      raw.blockedTools))
  }

  /** Every field the file supplies is kept verbatim. */
  predicate Agrees(raw: RawConfig, c: Config) {
    && c.command == raw.command
    && c.url == raw.url
    && (raw.args.Some? ==> c.args == raw.args.value)
    && (raw.env.Some? ==> c.env == raw.env.value)
    && (raw.headers.Some? ==> c.headers == raw.headers.value)
    && (raw.timeout.Some? ==> c.timeout == raw.timeout.value)
    && (raw.overwrite.Some? ==> c.overwrite == raw.overwrite.value)
    && (raw.ignore.Some? ==> c.ignore == raw.ignore.value)
    && c.hints == raw.hints
    && c.blockedTools == raw.blockedTools
  }

  /** Every field the file omits takes its fixed default. */
  predicate DefaultsFilled(raw: RawConfig, c: Config) {
    && (raw.args.None? ==> c.args == [])
    && (raw.env.None? ==> c.env == map[])
    && (raw.headers.None? ==> c.headers == map[])
    && (raw.timeout.None? ==> c.timeout == DefaultTimeout)
    && (raw.overwrite.None? ==> !c.overwrite)
    && (raw.ignore.None? ==> !c.ignore)
  }

  /** The configuration written back out with every field explicit. */
  function ToRaw(c: Config): RawConfig {
    RawConfig(c.command, Some(c.args), Some(c.env), c.url, Some(c.headers),
              Some(c.timeout), Some(c.overwrite), Some(c.ignore), c.hints, c.blockedTools)
  }

  /** A refused configuration's text contains the phrase the tests look for;
      the model takes the "both" phrase as the whole message and the
      "neither" phrase as its start. */
  lemma RefusalMessages(raw: RawConfig)
    ensures raw.command.Some? && raw.url.Some? ==>
      Validate(raw).error.Message() == "Cannot specify both 'url' and 'command'"
    ensures raw.command.None? && raw.url.None? ==> "Must specify either 'url'" <= Validate(raw).error.Message()
    ensures raw.command.Some? && raw.url.Some? ==>
      Contains(Validate(raw).error.Message(), "Cannot specify both 'url' and 'command'")
    ensures raw.command.None? && raw.url.None? ==> Contains(Validate(raw).error.Message(), "Must specify either 'url'")
  {
    if raw.command.Some? != raw.url.Some? {
    } else {
      var m := Validate(raw).error.Message();
      assert m[0..] == m;
    }
  }

  /** Writing a valid configuration out in full and constructing it again gives it back. */
  lemma RoundTrip(c: Config)
    requires c.Valid()
    ensures Validate(ToRaw(c)) == Success(c)
  {
  }

  /** Construction is idempotent: a constructed configuration, written out, constructs to itself. */
  lemma ValidateIdempotent(raw: RawConfig)
    requires Validate(raw).Success?
    ensures Validate(ToRaw(Validate(raw).value)) == Validate(raw)
  {
    RoundTrip(Validate(raw).value);
  }

  /** A configuration naming only a command: a stdio server with every default. */
  function OnlyCommand(command: string): RawConfig {
    RawConfig(Some(command), None, None, None, None, None, None, None, None, None)
  }

  /** A configuration naming only a URL: an HTTP server with every default. */
  function OnlyUrl(url: string): RawConfig {
    RawConfig(None, None, None, Some(url), None, None, None, None, None, None)
  }

  lemma MinimalStdioConfig(command: string)
    ensures Validate(OnlyCommand(command))
         == Success(Config(Some(command), [], map[], None, map[], 30.0, false, false, None, None))
    ensures Validate(OnlyCommand(command)).value.Transport().Name() == "stdio"
  {
  }

  lemma MinimalHttpConfig(url: string)
    ensures Validate(OnlyUrl(url)).Success?
    ensures Validate(OnlyUrl(url)).value.url == Some(url)
    ensures Validate(OnlyUrl(url)).value.headers == map[]
    ensures Validate(OnlyUrl(url)).value.timeout == 30.0
    ensures Validate(OnlyUrl(url)).value.Transport().Name() == "http"
  {
  }

  /** The transport depends on nothing but which of `command` and `url` is present. */
  lemma TransportFromPresenceOnly(a: RawConfig, b: RawConfig)
    requires Validate(a).Success? && Validate(b).Success?
    ensures Validate(a).value.Transport() == Validate(b).value.Transport()
        <==> (a.command.Some? <==> b.command.Some?)
  {
  }

  /** `tool in config.blocked_tools`, with an omitted list blocking nothing. */
  predicate Blocks(c: Config, tool: string) {
    c.blockedTools.Some? && tool in c.blockedTools.value
  }

  /** Exactly the listed tool names are blocked. */
  lemma BlockedToolsMembership(raw: RawConfig, names: seq<string>, tool: string)
    requires Validate(raw).Success? && raw.blockedTools == Some(names)
    ensures Blocks(Validate(raw).value, tool) <==> tool in names
  {
  }

  /** Construct the servers map: every entry is validated on its own; the map is
      accepted when all entries are, and otherwise refused with the error of
      every invalid entry under its name. */
  function ValidateServers(servers: map<string, RawConfig>): (r: Result<map<string, Config>, map<string, ConfigError>>)
    ensures r.Success? <==> forall name :: name in servers ==> Validate(servers[name]).Success?
    ensures r.Success? ==> r.value.Keys == servers.Keys
    ensures r.Success? ==> forall name :: name in r.value ==> Validate(servers[name]) == Success(r.value[name])
    ensures r.Success? ==> forall name :: name in r.value ==>
      (r.value[name].Transport() == Stdio <==> servers[name].command.Some?)
    ensures r.Failure? ==> r.error != map[]
    ensures r.Failure? ==> forall name :: name in servers ==> (name in r.error <==> Validate(servers[name]).Failure?)
    ensures r.Failure? ==> forall name :: name in r.error ==> name in servers && Validate(servers[name]) == Failure(r.error[name])
  {
    var refused := map name | name in servers && Validate(servers[name]).Failure? :: Validate(servers[name]).error;
    if refused == map[] then
      assert forall name :: name in servers ==> name !in refused;
      Success(map name | name in servers :: Validate(servers[name]).value)
    else
      Failure(refused)
  }

  /** An empty servers map is a valid configuration. */
  lemma EmptyServersConfig()
    ensures ValidateServers(map[]) == Success(map[])
  {
  }
}
