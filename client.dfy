/**
 * The API client object (src/Client.php). Construction insists on a `url`; the
 * JSON-RPC transport it then builds is outside this model and is given as a
 * function from a call to its decoded response. The ghost log `sent` records
 * every call handed to the transport, so that each operation can state that
 * nothing is sent unless all of its checks passed.
 */
module ClientApi {
  import opened Values
  import opened Helper
  import opened Operations

  /** The constructor's only check: the configuration must name an endpoint. */
  datatype ConfigError = MissingUrl

  /** What a public method returns: the transport's response, or the validation error it threw. */
  type Reply = Result<Value, ValidationError>

  /** The endpoint of a configuration array, if it has one. */
  function EndpointOf(config: Params): (r: Result<Value, ConfigError>)
    ensures r.Err? <==> "url" !in config
    ensures r.Ok? ==> r.value == config["url"]
  {
    if "url" in config then Ok(config["url"]) else Err(MissingUrl)
  }

  class Client {
    /** The endpoint handed to the HTTP client. */
    const url: Value
    /** The transport: the decoded response to each call. */
    const transport: Call -> Value
    /** Every call handed to the transport so far, oldest first. */
    ghost var sent: seq<Call>

    constructor Init(url: Value, transport: Call -> Value)
      ensures this.url == url && this.transport == transport && sent == []
    {
      this.url := url;
      this.transport := transport;
      sent := [];
    }

    /** `new Client($config)`: fails when `url` is absent, before any client exists. */
    static method Connect(config: Params, transport: Call -> Value) returns (r: Result<Client, ConfigError>)
      ensures r.Err? <==> "url" !in config
      ensures r.Ok? ==> fresh(r.value) && r.value.url == config["url"]
                        && r.value.transport == transport && r.value.sent == []
    {
      var endpoint :- EndpointOf(config);
      var client := new Client.Init(endpoint, transport);
      return Ok(client);
    }

    /** The reply to a validated call, or the validation error. */
    function Answer(out: Outgoing): Reply {
      match out
      case Ok(call) => Ok(transport(call))
      case Err(e) => Err(e)
    }

    /** `execute`, reached only when validation passed: the call goes to the transport. */
    method Send(out: Outgoing) returns (r: Reply)
      modifies this
      ensures r == Answer(out)
      ensures sent == old(sent) + (if out.Ok? then [out.value] else [])
    {
      match out
      case Ok(call) =>
        sent := sent + [call];
        r := Ok(transport(call));
      case Err(e) =>
        r := Err(e);
    }

    method ListGames() returns (r: Reply)
      modifies this
      ensures r == Ok(transport(Call("Game.List", map[])))
      ensures sent == old(sent) + [Call("Game.List", map[])]
    {
      r := Send(Operations.ListGames());
    }

    method CreateBankGroup(bankGroup: Params) returns (r: Reply)
      modifies this
      ensures r == Answer(Operations.CreateBankGroup(bankGroup))
      ensures sent == old(sent) + (if Operations.CreateBankGroup(bankGroup).Ok?
                                   then [Call("BankGroup.Create", bankGroup)] else [])
    {
      r := Send(Operations.CreateBankGroup(bankGroup));
    }

    method ApplySettingsTemplate(bankGroup: Params) returns (r: Reply)
      modifies this
      ensures r == Answer(Operations.ApplySettingsTemplate(bankGroup))
      ensures sent == old(sent) + (if Operations.ApplySettingsTemplate(bankGroup).Ok?
                                   then [Call("BankGroup.ApplySettingsTemplate", bankGroup)] else [])
    {
      r := Send(Operations.ApplySettingsTemplate(bankGroup));
    }

    method CreatePlayer(player: Params) returns (r: Reply)
      modifies this
      ensures r == Answer(Operations.CreatePlayer(player))
      ensures sent == old(sent) + (if Operations.CreatePlayer(player).Ok?
                                   then [Call("Player.Create", player)] else [])
    {
      r := Send(Operations.CreatePlayer(player));
    }

    method GetBalance(player: Params) returns (r: Reply)
      modifies this
      ensures r == Answer(Operations.GetBalance(player))
      ensures sent == old(sent) + (if Operations.GetBalance(player).Ok?
                                   then [Call("Balance.Get", player)] else [])
    {
      r := Send(Operations.GetBalance(player));
    }

    method ChangeBalance(player: Params) returns (r: Reply)
      modifies this
      ensures r == Answer(Operations.ChangeBalance(player))
      ensures sent == old(sent) + (if Operations.ChangeBalance(player).Ok?
                                   then [Call("Balance.Change", player)] else [])
    {
      r := Send(Operations.ChangeBalance(player));
    }

    method CreateSession(session: Params) returns (r: Reply)
      modifies this
      ensures r == Answer(Operations.CreateSession(session))
      ensures sent == old(sent) + (if Operations.CreateSession(session).Ok?
                                   then [Call("Session.Create", session)] else [])
    {
      r := Send(Operations.CreateSession(session));
    }

    method CreateDemoSession(demoSession: Params) returns (r: Reply)
      modifies this
      ensures r == Answer(Operations.CreateDemoSession(demoSession))
      ensures sent == old(sent) + (if Operations.CreateDemoSession(demoSession).Ok?
                                   then [Call("Session.CreateDemo", demoSession)] else [])
    {
      r := Send(Operations.CreateDemoSession(demoSession));
    }

    method CloseSession(session: Params) returns (r: Reply)
      modifies this
      ensures r == Answer(Operations.CloseSession(session))
      ensures sent == old(sent) + (if Operations.CloseSession(session).Ok?
                                   then [Call("Session.Close", session)] else [])
    {
      r := Send(Operations.CloseSession(session));
    }

    method GetSession(session: Params) returns (r: Reply)
      modifies this
      ensures r == Answer(Operations.GetSession(session))
      ensures sent == old(sent) + (if Operations.GetSession(session).Ok?
                                   then [Call("Session.Get", session)] else [])
    {
      r := Send(Operations.GetSession(session));
    }

    /** Called without an argument, PHP's default `array()` makes this `ListSessions(map[])`. */
    method ListSessions(filters: Params) returns (r: Reply)
      modifies this
      ensures r == Answer(Operations.ListSessions(filters))
      ensures sent == old(sent) + (if Operations.ListSessions(filters).Ok?
                                   then [Call("Session.List", filters)] else [])
    {
      r := Send(Operations.ListSessions(filters));
    }
  }
}
