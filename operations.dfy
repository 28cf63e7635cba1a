/**
 * The validation sequences of the API facade (src/Client.php). Each public
 * method runs a fixed, ordered list of validator calls and then hands its RPC
 * method name and the caller's parameter array, unchanged, to the transport.
 * Here each method is a function that yields either the first validation error
 * or the call it would hand over.
 */
module Operations {
  import opened Values
  import opened Helper

  /** One JSON-RPC call handed to the transport: method name and parameters. */
  datatype Call = Call(procedure: string, params: Params)

  /** Either the call that would be sent, or the validation error raised instead. */
  type Outgoing = Result<Call, ValidationError>

  /** The allowed values of `RestorePolicy` in `createSession`. */
  const RestorePolicies: seq<Value> := [VStr("Restore"), VStr("Create"), VStr("Last")]

  /** The allowed values of `Status` in `listSessions`. */
  const SessionStatuses: seq<Value> := [VStr("Open"), VStr("Closed")]

  /** The key is present and holds a string. */
  predicate HasString(p: Params, key: string) {
    key in p && p[key].VStr?
  }

  /** The key is present and holds an integer. */
  predicate HasInt(p: Params, key: string) {
    key in p && p[key].VInt?
  }

  /** `execute($method, $params)`: hand the call over as it is. */
  function Execute(procedure: string, params: Params): (r: Outgoing)
    ensures r.Ok? && r.value.procedure == procedure && r.value.params == params
  {
    Ok(Call(procedure, params))
  }

  /**
   * A declared field of an operation: its key, whether it is required, its
   * declared type and the allowed values its callback checks, if any.
   */
  datatype FieldSpec = Field(key: string, required: bool, expected: ParamType,
                             allowed: Option<seq<Value>>)

  /** The value has the declared type, as far as `checkType` discriminates types. */
  predicate OfType(v: Value, t: ParamType) {
    (t == String ==> v.VStr?) && (t == Integer ==> v.VInt?)
  }

  /** The error one field rules out in a parameter array, stated declaratively. */
  function FieldError(p: Params, f: FieldSpec): Option<ValidationError> {
    if f.key !in p then (if f.required then Some(Missing(f.key)) else None)
    else if !OfType(p[f.key], f.expected) then Some(WrongType(f.key, f.expected))
    else if f.allowed.Some? && p[f.key] !in f.allowed.value then Some(NotAllowed(f.key, f.allowed.value))
    else None
  }

  /** The error of the first field, in declaration order, that the array violates. */
  function FirstFailure(p: Params, fields: seq<FieldSpec>): Option<ValidationError> {
    FirstFailureFrom(p, fields, 0)
  }

  /** The error of the first field at index `k` or later that the array violates. */
  function FirstFailureFrom(p: Params, fields: seq<FieldSpec>, k: nat): Option<ValidationError>
    decreases |fields| - k
  {
    if k >= |fields| then None
    else if FieldError(p, fields[k]).Some? then FieldError(p, fields[k])
    else FirstFailureFrom(p, fields, k + 1)
  }

  /** What an operation with these declared fields must do with the array. */
  function Specified(procedure: string, fields: seq<FieldSpec>, p: Params): Outgoing {
    match FirstFailure(p, fields)
    case None => Ok(Call(procedure, p))
    case Some(e) => Err(e)
  }

  /**
   * The validator call for one field agrees with its declarative reading:
   * `requiredParam` for a required field, `optionalParam` for an optional one.
   */
  lemma ValidatorMatchesField(p: Params, f: FieldSpec)
    ensures var check := if f.required then RequiredParam(p, f.key, f.expected, f.allowed)
                         else OptionalParam(p, f.key, f.expected, f.allowed);
            check == (if FieldError(p, f).Some? then Fail(FieldError(p, f).value) else Pass)
  {
  }

  /**
   * `FirstFailureFrom` reports nothing exactly when every field from `k` on
   * holds, and otherwise the error of such a field all of whose predecessors
   * from `k` on hold.
   */
  lemma {:induction false} FirstFailureFromIsFirst(p: Params, fields: seq<FieldSpec>, k: nat)
    ensures FirstFailureFrom(p, fields, k).None? <==>
              forall i :: k <= i < |fields| ==> FieldError(p, fields[i]).None?
    ensures FirstFailureFrom(p, fields, k).Some? ==>
              exists i :: k <= i < |fields| && FieldError(p, fields[i]) == FirstFailureFrom(p, fields, k)
                          && forall j :: k <= j < i ==> FieldError(p, fields[j]).None?
    decreases |fields| - k
  {
    if k < |fields| && FieldError(p, fields[k]).None? {
      FirstFailureFromIsFirst(p, fields, k + 1);
    }
  }

  /**
   * The error an operation reports comes from the first declared field the array
   * violates, and there is none exactly when every field holds.
   */
  lemma FirstFailureIsFirst(p: Params, fields: seq<FieldSpec>)
    ensures FirstFailure(p, fields).None? <==>
              forall i :: 0 <= i < |fields| ==> FieldError(p, fields[i]).None?
    ensures FirstFailure(p, fields).Some? ==>
              exists i :: 0 <= i < |fields| && FieldError(p, fields[i]) == FirstFailure(p, fields)
                          && forall j :: 0 <= j < i ==> FieldError(p, fields[j]).None?
  {
    FirstFailureFromIsFirst(p, fields, 0);
  }

  /** One step of `FirstFailureFrom`, for tables longer than the verifier unrolls unaided. */
  lemma FirstFailureStep(p: Params, fields: seq<FieldSpec>, k: nat)
    requires k < |fields|
    ensures FirstFailureFrom(p, fields, k)
            == if FieldError(p, fields[k]).Some? then FieldError(p, fields[k])
               else FirstFailureFrom(p, fields, k + 1)
  {
  }

  /** The declared fields of each operation, in the order its checks run. */
  const CreateBankGroupFields: seq<FieldSpec> := [Field("Id", true, String, None), Field("Currency", true, String, None)]
  const ApplySettingsTemplateFields: seq<FieldSpec> := [Field("BankGroupId", true, String, None), Field("SettingsTemplateId", true, String, None)]
  const CreatePlayerFields: seq<FieldSpec> := [Field("Id", true, String, None), Field("Nick", false, String, None),
                                            Field("BankGroupId", true, String, None)]
  const GetBalanceFields: seq<FieldSpec> := [Field("PlayerId", true, String, None)]
  const ChangeBalanceFields: seq<FieldSpec> := [Field("PlayerId", true, String, None), Field("Amount", true, Integer, None)]
  const CreateSessionFields: seq<FieldSpec> := [Field("PlayerId", true, String, None), Field("GameId", true, String, None),
                                             Field("RestorePolicy", false, String, Some(RestorePolicies)),
                                             Field("StaticHost", false, String, None)]
  const CreateDemoSessionFields: seq<FieldSpec> := [Field("GameId", true, String, None), Field("BankGroupId", true, String, None),
                                                 Field("StartBalance", false, Integer, None),
                                                 Field("StaticHost", false, String, None)]
  const CloseSessionFields: seq<FieldSpec> := [Field("SessionId", true, String, None)]
  const GetSessionFields: seq<FieldSpec> := [Field("SessionId", true, String, None)]
  const ListSessionsFields: seq<FieldSpec> := [Field("CreateTimeFrom", false, Timestamp, None), Field("CreateTimeTo", false, Timestamp, None),
                                            Field("CloseTimeFrom", false, Timestamp, None), Field("CloseTimeTo", false, Timestamp, None),
                                            Field("Status", false, String, Some(SessionStatuses)),
                                            Field("PlayerIds", false, StringsArray, None), Field("BankGroupIds", false, StringsArray, None)]

  /** `listGames`: no checks, and `execute` is called with its default empty array. */
  function ListGames(): (r: Outgoing)
    ensures r.Ok? && r.value.procedure == "Game.List" && r.value.params == map[]
  {
    Execute("Game.List", map[])
  }

  /** `createBankGroup`. */
  function CreateBankGroup(bankGroup: Params): (r: Outgoing)
    ensures r == Specified("BankGroup.Create", CreateBankGroupFields, bankGroup)
    ensures r.Ok? <==> HasString(bankGroup, "Id") && HasString(bankGroup, "Currency")
    ensures r.Ok? ==> r.value == Call("BankGroup.Create", bankGroup)
    ensures r.Err? ==> r.error.key in {"Id", "Currency"}
    ensures "Id" !in bankGroup ==> r == Err(Missing("Id"))
    ensures HasString(bankGroup, "Id") && "Currency" !in bankGroup ==> r == Err(Missing("Currency"))
  {
    (:- RequiredParam(bankGroup, "Id", String, None);
     :- RequiredParam(bankGroup, "Currency", String, None);
     Execute("BankGroup.Create", bankGroup))
  }

  /** `applySettingsTemplate`. */
  function ApplySettingsTemplate(bankGroup: Params): (r: Outgoing)
    ensures r == Specified("BankGroup.ApplySettingsTemplate", ApplySettingsTemplateFields, bankGroup)
    ensures r.Ok? <==> HasString(bankGroup, "BankGroupId") && HasString(bankGroup, "SettingsTemplateId")
    ensures r.Ok? ==> r.value == Call("BankGroup.ApplySettingsTemplate", bankGroup)
    ensures r.Err? ==> r.error.key in {"BankGroupId", "SettingsTemplateId"}
    ensures "BankGroupId" !in bankGroup ==> r == Err(Missing("BankGroupId"))
  {
    (:- RequiredParam(bankGroup, "BankGroupId", String, None);
     :- RequiredParam(bankGroup, "SettingsTemplateId", String, None);
     Execute("BankGroup.ApplySettingsTemplate", bankGroup))
  }

  /** `createPlayer`: `Id`, then the optional `Nick`, then `BankGroupId`. */
  function CreatePlayer(player: Params): (r: Outgoing)
    ensures r == Specified("Player.Create", CreatePlayerFields, player)
    ensures r.Ok? <==> HasString(player, "Id") && ("Nick" in player ==> player["Nick"].VStr?)
                       && HasString(player, "BankGroupId")
    ensures r.Ok? ==> r.value == Call("Player.Create", player)
    ensures r.Err? ==> r.error.key in {"Id", "Nick", "BankGroupId"}
    ensures "Id" !in player ==> r == Err(Missing("Id"))
    // a bad Nick is reported before a missing BankGroupId
    ensures HasString(player, "Id") && "Nick" in player && !player["Nick"].VStr? ==>
              r == Err(WrongType("Nick", String))
    ensures (HasString(player, "Id") && ("Nick" in player ==> player["Nick"].VStr?)
              && "BankGroupId" !in player) ==> r == Err(Missing("BankGroupId"))
  {
    (:- RequiredParam(player, "Id", String, None);
     :- OptionalParam(player, "Nick", String, None);
     :- RequiredParam(player, "BankGroupId", String, None);
     Execute("Player.Create", player))
  }

  /** `getBalance`. */
  function GetBalance(player: Params): (r: Outgoing)
    ensures r == Specified("Balance.Get", GetBalanceFields, player)
    ensures r.Ok? <==> HasString(player, "PlayerId")
    ensures r.Ok? ==> r.value == Call("Balance.Get", player)
    ensures r.Err? ==> r.error == (if "PlayerId" in player then WrongType("PlayerId", String)
                                   else Missing("PlayerId"))
  {
    (:- RequiredParam(player, "PlayerId", String, None);
     Execute("Balance.Get", player))
  }

  /** `changeBalance`: `Amount` must be a PHP integer, not a numeric string or a float. */
  function ChangeBalance(player: Params): (r: Outgoing)
    ensures r == Specified("Balance.Change", ChangeBalanceFields, player)
    ensures r.Ok? <==> HasString(player, "PlayerId") && HasInt(player, "Amount")
    ensures r.Ok? ==> r.value == Call("Balance.Change", player)
    ensures r.Err? ==> r.error.key in {"PlayerId", "Amount"}
    ensures HasString(player, "PlayerId") && "Amount" !in player ==> r == Err(Missing("Amount"))
    ensures HasString(player, "PlayerId") && "Amount" in player && !player["Amount"].VInt? ==>
              r == Err(WrongType("Amount", Integer))
  {
    (:- RequiredParam(player, "PlayerId", String, None);
     :- RequiredParam(player, "Amount", Integer, None);
     Execute("Balance.Change", player))
  }

  /** `createSession`: `RestorePolicy`, when given, is a string and one of the policies. */
  function CreateSession(session: Params): (r: Outgoing)
    ensures r == Specified("Session.Create", CreateSessionFields, session)
    ensures r.Ok? <==> HasString(session, "PlayerId") && HasString(session, "GameId")
                       && ("RestorePolicy" in session ==> session["RestorePolicy"] in RestorePolicies)
                       && ("StaticHost" in session ==> session["StaticHost"].VStr?)
    ensures r.Ok? ==> r.value == Call("Session.Create", session)
    ensures r.Err? ==> r.error.key in {"PlayerId", "GameId", "RestorePolicy", "StaticHost"}
    // the allowed-value check runs only on a string
    ensures HasString(session, "PlayerId") && HasString(session, "GameId")
              && "RestorePolicy" in session && !session["RestorePolicy"].VStr? ==>
              r == Err(WrongType("RestorePolicy", String))
    ensures HasString(session, "PlayerId") && HasString(session, "GameId")
              && HasString(session, "RestorePolicy")
              && session["RestorePolicy"] !in RestorePolicies ==>
              r == Err(NotAllowed("RestorePolicy", RestorePolicies))
  {
    FirstFailureStep(session, CreateSessionFields, 0);
    FirstFailureStep(session, CreateSessionFields, 1);
    FirstFailureStep(session, CreateSessionFields, 2);
    FirstFailureStep(session, CreateSessionFields, 3);
    (:- RequiredParam(session, "PlayerId", String, None);
     :- RequiredParam(session, "GameId", String, None);
     :- OptionalParam(session, "RestorePolicy", String, Some(RestorePolicies));
     :- OptionalParam(session, "StaticHost", String, None);
     Execute("Session.Create", session))
  }

  /** `createDemoSession`. */
  function CreateDemoSession(demoSession: Params): (r: Outgoing)
    ensures r == Specified("Session.CreateDemo", CreateDemoSessionFields, demoSession)
    ensures r.Ok? <==> HasString(demoSession, "GameId") && HasString(demoSession, "BankGroupId")
                       && ("StartBalance" in demoSession ==> demoSession["StartBalance"].VInt?)
                       && ("StaticHost" in demoSession ==> demoSession["StaticHost"].VStr?)
    ensures r.Ok? ==> r.value == Call("Session.CreateDemo", demoSession)
    ensures r.Err? ==> r.error.key in {"GameId", "BankGroupId", "StartBalance", "StaticHost"}
    ensures HasString(demoSession, "GameId") && HasString(demoSession, "BankGroupId")
              && "StartBalance" in demoSession && !demoSession["StartBalance"].VInt? ==>
              r == Err(WrongType("StartBalance", Integer))
  {
    (:- RequiredParam(demoSession, "GameId", String, None);
     :- RequiredParam(demoSession, "BankGroupId", String, None);
     :- OptionalParam(demoSession, "StartBalance", Integer, None);
     :- OptionalParam(demoSession, "StaticHost", String, None);
     Execute("Session.CreateDemo", demoSession))
  }

  /** `closeSession`. */
  function CloseSession(session: Params): (r: Outgoing)
    ensures r == Specified("Session.Close", CloseSessionFields, session)
    ensures r.Ok? <==> HasString(session, "SessionId")
    ensures r.Ok? ==> r.value == Call("Session.Close", session)
    ensures r.Err? ==> r.error == (if "SessionId" in session then WrongType("SessionId", String)
                                   else Missing("SessionId"))
  {
    (:- RequiredParam(session, "SessionId", String, None);
     Execute("Session.Close", session))
  }

  /** `getSession`. */
  function GetSession(session: Params): (r: Outgoing)
    ensures r == Specified("Session.Get", GetSessionFields, session)
    ensures r.Ok? <==> HasString(session, "SessionId")
    ensures r.Ok? ==> r.value == Call("Session.Get", session)
    ensures r.Err? ==> r.error == (if "SessionId" in session then WrongType("SessionId", String)
                                   else Missing("SessionId"))
  {
    (:- RequiredParam(session, "SessionId", String, None);
     Execute("Session.Get", session))
  }

  /**
   * `listSessions`: every filter is optional. The time filters and the id lists
   * are declared with types `checkType` does not discriminate, so only `Status`
   * can make the call fail.
   */
  function ListSessions(filters: Params): (r: Outgoing)
    ensures r == Specified("Session.List", ListSessionsFields, filters)
    ensures r.Ok? <==> ("Status" in filters ==> filters["Status"] in SessionStatuses)
    ensures r.Ok? ==> r.value == Call("Session.List", filters)
    ensures r.Err? ==> r.error.key == "Status" && !r.error.Missing?
  {
    FirstFailureStep(filters, ListSessionsFields, 0);
    FirstFailureStep(filters, ListSessionsFields, 1);
    FirstFailureStep(filters, ListSessionsFields, 2);
    FirstFailureStep(filters, ListSessionsFields, 3);
    FirstFailureStep(filters, ListSessionsFields, 4);
    FirstFailureStep(filters, ListSessionsFields, 5);
    FirstFailureStep(filters, ListSessionsFields, 6);
    (:- OptionalParam(filters, "CreateTimeFrom", Timestamp, None);
     :- OptionalParam(filters, "CreateTimeTo", Timestamp, None);
     :- OptionalParam(filters, "CloseTimeFrom", Timestamp, None);
     :- OptionalParam(filters, "CloseTimeTo", Timestamp, None);
     :- OptionalParam(filters, "Status", String, Some(SessionStatuses));
     :- OptionalParam(filters, "PlayerIds", StringsArray, None);
     :- OptionalParam(filters, "BankGroupIds", StringsArray, None);
     Execute("Session.List", filters))
  }
}

