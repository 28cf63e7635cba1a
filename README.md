# casino25 API client: parameter validation and dispatch

This project models the core of the PHP client library for the casino25
JSON-RPC 2.0 gaming API: the request-parameter validator (`Helper`) and the
public methods of `Client`, each of which runs a fixed, ordered list of
validator calls and then hands its RPC method name and the caller's
parameter array, unchanged, to the JSON-RPC transport.

- `values.dfy` (module `Values`): PHP scalars, null and arrays (`VNull`, `VBool`, `VInt`,
  `VFloat`, `VStr`, `VArray`), the parameter array as `map<string, Value>`,
  and `Option`/`Result`.
- `helper.dfy` (module `Helper`): `requiredParam`, `optionalParam`,
  `strictValues` and `checkType` as functions that return `Pass` or
  `Fail(error)` where PHP returns or throws. The error names its kind
  (`Missing`, `WrongType`, `NotAllowed`) and the key. The callback parameter is
  modelled as an optional list of allowed values, since every callback the
  client passes is a `strictValues` call over a fixed list.
- `operations.dfy` (module `Operations`): one function per public method of
  `Client`. It gives the first validation error, or the `Call(procedure,
  params)` it would hand to `execute`. Its contract says exactly when the call
  goes through, that the array is forwarded unchanged under the fixed RPC name,
  and which error comes first where the order of checks matters. Each
  operation also has a table of its declared fields (`FieldSpec`: key,
  required or optional, declared type, allowed values) in the order its checks
  run. Its result is proved equal, for every input, to `Specified`: the error
  of the first declared field the array violates, or else the forwarded call.
- `client.dfy` (module `ClientApi`): the `Client` object. `Connect` fails when
  the configuration has no `url`. The transport is a parameter: a function from
  a call to its decoded response. A ghost log `sent` records every call that
  reaches the transport, and each public method states that a call is sent
  exactly when its checks pass.
- `scenarios.dfy` (module `Scenarios`): worked cases of these rules. They cover
  a player without a nick, a numeric-string amount, the restore policies, the
  case-sensitive session status and an unfiltered session list.

Modelling decisions:
- The `ParamType` class is not part of this model. `STRING` and `INTEGER`
  are taken to be the `'string'` and `'integer'` cases of `checkType`. The
  switch in `checkType` has no default branch, so `TIMESTAMP` and
  `STRINGS_ARRAY` accept every value.
- `$params[$key]` on an absent key reads as `null` in PHP (`Lookup` gives
  `VNull`). The validator only reaches it after a presence check.
- Strict comparison `===` is datatype equality (floats aside, see below). `VArray` keeps its entries
  in order, as `===` on PHP arrays requires.
- `createBankGroup` checks only `Id` and `Currency` (src/Client.php:79-80).
  Any other field, such as a `DefaultBankValue`, passes unchecked.
  `listGames` returns the full response; nothing unwraps a `Games` field.
- The validator is read-only by construction. PHP passes the array by value,
  and the model passes an immutable map. Each operation's contract says that
  the forwarded map is the caller's own, with undeclared keys included.

## Model

| member | source | states |
|---|---|---|
| Helper.CheckType | src/Helper.php:44-62 | a `'string'` check passes exactly on a string and an `'integer'` check exactly on an int; every other declared type passes any value (no default branch); a failure is `WrongType` naming the key and type |
| Helper.InArrayStrict | src/Helper.php:38 | strict `in_array` finds the needle exactly when it is an element of the list |
| Helper.StrictValues | src/Helper.php:36-42 | passes exactly when the value is strictly equal to one of the allowed values; otherwise `NotAllowed` naming the key and the list |
| Helper.Lookup | src/Helper.php:38 | `$params[$key]` gives the stored value for a present key and null for an absent one |
| Helper.RunCallback | src/Helper.php:15-18 | with no callback it passes; with an allowed-value callback it passes exactly when the value is one of the allowed values, and otherwise fails with `NotAllowed` for that list |
| Helper.RequiredParam | src/Helper.php:6-19 | fails with `Missing(key)` exactly when the key is absent; success implies presence, the declared string/integer type and membership in the callback's list; a type failure is reported before the callback runs, and `NotAllowed` only arises once presence and type have passed |
| Helper.OptionalParam | src/Helper.php:21-34 | passes on an absent key without any type check or callback; on a present key behaves exactly as `RequiredParam`; never reports `Missing` |
| Operations.Execute | src/Client.php:52-55 | `execute` hands over the given method name and the given array unchanged |
| Operations.ValidatorMatchesField | src/Helper.php:6-34 | `requiredParam` (for a required field) or `optionalParam` (for an optional one) passes exactly when the field's declarative reading finds no error, and otherwise fails with exactly that error: `Missing` for an absent required key, then `WrongType`, then `NotAllowed` |
| Operations.FirstFailureFromIsFirst | src/Client.php:159-165 | from any position of a field table, the reported error is that of a field all of whose predecessors from that position hold, and there is none exactly when every field there holds |
| Operations.FirstFailureIsFirst | src/Client.php:159-165 | an operation's reported error is that of the first declared field the array violates, and there is none exactly when every declared field holds |
| Operations.ListGames | src/Client.php:64-67 | always forwards `Game.List` with the empty parameter array |
| Operations.CreateBankGroup | src/Client.php:77-83 | its result is exactly the error of the first field of its table (in the order of the checks) the array violates, or else the call; succeeds iff `Id` and `Currency` are strings; forwards the array unchanged as `BankGroup.Create`; errors name only declared keys; a missing `Id` is reported first, then a missing `Currency` |
| Operations.ApplySettingsTemplate | src/Client.php:93-99 | its result is exactly the error of the first field of its table (in the order of the checks) the array violates, or else the call; succeeds iff `BankGroupId` and `SettingsTemplateId` are strings; forwards unchanged as `BankGroup.ApplySettingsTemplate`; a missing `BankGroupId` is reported first |
| Operations.CreatePlayer | src/Client.php:109-116 | its result is exactly the error of the first field of its table (in the order of the checks) the array violates, or else the call; succeeds iff `Id` and `BankGroupId` are strings and `Nick`, if present, is a string; forwards unchanged as `Player.Create`; a bad `Nick` is reported before a missing `BankGroupId` |
| Operations.GetBalance | src/Client.php:126-131 | its result is exactly the error of the first field of its table (in the order of the checks) the array violates, or else the call; succeeds iff `PlayerId` is a string; forwards unchanged as `Balance.Get`; otherwise `Missing` or `WrongType` for `PlayerId` |
| Operations.ChangeBalance | src/Client.php:141-147 | its result is exactly the error of the first field of its table (in the order of the checks) the array violates, or else the call; succeeds iff `PlayerId` is a string and `Amount` an int; forwards unchanged as `Balance.Change`; an absent `Amount` is `Missing`, a non-int one (a numeric string included) is `WrongType` |
| Operations.CreateSession | src/Client.php:157-168 | its result is exactly the error of the first field of its table (in the order of the checks) the array violates, or else the call; succeeds iff `PlayerId` and `GameId` are strings, `RestorePolicy` if present is one of `Restore`, `Create`, `Last`, and `StaticHost` if present is a string; forwards unchanged as `Session.Create`; a non-string policy is `WrongType`, a string outside the list is `NotAllowed` |
| Operations.CreateDemoSession | src/Client.php:178-186 | its result is exactly the error of the first field of its table (in the order of the checks) the array violates, or else the call; succeeds iff `GameId` and `BankGroupId` are strings, `StartBalance` if present is an int and `StaticHost` if present is a string; forwards unchanged as `Session.CreateDemo`; a present non-int `StartBalance` is `WrongType` |
| Operations.CloseSession | src/Client.php:196-201 | its result is exactly the error of the first field of its table (in the order of the checks) the array violates, or else the call; succeeds iff `SessionId` is a string; forwards unchanged as `Session.Close`; otherwise `Missing` or `WrongType` for `SessionId` |
| Operations.GetSession | src/Client.php:211-216 | its result is exactly the error of the first field of its table (in the order of the checks) the array violates, or else the call; succeeds iff `SessionId` is a string; forwards unchanged as `Session.Get`; otherwise `Missing` or `WrongType` for `SessionId` |
| Operations.ListSessions | src/Client.php:226-240 | its result is exactly the error of the first field of its table (in the order of the checks) the array violates, or else the call; succeeds iff `Status`, if present, is exactly `Open` or `Closed` (time and id-list filters accept anything); forwards unchanged as `Session.List`; the only possible error concerns `Status` |
| Scenarios.CreatePlayerWithoutNick | src/Client.php:109-116 | `{Id: "p1", BankGroupId: "bg1"}` is forwarded as `Player.Create` with exactly those parameters |
| Scenarios.NumericStringAmountRejected | src/Client.php:143-144 | an `Amount` of `"5"` is rejected as not an integer |
| Scenarios.RestorePolicyValues | src/Client.php:161-164 | a string restore policy passes exactly when it is `Restore`, `Create` or `Last` |
| Scenarios.StatusIsCaseSensitive | src/Client.php:232-235 | `Closed` passes as a status and `open` is not allowed |
| Scenarios.ListSessionsWithoutFilters | src/Client.php:226-239 | the empty filter array validates and is forwarded as `Session.List` |
| Scenarios.StrictValuesComparesTypes | src/Helper.php:38 | int `1` is not allowed where only the string `"1"` is |
| ClientApi.EndpointOf | src/Client.php:25-28 | a configuration yields an endpoint exactly when it has `url`, and that endpoint is its `url` |
| ClientApi.Client.Init | src/Client.php:29-36 | a new client keeps the given endpoint and transport and has sent nothing |
| ClientApi.Client.Connect | src/Client.php:23-37 | construction fails exactly when `url` is absent; otherwise a fresh client for that `url` that has sent nothing |
| ClientApi.Client.Send | src/Client.php:52-55 | a validated call is handed to the transport and its response returned; a validation error is returned and nothing is sent |
| ClientApi.Client.ListGames | src/Client.php:64-67 | sends `Game.List` with no parameters and returns the transport's response |
| ClientApi.Client.CreateBankGroup | src/Client.php:77-83 | sends `BankGroup.Create` with the caller's array exactly when its checks pass; otherwise sends nothing and returns the error |
| ClientApi.Client.ApplySettingsTemplate | src/Client.php:93-99 | sends `BankGroup.ApplySettingsTemplate` exactly when its checks pass; otherwise sends nothing |
| ClientApi.Client.CreatePlayer | src/Client.php:109-116 | sends `Player.Create` exactly when its checks pass; otherwise sends nothing |
| ClientApi.Client.GetBalance | src/Client.php:126-131 | sends `Balance.Get` exactly when its checks pass; otherwise sends nothing |
| ClientApi.Client.ChangeBalance | src/Client.php:141-147 | sends `Balance.Change` exactly when its checks pass; otherwise sends nothing |
| ClientApi.Client.CreateSession | src/Client.php:157-168 | sends `Session.Create` exactly when its checks pass; otherwise sends nothing |
| ClientApi.Client.CreateDemoSession | src/Client.php:178-186 | sends `Session.CreateDemo` exactly when its checks pass; otherwise sends nothing |
| ClientApi.Client.CloseSession | src/Client.php:196-201 | sends `Session.Close` exactly when its checks pass; otherwise sends nothing |
| ClientApi.Client.GetSession | src/Client.php:211-216 | sends `Session.Get` exactly when its checks pass; otherwise sends nothing |
| ClientApi.Client.ListSessions | src/Client.php:226-240 | sends `Session.List` exactly when its checks pass; otherwise sends nothing |

## Left out

- The JSON-RPC transport (`JsonRPC\HttpClient`, `JsonRPC\Client`, `execute` on it): network and TLS I/O in a foreign library. It is a parameter here, a function from a call to an opaque decoded response. Its failures are not modelled, and neither is any response that changes between calls.
- TLS configuration: `withoutSslVerification` under the loose `== false` test of `ssl_verification`, and `withSslLocalCert` with the unconditional read of `sslKeyPath`. These only configure the transport.
- Exception message texts: errors carry their kind, the key, and the expected type or the allowed list instead.
- General PHP callables: the only callbacks the client passes are allowed-value checks, modelled as an optional list.
- PHP's 64-bit integer range: `VInt` is unbounded. Validation only asks whether a value is an int, so the width never matters.
- PHP objects and resources (a `DateTime` passed as `CreateTimeFrom`, say): `Value` has no such variant, so forwarding such an array unchanged is not stated. No validation result depends on them: they fail `is_string` and `is_int` and are in no allowed list, as `VNull` is.
- Floating-point values: `VFloat` holds a real, so it has no NAN or INF, and `===` on floats (where `NAN === NAN` is false) is not modelled. Every allowed-value list the client passes holds only strings, so no validation result depends on it.
- PHP array-key coercion (`"5"` becoming `5` as a key): parameter arrays are string-keyed maps.
- Operations that `src/Client.php` does not define (upserts, bonuses, jackpot stream tokens) are not modelled, since there is no code for them.
