/** Worked cases of the facade's rules, each a consequence of the contracts above. */
module Scenarios {
  import opened Values
  import opened Helper
  import opened Operations

  /** A player without a nick validates and is forwarded exactly as given. */
  lemma CreatePlayerWithoutNick()
    ensures var player := map["Id" := VStr("p1"), "BankGroupId" := VStr("bg1")];
            CreatePlayer(player) == Ok(Call("Player.Create", player))
  {
  }

  /** A numeric string is not an integer amount. */
  lemma NumericStringAmountRejected()
    ensures ChangeBalance(map["PlayerId" := VStr("p1"), "Amount" := VStr("5")])
            == Err(WrongType("Amount", Integer))
  {
  }

  /** Each listed restore policy passes; any other string is not allowed. */
  lemma RestorePolicyValues(policy: string)
    ensures var session := map["PlayerId" := VStr("p1"), "GameId" := VStr("g1"),
                               "RestorePolicy" := VStr(policy)];
            CreateSession(session).Ok? <==> policy in {"Restore", "Create", "Last"}
  {
  }

  /** The status filter compares case-sensitively. */
  lemma StatusIsCaseSensitive()
    ensures ListSessions(map["Status" := VStr("Closed")]).Ok?
    ensures ListSessions(map["Status" := VStr("open")])
            == Err(NotAllowed("Status", SessionStatuses))
  {
  }

  /** Listing sessions with no filters validates. */
  lemma ListSessionsWithoutFilters()
    ensures ListSessions(map[]) == Ok(Call("Session.List", map[]))
  {
  }

  /** Strict comparison: int 1 is not the string "1". */
  lemma StrictValuesComparesTypes()
    ensures StrictValues(map["Amount" := VInt(1)], "Amount", [VStr("1")]).Fail?
  {
  }
}
