/** balance.go: the balances of a set of addresses, keyed by address. */
module Balance {
  import opened Wrappers
  import opened Errors
  import opened Transport
  import opened Options
  import opened Strings
  import opened Blockchain

  /** What GetBalance sends: only the joined `active` list, to which DoRequest adds `format=json`. */
  ghost function BalanceQuery(addresses: seq<string>): Options
  {
    map[ActiveKey := Join(addresses, [Bar])][FormatKey := JsonFormat]
  }

  /**
   * `GetBalance`: when the address check `check` (`CheckAddresses`, which
   * is not part of this model) fails, returns its error and a nil map
   * without touching the client; otherwise requests `/balance` into a
   * fresh empty map, which stays empty when the request fails before the
   * body is decoded.
   */
  method GetBalance(c: Client, addresses: seq<string>, check: seq<string> -> Option<GoError>, ex: Exchange)
    returns (response: Option<Destination>, e: Option<GoError>)
    modifies c`error, c`requests
    ensures check(addresses).Some? ==>
      && response == None && e == check(addresses)
      && c.error == old(c.error) && c.requests == old(c.requests)
    ensures check(addresses).None? ==>
      && response.Some? && fresh(response.value)
      && response.value.payload == Filled(ex, Blank)
      && e == MainError(Verdict(ex))
      && c.error == Slot(ex, old(c.error))
      && c.requests == old(c.requests)
           + Issued(c.BasePath + "/balance", BalanceQuery(addresses), c.UserAgentHeader(), c.client, ex)
  {
    e := check(addresses);
    if e.Some? {
      return None, e;
    }
    var dest := new Destination();
    response := Some(dest);
    var sent := new Params(map[ActiveKey := Join(addresses, [Bar])]);
    e := c.DoRequest("/balance", dest, sent, ex);
  }

  /** The balance query holds exactly `active` (the joined list) and `format=json`. */
  lemma BalanceQueryExact(addresses: seq<string>)
    ensures BalanceQuery(addresses).Keys == {ActiveKey, FormatKey}
    ensures BalanceQuery(addresses)[ActiveKey] == Join(addresses, [Bar])
    ensures BalanceQuery(addresses)[FormatKey] == JsonFormat
  {
  }
}
