/** unspent.go: the unspent outputs of a set of addresses. */
module Unspent {
  import opened Wrappers
  import opened Errors
  import opened Transport
  import opened Options
  import opened Strings
  import opened Blockchain

  /** The options GetUnspentAdv hands to DoRequest: the joined `active` list, overlaid with the first caller map. */
  ghost function UnspentOptions(addresses: seq<string>, params: seq<Options>): Options
  {
    Merged(map[ActiveKey := Join(addresses, [Bar])], params)
  }

  /**
   * `GetUnspentAdv`: when the address check `check` (`CheckAddresses`,
   * which is not part of this model) fails, returns its error and a nil
   * response without issuing a request; otherwise requests `/unspent`
   * into a fresh, empty `UnspentOutputs`.
   */
  method GetUnspentAdv(c: Client, addresses: seq<string>, params: seq<Options>,
                       check: seq<string> -> Option<GoError>, ex: Exchange)
    returns (response: Option<Destination>, e: Option<GoError>)
    modifies c`error, c`requests
    ensures check(addresses).Some? ==>
      && response == None && e == check(addresses)
      && c.requests == old(c.requests)
    ensures check(addresses).None? ==>
      && response.Some? && fresh(response.value)
      && response.value.payload == Filled(ex, Blank)
      && e == MainError(Verdict(ex))
      && c.error == Slot(ex, old(c.error))
      && c.requests == old(c.requests)
           + Issued(c.BasePath + "/unspent", UnspentOptions(addresses, params)[FormatKey := JsonFormat], c.UserAgentHeader(), c.client, ex)
  {
    e := check(addresses);
    if e.Some? {
      return None, e;
    }
    var options := map[ActiveKey := Join(addresses, [Bar])];
    if |params| > 0 {
      options := Overlay(options, params[0]);
    }
    assert options == UnspentOptions(addresses, params);
    var dest := new Destination();
    var sent := new Params(options);
    response := Some(dest);
    e := c.DoRequest("/unspent", dest, sent, ex);
  }

  /** `GetUnspent`: GetUnspentAdv with a single empty options map, so only the joined `active` list is sent. */
  method GetUnspent(c: Client, addresses: seq<string>, check: seq<string> -> Option<GoError>, ex: Exchange)
    returns (response: Option<Destination>, e: Option<GoError>)
    modifies c`error, c`requests
    ensures check(addresses).Some? ==>
      && response == None && e == check(addresses)
      && c.requests == old(c.requests)
    ensures check(addresses).None? ==>
      && response.Some? && fresh(response.value)
      && response.value.payload == Filled(ex, Blank)
      && e == MainError(Verdict(ex))
      && c.error == Slot(ex, old(c.error))
      && c.requests == old(c.requests)
           + Issued(c.BasePath + "/unspent", map[ActiveKey := Join(addresses, [Bar]), FormatKey := JsonFormat], c.UserAgentHeader(), c.client, ex)
  {
    response, e := GetUnspentAdv(c, addresses, [map[]], check, ex);
    MergedEmpty(map[ActiveKey := Join(addresses, [Bar])]);
  }

  /** A caller map may replace the joined `active` list; the maps after the first are ignored. */
  lemma UnspentCallerOverrides(addresses: seq<string>, first: Options, rest: seq<Options>)
    ensures UnspentOptions(addresses, [first] + rest) == UnspentOptions(addresses, [first])
    ensures ActiveKey in first ==> UnspentOptions(addresses, [first] + rest)[ActiveKey] == first[ActiveKey]
    ensures ActiveKey !in first ==> UnspentOptions(addresses, [first] + rest)[ActiveKey] == Join(addresses, [Bar])
  {
    MergedIgnoresLaterMaps(map[ActiveKey := Join(addresses, [Bar])], first, rest);
  }
}
