/** address.go: lookups of one address and of several addresses at once. */
module Address {
  import opened Wrappers
  import opened Errors
  import opened Transport
  import opened Options
  import opened Strings
  import opened Blockchain

  /** The ad hoc errors address.go returns before any request. */
  const NoAddressProvided := Failure("No Address Provided")
  const TooFewAddresses := Failure("Invalid argument, you must pass an array with two or more addresses!")

  /** The options GetAddress hands to DoRequest: `format=json`, overlaid with the first caller map. */
  ghost function AddressOptions(params: seq<Options>): Options
  {
    Merged(map[FormatKey := JsonFormat], params)
  }

  /** The options GetAddresses hands to DoRequest: the joined `active` list, overlaid with the first caller map. */
  ghost function AddressesOptions(addresses: seq<string>, params: seq<Options>): Options
  {
    Merged(map[ActiveKey := Join(addresses, [Bar])], params)
  }

  /**
   * `GetAddress`: rejects the empty address without touching the client;
   * otherwise requests `/address/<address>` into a fresh, zero record.
   */
  method GetAddress(c: Client, address: string, params: seq<Options>, ex: Exchange)
    returns (response: Option<Destination>, e: Option<GoError>)
    modifies c`error, c`requests
    ensures address == "" ==>
      && response == None && e == Some(NoAddressProvided)
      && c.error == old(c.error) && c.requests == old(c.requests)
    ensures address != "" ==>
      && response.Some? && fresh(response.value)
      && response.value.payload == Filled(ex, Blank)
      && e == MainError(Verdict(ex))
      && c.error == Slot(ex, old(c.error))
      && c.requests == old(c.requests)
           + Issued(c.BasePath + "/address/" + address, AddressOptions(params)[FormatKey := JsonFormat], c.UserAgentHeader(), c.client, ex)
  {
    if address == "" {
      return None, Some(NoAddressProvided);
    }
    var options := map[FormatKey := JsonFormat];
    if |params| > 0 {
      options := Overlay(options, params[0]);
    }
    assert options == AddressOptions(params);
    var dest := new Destination();
    var sent := new Params(options);
    response := Some(dest);
    e := c.DoRequest("/address/" + address, dest, sent, ex);
    assert c.BasePath + ("/address/" + address) == c.BasePath + "/address/" + address;
  }

  /**
   * `GetAddresses`: rejects lists of fewer than two addresses without
   * touching the client; otherwise requests `/multiaddr` with the joined
   * `active` list into a fresh, zero record.
   */
  method GetAddresses(c: Client, addresses: seq<string>, params: seq<Options>, ex: Exchange)
    returns (response: Option<Destination>, e: Option<GoError>)
    modifies c`error, c`requests
    ensures |addresses| < 2 ==>
      && response == None && e == Some(TooFewAddresses)
      && c.error == old(c.error) && c.requests == old(c.requests)
    ensures |addresses| >= 2 ==>
      && response.Some? && fresh(response.value)
      && response.value.payload == Filled(ex, Blank)
      && e == MainError(Verdict(ex))
      && c.error == Slot(ex, old(c.error))
      && c.requests == old(c.requests)
           + Issued(c.BasePath + "/multiaddr", AddressesOptions(addresses, params)[FormatKey := JsonFormat], c.UserAgentHeader(), c.client, ex)
  {
    if |addresses| < 2 {
      return None, Some(TooFewAddresses);
    }
    var options := map[ActiveKey := Join(addresses, [Bar])];
    if |params| > 0 {
      options := Overlay(options, params[0]);
    }
    assert options == AddressesOptions(addresses, params);
    var dest := new Destination();
    var sent := new Params(options);
    response := Some(dest);
    e := c.DoRequest("/multiaddr", dest, sent, ex);
  }

  /**
   * A caller `format` is copied into GetAddress's options, but DoRequest
   * forces it back to json: the request always asks for JSON.
   */
  lemma AddressFormatOverruled(params: seq<Options>)
    requires |params| > 0 && FormatKey in params[0]
    ensures AddressOptions(params)[FormatKey] == params[0][FormatKey]
    ensures AddressOptions(params)[FormatKey := JsonFormat][FormatKey] == JsonFormat
  {
  }

  /** The `active` list of GetAddresses names the addresses in input order, recoverable by splitting at `|`. */
  lemma ActiveListInOrder(addresses: seq<string>)
    requires |addresses| >= 2 && FreeOf(addresses, Bar)
    ensures Split(AddressesOptions(addresses, [])[ActiveKey], Bar) == addresses
  {
    SplitJoin(addresses, Bar);
  }

  /** The `active` value for the two addresses of the package's multi-address test. */
  lemma ActiveForTestAddresses()
    ensures AddressesOptions(["1A1zP1eP5QGefi2DMPTfTL5SLmv7DivfNa", "12c6DSiU4Rq3P4ZxziKxzrL5LmMBrzjrJX"], [])[ActiveKey]
         == "1A1zP1eP5QGefi2DMPTfTL5SLmv7DivfNa" + "|" + "12c6DSiU4Rq3P4ZxziKxzrL5LmMBrzjrJX"
  {
    var a, b := "1A1zP1eP5QGefi2DMPTfTL5SLmv7DivfNa", "12c6DSiU4Rq3P4ZxziKxzrL5LmMBrzjrJX";
    assert [a, b][1..] == [b];
    assert Join([a, b], [Bar]) == a + [Bar] + b;
  }

  /** A caller `active` entry replaces the joined list. */
  lemma CallerActiveWins(addresses: seq<string>, params: seq<Options>)
    requires |params| > 0 && ActiveKey in params[0]
    ensures AddressesOptions(addresses, params)[ActiveKey] == params[0][ActiveKey]
  {
  }
}
