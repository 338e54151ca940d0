/**
 * client.go: the `Client` type, its error slot and the single transport
 * helper `DoRequest` that every endpoint delegates to.
 */
module Blockchain {
  import opened Wrappers
  import opened Errors
  import opened Transport
  import opened Options

  const Version := "1.0"

  /** The header string that identifies this package. */
  const PackageUserAgent := "blockchain-api-v1-client-go/" + Version + " (go; github; +https://git.io/v5dN0)"

  /** The API root in the Tor network. */
  const APIRootTor := "https://blockchainbdgpzk.onion"

  /** The API root on the public internet. */
  const APIRootNet := "https://blockchain.info"

  /** The `*http.Client` a client sends through: a fresh default one, or one the caller supplied. */
  datatype HttpClient = DefaultHttpClient | SuppliedHttpClient(id: nat)

  /**
   * A GET request handed to the HTTP client `via`: the URL is
   * `target + "?" + query.Encode()`, sent with the given User-Agent header.
   */
  datatype Request = Request(target: string, query: map<string, seq<string>>, userAgent: string, via: HttpClient)

  /** `url.Values` holding exactly one value per parameter. */
  ghost function QueryValues(params: Options): map<string, seq<string>>
  {
    map k | k in params :: [params[k]]
  }

  /** The request one DoRequest call hands to the HTTP client: none if `http.NewRequest` failed. */
  ghost function Issued(target: string, params: Options, ua: string, via: HttpClient, ex: Exchange): seq<Request>
  {
    if ex.build.None? then [Request(target, QueryValues(params), ua, via)] else []
  }

  /** What a destination record holds: its zero value, or the decoding of a response body. */
  datatype Payload = Blank | DecodedBody(bytes: seq<bv8>)

  /** The destination after one DoRequest call: filled only when the whole call succeeded. */
  ghost function Filled(ex: Exchange, before: Payload): Payload
  {
    if Verdict(ex).None? then DecodedBody(ex.read.bytes) else before
  }

  /** The error slot after one DoRequest call: replaced on failure, untouched on success. */
  ghost function Slot(ex: Exchange, before: Option<Error>): Option<Error>
  {
    if Verdict(ex).Some? then Verdict(ex) else before
  }

  /** A Go `map[string]string` handed around by reference. */
  class Params {
    var entries: Options

    constructor (m: Options)
      ensures entries == m
    {
      entries := m;
    }
  }

  /** The record a response body is decoded into (`&Address{}`, `&Balances{}`, ...). */
  class Destination {
    var payload: Payload

    constructor ()
      ensures payload == Blank
    {
      payload := Blank;
    }
  }

  /**
   * The loop `for k, v := range params { urlValues.Set(k, v) }`: one
   * single-valued entry per parameter, and nothing else.
   */
  method FillValues(params: Options) returns (values: map<string, seq<string>>)
    ensures values.Keys == params.Keys
    ensures forall k :: k in params ==> values[k] == [params[k]]
  {
    values := map[];
    var todo := params.Keys;
    while todo != {}
      invariant todo <= params.Keys
      invariant values.Keys == params.Keys - todo
      invariant forall k :: k in values ==> values[k] == [params[k]]
      decreases todo
    {
      var k :| k in todo;
      values := values[k := [params[k]]];
      todo := todo - {k};
    }
  }

  class Client {
    var client: HttpClient
    /** API endpoint base URL. */
    var BasePath: string
    /** Optional additional User-Agent fragment. */
    var UserAgent: string
    /** The last error, nil when none is pending. */
    var error: Option<Error>
    /** Every request this client has handed to its HTTP client, oldest first. */
    ghost var requests: seq<Request>

    /** `New()`: a client for the public internet endpoint. */
    constructor New()
      ensures client == DefaultHttpClient && BasePath == APIRootNet && UserAgent == ""
      ensures error == None && requests == []
    {
      client := DefaultHttpClient;
      BasePath := APIRootNet;
      UserAgent := "";
      error := None;
      requests := [];
    }

    /** `NewTor()`: a client for the Tor endpoint. */
    constructor NewTor()
      ensures client == DefaultHttpClient && BasePath == APIRootTor && UserAgent == ""
      ensures error == None && requests == []
    {
      client := DefaultHttpClient;
      BasePath := APIRootTor;
      UserAgent := "";
      error := None;
      requests := [];
    }

    /** `SetHTTP`: replaces the HTTP client and nothing else. */
    method SetHTTP(cli: HttpClient)
      modifies this`client
      ensures client == cli
    {
      client := cli;
    }

    /**
     * `userAgent()`: the package string, followed by a space and the
     * client's fragment when one is set.
     */
    function UserAgentHeader(): (r: string)
      reads this
      ensures PackageUserAgent <= r
      ensures r == PackageUserAgent <==> UserAgent == ""
      ensures UserAgent != "" ==> r[|PackageUserAgent|] == ' ' && r[|PackageUserAgent| + 1..] == UserAgent
    {
      if UserAgent == "" then PackageUserAgent else PackageUserAgent + " " + UserAgent
    }

    /** `Error()`: hands out the pending error and empties the slot. */
    method Error() returns (r: Option<Error>)
      modifies this`error
      ensures r == old(error)
      ensures error == None
    {
      r := error;
      error := None;
    }

    /**
     * `setError`: always clears the slot; with a non-nil main error, stores
     * the four parts and returns the main error, otherwise returns nil.
     */
    method SetError(errorMain: Option<GoError>, errorExec: Option<GoError>,
                    response: Option<Response>, address: Option<string>) returns (r: Option<GoError>)
      modifies this`error
      ensures r == errorMain
      ensures errorMain.None? ==> error == None
      ensures errorMain.Some? ==> error == Some(Errors.Error.Error(errorMain.value, errorExec, response, address))
    {
      error := None;
      if errorMain.None? {
        return None;
      }
      error := Some(Errors.Error.Error(errorMain.value, errorExec, response, address));
      r := errorMain;
    }

    /** `setErrorOne`: setError with only a main error. */
    method SetErrorOne(errorMain: Option<GoError>) returns (r: Option<GoError>)
      modifies this`error
      ensures r == errorMain
      ensures errorMain.None? ==> error == None
      ensures errorMain.Some? ==> error == Some(Errors.Error.Error(errorMain.value, None, None, None))
    {
      r := SetError(errorMain, None, None, None);
    }

    /** `setErrorTwo`: setError with a main and an underlying error. */
    method SetErrorTwo(errorMain: Option<GoError>, errorExec: Option<GoError>) returns (r: Option<GoError>)
      modifies this`error
      ensures r == errorMain
      ensures errorMain.None? ==> error == None
      ensures errorMain.Some? ==> error == Some(Errors.Error.Error(errorMain.value, errorExec, None, None))
    {
      r := SetError(errorMain, errorExec, None, None);
    }

    /**
     * `DoRequest`: forces `format=json` into the caller's map, issues the GET
     * (unless the request cannot be built) and reports the first failing
     * step; the outcomes of the library calls are given by `ex`.
     */
    method DoRequest(path: string, dest: Destination, params: Params, ex: Exchange) returns (e: Option<GoError>)
      modifies this`error, this`requests, params, dest
      ensures params.entries == old(params.entries)[FormatKey := JsonFormat]
      ensures e == MainError(Verdict(ex))
      ensures error == Slot(ex, old(error))
      ensures e.None? ==> error == old(error)
      ensures e.Some? ==> error.Some? && error.value.ErrorMain == e.value
      ensures requests == old(requests) + Issued(BasePath + path, params.entries, UserAgentHeader(), client, ex)
      ensures dest.payload == Filled(ex, old(dest.payload))
    {
      params.entries := params.entries[FormatKey := JsonFormat];
      var urlValues := FillValues(params.entries);
      assert urlValues == QueryValues(params.entries);

      if ex.build.Some? {
        e := SetErrorTwo(Some(Sentinel(CDE)), ex.build);
        return;
      }
      requests := requests + [Request(BasePath + path, urlValues, UserAgentHeader(), client)];

      match ex.send {
        case SendFailed(cause, partial) =>
          e := SetError(Some(Sentinel(CDE)), Some(cause), partial, None);
        case Received(resp) =>
          match ex.read {
            case ReadFailed(cause) =>
              e := SetError(Some(Sentinel(RRE)), Some(cause), Some(resp), None);
            case Body(bytes) =>
              // ReadAll succeeded, so the error passed along with RSE is nil.
              var readError: Option<GoError> := None;
              if !IsSuccessStatus(resp.status) {
                e := SetError(Some(Sentinel(RSE)), readError, Some(resp), None);
              } else {
                match ex.parse {
                  case Rejected(cause) =>
                    e := SetError(Some(Sentinel(RPE)), Some(cause), Some(resp), None);
                  case Decoded =>
                    dest.payload := DecodedBody(bytes);
                    e := None;
                }
              }
          }
      }
    }
  }

  /** Two clients send the same User-Agent header exactly when their fragments agree. */
  lemma UserAgentHeaderInjective(c: Client, d: Client)
    ensures c.UserAgentHeader() == d.UserAgentHeader() <==> c.UserAgent == d.UserAgent
  {
    var p := |PackageUserAgent|;
    if c.UserAgentHeader() == d.UserAgentHeader() && c.UserAgent != "" && d.UserAgent != "" {
      assert c.UserAgent == c.UserAgentHeader()[p + 1..];
    }
  }
}
