# blockchain API client: a Dafny model

This project models the core of a Go client library for a public
blockchain-data HTTP API. The core is one `Client` with a "last error" slot,
and one transport helper, `DoRequest`. `DoRequest` forces `format=json` into
the caller's options, issues a GET request and reports the first failing step
through a package sentinel error. On top of it sit the endpoint wrappers for
address, multi-address, unspent-output and balance lookups. Each wrapper
validates its input, seeds an options map, copies the caller's first map over
it and delegates with a fixed path.

Modules, one per source file or concern:

- `Wrappers`: `Option`, standing in for Go's nil-able pointers and `error` values.
- `Errors`: the sentinel errors (`RRE`, `RSE`, `RPE`, `CDE`, ...) with their messages, and the `Error` record (client.go).
- `Transport`: the outcomes of the four library calls of one request, given as an `Exchange` value, and `Verdict`, the failure ladder of `DoRequest`. A second, independent reading ("five separate checks, the first failing one wins") is proved equal to it.
- `Options`: the `for k, v := range params[0]` overlay loop, and the `Merged` function that specifies it.
- `Strings`: `strings.Join`, and a split that provably undoes it for addresses free of `|`.
- `Blockchain`: the `Client` class. Its fields are `BasePath`, `UserAgent`, `error` and the HTTP client handle, plus a ghost log `requests` of every request handed to the HTTP client. It has the constructors `New`/`NewTor`, `Error()`, the `setError` family and `DoRequest`. Go maps passed by reference become the `Params` class, and destination records become the `Destination` class.
- `Address`, `Unspent`, `Balance`: the endpoint wrappers. In Go these are methods on `*Client`; here they are module-level methods taking the client as their first argument.

The network and the JSON decoder are parameters: each request's outcomes
(build error, send outcome, body read, decode result) arrive in an `Exchange`.
The address check `CheckAddresses` is not part of this model. It is passed to
the unspent and balance wrappers as a function `check` that returns an error
or nothing. Go's map iteration order is unspecified, so the loops pick keys
with `:|`. Their contracts hold for every order.

Points of the code that a reader of the tests or of the package comments
might not expect:

- `GetAddresses` rejects fewer than two addresses (address.go:95-97). The one-address test at address_test.go:72-94 expects success, but it calls `GetAddressesAdv`, which address.go does not define; the model follows address.go.
- `GetAddress` copies a caller-supplied `format` into its options, but `DoRequest` then overwrites it with `json` (client.go:106). So a caller's `format` never reaches the query (`Address.AddressFormatOverruled`).
- A successful `DoRequest` leaves the error slot as it was. It does not clear it.

## Model

| member | source | states |
|---|---|---|
| Strings.Join | address.go:99 | the joined `active` value starts with the first address; one address joins to itself and none to the empty string |
| Strings.SplitJoin | address.go:99 | joining a non-empty list with a one-character separator that no element contains is lossless: splitting gives back the list, in order |
| Errors.ErrorStringNamesSentinel | client.go:75-77 | `Error.Error` returns the main error's text, and two stored sentinel errors with the same text have the same sentinel: the nine messages of client.go:29-37 are pairwise distinct |
| Transport.Verdict | client.go:112-138 | a request fails iff some step fails; every failure is CDE, RRE, RSE or RPE with no address; RSE carries the response and no underlying error; every failure after the send carries the received response |
| Transport.FirstFailureIsEarliest | client.go:112-138 | the first-failure rule reports nothing iff every check passes, and otherwise reports the earliest failing check |
| Transport.VerdictIsFirstFailure | client.go:112-138 | the ladder equals the first failure among the build, send, read, status and parse checks, in that order |
| Transport.ReadFailureBeatsStatus | client.go:126-132 | a body-read failure is reported as RRE with the read error and the response, whatever the status |
| Transport.StatusBeatsParse | client.go:131-138 | after a successful read, a status not starting with '2' is reported as RSE with a nil underlying error, before any parse |
| Options.Overlay | address.go:81-86 | the overlay loop yields exactly the default keys plus the caller keys; caller values win, and other defaults are kept |
| Options.OverlayIsUnion | address.go:81-86 | any map with the overlay loop's keys and values is the map union `defaults + caller` |
| Options.MergedCallerWins | address.go:81-86 | on a key collision the first caller map's value is the one sent |
| Options.MergedKeepsDefaults | address.go:81-86 | a default the caller does not mention keeps its value |
| Options.MergedIgnoresLaterMaps | address.go:82-83 | only `params[0]` is consulted; further maps change nothing |
| Options.MergedEmpty | unspent.go:28-30 | passing one empty map is the same as passing none |
| Options.MergedOffsetExample | address.go:81-86 | `{"offset": "2147483647"}` over `{"format": "json"}` gives both entries |
| Blockchain.FillValues | client.go:107-110 | `urlValues` has exactly the parameter keys, each with the single value `[params[k]]` |
| Blockchain.Client.New | client.go:144-146 | a new client targets `APIRootNet` with a default HTTP client, no User-Agent fragment, an empty error slot and no requests |
| Blockchain.Client.NewTor | client.go:149-151 | as `New`, but targeting `APIRootTor` |
| Blockchain.Client.SetHTTP | client.go:154-156 | replaces the HTTP client and changes nothing else; later requests are logged as sent through the new client |
| Blockchain.Client.UserAgentHeader | client.go:48-54 | the header starts with the package string; it equals it iff the fragment is empty; otherwise a space and then exactly the fragment follow |
| Blockchain.UserAgentHeaderInjective | client.go:48-54 | two clients send the same header iff their fragments are equal |
| Blockchain.Client.Error | client.go:56-61 | returns the pending error and leaves the slot empty, so a second call returns nil |
| Blockchain.Client.SetError | client.go:87-102 | returns the main error; a nil main error leaves the slot empty, whatever it held; otherwise the slot holds exactly the four given parts |
| Blockchain.Client.SetErrorOne | client.go:79-81 | as `SetError` with nil underlying error, response and address |
| Blockchain.Client.SetErrorTwo | client.go:83-85 | as `SetError` with nil response and address |
| Blockchain.Client.DoRequest | client.go:105-141 | the caller's map gets `format=json`, other keys unchanged; the returned error and slot follow `Verdict`; a nil return leaves the slot as it was, and a non-nil return is the main error of the record now in the slot; a request is logged, with its target, query, header and the HTTP client that sends it, unless it could not be built; the destination is filled only on full success |
| Address.GetAddress | address.go:76-91 | the empty address gives an error, a nil response, no request and no change to the slot; otherwise `/address/<address>` is requested with `format=json` overlaid by the first caller map, into a fresh zero record |
| Address.GetAddresses | address.go:94-110 | fewer than two addresses give an error, a nil response and no request; otherwise `/multiaddr` with `active` = the addresses joined by a bar, overlaid by the first caller map |
| Address.AddressFormatOverruled | address.go:81-88 | a caller `format` is copied into the options, but the sent query always has `format=json` |
| Address.ActiveListInOrder | address.go:99 | the `active` value splits back into the addresses in input order |
| Address.ActiveForTestAddresses | address_test.go:36-41 | the two test addresses give `1A1zP1eP5QGefi2DMPTfTL5SLmv7DivfNa`, a bar, then `12c6DSiU4Rq3P4ZxziKxzrL5LmMBrzjrJX` |
| Address.CallerActiveWins | address.go:99-104 | a caller `active` entry replaces the joined list |
| Unspent.GetUnspentAdv | unspent.go:33-50 | a failed address check returns its error with a nil response and no request, and nothing is promised about the slot; otherwise `/unspent` is requested into a fresh empty record with the joined `active` list overlaid by the first caller map |
| Unspent.GetUnspent | unspent.go:28-30 | behaves as `GetUnspentAdv` with one empty map: only `active` and `format` are sent |
| Unspent.UnspentCallerOverrides | unspent.go:39-44 | maps after the first are ignored; a caller `active` wins, otherwise the joined list is sent |
| Balance.GetBalance | balance.go:25-37 | a failed address check returns its error with a nil map and no request; otherwise `/balance` is requested into a fresh empty map that stays empty unless the call succeeds |
| Balance.BalanceQueryExact | balance.go:32-34 | the balance query holds exactly `active` (the joined list) and `format=json` |

## Left out

- Networking (`http.NewRequest`, `client.Do`, `ioutil.ReadAll`, `resp.Body.Close`): each call's outcome is an input (`Exchange`). Closing the body is not modelled.
- JSON decoding and the response record schemas (`Address`, `MultiAddr`, `Wallet`, `Info`, `UnspentOutputs`, `Balances`, ...): a destination holds either its zero value or "the decoding of these bytes" (`Payload`). A successful decode replaces what the destination held. Go's `json.Unmarshal` merges into a non-zero struct or map instead: fields and keys the body leaves out keep their old values. The wrappers always pass a fresh destination, so only direct callers of the exported `DoRequest` can see the difference.
- Blockchain.Client.DoRequest: on a decode failure the model leaves the destination as it was. `json.Unmarshal` can partly fill it on a type mismatch, so this is stronger than Go guarantees. The wrappers inherit it.
- `url.Values.Encode` (percent-encoding, key sorting): the logged request keeps the `url.Values` map and the target `BasePath + path` rather than the encoded URL string.
- `CheckAddresses` is not part of this model. It is an input `check`, a pure function of the address list. balance.go calls it as a package function returning `*Error` and assigns `DoRequest`'s `error` to that `*Error`, which Go does not accept as written. The model treats both results as plain error values.
- Unspent.GetUnspentAdv: when the check fails, the contract promises nothing about the error slot. unspent.go:34 calls `c.CheckAddresses`, a method on `*Client`, which may write `c.error`. It is the likely writer of the `WAE`/`PAE` sentinels and of `Error.Address` (client.go:32-33, 71-72), which no code in this model sets. `Unspent.GetUnspent` inherits this. `Balance.GetBalance` keeps the unchanged slot, because balance.go:26 calls a package function that cannot reach the client.
- Error identity: Go compares `errors.New` values by pointer, so two errors made from the same text are different. The model compares errors by kind and text.
- The `Error` record's main error is never nil in the model, because `setError` only builds a record for a non-nil main error. A caller-built record with a nil main error would make `Error.Error` panic in Go.
- An empty HTTP status line: `resp.Status[0]` (client.go:131) panics when `Status` is empty. The default transport always fills it, but `SetHTTP` accepts any `*http.Client`, and a custom `RoundTripper` may return a response with an empty `Status`. The model's `StatusLine` type rules this input out, so that panic is not modelled.
- Blockchain.Client.DoRequest: a nil `params` map makes `params["format"] = "json"` (client.go:106) panic. `DoRequest` is exported, but the model's `Params` argument is a non-null object, so that panic is not modelled.
- `SetHTTP(nil)` and the resulting nil dereference on the next request are not modelled.
- Concurrent use of one client's error slot: the model is single-threaded.
- Chart, pool and stats endpoints: their code is not part of this model.
