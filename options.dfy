/**
 * Request options: string-to-string maps of query parameters. Endpoints
 * seed a map of defaults and copy the caller's first map over it.
 */
module Options {

  type Options = map<string, string>

  const FormatKey := "format"
  const ActiveKey := "active"
  const JsonFormat := "json"

  /** The separator of the `active` address list. */
  const Bar := '|'

  /**
   * The loop `for k, v := range params[0] { options[k] = v }`: every caller
   * key lands in the result with the caller's value, every other default
   * survives, and no other key appears.
   */
  method Overlay(options: Options, caller: Options) returns (merged: Options)
    ensures merged.Keys == options.Keys + caller.Keys
    ensures forall k :: k in caller ==> merged[k] == caller[k]
    ensures forall k :: k in options && k !in caller ==> merged[k] == options[k]
  {
    merged := options;
    var todo := caller.Keys;
    while todo != {}
      invariant todo <= caller.Keys
      invariant merged.Keys == options.Keys + (caller.Keys - todo)
      invariant forall k :: k in caller && k !in todo ==> merged[k] == caller[k]
      invariant forall k :: k in options && (k !in caller || k in todo) ==> merged[k] == options[k]
      decreases todo
    {
      var k :| k in todo;
      merged := merged[k := caller[k]];
      todo := todo - {k};
    }
  }

  /**
   * The options an endpoint sends for the variadic `params ...map[string]string`:
   * the defaults, overlaid with the first caller map when there is one.
   */
  function Merged(defaults: Options, params: seq<Options>): Options
  {
    if |params| == 0 then defaults else defaults + params[0]
  }

  /** On a key collision the caller's value wins. */
  lemma MergedCallerWins(defaults: Options, params: seq<Options>, k: string)
    requires |params| > 0 && k in params[0]
    ensures k in Merged(defaults, params) && Merged(defaults, params)[k] == params[0][k]
  {
  }

  /** Defaults the caller does not mention are kept, and nothing but defaults and caller keys appears. */
  lemma MergedKeepsDefaults(defaults: Options, params: seq<Options>, k: string)
    requires k in defaults && (|params| == 0 || k !in params[0])
    ensures k in Merged(defaults, params) && Merged(defaults, params)[k] == defaults[k]
  {
  }

  /** Only the first caller map is consulted; later ones are ignored. */
  lemma MergedIgnoresLaterMaps(defaults: Options, first: Options, rest: seq<Options>)
    ensures Merged(defaults, [first] + rest) == Merged(defaults, [first])
  {
  }

  /** Passing one empty map is the same as passing none. */
  lemma MergedEmpty(defaults: Options)
    ensures Merged(defaults, [map[]]) == Merged(defaults, []) == defaults
  {
  }

  /** The result of Overlay is the spec's `defaults + caller`. */
  lemma OverlayIsUnion(options: Options, caller: Options, merged: Options)
    requires merged.Keys == options.Keys + caller.Keys
    requires forall k :: k in caller ==> merged[k] == caller[k]
    requires forall k :: k in options && k !in caller ==> merged[k] == options[k]
    ensures merged == options + caller
  {
  }

  /** A caller offset next to the `format` default: both end up in the merged options. */
  lemma MergedOffsetExample()
    ensures Merged(map[FormatKey := JsonFormat], [map["offset" := "2147483647"]])
         == map[FormatKey := JsonFormat, "offset" := "2147483647"]
  {
  }
}
