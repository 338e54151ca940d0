/**
 * The failure ladder of `Client.DoRequest`. The network and the JSON decoder
 * are not modelled; what they did on one call is given as an `Exchange`, and
 * `Verdict` says which error, if any, that call reports.
 */
module Transport {
  import opened Wrappers
  import opened Errors

  /** What `client.Do` produced: a response, or an error (sometimes with a response, e.g. on a redirect failure). */
  datatype SendOutcome = Received(response: Response) | SendFailed(cause: GoError, partial: Option<Response>)

  /** What `ioutil.ReadAll(resp.Body)` produced. */
  datatype ReadOutcome = Body(bytes: seq<bv8>) | ReadFailed(cause: GoError)

  /** What `json.Unmarshal` reported for the body. */
  datatype ParseOutcome = Decoded | Rejected(cause: GoError)

  /**
   * The outcomes of the four library calls of one request, in the order
   * they are made: `http.NewRequest`, `client.Do`, `ioutil.ReadAll`,
   * `json.Unmarshal`. A later field is only consulted when the earlier
   * calls succeeded.
   */
  datatype Exchange = Exchange(
    build: Option<GoError>,
    send: SendOutcome,
    read: ReadOutcome,
    parse: ParseOutcome)

  /** `resp.Status[0] == '2'`: only the first character of the status line is inspected. */
  predicate IsSuccessStatus(status: StatusLine)
  {
    status[0] == '2'
  }

  /**
   * The error record `DoRequest` stores (and whose main error it returns),
   * or None when the call succeeds. The checks run in a fixed order and the
   * first failing one decides.
   */
  function Verdict(ex: Exchange): (r: Option<Error>)
    ensures r.None? <==>
      && ex.build.None?
      && ex.send.Received?
      && ex.read.Body?
      && IsSuccessStatus(ex.send.response.status)
      && ex.parse.Decoded?
    ensures r.Some? ==> r.value.ErrorMain in {Sentinel(CDE), Sentinel(RRE), Sentinel(RSE), Sentinel(RPE)}
    ensures r.Some? ==> r.value.Address.None?
    ensures r.Some? && r.value.ErrorMain == Sentinel(RSE) ==> r.value.ErrorExec.None? && r.value.Response.Some?
    ensures r.Some? && r.value.ErrorMain != Sentinel(CDE) ==> ex.send.Received? && r.value.Response == Some(ex.send.response)
  {
    if ex.build.Some? then
      Some(Error(Sentinel(CDE), ex.build, None, None))
    else if ex.send.SendFailed? then
      Some(Error(Sentinel(CDE), Some(ex.send.cause), ex.send.partial, None))
    else if ex.read.ReadFailed? then
      Some(Error(Sentinel(RRE), Some(ex.read.cause), Some(ex.send.response), None))
    else if !IsSuccessStatus(ex.send.response.status) then
      Some(Error(Sentinel(RSE), None, Some(ex.send.response), None))
    else if ex.parse.Rejected? then
      Some(Error(Sentinel(RPE), Some(ex.parse.cause), Some(ex.send.response), None))
    else
      None
  }

  /** The main error `DoRequest` returns: nil on success. */
  function MainError(v: Option<Error>): Option<GoError>
  {
    match v
    case None => None
    case Some(err) => Some(err.ErrorMain)
  }

  // ---------------------------------------------------------------------
  // An independent reading of the ladder: five checks, each looking only at
  // its own library call, and the first that fails is reported.

  function BuildCheck(ex: Exchange): Option<Error>
  {
    if ex.build.Some? then Some(Error(Sentinel(CDE), ex.build, None, None)) else None
  }

  function SendCheck(ex: Exchange): Option<Error>
  {
    match ex.send
    case SendFailed(cause, partial) => Some(Error(Sentinel(CDE), Some(cause), partial, None))
    case Received(_) => None
  }

  function ReadCheck(ex: Exchange): Option<Error>
  {
    match (ex.send, ex.read)
    case (Received(resp), ReadFailed(cause)) => Some(Error(Sentinel(RRE), Some(cause), Some(resp), None))
    case _ => None
  }

  function StatusCheck(ex: Exchange): Option<Error>
  {
    match ex.send
    case Received(resp) =>
      if IsSuccessStatus(resp.status) then None else Some(Error(Sentinel(RSE), None, Some(resp), None))
    case SendFailed(_, _) => None
  }

  function ParseCheck(ex: Exchange): Option<Error>
  {
    match (ex.send, ex.parse)
    case (Received(resp), Rejected(cause)) => Some(Error(Sentinel(RPE), Some(cause), Some(resp), None))
    case _ => None
  }

  /** The checks in the order `DoRequest` performs them. */
  function Checks(ex: Exchange): seq<Option<Error>>
  {
    [BuildCheck(ex), SendCheck(ex), ReadCheck(ex), StatusCheck(ex), ParseCheck(ex)]
  }

  /** The first failure in a list of checks, None if all pass. */
  function FirstFailure(s: seq<Option<Error>>): Option<Error>
  {
    if |s| == 0 then None
    else if s[0].Some? then s[0]
    else FirstFailure(s[1..])
  }

  /** FirstFailure reports the earliest failing check and nothing else. */
  lemma {:induction false} FirstFailureIsEarliest(s: seq<Option<Error>>)
    ensures FirstFailure(s).None? <==> forall i :: 0 <= i < |s| ==> s[i].None?
    ensures FirstFailure(s).Some? ==>
      exists i :: 0 <= i < |s| && s[i] == FirstFailure(s) && forall j :: 0 <= j < i ==> s[j].None?
    decreases |s|
  {
    if |s| > 0 && s[0].None? {
      FirstFailureIsEarliest(s[1..]);
      assert forall i :: 1 <= i < |s| ==> s[i] == s[1..][i - 1];
      if FirstFailure(s).Some? {
        var k :| 0 <= k < |s[1..]| && s[1..][k] == FirstFailure(s[1..]) && forall j :: 0 <= j < k ==> s[1..][j].None?;
        assert s[k + 1] == FirstFailure(s);
        assert forall j :: 0 <= j < k + 1 ==> s[j].None? by {
          forall j | 0 <= j < k + 1 ensures s[j].None? {
            if j > 0 { assert s[j] == s[1..][j - 1]; }
          }
        }
      }
    } else if |s| > 0 {
      assert s[0] == FirstFailure(s);
    }
  }

  /** The nested ladder of DoRequest is exactly "the first failing check wins". */
  lemma VerdictIsFirstFailure(ex: Exchange)
    ensures Verdict(ex) == FirstFailure(Checks(ex))
  {
    var s := Checks(ex);
    assert FirstFailure(s[4..]) == s[4] by {
      assert s[4..][1..] == [];
    }
    assert FirstFailure(s[3..]) == if s[3].Some? then s[3] else FirstFailure(s[4..]) by {
      assert s[3..][1..] == s[4..];
    }
    assert FirstFailure(s[2..]) == if s[2].Some? then s[2] else FirstFailure(s[3..]) by {
      assert s[2..][1..] == s[3..];
    }
    assert FirstFailure(s[1..]) == if s[1].Some? then s[1] else FirstFailure(s[2..]) by {
      assert s[1..][1..] == s[2..];
    }
  }

  /** A body-read failure is reported as RRE even when the status is not 2xx. */
  lemma ReadFailureBeatsStatus(ex: Exchange)
    requires ex.build.None? && ex.send.Received? && ex.read.ReadFailed?
    ensures Verdict(ex) == Some(Error(Sentinel(RRE), Some(ex.read.cause), Some(ex.send.response), None))
  {
  }

  /** A non-2xx status is reported as RSE, before (and regardless of) the body's parse. */
  lemma StatusBeatsParse(ex: Exchange)
    requires ex.build.None? && ex.send.Received? && ex.read.Body?
    requires !IsSuccessStatus(ex.send.response.status)
    ensures Verdict(ex) == Some(Error(Sentinel(RSE), None, Some(ex.send.response), None))
  {
  }
}
