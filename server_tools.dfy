/**
 * The server's MQ tools as they combine the pieces: the REST request each
 * one would send and the text it returns.  The HTTP exchange itself is an
 * input: `reply` is the decoded reply body, or the error text of the
 * exception the request raised.
 */
module ServerTools {
  import opened Wrappers
  import opened Text
  import opened JsonValue
  import opened Manifest
  import opened ServerPrettify
  import RunmqscRoute

  /** The prefix every caught request failure carries. */
  function ConnectionError(err: string): string
  {
    "❌ Connection Error: " + err
  }

  function DspmqUrl(urlBase: string): string { urlBase + "qmgr/" }

  function DspmqverUrl(urlBase: string): string { urlBase + "installation" }

  /**
   * What `URL_BASE + "..."` raises when `MQ_URL_BASE` is unset: the server
   * only logs the missing variable at start-up, and the TypeError escapes
   * the tool because the addition sits before its `try`.
   */
  const UnsetBaseConcat: string := "unsupported operand type(s) for +: 'NoneType' and 'str'"

  /** What `URL_BASE.replace(...)` raises, outside the `try` as well, when `MQ_URL_BASE` is unset. */
  const UnsetBaseReplace: string := "'NoneType' object has no attribute 'replace'"

  /**
   * `dspmq`: with the base set, one GET of `qmgr/` under it, and the
   * formatted queue-manager list or the connection error; without it, the
   * TypeError and no request.
   */
  method Dspmq(urlBase: Option<string>, reply: Result<seq<QmgrStatus>>) returns (out: Result<string>, sent: Option<string>)
    ensures urlBase.None? ==> out == Err(UnsetBaseConcat) && sent == None
    ensures urlBase.Some? ==> sent == Some(DspmqUrl(urlBase.value)) && out.Ok?
    ensures urlBase.Some? && reply.Err? ==> out.value == ConnectionError(reply.error)
    ensures urlBase.Some? && reply.Ok? ==> out.value == Join(DspmqLines(reply.value), "\n")
  {
    if urlBase.None? {
      return Err(UnsetBaseConcat), None;
    }
    sent := Some(DspmqUrl(urlBase.value));
    match reply
    case Err(e) => out := Ok(ConnectionError(e));
    case Ok(qs) =>
      var text := PrettifyDspmq(qs);
      out := Ok(text);
  }

  /**
   * `dspmqver`: with the base set, one GET of `installation` under it, and
   * the formatted installations or the connection error; without it, the
   * TypeError and no request.
   */
  method Dspmqver(urlBase: Option<string>, reply: Result<seq<Installation>>) returns (out: Result<string>, sent: Option<string>)
    ensures urlBase.None? ==> out == Err(UnsetBaseConcat) && sent == None
    ensures urlBase.Some? ==> sent == Some(DspmqverUrl(urlBase.value)) && out.Ok?
    ensures urlBase.Some? && reply.Err? ==> out.value == ConnectionError(reply.error)
    ensures urlBase.Some? && reply.Ok? ==> out.value == Join(DspmqverLines(reply.value), "\n")
  {
    if urlBase.None? {
      return Err(UnsetBaseConcat), None;
    }
    sent := Some(DspmqverUrl(urlBase.value));
    match reply
    case Err(e) => out := Ok(ConnectionError(e));
    case Ok(xs) =>
      var text := PrettifyDspmqver(xs);
      out := Ok(text);
  }

  /**
   * `runmqsc`: a refused host returns the gate's message and sends nothing,
   * whether or not the base is set, since the gate runs first. Past the
   * gate, an unset base raises the AttributeError of `None.replace`;
   * otherwise the command is posted to the resolved URL and the reply
   * formatted, or the connection error returned.
   */
  method Runmqsc(prefixes: seq<string>, table: Table, urlBase: Option<string>,
                 qmgrName: string, command: string, hostname: Option<string>,
                 reply: Result<seq<seq<string>>>)
    returns (out: Result<string>, sent: Option<(string, Json)>)
    ensures var route := RunmqscRoute.ResolveRoute(prefixes, table, urlBase.GetOr(""), qmgrName, command, hostname);
      (route.Blocked? ==> out == Ok(route.message) && sent == None)
      && (route.Post? && urlBase.None? ==> out == Err(UnsetBaseReplace) && sent == None)
      && (route.Post? && urlBase.Some? ==> (sent == Some((route.url, route.body))
            && out == Ok(if reply.Err? then ConnectionError(reply.error) else RenderRunmqsc(AllLines(reply.value)))))
  {
    var route := RunmqscRoute.ResolveRoute(prefixes, table, urlBase.GetOr(""), qmgrName, command, hostname);
    if route.Blocked? {
      return Ok(route.message), None;
    }
    if urlBase.None? {
      return Err(UnsetBaseReplace), None;
    }
    sent := Some((route.url, route.body));
    match reply
    case Err(e) => out := Ok(ConnectionError(e));
    case Ok(responses) =>
      var text := PrettifyRunmqsc(responses);
      out := Ok(text);
  }

  /**
   * Whether a request is refused by the gate does not depend on the base:
   * an unset base still lets the gate answer first.
   */
  lemma GateIgnoresBase(prefixes: seq<string>, table: Table, base1: string, base2: string,
                        qmgrName: string, command: string, hostname: Option<string>)
    ensures RunmqscRoute.ResolveRoute(prefixes, table, base1, qmgrName, command, hostname).Blocked?
        <==> RunmqscRoute.ResolveRoute(prefixes, table, base2, qmgrName, command, hostname).Blocked?
  {
  }
}
