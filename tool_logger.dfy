/**
 * The tool-call log the Streamlit clients show: whether to show it, and
 * the IBM MQ REST endpoint (or CSV source) each tool call stands for.
 */
module ToolLogger {
  import opened Wrappers
  import opened Text
  import opened McpTypes
  import RunmqscRoute

  /** The default of `MQ_URL_BASE`: `https://localhost:9443/ibmmq/rest/v3/admin/`. */
  const DefaultUrlBase: string := Scheme + "localhost" + PortAndPath
  const Scheme: string := "https://"
  const PortAndPath: string := ":9443/ibmmq/rest/v3/admin/"
  const CsvSource: string := "[CSV File] resources/qmgr_dump.csv"
  const UnknownEndpoint: string := "Unknown endpoint"

  /** `should_show_logging()`, from the value of `MQ_SHOW_TOOL_LOGGING` (`None` when unset). */
  function ShouldShowLogging(env: Option<string>): (show: bool)
    ensures env.None? ==> show
    ensures show && env.Some? ==> |env.value| == 4 && env.value[0] in "tT"
  {
    Lower(env.GetOr("true")) == "true"
  }

  /**
   * `get_rest_api_url(tool_name, args)`, from the value of `MQ_URL_BASE`
   * (`None` when unset).
   */
  function RestApiUrl(urlBase: Option<string>, toolName: string, args: Args): (url: string)
    ensures toolName == "dspmq" || toolName == "dspmqver" ==> StartsWith(url, urlBase.GetOr(DefaultUrlBase))
    ensures toolName == "runmqsc" ==>
      var tail := "action/qmgr/" + (if "qmgr_name" in args then args["qmgr_name"] else "UNKNOWN") + "/mqsc";
      |tail| <= |url| && url[|url| - |tail|..] == tail
    ensures toolName == "search_qmgr_dump" ==> url == CsvSource
    ensures toolName !in {"dspmq", "dspmqver", "runmqsc", "search_qmgr_dump"} ==> url == UnknownEndpoint
  {
    var base := urlBase.GetOr(DefaultUrlBase);
    if toolName == "dspmq" then base + "qmgr/"
    else if toolName == "dspmqver" then base + "installation"
    else if toolName == "runmqsc" then
      var qmgr := if "qmgr_name" in args then args["qmgr_name"] else "UNKNOWN";
      var host := ReplaceAll(base, "localhost", qmgr);
      var tail := "action/qmgr/" + qmgr + "/mqsc";
      assert (host + tail)[|host|..] == tail;
      host + tail
    else if toolName == "search_qmgr_dump" then CsvSource
    else UnknownEndpoint
  }

  /** Logging is shown unless the variable is set to something other than `true` in some letter case. */
  lemma ShowLoggingCases(v: string)
    ensures ShouldShowLogging(None)
    ensures ShouldShowLogging(Some(v)) <==> |v| == 4 && LowerChar(v[0]) == 't' && LowerChar(v[1]) == 'r'
                                             && LowerChar(v[2]) == 'u' && LowerChar(v[3]) == 'e'
    ensures ShouldShowLogging(Some("TRUE")) && !ShouldShowLogging(Some("false")) && !ShouldShowLogging(Some(""))
  {
    assert Lower("TRUE") == "true";
    assert Lower("true") == "true";
    if |v| == 4 && LowerChar(v[0]) == 't' && LowerChar(v[1]) == 'r' && LowerChar(v[2]) == 'u' && LowerChar(v[3]) == 'e' {
      assert Lower(v) == "true";
    }
  }

  /** A base whose only `localhost` sits between two parts without an `l` gets the host in its place. */
  lemma ReplaceHost(pre: string, post: string, host: string)
    requires 'l' !in pre && 'l' !in post
    ensures ReplaceAll(pre + "localhost" + post, "localhost", host) == pre + host + post
  {
    var s := "localhost" + post;
    assert pre + "localhost" + post == pre + s;
    forall i | 0 <= i < |pre| ensures !StartsWith((pre + s)[i..], "localhost") {
      assert (pre + s)[i..][0] == pre[i] && pre[i] in pre;
      NotStartsWithFirst((pre + s)[i..], "localhost");
    }
    ReplaceAfterPrefix(pre, s, "localhost", host);
    assert StartsWith(s, "localhost") && s[|"localhost"|..] == post;
    AbsentFirstChar(post, "localhost");
    ReplaceAbsent(post, "localhost", host);
  }

  /** Around the `localhost` of the default base there is no `l`. */
  lemma DefaultBaseParts()
    ensures 'l' !in Scheme && 'l' !in PortAndPath
  {
  }

  /**
   * With the default base, a runmqsc call is logged as the endpoint on the
   * queue manager's own host.
   */
  lemma DefaultRunmqscUrl(args: Args)
    ensures var q := if "qmgr_name" in args then args["qmgr_name"] else "UNKNOWN";
      RestApiUrl(None, "runmqsc", args) == Scheme + q + PortAndPath + "action/qmgr/" + q + "/mqsc"
  {
    var q := if "qmgr_name" in args then args["qmgr_name"] else "UNKNOWN";
    DefaultBaseParts();
    ReplaceHost(Scheme, PortAndPath, q);
  }

  /**
   * The logged runmqsc endpoint is the one the server posts to for a queue
   * manager it resolves to its own name as host (one the manifest does not
   * list).
   */
  lemma LoggedUrlMatchesServer(urlBase: string, args: Args)
    requires "qmgr_name" in args
    ensures RestApiUrl(Some(urlBase), "runmqsc", args)
      == RunmqscRoute.CommandUrl(urlBase, args["qmgr_name"], args["qmgr_name"])
  {
  }
}
