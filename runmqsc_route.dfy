/**
 * How the server's `runmqsc` tool decides where an MQSC command goes: an
 * explicit hostname, else the host the manifest records for the queue
 * manager, else the queue-manager name itself; the first two pass through
 * the hostname gate, the third does not.
 */
module RunmqscRoute {
  import opened Wrappers
  import opened Text
  import opened JsonValue
  import opened Manifest
  import HostnameGate

  /** Either the gate's refusal (no request is made) or the POST that will be sent. */
  datatype Route = Blocked(message: string) | Post(url: string, body: Json)

  /** The request body `{"type": "runCommand", "parameters": {"command": ...}}` before serialisation. */
  function CommandBody(command: string): Json
  {
    JObj([("type", JStr("runCommand")), ("parameters", JObj([("command", JStr(command))]))])
  }

  /** The first manifest row whose queue manager equals the name, ignoring letter case. */
  function FirstRowFor(table: Table, qmgrName: string): (r: Option<Row>)
    ensures r.Some? ==> r.value in table && Upper(r.value.qmgr) == Upper(qmgrName)
    ensures r.Some? ==> exists i | 0 <= i < |table| :: (table[i] == r.value
      && forall k | 0 <= k < i :: Upper(table[k].qmgr) != Upper(qmgrName))
    ensures r.None? ==> forall row | row in table :: Upper(row.qmgr) != Upper(qmgrName)
  {
    if table == [] then None
    else if Upper(table[0].qmgr) == Upper(qmgrName) then Some(table[0])
    else
      var r := FirstRowFor(table[1..], qmgrName);
      assert forall row | row in table[1..] :: row in table;
      assert r.Some? ==> exists i | 0 <= i < |table| :: (table[i] == r.value
        && forall k | 0 <= k < i :: Upper(table[k].qmgr) != Upper(qmgrName)) by {
        if r.Some? {
          var i :| 0 <= i < |table[1..]| && table[1..][i] == r.value
            && forall k | 0 <= k < i :: Upper(table[1..][k].qmgr) != Upper(qmgrName);
          assert table[i + 1] == r.value;
          forall k | 0 <= k < i + 1 ensures Upper(table[k].qmgr) != Upper(qmgrName) {
            if k > 0 { assert table[k] == table[1..][k - 1]; }
          }
        }
      }
      r
  }

  /**
   * The host the request is aimed at and whether the gate is consulted:
   * `Some(host)` means gated, `None` means the queue-manager name is used
   * unchecked.
   */
  function GatedHost(table: Table, qmgrName: string, hostname: Option<string>): Option<string>
  {
    if hostname.Some? && hostname.value != "" then Some(Strip(hostname.value))
    else if table != [] && FirstRowFor(table, qmgrName).Some? then
      Some(Strip(FirstRowFor(table, qmgrName).value.hostname))
    else None
  }

  /** `url_with_host + "action/qmgr/" + qmgr_name + "/mqsc"`, where every `localhost` of the base is the target. */
  function CommandUrl(urlBase: string, target: string, qmgrName: string): string
  {
    ReplaceAll(urlBase, "localhost", target) + "action/qmgr/" + qmgrName + "/mqsc"
  }

  /** The routing part of `runmqsc(qmgr_name, mqsc_command, hostname)`. */
  function ResolveRoute(prefixes: seq<string>, table: Table, urlBase: string,
                        qmgrName: string, command: string, hostname: Option<string>): (route: Route)
    ensures route.Blocked? <==>
      GatedHost(table, qmgrName, hostname).Some? &&
      !HostnameGate.Allowed(prefixes, GatedHost(table, qmgrName, hostname).value)
    ensures route.Blocked? ==> route.message == HostnameGate.BlockedMessage(GatedHost(table, qmgrName, hostname).value)
    ensures route.Post? ==> (route.body == CommandBody(command)
      && route.url == CommandUrl(urlBase, GatedHost(table, qmgrName, hostname).GetOr(qmgrName), qmgrName))
  {
    match GatedHost(table, qmgrName, hostname)
    case Some(target) =>
      if HostnameGate.Allowed(prefixes, target) then Post(CommandUrl(urlBase, target, qmgrName), CommandBody(command))
      else Blocked(HostnameGate.BlockedMessage(target))
    case None => Post(CommandUrl(urlBase, qmgrName, qmgrName), CommandBody(command))
  }

  /** An explicit hostname is stripped and gated; the manifest is not consulted. */
  lemma ExplicitHostIsGated(prefixes: seq<string>, table: Table, urlBase: string,
                            qmgrName: string, command: string, h: string)
    requires h != ""
    ensures ResolveRoute(prefixes, table, urlBase, qmgrName, command, Some(h)).Blocked?
      <==> !HostnameGate.Allowed(prefixes, Strip(h))
    ensures !ResolveRoute(prefixes, table, urlBase, qmgrName, command, Some(h)).Blocked? ==>
      ResolveRoute(prefixes, table, urlBase, qmgrName, command, Some(h)).url == CommandUrl(urlBase, Strip(h), qmgrName)
  {
    assert GatedHost(table, qmgrName, Some(h)) == Some(Strip(h));
  }

  /** Without a hostname, the first manifest row of the queue manager supplies the host, and it is gated. */
  lemma ManifestHostIsGated(prefixes: seq<string>, table: Table, urlBase: string,
                            qmgrName: string, command: string, hostname: Option<string>, i: nat)
    requires hostname.None? || hostname == Some("")
    requires i < |table| && Upper(table[i].qmgr) == Upper(qmgrName)
    requires forall k | 0 <= k < i :: Upper(table[k].qmgr) != Upper(qmgrName)
    ensures ResolveRoute(prefixes, table, urlBase, qmgrName, command, hostname).Blocked?
      <==> !HostnameGate.Allowed(prefixes, Strip(table[i].hostname))
  {
    var r := FirstRowFor(table, qmgrName);
    var j :| 0 <= j < |table| && table[j] == r.value
      && forall k | 0 <= k < j :: Upper(table[k].qmgr) != Upper(qmgrName);
    assert i == j;
  }

  /**
   * A queue manager the manifest does not list (or an empty manifest) is
   * used as the hostname without consulting the gate: the request is sent
   * even when that name would be refused.
   */
  lemma UnlistedQmgrBypassesGate(prefixes: seq<string>, table: Table, urlBase: string,
                                 qmgrName: string, command: string, hostname: Option<string>)
    requires hostname.None? || hostname == Some("")
    requires forall row | row in table :: Upper(row.qmgr) != Upper(qmgrName)
    ensures ResolveRoute(prefixes, table, urlBase, qmgrName, command, hostname)
      == Post(CommandUrl(urlBase, qmgrName, qmgrName), CommandBody(command))
  {
  }
}
