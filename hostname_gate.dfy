/**
 * The server's hostname allow-list: the prefixes read once from
 * `MQ_ALLOWED_HOSTNAME_PREFIXES` and the test `is_hostname_allowed`, which
 * stands between every tool and a production queue manager.
 */
module HostnameGate {
  import opened Wrappers
  import opened Text

  /** The value used when `MQ_ALLOWED_HOSTNAME_PREFIXES` is unset. */
  const DefaultPrefixConfig: string := "lod,loq,lot"

  /**
   * `ALLOWED_HOSTNAME_PREFIXES`: the configuration (or the default when the
   * variable is unset; an empty value is kept as it is) split on commas,
   * each piece stripped.
   */
  function ParsePrefixes(env: Option<string>): (ps: seq<string>)
    ensures |ps| == |Split(env.GetOr(DefaultPrefixConfig), ",")|
    ensures forall i | 0 <= i < |ps| :: ps[i] == Strip(Split(env.GetOr(DefaultPrefixConfig), ",")[i])
  {
    var pieces := Split(env.GetOr(DefaultPrefixConfig), ",");
    seq(|pieces|, i requires 0 <= i < |pieces| => Strip(pieces[i]))
  }

  /** The gate's verdict: the stripped, lower-cased hostname starts with some lower-cased prefix. */
  predicate Allowed(prefixes: seq<string>, hostname: string)
  {
    exists p | p in prefixes :: StartsWith(Lower(Strip(hostname)), Lower(p))
  }

  /** The refusal text; it quotes the hostname as it was passed in. */
  function BlockedMessage(hostname: string): (m: string)
    ensures Contains(m, hostname)
  {
    ContainsMiddle("🚫 Access to this systems is restricted for safety. This query targets hostname '",
      hostname, "' which is not in the allowed list.\n\n");
    "🚫 Access to this systems is restricted for safety. This query targets hostname '"
      + hostname + "' which is not in the allowed list.\n\n"
  }

  /**
   * `is_hostname_allowed`: try the prefixes in order and stop at the first
   * that matches; otherwise refuse with the blocked message.
   */
  method IsHostnameAllowed(prefixes: seq<string>, hostname: string) returns (allowed: bool, message: string)
    ensures allowed <==> Allowed(prefixes, hostname)
    ensures message == if allowed then "" else BlockedMessage(hostname)
  {
    var hostnameLower := Lower(Strip(hostname));
    for i := 0 to |prefixes|
      invariant forall k | 0 <= k < i :: !StartsWith(hostnameLower, Lower(prefixes[k]))
    {
      if StartsWith(hostnameLower, Lower(prefixes[i])) {
        return true, "";
      }
    }
    return false, BlockedMessage(hostname);
  }

  /** The verdict depends on which prefixes are configured, not on their order or repetition. */
  lemma AllowedIgnoresOrder(ps: seq<string>, qs: seq<string>, hostname: string)
    requires forall p :: p in ps <==> p in qs
    ensures Allowed(ps, hostname) == Allowed(qs, hostname)
  {
  }

  /** Hostnames are compared without regard to letter case or surrounding whitespace. */
  lemma {:induction false} AllowedIgnoresCaseAndPadding(prefixes: seq<string>, h1: string, h2: string)
    requires Lower(Strip(h1)) == Lower(Strip(h2))
    ensures Allowed(prefixes, h1) == Allowed(prefixes, h2)
  {
  }

  /** An empty entry in the configuration (an empty value, or a stray comma) lets every host through. */
  lemma EmptyPrefixAllowsAll(prefixes: seq<string>, hostname: string)
    requires "" in prefixes
    ensures Allowed(prefixes, hostname)
  {
    assert StartsWith(Lower(Strip(hostname)), Lower(""));
  }

  lemma DefaultConfigJoin()
    ensures Join(["lod", "loq", "lot"], ",") == DefaultPrefixConfig
  {
    var parts := ["lod", "loq", "lot"];
    assert parts[1..] == ["loq", "lot"];
    assert parts[1..][1..] == ["lot"];
  }

  lemma DefaultConfigSplit()
    ensures Split(DefaultPrefixConfig, ",") == ["lod", "loq", "lot"]
  {
    DefaultConfigJoin();
    SplitJoin(["lod", "loq", "lot"], ',');
  }

  /** A configuration whose pieces carry no padding yields exactly those pieces. */
  lemma ParsePrefixesOfClean(env: Option<string>, parts: seq<string>)
    requires Split(env.GetOr(DefaultPrefixConfig), ",") == parts
    requires forall i | 0 <= i < |parts| :: Strip(parts[i]) == parts[i]
    ensures ParsePrefixes(env) == parts
  {
  }

  /** With the variable unset the prefixes are exactly `lod`, `loq` and `lot`. */
  lemma DefaultPrefixes()
    ensures ParsePrefixes(None) == ["lod", "loq", "lot"]
  {
    DefaultConfigSplit();
    StripNoSpace("lod");
    StripNoSpace("loq");
    StripNoSpace("lot");
    ParsePrefixesOfClean(None, ["lod", "loq", "lot"]);
  }

  lemma AdmitsDevHosts(ps: seq<string>)
    requires ps == ["lod", "loq", "lot"]
    ensures Allowed(ps, "lodalhost") && Allowed(ps, "loqalhost") && Allowed(ps, "lotalhost")
  {
    StripNoSpace("lodalhost");
    StripNoSpace("loqalhost");
    StripNoSpace("lotalhost");
    assert Lower("lod") == "lod" && Lower("loq") == "loq" && Lower("lot") == "lot";
    assert StartsWith(Lower("lodalhost"), Lower(ps[0]));
    assert StartsWith(Lower("loqalhost"), Lower(ps[1]));
    assert StartsWith(Lower("lotalhost"), Lower(ps[2]));
  }

  lemma RefusesOtherHosts(ps: seq<string>)
    requires ps == ["lod", "loq", "lot"]
    ensures !Allowed(ps, "lopalhost") && !Allowed(ps, "unknownhost")
  {
    StripNoSpace("lopalhost");
    StripNoSpace("unknownhost");
    assert Lower("lod") == "lod" && Lower("loq") == "loq" && Lower("lot") == "lot";
    assert Lower("lopalhost")[..3] == "lop";
    assert Lower("unknownhost")[..3] == "unk";
  }

  /** The default configuration admits development, QA and test hosts. */
  lemma DefaultGateAdmits()
    ensures Allowed(ParsePrefixes(None), "lodalhost")
    ensures Allowed(ParsePrefixes(None), "loqalhost")
    ensures Allowed(ParsePrefixes(None), "lotalhost")
  {
    DefaultPrefixes();
    AdmitsDevHosts(ParsePrefixes(None));
  }

  /** The default configuration refuses production and unknown hosts. */
  lemma DefaultGateRefuses()
    ensures !Allowed(ParsePrefixes(None), "lopalhost")
    ensures !Allowed(ParsePrefixes(None), "unknownhost")
  {
    DefaultPrefixes();
    RefusesOtherHosts(ParsePrefixes(None));
  }
}
