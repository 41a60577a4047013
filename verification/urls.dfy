/** The redirect base URL that sign-up confirmation mails and OAuth callbacks
    point back to (`getBaseUrl` in src/lib/utils.ts). The build-time
    environment override and the browser location are parameters. */
module Urls {
  import opened Optional
  import opened Text

  /** Host names treated as a development machine: two exact names and two
      private-network prefixes. The prefixes are plain string prefixes, so
      `10.example.com` counts as local too. */
  predicate IsLocalHost(hostname: string)
  {
    || hostname == "localhost"
    || hostname == "127.0.0.1"
    || StartsWith(hostname, "192.168.")
    || StartsWith(hostname, "10.")
  }

  /** An override is in force when it is defined and non-empty (JavaScript truthiness). */
  predicate Overridden(env: Option<string>)
  {
    env.Some? && env.value != ""
  }

  /** `protocol//hostname`, the production form of the base URL. */
  function Origin(protocol: string, hostname: string): string
  {
    protocol + "//" + hostname
  }

  /** The base URL, given the environment override `env` and the window
      location's `protocol` (which carries its own colon, e.g. `https:`),
      `hostname` and `port` (empty when the default port is in use). */
  function BaseUrl(env: Option<string>, protocol: string, hostname: string, port: string): (r: string)
    ensures Overridden(env) ==> r == env.value
    ensures !Overridden(env) ==> StartsWith(r, Origin(protocol, hostname))
    ensures !Overridden(env) && !IsLocalHost(hostname) ==> r == Origin(protocol, hostname)
    ensures !Overridden(env) && IsLocalHost(hostname) && port != "" ==>
              r == Origin(protocol, hostname) + ":" + port
    ensures !Overridden(env) && port == "" ==> r == Origin(protocol, hostname)
  {
    if Overridden(env) then
      env.value
    else if IsLocalHost(hostname) && port != "" then
      Origin(protocol, hostname) + ":" + port
    else
      Origin(protocol, hostname)
  }

  /** Without an override, the port shows in the URL exactly when the host is
      local and the port is non-empty. */
  lemma PortShownIff(protocol: string, hostname: string, port: string)
    ensures BaseUrl(None, protocol, hostname, port) != Origin(protocol, hostname)
            <==> IsLocalHost(hostname) && port != ""
  {
    if IsLocalHost(hostname) && port != "" {
      assert |BaseUrl(None, protocol, hostname, port)| > |Origin(protocol, hostname)|;
    }
  }

  /** The path every post-authentication redirect lands on. */
  const AdminPath := "/admin"

  /** The redirect target of email sign-up and of OAuth sign-in: the base URL
      followed by the admin path. */
  function AdminRedirect(baseUrl: string): (r: string)
    ensures StartsWith(r, baseUrl)
    ensures |r| == |baseUrl| + |AdminPath| && r[|baseUrl|..] == AdminPath
  {
    baseUrl + AdminPath
  }

  /** The classification of some host names, as the prefix tests make it. */
  lemma LocalHostExamples()
    ensures IsLocalHost("localhost") && IsLocalHost("127.0.0.1")
    ensures IsLocalHost("192.168.1.20") && IsLocalHost("10.0.0.5")
    ensures IsLocalHost("10.example.com")
    ensures !IsLocalHost("example.com") && !IsLocalHost("172.16.0.1")
  {
    assert "10.example.com"[..3] == "10.";
    assert "192.168.1.20"[..8] == "192.168.";
    assert "10.0.0.5"[..3] == "10.";
    assert "example.com"[..3][0] != "10."[0];
    assert "example.com"[..8][0] != "192.168."[0];
    assert "172.16.0.1"[..3][1] != "10."[1];
    assert "172.16.0.1"[..8][1] != "192.168."[1];
  }

  /** A development host keeps its port in the URL. */
  lemma LocalBaseUrlExample()
    ensures BaseUrl(None, "http:", "10.example.com", "8080") == "http://10.example.com:8080"
  {
    LocalHostExamples();
    var origin := Origin("http:", "10.example.com");
    assert origin == "http://10.example.com";
    assert origin + ":" + "8080" == "http://10.example.com:8080";
  }

  /** A production host drops its port. */
  lemma ProductionBaseUrlExample()
    ensures BaseUrl(None, "https:", "example.com", "8443") == "https://example.com"
  {
    LocalHostExamples();
  }
}
