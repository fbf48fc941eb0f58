/** The request a lookup sends and the host rule of setUseragent: a fixed
    list of hosts keeps Go's default User-Agent, every other host is sent a
    desktop Chrome one. */
module UserAgent {
  import opened Base

  /** Hosts, and their subdomains, that keep the default agent. */
  const DefaultAgentHosts: seq<string> := ["spotify.com", "youtube.com", "youtu.be"]

  const UserAgentKey: string := "User-Agent"

  const ChromeAgent: string :=
    "Mozilla/5.0 (Windows NT 10.0; Win64; x64) AppleWebKit/537.36 (KHTML, like Gecko) Chrome/60.0.3112.113 Safari/537.36"

  /** An HTTP header: each key maps to its list of values. */
  type Header = map<string, seq<string>>

  /** What leaves the process when a request is sent. */
  datatype SentRequest = SentRequest(httpMethod: string, url: string, header: Header)

  /** An *http.Request as http.NewRequest builds it: no header lines yet. */
  class Request {
    const httpMethod: string
    const url: string
    var header: Header

    constructor (httpMethod: string, url: string)
      ensures this.httpMethod == httpMethod && this.url == url && header == map[]
    {
      this.httpMethod := httpMethod;
      this.url := url;
      header := map[];
    }

    /** The request as it goes out on the wire. */
    function Sent(): SentRequest
      reads this
    {
      SentRequest(httpMethod, url, header)
    }
  }

  /** One step of the host loop: host equals name or is a subdomain of it. */
  predicate MatchesHost(host: string, name: string) {
    name == host || HasSuffix(host, "." + name)
  }

  /** The host keeps the default agent. */
  predicate KeepsDefaultAgent(host: string) {
    exists i :: 0 <= i < |DefaultAgentHosts| && MatchesHost(host, DefaultAgentHosts[i])
  }

  /** The header after setUseragent: Header.Set replaces every value of the key. */
  function AgentHeader(host: string, header: Header): Header {
    if KeepsDefaultAgent(host) then header else header[UserAgentKey := [ChromeAgent]]
  }

  /** setUseragent(parsedUrl, req). Only the header changes. */
  method SetUseragent(parsedUrl: Url, req: Request)
    modifies req`header
    ensures KeepsDefaultAgent(parsedUrl.host) ==> req.header == old(req.header)
    ensures !KeepsDefaultAgent(parsedUrl.host) ==> req.header == old(req.header)[UserAgentKey := [ChromeAgent]]
    ensures req.header == AgentHeader(parsedUrl.host, old(req.header))
  {
    for i := 0 to |DefaultAgentHosts|
      invariant forall j :: 0 <= j < i ==> !MatchesHost(parsedUrl.host, DefaultAgentHosts[j])
    {
      var hostname := DefaultAgentHosts[i];
      if hostname == parsedUrl.host || HasSuffix(parsedUrl.host, "." + hostname) {
        return;
      }
    }
    req.header := req.header[UserAgentKey := [ChromeAgent]];
  }

  /** Every other header key is left as it was. */
  lemma AgentHeaderKeepsOtherKeys(host: string, header: Header, key: string)
    requires key != UserAgentKey
    ensures key in AgentHeader(host, header) <==> key in header
    ensures key in header ==> AgentHeader(host, header)[key] == header[key]
  {
  }

  /** A host written with a port never matches the list: Host keeps the
      ":port", so "youtube.com:443" is sent the Chrome agent. */
  lemma {:induction false} PortDefeatsDefaultHosts(host: string, port: string)
    requires port != [] && forall k :: 0 <= k < |port| ==> '0' <= port[k] <= '9'
    ensures !KeepsDefaultAgent(host + ":" + port)
  {
    var h := host + ":" + port;
    var last := h[|h| - 1];
    assert last == port[|port| - 1];
    forall i | 0 <= i < |DefaultAgentHosts| ensures !MatchesHost(h, DefaultAgentHosts[i]) {
      var name := DefaultAgentHosts[i];
      assert name[|name| - 1] == 'm' || name[|name| - 1] == 'e';
    }
  }

  /** Any subdomain of a listed host keeps the default agent. */
  lemma {:induction false} SubdomainKeepsDefault(sub: string, i: nat)
    requires i < |DefaultAgentHosts|
    ensures KeepsDefaultAgent(sub + "." + DefaultAgentHosts[i])
  {
    var name := DefaultAgentHosts[i];
    var h := sub + "." + name;
    assert h[|h| - |"." + name|..] == "." + name;
    assert MatchesHost(h, name);
  }

  /** A host that merely ends with a listed name, without the dot, does not. */
  lemma LookalikeGetsChrome()
    ensures !KeepsDefaultAgent("notyoutube.com")
    ensures AgentHeader("notyoutube.com", map[]) == map[UserAgentKey := [ChromeAgent]]
  {
    var h := "notyoutube.com";
    assert !MatchesHost(h, DefaultAgentHosts[0]) by { assert h[|h| - 12..] != ".spotify.com"; }
    assert !MatchesHost(h, DefaultAgentHosts[1]) by { assert h[|h| - 12..][0] == 't'; }
    assert !MatchesHost(h, DefaultAgentHosts[2]) by { assert h[|h| - 9..][8] == 'm'; }
  }
}
