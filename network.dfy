/**
 * Server address construction in the browser client (src/ui/src/utils/network.ts).
 *
 * When the page is served by the game server itself (port 8000, or any host
 * other than `localhost`) the client talks to the page's own origin; in
 * development it talks to port 8000 of a detected local address.
 */
module Network {
  import opened Wrappers

  const DefaultHost := "localhost"
  const ServerPort := "8000"

  /** The parts of `window.location` the module reads. */
  datatype Location = Location(port: string, hostname: string, protocol: string, host: string, origin: string)

  predicate StartsWith(s: string, prefix: string) {
    prefix <= s
  }

  predicate EndsWith(s: string, suffix: string) {
    |suffix| <= |s| && s[|s| - |suffix|..] == suffix
  }

  /** The address prefixes the client takes for local-network addresses. */
  predicate HasPrivatePrefix(host: string) {
    StartsWith(host, "192.168.") || StartsWith(host, "10.") || StartsWith(host, "172.")
  }

  /** The two loopback names carry no private prefix. */
  lemma LoopbackNotPrivate()
    ensures !HasPrivatePrefix("localhost") && !HasPrivatePrefix("127.0.0.1")
  {
    assert "localhost"[0] == 'l';
    assert "127.0.0.1"[1] == '2';
  }

  /**
   * The check in `getLocalIP` that lets the page's own host serve as the local
   * address. Its loopback exclusions are redundant: the prefix test decides alone.
   */
  function UsesCurrentHost(host: string): (b: bool)
    ensures b <==> HasPrivatePrefix(host)
  {
    LoopbackNotPrivate();
    host != "localhost" && host != "127.0.0.1" && HasPrivatePrefix(host)
  }

  /**
   * The address `getLocalIP` settles on without WebRTC: the page's own host
   * when it is a local-network address; None means detection goes on.
   */
  function LocalIPFromHost(hostname: string): (ip: Option<string>)
    ensures ip.Some? <==> HasPrivatePrefix(hostname)
    ensures ip.Some? ==> ip.value == hostname
  {
    if UsesCurrentHost(hostname) then Some(hostname) else None
  }

  /** The page is served by the game server itself rather than a development server. */
  predicate ServedByServer(location: Location) {
    location.port == ServerPort || location.hostname != DefaultHost
  }

  /** `getBaseURL`: the origin of HTTP requests; `ip` is the address argument, `localhost` when omitted. */
  function GetBaseURL(location: Location, ip: Option<string>): (url: string)
    ensures ServedByServer(location) ==> url == location.origin
    ensures !ServedByServer(location) ==>
      StartsWith(url, "http://") && EndsWith(url, ":" + ServerPort) &&
      |url| == |ip.GetOr(DefaultHost)| + 12 && url[7..|url| - 5] == ip.GetOr(DefaultHost)
  {
    if ServedByServer(location) then location.origin
    else "http://" + ip.GetOr(DefaultHost) + ":" + ServerPort
  }

  /** `getWebSocketURL`: the address of session `uuid`'s socket. */
  function GetWebSocketURL(location: Location, ip: Option<string>, uuid: string): (url: string)
    ensures EndsWith(url, "/ws/" + uuid)
    ensures !ServedByServer(location) ==> StartsWith(url, "ws://")
  {
    if ServedByServer(location) then
      var protocol := if location.protocol == "https:" then "wss:" else "ws:";
      protocol + "//" + location.host + "/ws/" + uuid
    else
      "ws://" + ip.GetOr(DefaultHost) + ":" + ServerPort + "/ws/" + uuid
  }

  /** The socket is secure exactly when the page is served by the server over HTTPS. */
  lemma SecureSocketIffHttps(location: Location, ip: Option<string>, uuid: string)
    ensures StartsWith(GetWebSocketURL(location, ip, uuid), "wss:") <==>
      ServedByServer(location) && location.protocol == "https:"
  {
    var url := GetWebSocketURL(location, ip, uuid);
    if !(ServedByServer(location) && location.protocol == "https:") {
      assert url[2] == ':';
    }
  }

  /** In development the socket goes to the same host and port as HTTP requests, with a ws scheme. */
  lemma DevelopmentUrlsAgree(location: Location, ip: Option<string>, uuid: string)
    requires !ServedByServer(location)
    ensures GetWebSocketURL(location, ip, uuid) == "ws" + GetBaseURL(location, ip)[4..] + "/ws/" + uuid
  {
    var host := ip.GetOr(DefaultHost);
    var rest := "://" + host + ":" + ServerPort;
    assert GetBaseURL(location, ip) == "http" + rest;
    assert ("http" + rest)[4..] == rest;
    assert "ws://" + host == "ws" + ("://" + host);
  }

  /** Served by the server, the socket is on the page's own host, under the path of session `uuid`. */
  lemma ServedSocketOnPageHost(location: Location, ip: Option<string>, uuid: string)
    requires ServedByServer(location)
    ensures var url := GetWebSocketURL(location, ip, uuid);
      var scheme := if location.protocol == "https:" then "wss:" else "ws:";
      url == scheme + "//" + location.host + "/ws/" + uuid
  {
  }
}
