/**
 * The node-connection store (stores/parityStore.js): four observable
 * fields updated by guarded setter actions, the token sanitiser and the
 * provider URL used when connecting, and the reply to a token request.
 */
module ParityStore {
  import opened Wrappers

  const DefaultInterface: string := "127.0.0.1"
  const DefaultPort: string := "8546"

  // ---------------------------------------------------------------------
  // Token sanitiser
  // ---------------------------------------------------------------------

  predicate IsAlphanumeric(c: char)
  {
    ('a' <= c <= 'z') || ('A' <= c <= 'Z') || ('0' <= c <= '9')
  }

  /** `token.replace(/[^a-zA-Z0-9]/g, "")`. */
  function Sanitize(token: string): (r: string)
    ensures |r| <= |token|
    ensures forall i :: 0 <= i < |r| ==> IsAlphanumeric(r[i])
  {
    if token == [] then []
    else (if IsAlphanumeric(token[0]) then [token[0]] else []) + Sanitize(token[1..])
  }

  /** Sanitising works character by character: it distributes over concatenation. */
  lemma {:induction false} SanitizeAppend(a: string, b: string)
    ensures Sanitize(a + b) == Sanitize(a) + Sanitize(b)
    decreases |a|
  {
    if a != [] {
      assert (a + b)[0] == a[0] && (a + b)[1..] == a[1..] + b;
      SanitizeAppend(a[1..], b);
      var head := if IsAlphanumeric(a[0]) then [a[0]] else [];
      assert Sanitize(a + b) == head + (Sanitize(a[1..]) + Sanitize(b));
      assert Sanitize(a) == head + Sanitize(a[1..]);
    } else {
      assert a + b == b;
    }
  }

  /** A single character is kept exactly when it is a letter or digit. */
  lemma SanitizeChar(c: char)
    ensures Sanitize([c]) == if IsAlphanumeric(c) then [c] else []
  {
    assert [c][1..] == [];
  }

  /** A token that is already alphanumeric reaches the provider unchanged. */
  lemma {:induction false} SanitizeKeepsAlphanumeric(token: string)
    requires forall i :: 0 <= i < |token| ==> IsAlphanumeric(token[i])
    ensures Sanitize(token) == token
    decreases |token|
  {
    if token != [] {
      SanitizeKeepsAlphanumeric(token[1..]);
    }
  }

  /** Sanitising twice is sanitising once. */
  lemma SanitizeIdempotent(token: string)
    ensures Sanitize(Sanitize(token)) == Sanitize(token)
  {
    SanitizeKeepsAlphanumeric(Sanitize(token));
  }

  // ---------------------------------------------------------------------
  // Provider URL
  // ---------------------------------------------------------------------

  /** The Electron globals the store reads. */
  datatype ElectronGlobals = ElectronGlobals(isParityRunning: bool, wsInterface: Option<string>, wsPort: Option<string>)

  /** `x || fallback` for an optional string: absent and empty both fall back. */
  function OrDefault(x: Option<string>, fallback: string): (r: string)
    ensures x.Some? && x.value != "" ==> r == x.value
    ensures x.None? || x.value == "" ==> r == fallback
  {
    if x.Some? && x.value != "" then x.value else fallback
  }

  /** The interface and port `connectToApi` connects to. */
  function Endpoint(electron: Option<ElectronGlobals>): (r: (string, string))
    ensures r.0 != "" && r.1 != ""
  {
    if electron.None? then (DefaultInterface, DefaultPort)
    else (OrDefault(electron.value.wsInterface, DefaultInterface), OrDefault(electron.value.wsPort, DefaultPort))
  }

  function ProviderUrl(electron: Option<ElectronGlobals>): string
  {
    "ws://" + Endpoint(electron).0 + ":" + Endpoint(electron).1
  }

  /** Outside Electron, and in Electron without flags, the node's default WebSocket endpoint. */
  lemma DefaultProviderUrl(electron: Option<ElectronGlobals>)
    requires electron.None? || (electron.value.wsInterface in {None, Some("")} && electron.value.wsPort in {None, Some("")})
    ensures ProviderUrl(electron) == "ws://127.0.0.1:8546"
  {
  }

  /** Index of the last ':' in `s`, if any. */
  function LastColon(s: string): (r: Option<nat>)
    ensures r.Some? ==> r.value < |s| && s[r.value] == ':' && forall j :: r.value < j < |s| ==> s[j] != ':'
    ensures r.None? ==> forall j :: 0 <= j < |s| ==> s[j] != ':'
  {
    if s == [] then None
    else if s[|s| - 1] == ':' then Some(|s| - 1)
    else LastColon(s[..|s| - 1])
  }

  /** Reads a `ws://host:port` URL back into host and port, splitting at the last ':'. */
  function ParseProviderUrl(url: string): (r: Option<(string, string)>)
    ensures r.Some? ==> url == "ws://" + r.value.0 + ":" + r.value.1
  {
    if |url| < 5 || url[..5] != "ws://" then None
    else
      var rest := url[5..];
      match LastColon(rest)
      case None => None
      case Some(k) =>
        assert rest == rest[..k] + ":" + rest[k + 1..];
        assert url == url[..5] + rest;
        Some((rest[..k], rest[k + 1..]))
  }

  /** The URL determines the endpoint, whenever the port has no ':' in it. */
  lemma ProviderUrlRoundTrip(electron: Option<ElectronGlobals>)
    requires forall j :: 0 <= j < |Endpoint(electron).1| ==> Endpoint(electron).1[j] != ':'
    ensures ParseProviderUrl(ProviderUrl(electron)) == Some(Endpoint(electron))
  {
    var (host, port) := Endpoint(electron);
    var url := ProviderUrl(electron);
    var rest := host + ":" + port;
    assert url[..5] == "ws://" && url[5..] == rest;
    var k := LastColon(rest);
    assert rest[|host|] == ':';
    assert k == Some(|host|);
    assert rest[..|host|] == host;
    assert rest[|host| + 1..] == port;
  }

  // ---------------------------------------------------------------------
  // The store
  // ---------------------------------------------------------------------

  /** A WebSocket provider handed to the light client: URL and sanitised token. */
  datatype Provider = Provider(url: string, token: string)

  /** A token that `!this.token` treats as present. */
  predicate Present(token: Option<string>)
  {
    token.Some? && token.value != ""
  }

  class ParityStore {
    var downloadProgress: real
    var isApiConnected: bool
    var isParityRunning: bool
    var token: Option<string>
    /** The value saved under the secure-token key of local storage. */
    var storedToken: Option<string>
    /** Every provider `connectToApi` opened, oldest first. */
    var providers: seq<Provider>
    /** How many "signer-new-token" messages were sent to the main process. */
    var tokenRequests: nat
    /** How many one-shot listeners wait for "signer-new-token-reply". */
    var replyListeners: nat
    const electron: Option<ElectronGlobals>

    /** Once a token is set, it is the one in storage and the current provider carries it. */
    ghost predicate Valid()
      reads this
    {
      token.Some? ==>
        && storedToken == token
        && |providers| > 0
        && providers[|providers| - 1] == Provider(ProviderUrl(electron), Sanitize(token.value))
    }

    /** The constructor: restore a stored token, then read the node state in Electron. */
    constructor (stored: Option<string>, electron: Option<ElectronGlobals>)
      ensures Valid()
      ensures this.electron == electron && downloadProgress == 0.0 && !isApiConnected
      ensures token == (if Present(stored) then stored else None)
      ensures isParityRunning == (electron.Some? && electron.value.isParityRunning)
      ensures tokenRequests == replyListeners == (if isParityRunning && !Present(token) then 1 else 0)
    {
      downloadProgress := 0.0;
      isApiConnected := false;
      isParityRunning := false;
      token := None;
      storedToken := stored;
      providers := [];
      tokenRequests := 0;
      replyListeners := 0;
      this.electron := electron;
      new;
      if Present(stored) {
        SetToken(stored.value);
      }
      if electron.Some? {
        SetIsParityRunning(electron.value.isParityRunning);
      }
    }

    method SetDownloadProgress(progress: real)
      modifies this`downloadProgress
      ensures downloadProgress == progress
    {
      downloadProgress := progress;
    }

    method SetIsApiConnected(connected: bool)
      modifies this`isApiConnected
      ensures isApiConnected == connected
    {
      if connected == isApiConnected {
        return;
      }
      isApiConnected := connected;
    }

    /**
     * A change of the node's running state; a new token is requested
     * exactly when the node has just started and no token is present.
     */
    method SetIsParityRunning(running: bool)
      requires Valid()
      modifies this`isParityRunning, this`tokenRequests, this`replyListeners
      ensures Valid()
      ensures isParityRunning == running
      ensures var asks := running && !old(isParityRunning) && !Present(token);
              tokenRequests == old(tokenRequests) + (if asks then 1 else 0)
              && replyListeners == old(replyListeners) + (if asks then 1 else 0)
    {
      if running == isParityRunning {
        return;
      }
      isParityRunning := running;
      if running && !Present(token) {
        RequestNewToken();
      }
    }

    /** Ask the main process for a new token and listen once for the reply. */
    method RequestNewToken()
      modifies this`tokenRequests, this`replyListeners
      ensures tokenRequests == old(tokenRequests) + 1
      ensures replyListeners == old(replyListeners) + 1
    {
      tokenRequests := tokenRequests + 1;
      replyListeners := replyListeners + 1;
    }

    /** A new token: connect with it (sanitised), then persist it. The same token again changes nothing. */
    method SetToken(newToken: string)
      requires Valid()
      modifies this`token, this`providers, this`storedToken
      ensures Valid()
      ensures old(token) == Some(newToken) ==> unchanged(this)
      ensures old(token) != Some(newToken) ==>
                && token == Some(newToken)
                && providers == old(providers) + [Provider(ProviderUrl(electron), Sanitize(newToken))]
                && storedToken == Some(newToken)
    {
      if token == Some(newToken) {
        return;
      }
      token := Some(newToken);
      ConnectToApi();
      storedToken := token;
    }

    /** Open a provider on the configured endpoint with the current token. */
    method ConnectToApi()
      requires token.Some?
      modifies this`providers
      ensures providers == old(providers) + [Provider(ProviderUrl(electron), Sanitize(token.value))]
    {
      providers := providers + [Provider(ProviderUrl(electron), Sanitize(token.value))];
    }

    /**
     * The main process answers a token request: every waiting one-shot
     * listener fires once; an empty answer is ignored.
     */
    method TokenReply(reply: Option<string>)
      requires Valid()
      modifies this`token, this`providers, this`storedToken, this`replyListeners
      ensures Valid()
      ensures replyListeners == 0
      ensures old(replyListeners) == 0 || !Present(reply) ==>
                token == old(token) && providers == old(providers) && storedToken == old(storedToken)
      ensures old(replyListeners) > 0 && Present(reply) && old(token) == reply ==>
                token == old(token) && providers == old(providers) && storedToken == old(storedToken)
      ensures old(replyListeners) > 0 && Present(reply) && old(token) != reply ==>
                && token == reply && storedToken == reply
                && providers == old(providers) + [Provider(ProviderUrl(electron), Sanitize(reply.value))]
    {
      if replyListeners == 0 {
        return;
      }
      replyListeners := 0;
      if Present(reply) {
        SetToken(reply.value);
      }
    }
  }
}
