/**
 * The HTTP CONNECT dialer: `newHttpProxy` fills an `httpProxy` from a parsed
 * proxy URL, and `httpProxy.Dial` opens a connection to the proxy, sends a
 * CONNECT request (section 9.3.6 of RFC 9110) with optional Basic credentials
 * (RFC 7617) and accepts the tunnel only on status 200. Each foreign step
 * (the forwarder's dial, `url.Parse`, `http.NewRequest`, `req.Write`,
 * `http.ReadResponse`) is given by `Steps`: it succeeds or reports an error,
 * and the forwarder's dial may also panic.
 */
module HttpTunnel {
  import opened Wrappers
  import opened ProxyTypes
  import opened ProxyUrl
  import opened Factory

  /** The fixed `User-Agent` header of every CONNECT request. */
  const UserAgent: string := "Poweredby Golang"

  /** The request `Dial` writes to the proxy. */
  datatype Request = Request(verb: string, target: string, basicAuth: Option<Credentials>,
                             userAgent: string, close: bool)

  /** What `http.ReadResponse` yields: an error, or a response with its status code. */
  datatype Reply = ReadFailed(err: Error) | Status(code: int)

  /** How the forwarder's `Dial` to the proxy ends. */
  datatype ForwardDial = Connected | DialFailed(err: Error) | DialPanicked(fault: Fault)

  /** The outcome of each foreign step of one `Dial`, in order. */
  datatype Steps = Steps(connect: ForwardDial, parseTarget: Option<Error>,
                         newRequest: Option<Error>, write: Option<Error>, read: Reply)

  /**
   * The forwarder's dial can end this way: a direct dial does not panic, and a
   * `ContextDialer` forwarder around a nil dialer always panics.
   */
  predicate PossibleForwardDial(forward: Forwarder, connect: ForwardDial) {
    match forward
    case Direct => !connect.DialPanicked?
    case Via(External(_)) => true
    case Via(Wrapped(cd)) => DialTarget(cd).Panicked? ==> connect == DialPanicked(NilDialer)
  }

  /** Every step before the reply succeeded. */
  predicate RequestSent(s: Steps) {
    s.connect.Connected? && s.parseTarget.None? && s.newRequest.None? && s.write.None?
  }

  /** How a `Dial` ends. */
  datatype Outcome = Tunnel | Failed(err: Error) | Crashed(fault: Fault)

  /** What has become of the connection to the proxy when `Dial` ends. */
  datatype ConnFate = NeverOpened | HandedOver | ClosedBeforeReturn | LeftOpen

  /** The outcome of `httpProxy.Dial` and the fate of its proxy connection, step by step. */
  function DialSpec(s: Steps): (r: (Outcome, ConnFate))
    ensures r.0 == Tunnel <==> RequestSent(s) && s.read == Status(200)
    ensures r.0 == Tunnel <==> r.1 == HandedOver
    ensures r.1 == NeverOpened <==> !s.connect.Connected?
    ensures s.connect.DialFailed? ==> r.0 == Failed(s.connect.err)
    ensures s.connect.DialPanicked? ==> r.0 == Crashed(s.connect.fault)
    ensures r.0.Failed? ==> r.1 == NeverOpened || r.1 == ClosedBeforeReturn
    ensures r.0.Crashed? ==> r.1 == NeverOpened || r.1 == LeftOpen
    ensures r.1 == LeftOpen <==> RequestSent(s) && s.read.ReadFailed?
    ensures r.1 == LeftOpen ==> r.0 == Crashed(NilResponseBody)
    ensures RequestSent(s) && s.read.Status? && s.read.code != 200 ==>
              r == (Failed(ConnectStatus(s.read.code)), ClosedBeforeReturn)
  {
    match s.connect
    case DialFailed(e) => (Failed(e), NeverOpened)
    case DialPanicked(f) => (Crashed(f), NeverOpened)
    case Connected =>
      if s.parseTarget.Some? then (Failed(s.parseTarget.value), ClosedBeforeReturn)
      else if s.newRequest.Some? then (Failed(s.newRequest.value), ClosedBeforeReturn)
      else if s.write.Some? then (Failed(s.write.value), ClosedBeforeReturn)
      else
        match s.read
        case ReadFailed(_) => (Crashed(NilResponseBody), LeftOpen)
        case Status(code) =>
          if code != 200 then (Failed(ConnectStatus(code)), ClosedBeforeReturn)
          else (Tunnel, HandedOver)
  }

  /** The only tunnel is the one the proxy answers with status 200. */
  lemma OnlyStatus200Tunnels(s: Steps, code: int)
    requires RequestSent(s) && s.read == Status(code)
    ensures DialSpec(s).0 == Tunnel <==> code == 200
    ensures code != 200 ==> DialSpec(s).0.Failed? && DialSpec(s).0.err.code == code
  {
  }

  /** A connection to the proxy, open until closed, with the requests written to it. */
  class Conn {
    const network: string
    const address: string
    const via: Forwarder
    var open: bool
    var written: seq<Request>

    /** The connection the forwarder's `Dial` opens. */
    constructor (network: string, address: string, via: Forwarder)
      ensures this.network == network && this.address == address && this.via == via
      ensures open && written == []
    {
      this.network := network;
      this.address := address;
      this.via := via;
      open := true;
      written := [];
    }

    method Close()
      modifies this
      ensures !open && written == old(written)
    {
      open := false;
    }

    /** `req.Write(c)`: the request is on the wire when the write succeeds. */
    method Write(req: Request, failure: Option<Error>) returns (err: Option<Error>)
      modifies this
      ensures err == failure
      ensures open == old(open)
      ensures written == if failure.None? then old(written) + [req] else old(written)
    {
      if failure.None? {
        written := written + [req];
      }
      err := failure;
    }
  }

  /** The CONNECT request for `addr`, with Basic credentials when the proxy has auth. */
  function ConnectRequest(addr: string, auth: Option<Credentials>): (req: Request)
    ensures req.verb == "CONNECT" && req.target == addr
    ensures req.basicAuth == auth && req.userAgent == UserAgent && !req.close
  {
    Request("CONNECT", addr, auth, UserAgent, false)
  }

  class HttpProxy {
    var host: string
    var haveAuth: bool
    var username: string
    var password: string
    var forward: Forwarder

    /**
     * `newHttpProxy`: the host of the URL, the given forwarder, and the
     * credentials only when the URL has user information.
     */
    constructor (uri: Uri, forward: Forwarder)
      ensures host == uri.host && this.forward == forward
      ensures haveAuth <==> uri.user.Some?
      ensures username == (if uri.user.Some? then uri.user.value.username else "")
      ensures password == (if uri.user.Some? then uri.user.value.password.GetOr("") else "")
    {
      host := uri.host;
      this.forward := forward;
      haveAuth := false;
      username := "";
      password := "";
      if uri.user.Some? {
        haveAuth := true;
        username := uri.user.value.username;
        password := uri.user.value.password.GetOr("");
      }
    }

    /** The Basic credentials `Dial` attaches, if any. */
    function Auth(): (a: Option<Credentials>)
      reads this
      ensures a.Some? <==> haveAuth
      ensures a.Some? ==> a.value == Credentials(username, password)
    {
      if haveAuth then Some(Credentials(username, password)) else None
    }

    /**
     * `httpProxy.Dial`. `network` is not used: the proxy is always reached
     * over "tcp" at `host` through `forward`, whose own dial may fail or panic. `proxyConn` is the connection
     * the forwarder opened, if any; it is returned as `conn` only on status
     * 200, closed on every error path, and left open by the panic on a failed
     * read.
     */
    method Dial(network: string, addr: string, steps: Steps)
      returns (conn: Conn?, err: Option<Error>, fault: Option<Fault>, ghost proxyConn: Conn?)
      requires PossibleForwardDial(forward, steps.connect)
      ensures proxyConn == null <==> !steps.connect.Connected?
      ensures proxyConn != null ==> fresh(proxyConn)
                                    && proxyConn.network == "tcp" && proxyConn.address == host
                                    && proxyConn.via == forward
      ensures proxyConn != null && RequestSent(steps) ==> proxyConn.written == [ConnectRequest(addr, Auth())]
      ensures proxyConn != null && !RequestSent(steps) ==> proxyConn.written == []
      ensures DialSpec(steps).0 == Tunnel ==>
                conn == proxyConn && proxyConn.open && err == None && fault == None
      ensures DialSpec(steps).0.Failed? ==>
                conn == null && err == Some(DialSpec(steps).0.err) && fault == None
      ensures DialSpec(steps).0.Crashed? ==> fault == Some(DialSpec(steps).0.fault)
      ensures DialSpec(steps).1 == ClosedBeforeReturn ==> !proxyConn.open
      ensures DialSpec(steps).1 == LeftOpen ==> proxyConn.open
    {
      conn, err, fault, proxyConn := null, None, None, null;
      match steps.connect {
        case DialFailed(e) =>
          err := Some(e);
          return;
        case DialPanicked(f) =>
          fault := Some(f);
          return;
        case Connected =>
      }
      var c := new Conn("tcp", host, forward);
      proxyConn := c;

      if steps.parseTarget.Some? {
        c.Close();
        err := steps.parseTarget;
        return;
      }
      if steps.newRequest.Some? {
        c.Close();
        err := steps.newRequest;
        return;
      }
      var req := ConnectRequest(addr, Auth());

      var writeErr := c.Write(req, steps.write);
      if writeErr.Some? {
        c.Close();
        err := writeErr;
        return;
      }

      match steps.read {
        case ReadFailed(e) =>
          // resp is nil here: closing its body panics before c.Close() runs.
          fault := Some(NilResponseBody);
          return;
        case Status(code) =>
          if code != 200 {
            c.Close();
            err := Some(ConnectStatus(code));
            return;
          }
      }
      conn := c;
    }
  }

  /**
   * What `proxy.FromURL` does with the HTTP dialer `CreateHttpProxyDialer`
   * built: it parses the URL and calls the registered `newHttpProxy` with it
   * and the forwarder. Authentication is on exactly when both credentials are
   * configured, and the proxy is reached at `addr[:port]` through the
   * resolved forwarder (for fields on the domain where `ReadUri` applies).
   */
  method NewHttpProxyFor(p: Proxy) returns (s: HttpProxy)
    requires IsHttpTag(p.proxyType)
    requires ReadableFields(p.proxyType, p.addr, p.port, p.user, p.password)
    ensures fresh(s)
    ensures s.haveAuth <==> HasCredentials(p.user, p.password)
    ensures s.haveAuth ==> s.username == p.user && s.password == p.password
    ensures !s.haveAuth ==> s.username == "" && s.password == ""
    ensures s.host == p.addr + PortSuffix(p.port)
    ensures s.forward == ResolveForwarder(p.forwarder)
  {
    HttpDialerUrlReadsBack(p, None);
    var dialer := CreateProxyDialer(p, true, None).value.dialer.value;
    var uri := ReadUri(dialer.url).value;
    s := new HttpProxy(uri, dialer.forward);
  }
}
