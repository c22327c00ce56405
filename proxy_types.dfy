/**
 * The values of the proxy layer: the `Proxy` configuration, the dialers the
 * factory builds, the `ContextDialer` wrapper, and the errors and Go runtime
 * panics an operation can end in.
 */
module ProxyTypes {
  import opened Wrappers

  /** An error value a Go call returns; foreign errors are opaque. */
  datatype Error =
    | Foreign(what: string)
      /** The error `httpProxy.Dial` builds for a non-200 reply, carrying its status code. */
    | ConnectStatus(code: int)

  /** A Go runtime panic the source runs into (a nil pointer dereference). */
  datatype Fault =
      /** `proxyAuth.User = …` through the nil `*proxy.Auth` of the SOCKS5 builder. */
    | NilAuthWrite
      /** `proxy.FromURL` reading the nil `*url.URL` left by a failed `url.Parse`. */
    | NilProxyUri
      /** `resp.Body.Close()` on the nil response of a failed `http.ReadResponse`. */
    | NilResponseBody
      /** A method call on the nil `Dialer` held by a `ContextDialer`. */
    | NilDialer

  /** How a Go call ends: it returns a value and an error, or it panics. */
  datatype Completion<+T> =
    | Returned(value: T, err: Option<Error>)
    | Panicked(fault: Fault)

  /**
   * A username and password: the `proxy.Auth` of SOCKS5, and the user-id and
   * password of an HTTP Basic `Authorization` header (before base64).
   */
  datatype Credentials = Credentials(username: string, password: string)

  /**
   * A dialer the caller may hand in as `Proxy.Forwarder`: one this layer built
   * (proxy chaining) or one from elsewhere, known only by its identity.
   */
  datatype ProxyDialer =
    | Wrapped(cd: ContextDialer)
    | External(id: nat)

  /** The dialer used to reach the proxy itself. */
  datatype Forwarder =
    | Direct
    | Via(dialer: ProxyDialer)

  /** The three strategies the factory can build. */
  datatype Dialer =
      /**
       * What `proxy.FromURL` builds from the composed proxy URL and forwarder;
       * for the http and https schemes, the `httpProxy` of `newHttpProxy`.
       */
    | HttpConnect(url: string, forward: Forwarder)
      /** What `proxy.SOCKS5` builds from its four arguments. */
    | Socks5(network: string, address: string, auth: Option<Credentials>, forward: Forwarder)
      /** A `NetPipe` that runs `command` as the transport. */
    | CommandPipe(command: string)

  /** The wrapper every factory result is returned in; its inner dialer may be nil. */
  datatype ContextDialer = ContextDialer(dialer: Option<Dialer>)

  /** The proxy configuration (`Proxy`); `proxyType` is the Go field `Type`. */
  datatype Proxy = Proxy(
    proxyType: string,
    addr: string,
    port: string,
    user: string,
    password: string,
    command: string,
    forwarder: Option<ProxyDialer>)

  /** Both credentials are set: the gate shared by the HTTP and SOCKS5 builders. */
  predicate HasCredentials(user: string, password: string) {
    user != "" && password != ""
  }

  /**
   * The dialer `ContextDialer.Dial` hands the call to: the inner dialer, or a
   * panic when that is nil.
   */
  function DialTarget(cd: ContextDialer): (r: Completion<Dialer>)
    ensures r.Panicked? <==> cd.dialer.None?
    ensures r.Panicked? ==> r.fault == NilDialer
    ensures r.Returned? ==> r.err.None? && Some(r.value) == cd.dialer
  {
    match cd.dialer
    case None => Panicked(NilDialer)
    case Some(d) => Returned(d, None)
  }
}
