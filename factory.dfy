/**
 * `Proxy.CreateProxyDialer` and the three builders it dispatches to. Two
 * foreign outcomes are inputs: `uriParsed` says whether `url.Parse` accepts
 * the composed proxy URL, and `libErr` is the error a foreign constructor
 * reports (None when it succeeds).
 */
module Factory {
  import opened Wrappers
  import opened ProxyTypes
  import opened ProxyUrl

  predicate IsHttpTag(t: string) { t == "http" || t == "https" }
  predicate IsSocksTag(t: string) { t == "socks" || t == "socks5" }
  predicate IsCommandTag(t: string) { t == "command" }

  /** The configured forwarder when there is one, otherwise `proxy.Direct`. */
  function ResolveForwarder(configured: Option<ProxyDialer>): (f: Forwarder)
    ensures f == Direct <==> configured.None?
    ensures configured.Some? ==> f == Via(configured.value)
  {
    match configured
    case None => Direct
    case Some(d) => Via(d)
  }

  /**
   * `CreateHttpProxyDialer`: the composed URL is parsed, with the parse error
   * discarded, and handed with the forwarder to `proxy.FromURL`. A rejected
   * URL reaches `FromURL` as a nil `*url.URL`, which it dereferences. For the
   * http and https schemes `FromURL` calls the registered `newHttpProxy`,
   * which never fails; `libErr` is `FromURL`'s error for any other scheme.
   */
  function CreateHttpProxyDialer(p: Proxy, uriParsed: bool, libErr: Option<Error>): (r: Completion<Option<Dialer>>)
    ensures r.Panicked? <==> !uriParsed
    ensures r.Panicked? ==> r.fault == NilProxyUri
    ensures r.Returned? ==> (r.value.Some? <==> r.err.None?)
    ensures r.Returned? && r.err.Some? ==> !IsHttpTag(p.proxyType) && r.err == libErr
    ensures r.Returned? && r.value.Some? ==>
              r.value.value.HttpConnect?
              && r.value.value.forward == ResolveForwarder(p.forwarder)
              && r.value.value.url == ComposeUrl(p.proxyType, p.addr, p.port, p.user, p.password)
  {
    var url := ComposeUrl(p.proxyType, p.addr, p.port, p.user, p.password);
    var forwarder := ResolveForwarder(p.forwarder);
    if !uriParsed then Panicked(NilProxyUri)
    else if IsHttpTag(p.proxyType) || libErr.None? then Returned(Some(HttpConnect(url, forwarder)), None)
    else Returned(None, libErr)
  }

  /**
   * `CreateSocks5ProxyDialer`. With both credentials set the source writes
   * through its nil `*proxy.Auth` and panics; otherwise the auth stays nil.
   */
  function CreateSocks5ProxyDialer(p: Proxy, libErr: Option<Error>): (r: Completion<Option<Dialer>>)
    ensures r.Panicked? <==> HasCredentials(p.user, p.password)
    ensures r.Panicked? ==> r.fault == NilAuthWrite
    ensures r.Returned? ==> r.err == libErr && (r.value.Some? <==> libErr.None?)
    ensures r.Returned? && r.value.Some? ==>
              r.value.value == Socks5("tcp", JoinHostPort(p.addr, p.port), None, ResolveForwarder(p.forwarder))
  {
    if HasCredentials(p.user, p.password) then
      Panicked(NilAuthWrite)
    else
      var auth: Option<Credentials> := None;
      var forwarder := ResolveForwarder(p.forwarder);
      match libErr
      case None => Returned(Some(Socks5("tcp", JoinHostPort(p.addr, p.port), auth, forwarder)), None)
      case Some(e) => Returned(None, Some(e))
  }

  /** `CreateProxyCommandProxyDialer`: a `NetPipe` holding the command verbatim; never fails. */
  function CreateProxyCommandProxyDialer(p: Proxy): (r: Completion<Option<Dialer>>)
    ensures r.Returned? && r.err.None? && r.value.Some?
    ensures r.value.value.CommandPipe? && r.value.value.command == p.command
  {
    Returned(Some(CommandPipe(p.command)), None)
  }

  /** The builder's result wrapped in a `ContextDialer`; a panic propagates. */
  function Wrap(built: Completion<Option<Dialer>>): (r: Completion<ContextDialer>)
    ensures r.Panicked? <==> built.Panicked?
    ensures r.Panicked? ==> r.fault == built.fault
    ensures r.Returned? ==> r.value.dialer == built.value && r.err == built.err
  {
    match built
    case Panicked(f) => Panicked(f)
    case Returned(d, err) => Returned(ContextDialer(d), err)
  }

  /**
   * `CreateProxyDialer`: the `Type` tag selects one builder; an unrecognised
   * tag leaves the inner dialer nil and the error nil. The result is always
   * wrapped in a `ContextDialer`.
   */
  function CreateProxyDialer(p: Proxy, uriParsed: bool, libErr: Option<Error>): (r: Completion<ContextDialer>)
    ensures r.Returned? && r.value.dialer.Some? ==>
              (r.value.dialer.value.HttpConnect? <==> IsHttpTag(p.proxyType))
              && (r.value.dialer.value.Socks5? <==> IsSocksTag(p.proxyType))
              && (r.value.dialer.value.CommandPipe? <==> IsCommandTag(p.proxyType))
    ensures !IsHttpTag(p.proxyType) && !IsSocksTag(p.proxyType) && !IsCommandTag(p.proxyType) ==>
              r == Returned(ContextDialer(None), None)
    ensures r.Panicked? <==> (IsHttpTag(p.proxyType) && !uriParsed)
                             || (IsSocksTag(p.proxyType) && HasCredentials(p.user, p.password))
    ensures r.Panicked? ==> r.fault == (if IsHttpTag(p.proxyType) then NilProxyUri else NilAuthWrite)
    ensures r.Returned? && r.err.Some? ==> IsSocksTag(p.proxyType) && r.value.dialer.None? && r.err == libErr
  {
    var built :=
      if IsHttpTag(p.proxyType) then CreateHttpProxyDialer(p, uriParsed, libErr)
      else if IsSocksTag(p.proxyType) then CreateSocks5ProxyDialer(p, libErr)
      else if IsCommandTag(p.proxyType) then CreateProxyCommandProxyDialer(p)
      else Returned(None, None);
    Wrap(built)
  }

  /** The HTTP and SOCKS5 builders reach the proxy through the same forwarder. */
  lemma SameForwarderForHttpAndSocks5(p: Proxy, q: Proxy, libErr: Option<Error>)
    requires p.forwarder == q.forwarder
    requires !HasCredentials(q.user, q.password) && libErr.None?
    ensures CreateHttpProxyDialer(p, true, libErr).value.Some?
    ensures CreateSocks5ProxyDialer(q, libErr).value.Some?
    ensures CreateHttpProxyDialer(p, true, libErr).value.value.forward
            == CreateSocks5ProxyDialer(q, libErr).value.value.forward
            == ResolveForwarder(p.forwarder)
  {
  }

  /**
   * An HTTP/HTTPS tag yields a dialer bound to the composed URL whenever the
   * URL parses, and panics on the nil URL otherwise.
   */
  lemma HttpTagSelectsConnectDialer(p: Proxy, uriParsed: bool, libErr: Option<Error>)
    requires IsHttpTag(p.proxyType)
    ensures !uriParsed ==> CreateProxyDialer(p, uriParsed, libErr) == Panicked(NilProxyUri)
    ensures uriParsed ==>
              CreateProxyDialer(p, uriParsed, libErr)
              == Returned(ContextDialer(Some(HttpConnect(
                   ComposeUrl(p.proxyType, p.addr, p.port, p.user, p.password),
                   ResolveForwarder(p.forwarder)))), None)
  {
  }

  /** A SOCKS tag yields a SOCKS5 dialer on `addr:port` without auth, or panics with both credentials set. */
  lemma SocksTagSelectsSocks5Dialer(p: Proxy, uriParsed: bool)
    requires IsSocksTag(p.proxyType)
    ensures HasCredentials(p.user, p.password) ==> CreateProxyDialer(p, uriParsed, None) == Panicked(NilAuthWrite)
    ensures !HasCredentials(p.user, p.password) ==>
              CreateProxyDialer(p, uriParsed, None)
              == Returned(ContextDialer(Some(Socks5("tcp", JoinHostPort(p.addr, p.port), None,
                                                    ResolveForwarder(p.forwarder)))), None)
  {
  }

  /** The command tag yields a `NetPipe` holding the command, whatever the other fields. */
  lemma CommandTagSelectsNetPipe(p: Proxy, uriParsed: bool, libErr: Option<Error>)
    requires IsCommandTag(p.proxyType)
    ensures CreateProxyDialer(p, uriParsed, libErr) == Returned(ContextDialer(Some(CommandPipe(p.command))), None)
  {
  }

  /**
   * An unrecognised tag is accepted without error, and the first `Dial` on the
   * returned `ContextDialer` dereferences its nil dialer.
   */
  lemma UnknownTagPanicsOnFirstDial(p: Proxy, uriParsed: bool, libErr: Option<Error>)
    requires !IsHttpTag(p.proxyType) && !IsSocksTag(p.proxyType) && !IsCommandTag(p.proxyType)
    ensures CreateProxyDialer(p, uriParsed, libErr).Returned?
    ensures CreateProxyDialer(p, uriParsed, libErr).err.None?
    ensures DialTarget(CreateProxyDialer(p, uriParsed, libErr).value) == Panicked(NilDialer)
  {
  }

  /**
   * The HTTP dialer's URL reads back with the tag as scheme, credentials
   * exactly when both are set, and `addr[:port]` as host (for fields on the
   * domain where `ReadUri` applies).
   */
  lemma HttpDialerUrlReadsBack(p: Proxy, libErr: Option<Error>)
    requires IsHttpTag(p.proxyType)
    requires ReadableFields(p.proxyType, p.addr, p.port, p.user, p.password)
    ensures CreateProxyDialer(p, true, libErr).Returned?
    ensures CreateProxyDialer(p, true, libErr).value.dialer.Some?
    ensures ReadUri(CreateProxyDialer(p, true, libErr).value.dialer.value.url)
            == Some(Uri(p.proxyType, ExpectedUser(p.user, p.password), p.addr + PortSuffix(p.port)))
  {
    ReadComposedUrl(p.proxyType, p.addr, p.port, p.user, p.password);
  }
}
