/**
 * The proxy URL that `CreateHttpProxyDialer` composes, a reading of such a URL
 * back into scheme, user information and host, and the host/port join that
 * `CreateSocks5ProxyDialer` passes on.
 */
module ProxyUrl {
  import opened Wrappers
  import opened Text
  import opened ProxyTypes

  /** The user information of a URL (`url.Userinfo`): a name and maybe a password. */
  datatype UserInfo = UserInfo(username: string, password: Option<string>)

  /** The parts of a parsed URL this layer reads (`url.URL`'s Scheme, User, Host). */
  datatype Uri = Uri(scheme: string, user: Option<UserInfo>, host: string)

  /** The URL up to the address: credentials only when both are set. */
  function BaseUrl(proxyType: string, addr: string, user: string, password: string): string {
    if HasCredentials(user, password) then proxyType + "://" + user + ":" + password + "@" + addr
    else proxyType + "://" + addr
  }

  /** The proxy URL: the base, then `:port` when a port is set. */
  function ComposeUrl(proxyType: string, addr: string, port: string, user: string, password: string): (url: string)
    ensures |url| >= |proxyType| + 3 && url[..|proxyType| + 3] == proxyType + "://"
  {
    var base := BaseUrl(proxyType, addr, user, password);
    if port != "" then base + ":" + port else base
  }

  /** The text that follows the address: `:port`, or nothing without a port. */
  function PortSuffix(port: string): string {
    if port != "" then ":" + port else ""
  }

  /** The user information a composed URL carries: present exactly when both credentials are. */
  function ExpectedUser(user: string, password: string): Option<UserInfo> {
    if HasCredentials(user, password) then Some(UserInfo(user, Some(password))) else None
  }

  /**
   * Reads `scheme://[userinfo@]host`: the scheme ends at the first ':', the
   * user information at the last '@', and the password starts after the first
   * ':' of the user information. This is how `url.Parse` splits a URL that it
   * accepts and that has no '/', '?', '#' or '%' after the scheme; whether it
   * accepts the URL at all (port digits, allowed characters) is not decided here.
   */
  function ReadUri(s: string): Option<Uri> {
    match CutFirst(s, ':')
    case None => None
    case Some((scheme, rest)) =>
      if |rest| < 2 || rest[..2] != "//" then None
      else Some(ReadAuthority(scheme, rest[2..]))
  }

  /** The user information and host of the part after `scheme://`. */
  function ReadAuthority(scheme: string, authority: string): Uri {
    match CutLast(authority, '@')
    case None => Uri(scheme, None, authority)
    case Some((info, host)) =>
      var user := match CutFirst(info, ':')
                  case None => UserInfo(info, None)
                  case Some((name, pw)) => UserInfo(name, Some(pw));
      Uri(scheme, Some(user), host)
  }

  /** The scheme is read up to the first ':'. */
  lemma ReadSchemeAndAuthority(scheme: string, authority: string)
    requires Avoids(scheme, {':'})
    ensures ReadUri(scheme + "://" + authority) == Some(ReadAuthority(scheme, authority))
  {
    var rest := "//" + authority;
    assert scheme + "://" + authority == scheme + [':'] + rest;
    CutFirstJoin(scheme, ':', rest);
    assert rest[2..] == authority;
  }

  /** `user:password@host` is read back into its three parts. */
  lemma ReadAuthorityWithUser(scheme: string, user: string, password: string, host: string)
    requires Avoids(user, {':'}) && Avoids(host, {'@'})
    ensures ReadAuthority(scheme, user + ":" + password + "@" + host)
            == Uri(scheme, Some(UserInfo(user, Some(password))), host)
  {
    var info := user + ":" + password;
    assert user + ":" + password + "@" + host == info + ['@'] + host;
    CutLastJoin(info, '@', host);
    assert info == user + [':'] + password;
    CutFirstJoin(user, ':', password);
  }

  /** No character that would start a path, query, fragment or escape in a URL. */
  predicate NoUrlSyntax(s: string) {
    Avoids(s, {'/', '?', '#', '%'})
  }

  /** The fields a composed URL is read back from on the domain where `ReadUri` applies. */
  predicate ReadableFields(proxyType: string, addr: string, port: string, user: string, password: string) {
    && Avoids(proxyType, {':'}) && NoUrlSyntax(proxyType)
    && Avoids(user, {':', '@'}) && NoUrlSyntax(user)
    && Avoids(password, {'@'}) && NoUrlSyntax(password)
    && Avoids(addr, {'@'}) && NoUrlSyntax(addr)
    && Avoids(port, {'@'}) && NoUrlSyntax(port)
  }

  /** Setting a port appends `:port` and leaves the rest of the URL unchanged. */
  lemma PortOnlyAppends(proxyType: string, addr: string, port: string, user: string, password: string)
    ensures port != "" ==> ComposeUrl(proxyType, addr, port, user, password)
                           == ComposeUrl(proxyType, addr, "", user, password) + ":" + port
    ensures port == "" ==> ComposeUrl(proxyType, addr, port, user, password)
                           == ComposeUrl(proxyType, addr, "", user, password)
  {
  }

  /**
   * Reading the composed URL back gives the type as scheme, the credentials
   * exactly when both are set, and `addr[:port]` as host — for components free
   * of the URL delimiters.
   */
  lemma ReadComposedUrl(proxyType: string, addr: string, port: string, user: string, password: string)
    requires ReadableFields(proxyType, addr, port, user, password)
    ensures ReadUri(ComposeUrl(proxyType, addr, port, user, password))
            == Some(Uri(proxyType, ExpectedUser(user, password), addr + PortSuffix(port)))
  {
    var host := addr + PortSuffix(port);
    HostAvoidsAt(addr, port);
    ComposeUrlShape(proxyType, addr, port, user, password);
    if HasCredentials(user, password) {
      ReadSchemeAndAuthority(proxyType, user + ":" + password + "@" + host);
      ReadAuthorityWithUser(proxyType, user, password, host);
    } else {
      ReadSchemeAndAuthority(proxyType, host);
      CutLastAbsent(host, '@');
    }
  }

  /** The host part of the URL has no '@' when address and port have none. */
  lemma HostAvoidsAt(addr: string, port: string)
    requires Avoids(addr, {'@'}) && Avoids(port, {'@'})
    ensures Avoids(addr + PortSuffix(port), {'@'})
  {
    if port != "" {
      AvoidsConcat(":", port, {'@'});
    }
    AvoidsConcat(addr, PortSuffix(port), {'@'});
  }

  /** The composed URL is `type://`, the authority, and nothing else. */
  lemma ComposeUrlShape(proxyType: string, addr: string, port: string, user: string, password: string)
    ensures ComposeUrl(proxyType, addr, port, user, password)
            == proxyType + "://" + (if HasCredentials(user, password)
                                    then user + ":" + password + "@" + (addr + PortSuffix(port))
                                    else addr + PortSuffix(port))
  {
  }

  /** Reading the composed URL back finds credentials exactly when both are set. */
  lemma ComposedUrlCarriesUserIff(proxyType: string, addr: string, port: string, user: string, password: string)
    requires ReadableFields(proxyType, addr, port, user, password)
    ensures ReadUri(ComposeUrl(proxyType, addr, port, user, password)).Some?
    ensures ReadUri(ComposeUrl(proxyType, addr, port, user, password)).value.user.Some?
            <==> user != "" && password != ""
  {
    ReadComposedUrl(proxyType, addr, port, user, password);
  }

  /** `net.JoinHostPort`: a host holding ':' is bracketed, then ':' and the port. */
  function JoinHostPort(host: string, port: string): (r: string)
    ensures |r| > |port| && r[|r| - |port| - 1..] == ":" + port
    ensures ':' !in host ==> r[..|r| - |port| - 1] == host
    ensures ':' in host ==> r[..|r| - |port| - 1] == "[" + host + "]"
  {
    if ':' in host then "[" + host + "]:" + port else host + ":" + port
  }

  /**
   * Splits `host:port` or `[host]:port` at the last ':' and removes the
   * brackets; an unbracketed host may not hold ':'.
   */
  function SplitHostPort(s: string): Option<(string, string)> {
    match CutLast(s, ':')
    case None => None
    case Some((h, port)) =>
      if |h| >= 2 && h[0] == '[' && h[|h| - 1] == ']' then Some((h[1..|h| - 1], port))
      else if ':' in h then None
      else Some((h, port))
  }

  /** Joining and splitting again gives back host and port. */
  lemma SplitJoinHostPort(host: string, port: string)
    requires Avoids(port, {':'})
    requires Avoids(host, {'[', ']'})
    ensures SplitHostPort(JoinHostPort(host, port)) == Some((host, port))
  {
    if ':' in host {
      var h := "[" + host + "]";
      assert JoinHostPort(host, port) == h + [':'] + port;
      CutLastJoin(h, ':', port);
      assert h[1..|h| - 1] == host;
    } else {
      assert JoinHostPort(host, port) == host + [':'] + port;
      CutLastJoin(host, ':', port);
      if |host| >= 2 {
        assert host[0] != '[';
      }
    }
  }
}
