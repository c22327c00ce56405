# Proxy dialers of go-sshlib, modelled in Dafny

This project models the proxy layer of go-sshlib (`vendor/github.com/blacknon/go-sshlib/proxy.go`).
That layer turns a `Proxy` configuration into a dialer that reaches the SSH server through something in between:
an HTTP CONNECT proxy, a SOCKS5 proxy, or a local command whose stdin and stdout carry the connection.

- `wrappers.dfy` (`Wrappers`): the `Option` type, which stands for Go's nil pointers and nil errors.
- `text.dfy` (`Text`): first and last character searches and the cut-and-join lemmas.
- `proxy_types.dfy` (`ProxyTypes`): the `Proxy` configuration, forwarders, the three dialer variants and the `ContextDialer` wrapper.
  It also defines the errors and Go runtime panics an operation can end in. A Go call ends as `Returned(value, err)` or `Panicked(fault)`.
- `proxy_url.dfy` (`ProxyUrl`): composing the HTTP proxy URL, plus a reference reading of such a URL back into scheme, user information and host.
  It also holds `net.JoinHostPort` with a matching split.
- `factory.dfy` (`Factory`): `CreateProxyDialer` and its three builders, as total functions.
  Two foreign outcomes are inputs. `uriParsed` says whether `url.Parse` accepts the composed proxy URL.
  `libErr` is the error reported by `proxy.SOCKS5`, or by `proxy.FromURL` for a scheme other than http/https.
- `http_tunnel.dfy` (`HttpTunnel`): `newHttpProxy` as the constructor of class `HttpProxy`.
  `httpProxy.Dial` is a method that allocates a `Conn` for the proxy connection, writes the CONNECT request to it, and closes it on error paths.
  `DialSpec` is the step-by-step specification of that method. Each foreign step's success or failure is an input (`Steps`).
  The forwarder's own dial may also panic.
  `NewHttpProxyFor` links the factory's HTTP dialer to `newHttpProxy`, which is what `proxy.FromURL` calls for the http and https schemes.
- `command_tunnel.dfy` (`CommandTunnel`): class `NetPipe`, whose `Dial` sets the `Cmd` field to `sh -c <Command>` and returns a fresh pipe end.

The model keeps three defects of the source instead of fixing them:
- The HTTP builder discards `url.Parse`'s error. A rejected proxy URL (a non-numeric port, say) reaches `proxy.FromURL` as a nil URL, which it dereferences. That call ends in `Panicked(NilProxyUri)`.
- The SOCKS5 builder assigns through a nil `*proxy.Auth` when both credentials are set. That call ends in `Panicked(NilAuthWrite)`.
- A failed `http.ReadResponse` makes `Dial` close the body of a nil response before closing the connection.
  That path ends in `Panicked(NilResponseBody)`, and the proxy connection is left open.

The model follows the code as written, including where it is surprising:
- An unrecognised `Type` is not a construction error. `CreateProxyDialer` returns a `ContextDialer` around a nil dialer and a nil error.
  The first `Dial` on it panics (`UnknownTagPanicsOnFirstDial`) instead of failing with an error.
- `NetPipe.Dial` returns the client end of the pipe even when starting the command fails, together with the start error.
- No credentials object is allocated for SOCKS5, and no guard protects against the nil response (see above).

## Model

| member | source | states |
|---|---|---|
| Factory.CreateProxyDialer | vendor/github.com/blacknon/go-sshlib/proxy.go:100-114 | A returned dialer is an HTTP CONNECT dialer iff the tag is http/https, SOCKS5 iff socks/socks5, and a command pipe iff command. Any other tag gives a `ContextDialer` around nil with a nil error. The call panics iff the tag is http/https and the URL does not parse (nil URL), or the tag is socks/socks5 with both credentials set (nil auth). An error comes only from the SOCKS5 branch, and with a nil inner dialer. |
| Factory.Wrap | vendor/github.com/blacknon/go-sshlib/proxy.go:111-113 | The `ContextDialer`'s inner dialer is exactly the builder's, nil included. The builder's error is passed through, and so is a panic. |
| Factory.HttpTagSelectsConnectDialer | vendor/github.com/blacknon/go-sshlib/proxy.go:103-104 | With http or https, the call panics on the nil URL when the composed URL does not parse. Otherwise the inner dialer is an HTTP CONNECT dialer on the composed URL and the resolved forwarder, with no error. |
| Factory.SocksTagSelectsSocks5Dialer | vendor/github.com/blacknon/go-sshlib/proxy.go:105-106 | With socks or socks5, the call panics when both credentials are set. Otherwise it yields a SOCKS5 dialer on "tcp", the host/port join, no auth and the resolved forwarder. |
| Factory.CommandTagSelectsNetPipe | vendor/github.com/blacknon/go-sshlib/proxy.go:107-108 | With the command tag, the result is a `NetPipe` holding the command, with no error, whatever the other fields and the library outcome. |
| Factory.UnknownTagPanicsOnFirstDial | vendor/github.com/blacknon/go-sshlib/proxy.go:33-35 | Any other tag is accepted without error. The first `Dial` on the result panics on its nil inner dialer. |
| Factory.ResolveForwarder | vendor/github.com/blacknon/go-sshlib/proxy.go:133-137 | The forwarder is `Direct` iff none is configured. Otherwise it is exactly the configured one. |
| Factory.SameForwarderForHttpAndSocks5 | vendor/github.com/blacknon/go-sshlib/proxy.go:152-156 | For the same configured forwarder, the HTTP and SOCKS5 builders reach the proxy through the same forwarder. |
| Factory.CreateHttpProxyDialer | vendor/github.com/blacknon/go-sshlib/proxy.go:117-141 | The builder panics (nil URL in `FromURL`) iff `url.Parse` rejects the composed URL. Otherwise it has a dialer iff there is no error, and that dialer holds the composed URL and the resolved forwarder. It never errors for the http and https types, because `newHttpProxy` does not fail. |
| Factory.CreateProxyCommandProxyDialer | vendor/github.com/blacknon/go-sshlib/proxy.go:163-169 | The command builder never fails or panics, and its dialer is a `NetPipe` holding `Command` verbatim. |
| Factory.CreateSocks5ProxyDialer | vendor/github.com/blacknon/go-sshlib/proxy.go:144-159 | The builder panics (nil auth write) iff both credentials are non-empty. Otherwise its auth stays nil, the endpoint is `JoinHostPort(Addr, Port)` over "tcp", and the forwarder is the resolved one. |
| Factory.HttpDialerUrlReadsBack | vendor/github.com/blacknon/go-sshlib/proxy.go:122-138 | The HTTP dialer's URL reads back with the tag as scheme, user information iff both credentials are set, and `Addr[:Port]` as host. This holds for fields without URL delimiters. |
| ProxyUrl.ComposeUrl | vendor/github.com/blacknon/go-sshlib/proxy.go:122-129 | The proxy URL always starts with `Type + "://"`. |
| ProxyUrl.PortOnlyAppends | vendor/github.com/blacknon/go-sshlib/proxy.go:127-129 | A non-empty port appends `":" + Port` and changes nothing else. An empty port changes nothing. |
| ProxyUrl.ReadComposedUrl | vendor/github.com/blacknon/go-sshlib/proxy.go:122-129 | Reading the composed URL back gives `Type` as scheme and `User:Password` as user information iff both are non-empty. The host is `Addr`, followed by `:Port` iff the port is set. |
| ProxyUrl.ComposedUrlCarriesUserIff | vendor/github.com/blacknon/go-sshlib/proxy.go:123-125 | The composed URL carries user information iff user and password are both non-empty. |
| ProxyUrl.JoinHostPort | vendor/github.com/blacknon/go-sshlib/proxy.go:158 | The SOCKS5 endpoint ends with `":" + Port`. Before that comes `Addr`, or `"[" + Addr + "]"` when `Addr` holds ':'. |
| ProxyUrl.SplitJoinHostPort | vendor/github.com/blacknon/go-sshlib/proxy.go:158 | The host/port join passed to `proxy.SOCKS5` splits back into `Addr` and `Port`. |
| ProxyTypes.DialTarget | vendor/github.com/blacknon/go-sshlib/proxy.go:33-35 | `ContextDialer.Dial` reaches the inner dialer when there is one and panics iff it is nil. |
| HttpTunnel.HttpProxy.constructor | vendor/github.com/blacknon/go-sshlib/proxy.go:284-294 | `newHttpProxy`: `host` is the URI host and `forward` the given forwarder. `haveAuth` holds iff the URI has user information, and only then are username and password filled. A missing password reads as empty. |
| HttpTunnel.HttpProxy.Auth | vendor/github.com/blacknon/go-sshlib/proxy.go:256-257 | Basic credentials are attached iff `haveAuth`, and they are exactly the stored username and password. |
| HttpTunnel.ConnectRequest | vendor/github.com/blacknon/go-sshlib/proxy.go:243-259 | The request uses the CONNECT method, targets the dialled address and carries the given credentials. It sets User-Agent "Poweredby Golang" and keeps the connection (`Close = false`). |
| HttpTunnel.NewHttpProxyFor | vendor/github.com/blacknon/go-sshlib/proxy.go:284-294 | From a configuration with an http/https tag, the `httpProxy` that `FromURL` builds for the composed URL has `haveAuth` iff user and password are both non-empty. Only then does it hold them, and otherwise both are empty. Its host is `Addr[:Port]` and its forwarder is the resolved one. This holds for fields without URL delimiters. |
| HttpTunnel.DialSpec | vendor/github.com/blacknon/go-sshlib/proxy.go:238-280 | A tunnel happens iff every step succeeds and the status is exactly 200, and only then is the connection handed over. A failed or panicking forwarder dial opens nothing and passes its error or panic on. Every other error closes the connection first. A non-200 status fails with that code. A failed read panics and leaves the connection open. |
| HttpTunnel.OnlyStatus200Tunnels | vendor/github.com/blacknon/go-sshlib/proxy.go:273-280 | After the request is sent, a tunnel happens iff the status is 200. Any other code is the error's code. |
| HttpTunnel.HttpProxy.Dial | vendor/github.com/blacknon/go-sshlib/proxy.go:237-281 | The forwarder dials "tcp" to `host`, whatever `network` is. It panics when it is a `ContextDialer` around nil. The new connection holds exactly the CONNECT request once the write succeeds. It is returned, and left open, only on a tunnel. It is closed on every error after it exists and left open by the panic. Errors and panics are exactly those of `DialSpec`. |
| HttpTunnel.Conn.constructor | vendor/github.com/blacknon/go-sshlib/proxy.go:238 | The connection the forwarder opens is open, records network, address and forwarder, and carries nothing yet. |
| HttpTunnel.Conn.Close | vendor/github.com/blacknon/go-sshlib/proxy.go:245 | Closing the connection (as at lines 245, 252, 263 and 275) leaves it closed and keeps what it carries. |
| HttpTunnel.Conn.Write | vendor/github.com/blacknon/go-sshlib/proxy.go:261 | A successful write appends the request to what the connection carries. A failed write appends nothing and returns the error. |
| CommandTunnel.NetPipe.constructor | vendor/github.com/blacknon/go-sshlib/proxy.go:163-166 | The new `NetPipe` holds the configured command verbatim, and it has no `Cmd` yet. |
| CommandTunnel.NetPipe.Dial | vendor/github.com/blacknon/go-sshlib/proxy.go:177-201 | `network` and `addr` are discarded. `Cmd` becomes `sh -c <Command>` and the command is unchanged. A fresh open client end is returned, even together with the start error. |
| CommandTunnel.ShellCommand | vendor/github.com/blacknon/go-sshlib/proxy.go:184 | The process runs `sh` with arguments `sh`, `-c` and the command, unaltered. |

## Left out

- `ContextDialer.DialContext` and `NetPipe.DialContext` (proxy.go:37-66, 203-226) are left out. Their point is the race between a goroutine's dial and context cancellation, which is concurrency this model does not have.
- `NetPipe.Dial`'s process plumbing is left out: wiring the pipe's server end to the command's stdin and stdout, stderr to the log writer, and the background `Wait` then `srv.Close`. Only the assignment of `Cmd` and the returned client end are modelled.
- The registry behind `proxy.RegisterDialerType` (proxy.go:119-120) is not modelled as such. Its effect is modelled: for the http and https schemes `FromURL` calls `newHttpProxy`, which never fails (`CreateHttpProxyDialer`, `HttpTunnel.NewHttpProxyFor`). The internals of `proxy.FromURL` and `proxy.SOCKS5` are foreign code; `libErr` stands for their errors.
- Whether `url.Parse` accepts the composed proxy URL (proxy.go:131) is the `uriParsed` input, not computed from the fields. `ProxyUrl.ReadUri` is how an accepted `scheme://[userinfo@]host` URL splits, for fields without '/', '?', '#' and '%'. It does not validate characters or ports.
- `url.Parse` of the target, `http.NewRequest`, `req.Write` and `http.ReadResponse` are foreign steps that succeed or fail, given by `Steps`. HTTP wire serialisation, response parsing and base64 encoding of the Basic credentials are not modelled.
- The text of the status error is not modelled. `ConnectStatus(code)` keeps only the status code that the message formats.
- `ProxyUrl.ReadComposedUrl`, `ProxyUrl.ComposedUrlCarriesUserIff`, `Factory.HttpDialerUrlReadsBack` and `HttpTunnel.NewHttpProxyFor` are stated only for fields without URL delimiters. Those are ':' in the type and user, and '@', '/', '?', '#' or '%' anywhere. For other fields, `url.Parse` cuts a path or fragment or rejects the URL.
- `HttpTunnel.HttpProxy.Dial` takes the forwarder's dial outcome as an input. It only rules out a panic for a direct dial and forces one for a `ContextDialer` around nil; how a chained proxy's own dial ends is not derived.
- `ProxyUrl.SplitJoinHostPort` is stated only for ports without ':' and hosts without brackets.
