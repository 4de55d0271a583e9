# A model of the `app` host process: addresses, routes, registry and teardown

The Go package `app` runs an HTTP service (`Service`, built by `NewWeb`) and, in
its native variant, a UI window pointed at it (`App`, built by `NewNative`).
This project models the sequential rules of that package in Dafny and proves
properties of them:

- **Address resolution** (`Addressing`). The configured host and port give the
  listen address: the loopback host `127.0.0.1` when only a port is given; the
  host verbatim when there is no port; `host:port` otherwise; and no address
  when neither is set. The `Home` URL is `http://` followed by the address, and
  exists only when there is an address. The port is printed by `%d`, which
  `Decimals` models together with its inverse.
- **Configuration write-back** (`WebService.WithDefaultHost`, `WebService.NewWeb`).
  NewWeb writes the loopback host back through the `*WebConfig` it was given.
  The model proves that only the host changes, and only in the port-only case.
  It also proves that the new configuration resolves to the same address.
- **Routes** (`Routing`). The model covers the `/static/{filename}` pattern and
  its character class, the `./static/` path FileServer builds, the favicon route,
  and the health check, which answers GET and HEAD with 200 `OK`.
- **Controller registry and teardown** (`Teardown`, `WebService.Service`,
  `Native.App`). `Register` appends to the registry. `Service.Close` closes every
  non-nil controller in registration order and then the server. `App.Close`
  closes the service and then the UI, if there is one. Every close call is
  recorded in a `Trace`. `CloseEvents` specifies that trace. The lemmas about it
  prove "once per registration, nils skipped" and "registration order".
- **Native set-up** (`Native`, `Paths`). The model covers the window size
  (default 500 per side, always positive), an explicit configuration winning
  over the file, and the resource directory `Join(Dir(Dir(exe)), "Resources")`
  when not running in a terminal.

Inputs from the environment become parameters:
- what the configuration file holds (`loaded`, `fromFile`);
- whether stdout is a terminal;
- the executable's path, from `os.Executable`;
- the working directory, from `os.Getwd`.

Points of the code's behaviour that are easy to misread:
- The filename pattern `[a-zA-Z0-9\.\-\_\/]*` admits `-` as well as
  letters, digits, `.`, `_` and `/`.
- The pattern admits `..`. `Routing.PatternAdmitsDotDot` shows this.
  Any traversal protection comes from the router's path cleaning or from
  `http.ServeFile`, neither of which is modelled.
- `NewWeb` builds `http.Server{Addr: addr}` and starts it even when `addr` is
  empty. The model records `serverAddr == ""` and sets no Home URL.
- The `Exit` channels are unbuffered, and nothing decides between the causes
  that may be sent on them.

## Model

| member | source | states |
|---|---|---|
| `Addressing.EffectiveHost` | service.go:74-79 | the host is non-empty after defaulting iff a host or a positive port was given; it changes only when the host is empty and the port positive, and then becomes 127.0.0.1 |
| `Addressing.ListenAddress` | service.go:73-84 | no address iff the host is empty and the port ≤ 0; an address is never empty; with a positive port it is the effective host, ":" and the decimal port; with a host and no port it is the host verbatim |
| `Addressing.HomeUrl` | service.go:90-92 | a Home URL is set iff the address string is non-empty |
| `Addressing.HomeNamesListenAddress` | service.go:85-92 | Home exists iff a listen address does, and the text after "http://" is exactly that address |
| `Addressing.AddrString` | service.go:73-92 | Go's `addr` string is empty exactly when there is no address, since a resolved address is never empty |
| `Addressing.HostAndPortOfListenAddress` | service.go:74-84 | with a positive port, splitting the address at its last colon gives back the effective host and the port |
| `Addressing.ListenAddressInjectiveInPort` | service.go:78-83 | two positive ports with the same address for one host are equal |
| `Addressing.ScenarioPortOnly` | service.go:74-79 | host "" and port 8080 give "127.0.0.1:8080" and host "127.0.0.1" |
| `Addressing.ScenarioHostOnly` | service.go:80-92 | host "example.com:9090" with port 0 gives that address verbatim and Home "http://example.com:9090" |
| `Decimals.Decimal` | service.go:78 | `%d` of a non-negative port is a non-empty digit string without a leading zero |
| `Decimals.ValueOfDecimal` | service.go:83 | reading back the rendered port gives the port |
| `Decimals.DecimalOfValue` | service.go:83 | rendering the value of a canonical digit string gives the string back |
| `Decimals.DecimalInjective` | service.go:83 | distinct ports render differently |
| `WebService.WithDefaultHost` | service.go:73-84 | the write-back changes no field but the host, changes it only for an empty host with a positive port, keeps the resolved address, and is a fixed point |
| `WebService.NewWeb` | service.go:47-92 | a non-nil config is written back; the service's name, server address and Home come from the chosen config as resolved; `Config` is the argument as passed, nil included; the registry is empty |
| `WebService.Service.Register` | service.go:143-145 | the registry is the old one with the controller appended, nil included; no other field changes |
| `WebService.Service.Close` | service.go:132-140 | the trace gains one close per non-nil controller in registration order, then the server's close |
| `WebService.RegisterThenClose` | service.go:132-145 | after Register(c), Close closes what it closed before, then c unless it is nil, then the server |
| `Teardown.ServiceCloseEvents` | service.go:132-140 | the server's close is the last event and every earlier one closes a controller |
| `Teardown.CloseEvents` | service.go:133-137 | controller closes only, at most one per registry entry |
| `Teardown.CloseEventsAppend` | service.go:133-137 | closing a registry made of two parts closes the first part's controllers, then the second's |
| `Teardown.CloseCount` | service.go:133-137 | each controller is closed exactly as many times as it was registered; nil entries are skipped |
| `Teardown.ClosedAt` | service.go:133-137 | the controller at position i is closed as event number Rank(i), the count of non-nil entries before it |
| `Teardown.RegistrationOrder` | service.go:133-137 | a non-nil controller registered before another is closed before it |
| `Teardown.ScenarioThreeControllers` | service.go:132-145 | A, B, C registered close as A, B, C, server; a nil middle entry is skipped and C is still closed |
| `Teardown.AppCloseEvents` | native.go:170-175 | the app's trace starts with the service's whole close trace; a UI close follows iff there is a UI, as the last event; in full, the controllers' closes, then the server's, then the UI's if present |
| `Native.App.Close` | native.go:170-175 | the trace gains the service's close events, then the UI's close only when the UI is non-nil, and nothing else |
| `Routing.FilenameChar` | service.go:104 | the `{filename}` character class: '.', '-', '_' and '/' are admitted; no admitted character is '%', '?', '#', a backslash, a space or ':' |
| `Routing.ValidFilename` | service.go:104 | the `{filename}` pattern: the empty name is admitted; an admitted name holds no '%', '?' or '#' |
| `Routing.ValidFilenameConcat` | service.go:104 | the pattern is a repetition of the class: a name is admitted iff both parts of any split of it are |
| `Routing.Match` | service.go:103-115 | a static route has the path "/static/" + filename with an admitted filename; the favicon route has path "/favicon.ico"; the health check has path "/health-check" and method GET or HEAD |
| `Routing.FileServerPath` | service.go:152 | the served path lies under "./static/" and ends with the filename |
| `Routing.Dispatch` | service.go:104-158 | a served file is under "./static/" or is the favicon; a written body is 200 "OK", for the health-check path only |
| `Routing.StaticRoute` | service.go:104 | "/static/" + f reaches FileServer iff every character of f is admitted, and then "./static/" + f is served; otherwise nothing is found |
| `Routing.StaticRejects` | service.go:104 | one character outside the class keeps the request from FileServer |
| `Routing.FaviconAlwaysRouted` | service.go:105-114 | "/favicon.ico" is routed for every method and serves "static/favicon.ico" |
| `Routing.HealthCheckReply` | service.go:115 | "/health-check" is routed iff the method is GET or HEAD, and then the reply is 200 "OK" |
| `Routing.MethodMattersOnlyForHealthCheck` | service.go:104-115 | for every path but "/health-check", the route does not depend on the method |
| `Routing.OtherPathsNotFound` | service.go:103-115 | a path matching none of the three routes is not found |
| `Routing.PatternAdmitsDotDot` | service.go:104 | the filename pattern by itself admits a leading "..": "/static/../" + rest is served as "./static/../" + rest for every admitted rest |
| `Paths.Dir` | native.go:58 | the directory part of a path is never empty, and is ".", "/" or a proper prefix of the path |
| `Paths.DirOfJoin` | native.go:58 | Dir undoes Join of one name under a directory without a trailing slash |
| `Paths.Join` | native.go:58 | joining onto "" gives the name; otherwise the directory is a prefix of the result |
| `Native.Dimension` | native.go:140-147 | the chosen dimension is always positive; a positive configured value is kept, anything else becomes 500 |
| `Native.WindowFor` | native.go:139-149 | the window is opened with positive width and height, each chosen by Dimension |
| `Native.ChooseConfig` | native.go:86-91 | an explicit configuration is used as given, for both the web part here and the ui part (lines 130-134); without one, the file's sections are used |
| `Native.ConfigLookup` | native.go:72-79 | the configuration file is looked up iff no configuration was given, as "config_" + OS name in the resource directory |
| `Native.ResourceDir` | native.go:56-66 | outside a terminal, Join(Dir(Dir(executable)), "Resources"); in a terminal, the working directory |
| `Native.BundleResources` | native.go:56-58 | for "<c>/MacOS/<binary>" the resource directory is "<c>/Resources" |
| `Native.NewNative` | native.go:46-157 | `App.CWD` is the resource directory; the configuration file is requested only when no configuration is given, as ConfigLookup says; the window size comes from the chosen ui config; the service's config is a fresh private copy of the chosen web config, written back there; name, address and Home follow from that config |

## Left out

- The goroutines and channels are concurrency, so they are not modelled. This
  covers the interrupt watchers (service.go:95-100, native.go:112-121), the
  `ListenAndServe` goroutine (service.go:122-126), exit forwarding
  (native.go:104-107) and the UI-done watcher (native.go:163-166). The `Exit`
  channels are left out with them.
- `App.Run` (native.go:160-167) is left out, because it only loads the Home URL
  into the UI and starts the UI-done watcher. Both are foreign or concurrent.
- Reading the configuration file with viper and the `log.Fatalf` paths are left
  out. This covers service.go:50-58 and 66, and native.go:76-78, 87 and 131.
  What the file holds is a parameter; which file native.go:72-79 asks for is
  modelled (`Native.ConfigLookup`, returned by `Native.NewNative`). `getResourceDir`, used by service.go:51,
  is not part of this model.
- The HTTP library is left out: `http.ServeFile`, `mime.TypeByExtension`,
  `fileExists`/`os.Stat` and the favicon's "no favicon.ico found" message. Only
  the route and path strings are modelled.
- Routing.Match: the router's own behaviour is not modelled. It cleans paths and
  redirects unclean ones, and it answers 405 rather than 404 when the method
  does not match.
- `lorca.New` and its failure are not modelled. Nor are `terminal.IsTerminal`,
  `os.Executable`, `os.Getwd` and `os.Chdir`. Their results are parameters, and
  the change of working directory is not modelled.
- Addressing.HomeUrl: it assumes `url.Parse` succeeds. The code ignores the
  parse error, so Home stays nil for an address that does not parse as a URL.
  Home is modelled as the URL string, not as a parsed `*url.URL`. For a host
  used as written, such as "example.com/app", the parsed URL's Host would be
  "example.com" only.
- WebService.NewWeb: `loaded` is always present. In Go, with `conf` nil and no
  "server" section in the file, `serverConfig` stays a nil pointer and line 74
  panics; that crash is not modelled.
- WebService.Service.Close: it assumes every controller's `Close` returns. The
  loop at service.go:133-137 has no recover, so a controller that panics ends
  the loop and `Server.Close` never runs. `Teardown.ScenarioThreeControllers`
  and `Native.App.Close` make the same assumption.
- `Addressing.HostAndPort` is a plain split at the last colon. It is not
  `net.SplitHostPort`, which rejects an unbracketed host with more than one
  colon, as in "example.com:9090:8080".
- Paths.Dir: it does not apply filepath.Clean. Repeated and trailing
  separators, "." and ".." elements are kept as written.
- Paths.Join: it does not apply filepath.Clean to the result.
- Ports are unbounded integers rather than Go's 64-bit `int`. No rule depends
  on the width.
- A nil controller stored in an interface that is not itself nil is treated
  like any other controller.
- config.go holds only a struct declaration, with no logic, so it is not
  modelled.
