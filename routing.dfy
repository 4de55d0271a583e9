/** The route patterns NewWeb installs (service.go:103-115) and what its handlers
    do with a matched request (service.go:147-158), stated on the request's method
    and path as the patterns alone see them: the router's own path cleaning and
    redirects are not part of this model. */
module Routing {

  /** The route a request reaches; `StaticFile` carries the router's `filename` variable. */
  datatype Route = StaticFile(filename: string) | FaviconIcon | HealthCheck | NoRoute

  /** What the matched handler does: serve a file, or write a status and a body. */
  datatype Reply = ServeFile(file: string) | Body(status: int, text: string) | NotFound

  const StaticPrefix := "/static/"
  const FaviconRoute := "/favicon.ico"
  const HealthCheckRoute := "/health-check"

  /** The directory FileServer resolves filenames against. */
  const StaticDir := "./static/"

  /** The file the favicon handler serves. */
  const FaviconFile := "static/favicon.ico"

  /** The characters the `{filename}` pattern admits: letters, digits, '.', '-', '_' and '/'.
      None of them is a percent escape, a query or fragment mark, a backslash, a space or a colon. */
  function FilenameChar(c: char): (ok: bool)
    ensures ok ==> c !in "%?#\\ :"
    ensures c in "._-/" ==> ok
  {
    || 'a' <= c <= 'z'
    || 'A' <= c <= 'Z'
    || '0' <= c <= '9'
    || c == '.' || c == '-' || c == '_' || c == '/'
  }

  /** The `{filename}` pattern: any number of admitted characters, none included. */
  function ValidFilename(f: string): (ok: bool)
    ensures ok ==> forall i :: 0 <= i < |f| ==> f[i] != '%' && f[i] != '?' && f[i] != '#'
    ensures f == [] ==> ok
  {
    forall i :: 0 <= i < |f| ==> FilenameChar(f[i])
  }

  /** The pattern is a repetition: a name is admitted iff both of its parts are. */
  lemma {:induction false} ValidFilenameConcat(a: string, b: string)
    ensures ValidFilename(a + b) <==> ValidFilename(a) && ValidFilename(b)
  {
    var ab := a + b;
    if ValidFilename(ab) {
      forall i | 0 <= i < |a|
        ensures FilenameChar(a[i])
      {
        assert a[i] == ab[i];
      }
      forall i | 0 <= i < |b|
        ensures FilenameChar(b[i])
      {
        assert b[i] == ab[|a| + i];
      }
    }
    if ValidFilename(a) && ValidFilename(b) {
      forall i | 0 <= i < |ab|
        ensures FilenameChar(ab[i])
      {
        if i < |a| {
          assert ab[i] == a[i];
        } else {
          assert ab[i] == b[i - |a|];
        }
      }
    }
  }

  /** The route table, tried in registration order: the static pattern, then the
      favicon, then the health check, which is restricted to GET and HEAD. */
  function Match(verb: string, path: string): (r: Route)
    ensures r.StaticFile? ==> path == StaticPrefix + r.filename && ValidFilename(r.filename)
    ensures r.FaviconIcon? ==> path == FaviconRoute
    ensures r.HealthCheck? ==> path == HealthCheckRoute && (verb == "GET" || verb == "HEAD")
  {
    if StaticPrefix <= path && ValidFilename(path[|StaticPrefix|..]) then
      StaticFile(path[|StaticPrefix|..])
    else if path == FaviconRoute then FaviconIcon
    else if path == HealthCheckRoute && (verb == "GET" || verb == "HEAD") then HealthCheck
    else NoRoute
  }

  /** FileServer's path: the filename under the static directory. */
  function FileServerPath(filename: string): (file: string)
    ensures StaticDir <= file && file[|StaticDir|..] == filename
  {
    StaticDir + filename
  }

  /** The handler's reaction; HealthCheck writes "OK" and so gets the implicit 200. */
  function Dispatch(verb: string, path: string): (reply: Reply)
    ensures reply.ServeFile? ==> StaticDir <= reply.file || reply.file == FaviconFile
    ensures reply.Body? ==> reply == Body(200, "OK") && path == HealthCheckRoute
  {
    match Match(verb, path)
    case StaticFile(f) => ServeFile(FileServerPath(f))
    case FaviconIcon => ServeFile(FaviconFile)
    case HealthCheck => Body(200, "OK")
    case NoRoute => NotFound
  }

  /** A "/static/" request reaches FileServer exactly when every character of the
      filename is admitted, and FileServer then serves it from the static directory. */
  lemma StaticRoute(verb: string, filename: string)
    ensures Match(verb, StaticPrefix + filename) ==
      (if ValidFilename(filename) then StaticFile(filename) else NoRoute)
    ensures Dispatch(verb, StaticPrefix + filename) ==
      (if ValidFilename(filename) then ServeFile(StaticDir + filename) else NotFound)
  {
    var path := StaticPrefix + filename;
    assert StaticPrefix <= path && path[|StaticPrefix|..] == filename;
    assert path[1] == 's';
    assert path != FaviconRoute && path != HealthCheckRoute;
  }

  /** One character outside the class is enough to keep a request away from FileServer. */
  lemma StaticRejects(verb: string, filename: string, i: nat)
    requires i < |filename| && !FilenameChar(filename[i])
    ensures Dispatch(verb, StaticPrefix + filename) == NotFound
  {
    StaticRoute(verb, filename);
  }

  /** The favicon is routed for every method. */
  lemma FaviconAlwaysRouted(verb: string)
    ensures Match(verb, FaviconRoute) == FaviconIcon
    ensures Dispatch(verb, FaviconRoute) == ServeFile(FaviconFile)
  {
    assert FaviconRoute[1] != StaticPrefix[1];
  }

  /** The health check answers 200 "OK" to GET and HEAD and is not routed otherwise. */
  lemma HealthCheckReply(verb: string)
    ensures Match(verb, HealthCheckRoute) == (if verb == "GET" || verb == "HEAD" then HealthCheck else NoRoute)
    ensures Dispatch(verb, HealthCheckRoute) ==
      (if verb == "GET" || verb == "HEAD" then Body(200, "OK") else NotFound)
  {
    assert HealthCheckRoute[1] != StaticPrefix[1];
  }

  /** Only the health check depends on the method: every other path routes alike for all methods. */
  lemma MethodMattersOnlyForHealthCheck(verb1: string, verb2: string, path: string)
    requires path != HealthCheckRoute
    ensures Match(verb1, path) == Match(verb2, path)
  {
  }

  /** Every path outside the three routes is not found. */
  lemma OtherPathsNotFound(verb: string, path: string)
    requires !(StaticPrefix <= path) && path != FaviconRoute && path != HealthCheckRoute
    ensures Dispatch(verb, path) == NotFound
  {
  }

  /** The pattern by itself admits "..": it is not what keeps a request inside the static
      directory. The router's path cleaning, which runs before any pattern is tried, is not modelled. */
  lemma PatternAdmitsDotDot(verb: string, rest: string)
    requires ValidFilename(rest)
    ensures Dispatch(verb, StaticPrefix + "../" + rest) == ServeFile(StaticDir + "../" + rest)
  {
    var f := "../" + rest;
    forall i | 0 <= i < |f|
      ensures FilenameChar(f[i])
    {
      if i >= 3 {
        assert f[i] == rest[i - 3];
      }
    }
    assert StaticPrefix + "../" + rest == StaticPrefix + f;
    assert StaticDir + "../" + rest == StaticDir + f;
    StaticRoute(verb, f);
  }
}
