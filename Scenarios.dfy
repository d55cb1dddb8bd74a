/** The scenarios of test/chromatica.test.js and test/horseman.test.js, restated
    on the model: each method builds its own harness and its contract states
    what the test asserts. */
module Scenarios {
  import opened Wrappers
  import opened Routes
  import opened PageTarget
  import opened Harness

  predicate EndsWith(s: string, suffix: string)
  {
    |suffix| <= |s| && s[|s| - |suffix|..] == suffix
  }

  /** `/test-resource\.js$/.test(url)`. */
  predicate IsResourceUrl(url: string)
  {
    EndsWith(url, "test-resource.js")
  }

  /** `/test-template-2\.html$/.test(url)`. */
  predicate IsTemplate2Url(url: string)
  {
    EndsWith(url, "test-template-2.html")
  }

  /** The fixture table of the page tests: the two suffix tests, then a catch-all. */
  function FixtureRoutes(resource: Bytes, template2: Bytes, template: Bytes): seq<Route>
  {
    [ Route(Some(IsResourceUrl), resource),
      Route(Some(IsTemplate2Url), template2),
      Route(None, template) ]
  }

  /** A character a URL path carries unchanged: the path characters of
      section 3.3 of RFC 3986 without percent-encoding, and '/'. */
  predicate IsPlainPathChar(c: char)
  {
    ('a' <= c <= 'z') || ('A' <= c <= 'Z') || ('0' <= c <= '9')
    || c in "-._~!$&'()*+,;=:@/"
  }

  /** A path the browser sends as it is: empty, or starting with '/', made of
      plain path characters only (no '?', '#', '%', space or non-ASCII), and
      with no segment starting with '.' (so no dot segment to remove). */
  predicate PlainPath(path: string)
  {
    path == ""
    || (path[0] == '/'
        && (forall i :: 0 <= i < |path| ==> IsPlainPathChar(path[i]))
        && (forall i :: 0 < i < |path| && path[i - 1] == '/' ==> path[i] != '.'))
  }

  /** The request-target a browser sends for a plain URL path: "/" for an
      empty path (section 5.3.1 of RFC 7230), the path itself otherwise. */
  function RequestTarget(path: string): string
  {
    if path == "" then "/" else path
  }

  /** The fixture table sends a request for the script to the script, one for
      the second template to that template, and everything else to the default. */
  lemma FixtureDispatch(resource: Bytes, template2: Bytes, template: Bytes, url: string)
    ensures IsResourceUrl(url)
      ==> Respond(FixtureRoutes(resource, template2, template), url) == Response(OK, resource)
    ensures !IsResourceUrl(url) && IsTemplate2Url(url)
      ==> Respond(FixtureRoutes(resource, template2, template), url) == Response(OK, template2)
    ensures !IsResourceUrl(url) && !IsTemplate2Url(url)
      ==> Respond(FixtureRoutes(resource, template2, template), url) == Response(OK, template)
  {
    var routes := FixtureRoutes(resource, template2, template);
    if IsResourceUrl(url) {
      RespondFirstMatch(routes, url, 0);
    } else if IsTemplate2Url(url) {
      RespondFirstMatch(routes, url, 1);
    } else {
      RespondFirstMatch(routes, url, 2);
    }
  }

  /** Which fixture test the URLs of the page tests pass. */
  lemma FixtureTargets()
    ensures IsResourceUrl("/test-resource.js")
    ensures !IsResourceUrl("/test-template-2.html") && IsTemplate2Url("/test-template-2.html")
    ensures !IsResourceUrl("/") && !IsTemplate2Url("/")
  {
    var path := "/test-template-2.html";
    assert path[|path| - 16] == '-';
    assert "/test-resource.js"[1..] == "test-resource.js";
    assert path[1..] == "test-template-2.html";
  }

  /** "creates a server on a default port" / "on a specified port": the server
      `getBrowser` starts listens on the configured port, 3000 by default, and
      `closeBrowser` stops it. */
  method ServerPortScenario(options: HarnessOptions) returns (port: int, listeningAfterClose: bool)
    ensures options.port.None? ==> port == 3000
    ensures options.port.Some? && options.port.value != 0 ==> port == options.port.value
    ensures !listeningAfterClose
  {
    var h := new Horseman(options);
    var _ := h.GetBrowser();
    var server := h.server;
    port := server.port;
    h.CloseBrowser([]);
    listeningAfterClose := server.listening;
  }

  /** "avoids creating redundant browsers instances": two `getBrowser` calls in
      flight together on a fresh harness both launch; the first launch is
      installed, the second is closed, and both calls resolve to the same browser. */
  method RedundantBrowsersScenario() returns (first: Browser?, second: Browser?, wasted: Browser)
    ensures first != null && first == second && !first.closed
    ensures wasted != first && wasted.closed
  {
    var h := new Horseman(HarnessOptions(None, None));
    var need1 := h.BeginGetBrowser();
    var need2 := h.BeginGetBrowser();
    var launch1 := new Browser.Launch();
    var launch2 := new Browser.Launch();
    first := h.FinishGetBrowser(if need1 then launch1 else null);
    second := h.FinishGetBrowser(if need2 then launch2 else null);
    wasted := launch2;
  }

  /** `closeBrowser` clears only the server slot: a later `getBrowser` on the
      same harness starts a new server but hands back the browser it closed. */
  method GetBrowserAfterCloseScenario(options: HarnessOptions) returns (before: Browser, after: Browser, serverRestarted: bool)
    ensures after == before && after.closed
    ensures serverRestarted
  {
    var h := new Horseman(options);
    before := h.GetBrowser();
    var oldServer := h.server;
    h.CloseBrowser([]);
    after := h.GetBrowser();
    serverRestarted := h.server != oldServer && h.server.listening;
  }

  lemma DefaultPortText()
    ensures IntText(3000) == "3000"
  {
    assert NatText(3) == "3";
    assert NatText(30) == "30";
    assert NatText(300) == "300";
  }

  /** The two URLs the page tests lead to, spelt out. */
  lemma FixtureUrls()
    ensures URL_PREFIX + IntText(3000) + "" == "http://localhost:3000"
    ensures URL_PREFIX + IntText(3000) + "/test-template-2.html" == "http://localhost:3000/test-template-2.html"
  {
    DefaultPortText();
    var origin := URL_PREFIX + "3000";
    assert origin == "http://localhost:3000";
    assert origin + "" == origin;
    assert origin + "/test-template-2.html" == "http://localhost:3000/test-template-2.html";
  }

  /** The `path` option of "navigates to a specified path", as the URL receives it. */
  lemma FixturePathOption()
    ensures PathOf(map["path" := Str("/test-template-2.html")]) == "/test-template-2.html"
    ensures PlainPath("/test-template-2.html")
    ensures RequestTarget("/test-template-2.html") == "/test-template-2.html"
  {
  }

  /** Opens a page on a fresh harness for `port` and `routes`, and has the
      harness's server answer the request the page's URL leads to. */
  method OpenPage(port: int, routes: seq<Route>, options: Options)
    returns (url: string, navigation: Options, served: Response)
    requires 0 < port < 65536
    requires PlainPath(PathOf(options))
    ensures url == URL_PREFIX + IntText(port) + PathOf(options)
    ensures "waitUntil" in navigation
    ensures "waitUntil" !in options ==> navigation["waitUntil"] == Str("networkidle0")
    ensures served == Respond(routes, RequestTarget(PathOf(options)))
  {
    var h := new Horseman(HarnessOptions(Some(port), Some(routes)));
    var page := h.GetPage(options);
    url := page.navigation.value.url;
    navigation := page.navigation.value.options;
    PageUrlRoundTrip(h.port, options);
    var path := ParsePageUrl(url).value.1;
    var status, body := HandleRequest(h.server.routes, RequestTarget(path));
    served := Response(status, body);
  }

  /** "navigates to a page": with no path the page goes to the bare origin and
      is served the default template. */
  method NavigatesToPageScenario(resource: Bytes, template2: Bytes, template: Bytes)
    returns (url: string, served: Response)
    ensures url == "http://localhost:3000" && served == Response(OK, template)
  {
    var navigation;
    url, navigation, served := OpenPage(3000, FixtureRoutes(resource, template2, template), map[]);
    FixtureUrls();
    FixtureTargets();
    FixtureDispatch(resource, template2, template, "/");
  }

  /** "navigates to a specified path": the page goes to the path and is served
      the template registered for it. */
  method NavigatesToPathScenario(resource: Bytes, template2: Bytes, template: Bytes)
    returns (url: string, served: Response)
    ensures url == "http://localhost:3000/test-template-2.html" && served == Response(OK, template2)
  {
    var options := map["path" := Str("/test-template-2.html")];
    FixturePathOption();
    var navigation;
    url, navigation, served := OpenPage(3000, FixtureRoutes(resource, template2, template), options);
    FixtureUrls();
    FixtureTargets();
    FixtureDispatch(resource, template2, template, "/test-template-2.html");
  }
}
