/** The `Horseman` class of index.js: one harness owns at most one local server
    and one browser, created lazily by `getBrowser` and shared by every caller.
    The browser, its pages and the server are opaque handles; only the state the
    harness relies on (open/closed, listening, where a page was sent) is kept. */
module Harness {
  import opened Wrappers
  import opened Routes
  import opened PageTarget

  const DEFAULT_PORT: int := 3000

  /** The constructor's `options` object: `port` and `routes` may be missing. */
  datatype HarnessOptions = HarnessOptions(port: Option<int>, routes: Option<seq<Route>>)

  /** `options.port || 3000`: a missing port, or the falsy port 0, gives 3000. */
  function ConfiguredPort(port: Option<int>): (p: int)
    ensures p != 0
    ensures port.Some? && port.value != 0 ==> p == port.value
    ensures port.None? || port.value == 0 ==> p == DEFAULT_PORT
  {
    if port.Some? && port.value != 0 then port.value else DEFAULT_PORT
  }

  /** The server `createBasicServer(routes, port)` starts: it listens on `port`
      and answers every request with `Routes.HandleRequest(routes, url)`. */
  class Server {
    const port: int
    const routes: seq<Route>
    var listening: bool

    constructor Listen(routes: seq<Route>, port: int)
      ensures this.routes == routes && this.port == port && listening
    {
      this.routes := routes;
      this.port := port;
      listening := true;
    }

    /** `server.shutdown()`. */
    method Shutdown()
      modifies this
      ensures !listening
    {
      listening := false;
    }
  }

  /** A browser handle, as `puppeteer.launch()` returns it. */
  class Browser {
    var closed: bool

    constructor Launch()
      ensures !closed
    {
      closed := false;
    }

    /** `browser.close()`. */
    method Close()
      modifies this
      ensures closed
    {
      closed := true;
    }
  }

  /** A `page.goto(url, options)` call. */
  datatype Navigation = Navigation(url: string, options: Options)

  /** A page handle, as `browser.newPage()` returns it. */
  class Page {
    const owner: Browser
    var closed: bool
    var navigation: Option<Navigation>

    constructor Open(owner: Browser)
      ensures this.owner == owner && !closed && navigation == None
    {
      this.owner := owner;
      closed := false;
      navigation := None;
    }

    method Goto(url: string, options: Options)
      modifies this
      ensures navigation == Some(Navigation(url, options)) && closed == old(closed)
    {
      navigation := Some(Navigation(url, options));
    }

    method Close()
      modifies this
      ensures closed && navigation == old(navigation)
    {
      closed := true;
    }
  }

  class Horseman {
    const port: int
    const routes: seq<Route>
    var server: Server?
    var browser: Browser?

    /** The harness invariant: a server in the slot is the one `createBasicServer`
        started for this harness's port and routes, and it is listening. */
    ghost predicate Valid()
      reads this, server
    {
      server != null ==> server.port == port && server.routes == routes && server.listening
    }

    /** Both slots start empty; the port and routes take their defaults. */
    constructor(options: HarnessOptions)
      ensures Valid()
      ensures browser == null && server == null
      ensures port == ConfiguredPort(options.port) && port != 0
      ensures options.routes.Some? ==> routes == options.routes.value
      ensures options.routes.None? ==> routes == []
    {
      port := ConfiguredPort(options.port);
      routes := options.routes.GetOr([]);
      browser := null;
      server := null;
    }

    /** The part of `getBrowser` before its `await`: start a server on `port` if
        the server slot is empty, and tell whether a browser must be launched
        (the browser slot is empty). */
    method BeginGetBrowser() returns (needLaunch: bool)
      requires Valid()
      modifies this
      ensures Valid()
      ensures browser == old(browser)
      ensures needLaunch <==> browser == null
      ensures old(server) != null ==> server == old(server)
      ensures old(server) == null ==> server != null && fresh(server)
                                      && server.port == port && server.routes == routes && server.listening
    {
      if server == null {
        server := new Server.Listen(routes, port);
      }
      needLaunch := browser == null;
    }

    /** The part of `getBrowser` after its `await`, given the browser this call
        launched (null when it launched none): if the slot was filled meanwhile the
        launch is closed, otherwise it is installed; the slot's browser is returned. */
    method FinishGetBrowser(launched: Browser?) returns (b: Browser?)
      requires Valid()
      modifies this, launched
      ensures Valid()
      ensures server == old(server)
      ensures old(browser) != null ==> browser == old(browser)
      ensures old(browser) == null ==> browser == launched
      ensures launched != null && old(browser) != null ==> launched.closed
      ensures launched != null && old(browser) == null ==> launched.closed == old(launched.closed)
      ensures b == browser
    {
      if launched != null && browser != null {
        launched.Close();
      } else if browser == null {
        browser := launched;
      }
      b := browser;
    }

    /** `getBrowser` run without another call in between: the server slot is
        filled (and kept if it was), and the browser slot's browser is returned,
        launching one only when the slot was empty. */
    method GetBrowser() returns (b: Browser)
      requires Valid()
      modifies this
      ensures Valid()
      ensures browser == b
      ensures old(browser) != null ==> b == old(browser)
      ensures old(browser) == null ==> fresh(b) && !b.closed
      ensures server != null
      ensures old(server) != null ==> server == old(server)
      ensures old(server) == null ==> fresh(server)
                                      && server.port == port && server.routes == routes && server.listening
    {
      var needLaunch := BeginGetBrowser();
      var launched: Browser? := null;
      if needLaunch {
        launched := new Browser.Launch();
      }
      var installed := FinishGetBrowser(launched);
      b := installed;
    }

    /** `getPage(options)`: a fresh page of the harness's browser, sent to
        `http://localhost:<port><path>` with the merged navigation options. */
    method GetPage(options: Options) returns (page: Page)
      requires Valid()
      modifies this
      ensures Valid()
      ensures browser != null && (old(browser) != null ==> browser == old(browser))
      ensures old(browser) == null ==> fresh(browser) && !browser.closed
      ensures server != null
      ensures old(server) != null ==> server == old(server)
      ensures old(server) == null ==> fresh(server)
                                      && server.port == port && server.routes == routes && server.listening
      ensures fresh(page) && page.owner == browser && !page.closed
      ensures page.navigation == Some(Navigation(PageUrl(port, options), NavigationOptions(options)))
    {
      var b := GetBrowser();
      page := new Page.Open(b);
      page.Goto(PageUrl(port, options), NavigationOptions(options));
    }

    /** `closeBrowser()`, given the pages `browser.pages()` reports: every one of
        them is closed, then the browser, then the server is shut down and its
        slot cleared. The browser slot keeps the closed browser. */
    method CloseBrowser(openPages: seq<Page>)
      requires Valid()
      modifies this, browser, server, set p | p in openPages
      ensures Valid()
      ensures server == null
      ensures old(server) != null ==> !old(server).listening
      ensures old(browser) != null ==> browser == old(browser)
      ensures old(browser) == null ==> browser != null && fresh(browser)
      ensures browser != null && browser.closed
      ensures forall p :: p in openPages ==> p.closed
    {
      var b := GetBrowser();
      var i := 0;
      while i < |openPages|
        modifies set p | p in openPages
        invariant 0 <= i <= |openPages|
        invariant forall j :: 0 <= j < i ==> openPages[j].closed
      {
        openPages[i].Close();
        i := i + 1;
      }
      b.Close();
      if server != null {
        server.Shutdown();
      }
      server := null;
    }
  }
}
