# Horseman (chromatica) — a Dafny model of the page-testing harness

The repository is a small harness for browser-based page tests. A `Horseman`
object owns at most one local HTTP server and one headless browser. Both are
created lazily by `getBrowser` and shared by every caller. The server answers
each request from an in-memory route table: the first route whose test passes
gets 200 with its file, and nothing matching gets 404 "Not Found". `getPage`
opens a fresh page and sends it to `http://localhost:<port><path>` with
`{ waitUntil: 'networkidle0' }` merged under the caller's options.
`closeBrowser` closes every open page, then the browser, then shuts the server
down and clears the server slot.

The model has five modules:

- `Wrappers` (Wrappers.dfy): `Option`, which stands for JavaScript's `null` / `undefined`.
- `Routes` (Routes.dfy): the request handler of `createBasicServer`.
  - `Respond` is the pure specification, a recursive function.
  - `HandleRequest` is the handler's scan with its `didEnd` flag, proved equal to `Respond`.
  - Lemmas state first-match-wins, 404 if and only if nothing matches, how appending routes behaves, and catch-all shadowing.
- `PageTarget` (PageTarget.dfy): how `getPage` builds its URL and navigation options.
  - It covers JavaScript truthiness and the template-literal text of strings, integers, booleans, `null` and `undefined`.
  - `ParsePageUrl` is a reader for such URLs, with a round-trip lemma.
- `Harness` (Harness.dfy): the `Horseman` class and the handles it holds.
  - `Horseman` has `const port`, `const routes` and the mutable slots `server: Server?` and `browser: Browser?`.
  - `Server`, `Browser` and `Page` are classes that carry only the state the harness relies on: listening, closed, and where a page was sent.
  - The class invariant `Valid` says that a server in the server slot listens on the harness's port and serves its routes. Every operation keeps it.
  - `getBrowser` is split at its `await` into `BeginGetBrowser` and `FinishGetBrowser(launched)`, and `GetBrowser` composes the two.
- `Races` (Races.dfy): any number of concurrent `getBrowser` calls, interleaved step by step in an arbitrary order given by a schedule.
- `Scenarios` (Scenarios.dfy): the scenarios of the two test files, each built on its own harness.

Foreign capabilities are modelled as follows:

- `puppeteer.launch()` and `browser.newPage()` become allocations of fresh `Browser` and `Page` objects.
- `browser.pages()` becomes a parameter of `CloseBrowser`.
- A route's RegExp becomes an abstract predicate `string -> bool`.
- Socket I/O is reduced to the server's `listening` flag.

## Model

| member | source | states |
|---|---|---|
| Routes.Respond | index.js:6-20 | The response is either 200 with the file of some route that matches the URL, or exactly 404 with the body "Not Found". |
| Routes.HandleRequest | index.js:6-20 | The handler's scan, which stops at the first matching route and writes 404 when `didEnd` stays false, produces exactly the response `Respond` specifies. |
| Routes.RespondFirstMatch | index.js:8-15 | If route i matches and no earlier route does, the response is 200 with route i's file. Routes after it are never consulted. |
| Routes.RespondNotFoundIff | index.js:16-19 | The response is 404 "Not Found" if and only if no route matches. The status is 200 if and only if some route matches. An empty table therefore answers every request with 404. |
| Routes.RespondAppend | index.js:8-15 | For a table `front + back`: if `front` answers 200, that is the response; otherwise `back` answers. |
| Routes.CatchAllShadows | index.js:9 | A route without a test matches every URL. Placed anywhere, it makes the table answer 200 and shadows every route after it. If no earlier route matches, its file is served. |
| PageTarget.PathOf | index.js:78 | The path spliced into the URL (the `path` option, falling back to `''` when falsy) is empty exactly when `path` is missing or falsy. A string path is used verbatim. |
| PageTarget.NavigationOptions | index.js:76-79 | The goto options have every key of the defaults and of the caller's options. The caller's value wins for each of its keys, and `waitUntil` is `networkidle0` unless the caller sets it. |
| PageTarget.NatText | index.js:78 | The decimal text of a port in the URL is a non-empty run of digits with no leading zero; it starts with '0' only for 0. |
| PageTarget.PageUrl | index.js:78 | The URL `getPage` navigates to starts with `http://localhost:`, then a digit, and ends with the path. The function is total over integers: for a negative port the numeral starts with '-', although such a harness never gets this far (its `listen` throws). |
| PageTarget.ParseNatText | index.js:78 | Reading the decimal text of a number gives the number back. |
| PageTarget.PageUrlRoundTrip | index.js:78 | The URL `http://localhost:<port><path>` reads back as the same port and path whenever the path does not start with a digit. |
| PageTarget.PageUrlInjective | index.js:78 | Harnesses on different ports never navigate to the same URL, and one port gives different URLs for different paths (paths not starting with a digit). |
| Harness.ConfiguredPort | index.js:38 | The harness port is the given port when present and non-zero (JavaScript truthiness), otherwise 3000. The result is never 0. |
| Harness.Server.Listen | index.js:22-24 | `createBasicServer(routes, port)` gives a server that listens on `port` and serves `routes`. |
| Harness.Server.Shutdown | index.js:71 | After shutdown the server is no longer listening. |
| Harness.Browser.Launch | index.js:50 | `puppeteer.launch()` gives a fresh browser that is open. |
| Harness.Browser.Close | index.js:56 | A browser that is closed reports closed. |
| Harness.Page.Open | index.js:29 | `browser.newPage()` gives a fresh open page of that browser that has not been sent anywhere. |
| Harness.Page.Goto | index.js:79 | The page records the URL and options it was sent to and keeps its closed flag. |
| Harness.Page.Close | index.js:69 | A page that is closed reports closed. |
| Harness.Horseman.constructor | index.js:35-40 | Both slots start null. `port` is `ConfiguredPort` of the given port. `routes` is the given list, or empty when none is given. The class invariant `Valid` holds. |
| Harness.Horseman.BeginGetBrowser | index.js:45-51 | A server on `port` serving `routes` is started only when the server slot is empty, and an existing server is kept. A launch is needed exactly when the browser slot is empty. The browser slot is unchanged. |
| Harness.Horseman.FinishGetBrowser | index.js:53-63 | A slot that is already filled is never replaced, and this call's own launch is then closed. An empty slot receives this call's launch. The slot's browser is returned, and the server slot is untouched. |
| Harness.Horseman.GetBrowser | index.js:42-64 | An uninterrupted `getBrowser` returns the slot's browser. A new open browser is launched only when the slot was empty. The server slot is filled and never replaced. |
| Harness.Horseman.GetPage | index.js:27-31 | Opens a fresh open page of the harness's browser (from `getRawPage`), after filling the server and browser slots as `GetBrowser` does. |
| Harness.Horseman.CloseBrowser | index.js:66-73 | Every page `browser.pages()` reports is closed, and so is the browser. The server that was present is shut down and the server slot cleared. The browser slot keeps the closed browser. |
| Races.Interleave | index.js:42-64 | In any interleaving of any number of `getBrowser` calls, a call the schedule names once is suspended at its launch, and a call named twice or more has returned. Every call that has returned resolved to the same non-null browser, the one in the slot. A slot that was filled is never replaced. Every launched browser that is not installed is closed, and the installed one is open. Once every call has returned on an empty slot, exactly one launched browser is open, the one in the slot. |
| Races.AllCallsInFlight | test/chromatica.test.js:29-36 | For any positive number of `getBrowser` calls on a fresh harness, all started before any finishes, every call resolves to the same non-null browser. It is open, and it is the only launched browser left open. |
| Scenarios.ServerPortScenario | test/chromatica.test.js:9-25 | The server `getBrowser` starts listens on 3000 by default, or on the given port. After `closeBrowser` it no longer listens. |
| Scenarios.RedundantBrowsersScenario | test/chromatica.test.js:29-36 | Two `getBrowser` calls in flight together resolve to the same open browser. The redundant launch is a different browser and is closed. |
| Scenarios.GetBrowserAfterCloseScenario | index.js:66-73 | After `closeBrowser`, `getBrowser` starts a new listening server but returns the same browser, which is closed. |
| Scenarios.FixtureDispatch | test/chromatica.test.js:48-61 | With the test's route table, a URL ending in `test-resource.js` gets the script and one ending in `test-template-2.html` gets the second template. Every other URL gets the default template. |
| Scenarios.FixtureTargets | test/chromatica.test.js:48-61 | The test's URLs pass exactly the route tests they are meant to pass, and `/` passes none. |
| Scenarios.OpenPage | index.js:75-81 | On a port `listen` accepts (1 to 65535), a page from `getPage` on port p goes to `http://localhost:` + p + path, with `waitUntil` present (`networkidle0` unless overridden). For a plain path, the harness's own server answers that path as `Respond` over its routes. |
| Scenarios.NavigatesToPageScenario | test/chromatica.test.js:73-80 | With no path, the page goes to `http://localhost:3000` and is served the default template. |
| Scenarios.NavigatesToPathScenario | test/chromatica.test.js:91-98 | With path `/test-template-2.html`, the page goes to `http://localhost:3000/test-template-2.html` and is served the second template. |

## Left out

- Puppeteer itself is not modelled: launching, `newPage`, `pages`, `goto`, `close` and `evaluate`. Browsers and pages are opaque handles with a closed flag, and a page records where it was sent. `browser.pages()` is a parameter of `CloseBrowser`, so the model does not know which pages a browser really has.
- HTTP sockets are not modelled: `http.createServer`, `listen`, and the graceful `shutdown` of `http-shutdown`. The server is a listening flag plus the route table that `HandleRequest` serves. Bind failures are not modelled: a port in use, and a port outside 0..65535, on which `listen` throws.
- JavaScript RegExp semantics are not modelled. A route's test is an abstract `string -> bool`. The test files' patterns `/…\.js$/` and `/…\.html$/` are written as suffix tests.
- The network-idle wait condition is browser timing and is not modelled. Only the `waitUntil` option value is.
- Real asynchrony is not modelled. `Races.Interleave` covers interleavings of the two halves of `getBrowser` only.
  - The launch is allocated at the finishing step. It touches no shared state, so the moment of the allocation does not matter.
  - `closeBrowser`'s `Promise.all` closes the pages one after another.
  - `getPage` and `closeBrowser` are modelled as uninterrupted calls.
- Failures are not modelled: a launch, navigation, page or browser close that throws, or a call on a closed browser, all of which puppeteer would reject.
- Harness.ConfiguredPort: the port is an optional integer. JavaScript's other falsy ports (`NaN`, `''`, `false`) and non-integer ports are not modelled. A truthy port outside 0..65535 (say -5 or 70000) is passed through as the source does, but `server.listen` would then throw inside `createBasicServer`, leaving the server slot null and making `getBrowser` and `getPage` reject. The model does not capture that failure: `Server.Listen`, `BeginGetBrowser` and the methods built on it start a listening server on any port. `Scenarios.OpenPage` therefore requires a port in 1..65535.
- PageTarget.Text: values are strings, integers, booleans, `null` and `undefined`. Objects, arrays and functions (`${['a','b']}` is `a,b`, `${{}}` is `[object Object]`) are not modelled. Numbers are integers written out in full: fractional and special numbers, and the exponent form JavaScript uses from 10^21 on (`1e+21`), are not modelled.
- Scenarios: the browser's request for a URL with an empty path is taken to be `/` (section 5.3.1 of RFC 7230). The fixture files' contents (read from disk by the tests) are arbitrary byte strings.
- Scenarios.OpenPage: requires a plain path (`PlainPath`): empty, or '/' followed by unreserved and sub-delimiter characters, with no segment starting with '.'. The browser is taken to send such a path unchanged as the request target. What a browser's URL parser does to other paths is not modelled: dropping a `#` fragment, splitting off a query, percent-encoding spaces and non-ASCII characters, and removing dot segments.
