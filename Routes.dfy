/** The request handler of `createBasicServer` (index.js): an ordered route
    table answering every request from in-memory byte buffers, first match wins. */
module Routes {
  import opened Wrappers

  newtype byte = x: int | 0 <= x < 256
  type Bytes = seq<byte>

  /** A route: `test` is absent (`null`, or no property) or a predicate on the
      request URL, standing for the RegExp's `test` method; `file` is the body served. */
  datatype Route = Route(test: Option<string -> bool>, file: Bytes)

  /** What the handler writes: one status line and one body. */
  datatype Response = Response(status: int, body: Bytes)

  const OK: int := 200
  const NOT_FOUND: int := 404

  /** The body of a miss: the text "Not Found", UTF-8 encoded. */
  const NOT_FOUND_BODY: Bytes := [78, 111, 116, 32, 70, 111, 117, 110, 100]

  /** `!route.test || route.test.test(req.url)`: a route without a test matches every URL. */
  predicate Matches(route: Route, url: string)
  {
    route.test.None? || route.test.value(url)
  }

  /** The response the handler gives for `url`, read off the routes in order. */
  function Respond(routes: seq<Route>, url: string): (r: Response)
    ensures r.status == OK || r == Response(NOT_FOUND, NOT_FOUND_BODY)
    ensures r.status == OK ==> exists i :: 0 <= i < |routes| && Matches(routes[i], url) && r.body == routes[i].file
  {
    if routes == [] then Response(NOT_FOUND, NOT_FOUND_BODY)
    else if Matches(routes[0], url) then Response(OK, routes[0].file)
    else
      var r := Respond(routes[1..], url);
      assert r.status == OK ==> exists i :: 0 < i < |routes| && Matches(routes[i], url) && r.body == routes[i].file by {
        if r.status == OK {
          var j :| 0 <= j < |routes[1..]| && Matches(routes[1..][j], url) && r.body == routes[1..][j].file;
          assert routes[1..][j] == routes[j + 1];
        }
      }
      r
  }

  /** The request handler itself: `routes.some(...)` stops at the first route that
      matches and writes 200 with its file; `didEnd` left false means a 404. */
  method HandleRequest(routes: seq<Route>, url: string) returns (status: int, body: Bytes)
    ensures Response(status, body) == Respond(routes, url)
  {
    var didEnd := false;
    var i := 0;
    status, body := 0, [];
    while i < |routes| && !didEnd
      invariant 0 <= i <= |routes|
      invariant didEnd ==> Response(status, body) == Respond(routes, url)
      invariant !didEnd ==> Respond(routes[i..], url) == Respond(routes, url)
    {
      var route := routes[i];
      if route.test.None? || route.test.value(url) {
        status, body := OK, route.file;
        didEnd := true;
      } else {
        assert routes[i..][1..] == routes[i + 1..];
      }
      i := i + 1;
    }
    if !didEnd {
      assert routes[i..] == [];
      status, body := NOT_FOUND, NOT_FOUND_BODY;
    }
  }

  /** The body served is the file of the FIRST route that matches; routes after it
      are never consulted. */
  lemma {:induction false} RespondFirstMatch(routes: seq<Route>, url: string, i: nat)
    requires i < |routes| && Matches(routes[i], url)
    requires forall j :: 0 <= j < i ==> !Matches(routes[j], url)
    ensures Respond(routes, url) == Response(OK, routes[i].file)
  {
    if i > 0 {
      assert !Matches(routes[0], url);
      forall j | 0 <= j < i - 1 ensures !Matches(routes[1..][j], url) {
        assert routes[1..][j] == routes[j + 1];
      }
      RespondFirstMatch(routes[1..], url, i - 1);
    }
  }

  /** A request is answered 404 "Not Found" exactly when no route matches its URL,
      and 200 exactly when some route does; in particular an empty table answers
      every request with 404. */
  lemma {:induction false} RespondNotFoundIff(routes: seq<Route>, url: string)
    ensures (Respond(routes, url) == Response(NOT_FOUND, NOT_FOUND_BODY))
      <==> (forall i :: 0 <= i < |routes| ==> !Matches(routes[i], url))
    ensures (Respond(routes, url).status == OK)
      <==> (exists i :: 0 <= i < |routes| && Matches(routes[i], url))
  {
    if routes != [] && !Matches(routes[0], url) {
      RespondNotFoundIff(routes[1..], url);
      forall i | 0 < i < |routes| ensures routes[i] == routes[1..][i - 1] { }
    }
  }

  /** Prepending routes to a table: the response is that of the first part if it
      answers 200, and otherwise that of the rest. */
  lemma {:induction false} RespondAppend(front: seq<Route>, back: seq<Route>, url: string)
    ensures Respond(front + back, url)
              == if Respond(front, url).status == OK then Respond(front, url) else Respond(back, url)
  {
    if front != [] {
      assert (front + back)[0] == front[0];
      assert (front + back)[1..] == front[1..] + back;
      RespondAppend(front[1..], back, url);
    } else {
      assert front + back == back;
    }
  }

  /** A catch-all route (no test) answers every URL with its file unless an
      earlier route matched, and shadows every route placed after it. */
  lemma CatchAllShadows(front: seq<Route>, catchAll: Route, back: seq<Route>, url: string)
    requires catchAll.test.None?
    ensures Respond(front + [catchAll] + back, url) == Respond(front + [catchAll], url)
    ensures Respond(front + [catchAll], url).status == OK
    ensures (forall i :: 0 <= i < |front| ==> !Matches(front[i], url))
              ==> Respond(front + [catchAll] + back, url) == Response(OK, catchAll.file)
  {
    RespondAppend(front, [catchAll], url);
    RespondAppend(front + [catchAll], back, url);
    if forall i :: 0 <= i < |front| ==> !Matches(front[i], url) {
      RespondNotFoundIff(front, url);
    }
  }
}
