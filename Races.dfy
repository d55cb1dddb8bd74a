/** Concurrent `getBrowser` calls (index.js) as an interleaving of their two
    halves. Each call first runs BeginGetBrowser, is suspended at
    `await puppeteer.launch()`, and later runs FinishGetBrowser with the browser
    it launched. Any order of these steps is a schedule: a sequence naming which
    call moves next. */
module Races {
  import opened Harness

  /** Where one `getBrowser` call stands. */
  datatype CallPhase =
    | Pending                          // not started
    | Launching(needLaunch: bool)      // suspended at the launch (or at no launch)
    | Returned(result: Browser?)       // resolved with this browser

  /** Each call's phase follows how often the schedule has named it: never
      named, it is pending; named once, it is suspended at its launch; named
      twice or more, it has returned. */
  ghost predicate Tracks(phases: seq<CallPhase>, schedule: seq<nat>)
  {
    forall c {:trigger multiset(schedule)[c]} :: 0 <= c < |phases| ==>
      (phases[c].Pending? <==> multiset(schedule)[c] == 0)
      && (phases[c].Returned? <==> multiset(schedule)[c] >= 2)
  }

  /** Moving call `c` one phase on (or leaving a returned call alone) keeps the
      phases in step with the schedule extended by `c`. */
  lemma {:induction false} TracksStep(phases: seq<CallPhase>, schedule: seq<nat>, c: nat, next: CallPhase)
    requires Tracks(phases, schedule) && c < |phases|
    requires phases[c].Pending? ==> next.Launching?
    requires phases[c].Launching? ==> next.Returned?
    requires phases[c].Returned? ==> next == phases[c]
    ensures Tracks(phases[c := next], schedule + [c])
  {
    var m := multiset(schedule + [c]);
    assert m == multiset(schedule) + multiset{c};
    forall d | 0 <= d < |phases| && d != c
      ensures m[d] == multiset(schedule)[d]
    {
    }
  }

  /** Runs `calls` concurrent `getBrowser` calls on `h` in the order `schedule`
      names them; naming a call that has already returned does nothing. All calls
      that return resolve to the same browser, the one in the slot, which is never
      replaced once set; every browser launched but not installed is closed. A call
      named once is suspended at its launch and a call named twice has returned;
      once every call has returned on an empty slot, exactly one launched browser
      is open. */
  method Interleave(h: Horseman, calls: nat, schedule: seq<nat>) returns (phases: seq<CallPhase>, launched: set<Browser>)
    requires h.Valid()
    requires forall k :: 0 <= k < |schedule| ==> schedule[k] < calls
    modifies h
    ensures h.Valid()
    ensures |phases| == calls
    ensures old(h.browser) != null ==> h.browser == old(h.browser) && launched == {}
    ensures old(h.server) != null ==> h.server == old(h.server)
    ensures forall c :: 0 <= c < calls && !phases[c].Pending? ==> h.server != null
    ensures forall c :: 0 <= c < calls && phases[c].Returned? ==> phases[c].result == h.browser != null
    ensures forall b :: b in launched && b != h.browser ==> b.closed
    ensures h.browser in launched ==> !h.browser.closed
    ensures h.browser == old(h.browser) || h.browser in launched
    ensures forall b :: b in launched ==> fresh(b)
    ensures forall c :: 0 <= c < calls ==>
              (phases[c].Pending? <==> multiset(schedule)[c] == 0)
              && (phases[c].Returned? <==> multiset(schedule)[c] >= 2)
    ensures old(h.browser) == null && 0 < calls && (forall c :: 0 <= c < calls ==> phases[c].Returned?)
      ==> (h.browser != null && h.browser in launched && !h.browser.closed
           && forall b :: b in launched && !b.closed ==> b == h.browser)
  {
    phases := seq(calls, _ => Pending);
    launched := {};
    var k := 0;
    while k < |schedule|
      invariant 0 <= k <= |schedule|
      invariant |phases| == calls
      invariant h.Valid()
      invariant old(h.browser) != null ==> h.browser == old(h.browser) && launched == {}
      invariant old(h.server) != null ==> h.server == old(h.server)
      invariant forall c :: 0 <= c < calls && !phases[c].Pending? ==> h.server != null
      invariant forall c :: 0 <= c < calls && phases[c].Returned? ==> phases[c].result == h.browser != null
      invariant forall c :: 0 <= c < calls && phases[c].Launching? && !phases[c].needLaunch ==> h.browser != null
      invariant forall c :: 0 <= c < calls && phases[c].Launching? && phases[c].needLaunch ==> old(h.browser) == null
      invariant forall b :: b in launched && b != h.browser ==> b.closed
      invariant h.browser in launched ==> !h.browser.closed
      invariant h.browser == old(h.browser) || h.browser in launched
      invariant forall b :: b in launched ==> fresh(b)
      invariant Tracks(phases, schedule[..k])
    {
      var c := schedule[k];
      var phase := phases[c];
      var next := phase;
      if phase.Pending? {
        var needLaunch := h.BeginGetBrowser();
        next := Launching(needLaunch);
      } else if phase.Launching? {
        var own: Browser? := null;
        if phase.needLaunch {
          own := new Browser.Launch();
          launched := launched + {own};
        }
        var result := h.FinishGetBrowser(own);
        next := Returned(result);
      }
      TracksStep(phases, schedule[..k], c, next);
      phases := phases[c := next];
      assert schedule[..k + 1] == schedule[..k] + [c];
      k := k + 1;
    }
    assert schedule[..k] == schedule;
    if old(h.browser) == null && 0 < calls && phases[0].Returned? {
      assert h.browser != null;
    }
  }

  /** The calls 0, 1, ..., n - 1 in order. */
  function Range(n: nat): (r: seq<nat>)
    ensures |r| == n && forall k :: 0 <= k < n ==> r[k] == k
  {
    if n == 0 then [] else Range(n - 1) + [n - 1]
  }

  /** Every call below `n` occurs in `Range(n)`. */
  lemma {:induction false} RangeCount(n: nat, c: nat)
    requires c < n
    ensures multiset(Range(n))[c] >= 1
  {
    var last: nat := n - 1;
    assert multiset(Range(n)) == multiset(Range(last)) + multiset{last};
    if c < last {
      RangeCount(n - 1, c);
    }
  }

  /** In `Range(n)` twice over, every call below `n` is named at least twice. */
  lemma RangeTwice(n: nat)
    ensures forall c :: 0 <= c < n ==> multiset(Range(n) + Range(n))[c] >= 2
  {
    forall c | 0 <= c < n
      ensures multiset(Range(n) + Range(n))[c] >= 2
    {
      RangeCount(n, c);
    }
  }

  /** "launches only one browser when called multiple times concurrently",
      for any number of calls: every call starts before any finishes, so every
      call launches a browser, yet all of them resolve to the same one, and it
      is the only launched browser left open. */
  method AllCallsInFlight(options: HarnessOptions, calls: nat) returns (results: seq<Browser?>, launched: set<Browser>)
    requires 0 < calls
    ensures |results| == calls
    ensures forall c :: 0 <= c < calls ==> results[c] != null && results[c] == results[0]
    ensures results[0] in launched && !results[0].closed
    ensures forall b :: b in launched && !b.closed ==> b == results[0]
  {
    var h := new Horseman(options);
    var schedule := Range(calls) + Range(calls);
    RangeTwice(calls);
    var phases;
    phases, launched := Interleave(h, calls, schedule);
    results := seq(calls, c requires 0 <= c < calls => phases[c].result);
  }
}
