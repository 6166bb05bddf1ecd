/** The page explorer of the legacy application: a crawl that keeps one stored
    row per page up to date. */
module Explorer {
  import opened Common
  import opened Text

  const EXCLUDE := ["/logout", "/signout", "/delete", "?destroy=", "/admin/delete"]
  const MAX_ELEMENTS := 400

  predicate ShouldVisit(baseUrl: string, url: string) {
    baseUrl <= url && forall i :: 0 <= i < |EXCLUDE| ==> !Occurs(url, EXCLUDE[i])
  }

  /** The part of a URL before its first `#`. */
  function Norm(url: string): (r: string)
    ensures '#' !in r && r <= url
    ensures '#' !in url ==> r == url
    ensures '#' in url ==> |r| < |url| && url[|r|] == '#'
  {
    if url == "" || url[0] == '#' then "" else [url[0]] + Norm(url[1..])
  }

  datatype PageRow = PageRow(app: nat, url: string, title: string, domHash: string, elements: seq<string>)

  /** Where a visit raises, if it does; the exception ends the run. */
  datatype Stop = Completes | BeforeUpsert | AfterUpsert | AfterDelete

  datatype Visit = Visit(title: string, domHash: string, links: seq<string>, elements: seq<string>, stop: Stop)

  datatype App = App(id: nat, baseUrl: string, visit: string -> Visit)

  datatype State = State(rows: seq<PageRow>, queue: seq<string>, seen: set<string>, raised: bool)

  // ---------------------------------------------------------------------
  // The page table
  // ---------------------------------------------------------------------

  /** The first row of a page, as a query with `first()` finds it. */
  function Find(rows: seq<PageRow>, app: nat, url: string): (r: Option<nat>)
    ensures r.Some? ==> r.value < |rows| && rows[r.value].app == app && rows[r.value].url == url
    ensures r.Some? ==> forall i :: 0 <= i < r.value ==> !(rows[i].app == app && rows[i].url == url)
    ensures r == None ==> forall i :: 0 <= i < |rows| ==> !(rows[i].app == app && rows[i].url == url)
  {
    if rows == [] then None
    else
      var earlier := Find(rows[..|rows| - 1], app, url);
      assert forall i :: 0 <= i < |rows| - 1 ==> rows[..|rows| - 1][i] == rows[i];
      if earlier.Some? then earlier
      else if rows[|rows| - 1].app == app && rows[|rows| - 1].url == url then Some(|rows| - 1)
      else None
  }

  /** What is stored for a page. */
  function Stored(rows: seq<PageRow>, app: nat, url: string): Option<PageRow> {
    var i := Find(rows, app, url);
    if i.Some? then Some(rows[i.value]) else None
  }

  ghost predicate Unique(rows: seq<PageRow>) {
    forall i, j :: 0 <= i < j < |rows| ==> !(rows[i].app == rows[j].app && rows[i].url == rows[j].url)
  }

  /** Writes over the page's row, or adds one. */
  function Put(rows: seq<PageRow>, row: PageRow): seq<PageRow> {
    var i := Find(rows, row.app, row.url);
    if i.Some? then rows[i.value := row] else rows + [row]
  }

  lemma UniqueFound(rows: seq<PageRow>, app: nat, url: string, k: nat)
    requires Unique(rows) && k < |rows| && rows[k].app == app && rows[k].url == url
    ensures Find(rows, app, url) == Some(k)
  {
    var f := Find(rows, app, url);
    assert f.Some?;
    assert rows[f.value].app == app && rows[f.value].url == url;
  }

  lemma PutStores(rows: seq<PageRow>, row: PageRow)
    requires Unique(rows)
    ensures Unique(Put(rows, row))
    ensures Stored(Put(rows, row), row.app, row.url) == Some(row)
    ensures forall app, url :: !(app == row.app && url == row.url) ==>
              Stored(Put(rows, row), app, url) == Stored(rows, app, url)
  {
    var i := Find(rows, row.app, row.url);
    var rows' := Put(rows, row);
    assert rows'[if i.Some? then i.value else |rows|] == row;
    assert forall k :: 0 <= k < |rows| && i != Some(k) ==> rows'[k] == rows[k];
    UniqueFound(rows', row.app, row.url, if i.Some? then i.value else |rows|);
    forall app, url | !(app == row.app && url == row.url)
      ensures Stored(rows', app, url) == Stored(rows, app, url)
    {
      var k := Find(rows, app, url);
      if k.Some? {
        UniqueFound(rows', app, url, k.value);
      } else {
        assert Find(rows', app, url) == None;
      }
    }
  }

  function Kept(elements: seq<string>): seq<string> {
    if |elements| <= MAX_ELEMENTS then elements else elements[..MAX_ELEMENTS]
  }

  /** The three commits of one page, as far as the visit gets. */
  function Save(rows: seq<PageRow>, app: nat, url: string, v: Visit): seq<PageRow> {
    var existing := Stored(rows, app, url);
    var row := PageRow(app, url, v.title, v.domHash, if existing.Some? then existing.value.elements else []);
    match v.stop
    case BeforeUpsert => rows
    case AfterUpsert => Put(rows, row)
    case AfterDelete => Put(Put(rows, row), row.(elements := []))
    case Completes => Put(Put(Put(rows, row), row.(elements := [])), row.(elements := Kept(v.elements)))
  }

  /** The row a complete visit leaves. */
  function FreshRow(app: App, url: string): PageRow {
    var v := app.visit(url);
    PageRow(app.id, url, v.title, v.domHash, Kept(v.elements))
  }

  /** What a visit leaves of the page stored before: its title and hash are new
      with the first commit, its elements gone with the second, all is new with
      the third. */
  function Left(app: App, url: string, stored: Option<PageRow>): Option<PageRow> {
    match app.visit(url).stop
    case BeforeUpsert => stored
    case AfterUpsert => Some(FreshRow(app, url).(elements := if stored.Some? then stored.value.elements else []))
    case AfterDelete => Some(FreshRow(app, url).(elements := []))
    case Completes => Some(FreshRow(app, url))
  }

  /** What each way a visit can end leaves of its page. */
  lemma LeftReads(app: App, url: string, stored: Option<PageRow>)
    ensures var v, now := app.visit(url), Left(app, url, stored);
      && (v.stop == BeforeUpsert ==> now == stored)
      && (v.stop != BeforeUpsert ==> now.Some? && now.value.app == app.id && now.value.url == url
                                     && now.value.title == v.title && now.value.domHash == v.domHash)
      && (v.stop == AfterUpsert ==> now.value.elements == if stored == None then [] else stored.value.elements)
      && (v.stop == AfterDelete ==> now.value.elements == [])
      && (v.stop == Completes ==> now.value.elements <= v.elements
                                  && |now.value.elements| == if |v.elements| < 400 then |v.elements| else 400)
  {
  }

  lemma {:induction false} SaveStores(rows: seq<PageRow>, app: App, url: string)
    requires Unique(rows)
    ensures var rows' := Save(rows, app.id, url, app.visit(url));
      && Unique(rows')
      && Stored(rows', app.id, url) == Left(app, url, Stored(rows, app.id, url))
      && forall a, u :: !(a == app.id && u == url) ==> Stored(rows', a, u) == Stored(rows, a, u)
  {
    hide Put;
    hide Stored;
    hide Unique;
    var v := app.visit(url);
    var existing := Stored(rows, app.id, url);
    var row := PageRow(app.id, url, v.title, v.domHash, if existing.Some? then existing.value.elements else []);
    PutStores(rows, row);
    PutStores(Put(rows, row), row.(elements := []));
    PutStores(Put(Put(rows, row), row.(elements := [])), row.(elements := Kept(v.elements)));
  }

  // ---------------------------------------------------------------------
  // The crawl
  // ---------------------------------------------------------------------

  /** The links queued from a page: normalised, wanted, and not seen yet. */
  function Wanted(baseUrl: string, links: seq<string>, seen: set<string>): (r: seq<string>)
    ensures forall u :: u in r <==> exists i :: 0 <= i < |links| && u == Norm(links[i]) && ShouldVisit(baseUrl, u) && u !in seen
  {
    if links == [] then []
    else
      var last := |links| - 1;
      var before := Wanted(baseUrl, links[..last], seen);
      assert forall i :: 0 <= i < last ==> links[..last][i] == links[i];
      var u := Norm(links[last]);
      if ShouldVisit(baseUrl, u) && u !in seen then before + [u] else before
  }

  /** Links are queued in the order the page lists them. */
  lemma {:induction false} WantedInOrder(baseUrl: string, a: seq<string>, b: seq<string>, seen: set<string>)
    ensures Wanted(baseUrl, a + b, seen) == Wanted(baseUrl, a, seen) + Wanted(baseUrl, b, seen)
    ensures |Wanted(baseUrl, b, seen)| <= |b|
  {
    hide ShouldVisit;
    if b == [] {
      assert a + b == a;
    } else {
      var last := |b| - 1;
      assert (a + b)[..|a + b| - 1] == a + b[..last];
      WantedInOrder(baseUrl, a, b[..last], seen);
    }
  }

  function Step(app: App, s: State): State
    requires s.queue != []
  {
    var url := Norm(s.queue[0]);
    var rest := s.queue[1..];
    if url in s.seen || !ShouldVisit(app.baseUrl, url) then s.(queue := rest)
    else
      var v := app.visit(url);
      var seen := s.seen + {url};
      State(Save(s.rows, app.id, url, v),
            if v.stop.BeforeUpsert? then rest else rest + Wanted(app.baseUrl, v.links, seen),
            seen,
            !v.stop.Completes?)
  }

  predicate Done(s: State, maxPages: int) {
    s.raised || s.queue == [] || |s.seen| >= maxPages
  }

  function PagesLeft(s: State, maxPages: int): nat {
    if |s.seen| < maxPages then maxPages - |s.seen| else 0
  }

  function Run(app: App, maxPages: int, s: State): State
    decreases PagesLeft(s, maxPages), |s.queue|
  {
    if Done(s, maxPages) then s else Run(app, maxPages, Step(app, s))
  }

  function Explore(app: App, maxPages: int, rows: seq<PageRow>): State {
    Run(app, maxPages, State(rows, [app.baseUrl], {}, false))
  }

  // ---------------------------------------------------------------------
  // Invariant
  // ---------------------------------------------------------------------

  ghost predicate LinksTo(app: App, v: string, u: string) {
    exists i :: 0 <= i < |app.visit(v).links| && Norm(app.visit(v).links[i]) == u
  }

  /** A page that some walk of `n` wanted links from the base URL leads to. */
  ghost predicate Reachable(app: App, u: string, n: nat)
    decreases n
  {
    ShouldVisit(app.baseUrl, u) &&
    if n == 0 then u == Norm(app.baseUrl)
    else exists v :: Reachable(app, v, n - 1) && LinksTo(app, v, u)
  }

  ghost predicate Reached(app: App, u: string) {
    exists n: nat :: Reachable(app, u, n)
  }

  ghost predicate CrawlOk(app: App, s: State) {
    && (forall u :: u in s.seen ==> Reached(app, u))
    && (forall i :: 0 <= i < |s.queue| ==> ShouldVisit(app.baseUrl, Norm(s.queue[i])) ==> Reached(app, Norm(s.queue[i])))
    && (s.seen == {} ==> s.queue == [] || s.queue == [app.baseUrl])
  }

  /** Every wanted page known so far is seen or queued. */
  ghost predicate Known(app: App, s: State, u: string) {
    u in s.seen || exists i :: 0 <= i < |s.queue| && Norm(s.queue[i]) == u
  }

  ghost predicate NothingLost(app: App, s: State) {
    !s.raised ==>
      && (ShouldVisit(app.baseUrl, Norm(app.baseUrl)) ==> Known(app, s, Norm(app.baseUrl)))
      && (forall v, u :: v in s.seen && LinksTo(app, v, u) && ShouldVisit(app.baseUrl, u) ==> Known(app, s, u))
  }

  /** Pages seen are as their visits left them; everything else is as before. */
  ghost predicate RowsOk(app: App, before: seq<PageRow>, s: State) {
    && Unique(s.rows)
    && (forall u :: u in s.seen ==> Stored(s.rows, app.id, u) == Left(app, u, Stored(before, app.id, u)))
    && (forall a, u :: !(a == app.id && u in s.seen) ==> Stored(s.rows, a, u) == Stored(before, a, u))
    && (!s.raised ==> forall u :: u in s.seen ==> app.visit(u).stop.Completes?)
    && (forall u, v :: u in s.seen && v in s.seen && !app.visit(u).stop.Completes? && !app.visit(v).stop.Completes? ==> u == v)
  }

  lemma {:induction false} StepKeepsRows(app: App, before: seq<PageRow>, s: State)
    requires RowsOk(app, before, s) && s.queue != [] && !s.raised
    ensures RowsOk(app, before, Step(app, s))
  {
    hide Save;
    hide Stored;
    hide Unique;
    hide Wanted;
    hide ShouldVisit;
    hide Left;
    SaveStores(s.rows, app, Norm(s.queue[0]));
  }

  lemma ReachedByLink(app: App, v: string, u: string)
    requires Reached(app, v) && ShouldVisit(app.baseUrl, u)
    requires exists i :: 0 <= i < |app.visit(v).links| && u == Norm(app.visit(v).links[i])
    ensures Reached(app, u) && Norm(u) == u
  {
    var n: nat :| Reachable(app, v, n);
    assert LinksTo(app, v, u);
    assert Reachable(app, u, n + 1);
  }

  lemma {:induction false} StepKeepsCrawl(app: App, s: State)
    requires CrawlOk(app, s) && s.queue != []
    ensures CrawlOk(app, Step(app, s))
  {
    hide Save;
    hide ShouldVisit;
    hide Reached;
    var t := Step(app, s);
    var url := Norm(s.queue[0]);
    forall i | 0 <= i < |t.queue| && ShouldVisit(app.baseUrl, Norm(t.queue[i]))
      ensures Reached(app, Norm(t.queue[i]))
    {
      if i < |s.queue| - 1 {
        assert t.queue[i] == s.queue[i + 1];
      } else {
        var u := t.queue[i];
        assert u in Wanted(app.baseUrl, app.visit(url).links, t.seen);
        ReachedByLink(app, url, u);
      }
    }
  }

  lemma {:induction false} QueuedLink(app: App, s: State, t: State, url: string, u: string)
    requires s.queue != [] && t.queue == s.queue[1..] + Wanted(app.baseUrl, app.visit(url).links, t.seen)
    requires LinksTo(app, url, u) && ShouldVisit(app.baseUrl, u)
    ensures Known(app, t, u)
  {
    hide Norm;
    hide ShouldVisit;
    hide Wanted;
    if u !in t.seen {
      var added := Wanted(app.baseUrl, app.visit(url).links, t.seen);
      var i :| 0 <= i < |app.visit(url).links| && Norm(app.visit(url).links[i]) == u;
      assert u in added;
      var k :| 0 <= k < |added| && added[k] == u;
      assert t.queue[|s.queue| - 1 + k] == u && Norm(u) == u;
    }
  }

  lemma {:induction false} StepLosesNothing(app: App, s: State)
    requires NothingLost(app, s) && s.queue != [] && !s.raised
    ensures NothingLost(app, Step(app, s))
  {
    hide Save;
    hide ShouldVisit;
    var t := Step(app, s);
    var url := Norm(s.queue[0]);
    forall u | Known(app, s, u) && ShouldVisit(app.baseUrl, u)
      ensures Known(app, t, u)
    {
      if u !in s.seen {
        var i :| 0 <= i < |s.queue| && Norm(s.queue[i]) == u;
        assert i > 0 ==> t.queue[i - 1] == s.queue[i];
      }
    }
    if !t.raised && url in t.seen && url !in s.seen {
      forall u | LinksTo(app, url, u) && ShouldVisit(app.baseUrl, u)
        ensures Known(app, t, u)
      {
        QueuedLink(app, s, t, url, u);
      }
    }
  }

  lemma {:induction false} RunKeepsAll(app: App, maxPages: int, before: seq<PageRow>, s: State)
    requires RowsOk(app, before, s) && CrawlOk(app, s) && NothingLost(app, s)
    ensures var t := Run(app, maxPages, s);
      RowsOk(app, before, t) && CrawlOk(app, t) && NothingLost(app, t) && Done(t, maxPages)
    decreases PagesLeft(s, maxPages), |s.queue|
  {
    hide RowsOk;
    hide CrawlOk;
    hide NothingLost;
    hide Save;
    hide ShouldVisit;
    if !Done(s, maxPages) {
      StepKeepsRows(app, before, s);
      StepKeepsCrawl(app, s);
      StepLosesNothing(app, s);
      RunKeepsAll(app, maxPages, before, Step(app, s));
    }
  }

  lemma StartOk(app: App, rows: seq<PageRow>)
    requires Unique(rows)
    ensures var s := State(rows, [app.baseUrl], {}, false);
      RowsOk(app, rows, s) && CrawlOk(app, s) && NothingLost(app, s)
  {
    var s := State(rows, [app.baseUrl], {}, false);
    assert Norm(s.queue[0]) == Norm(app.baseUrl);
    if ShouldVisit(app.baseUrl, Norm(app.baseUrl)) {
      assert Reachable(app, Norm(app.baseUrl), 0);
    }
  }

  // ---------------------------------------------------------------------
  // What explore runs keep
  // ---------------------------------------------------------------------

  /** One run keeps one row per page, leaves every page it did not see and every
      other application alone, and leaves on each page it saw what its visit
      commits: exactly the latest title, hash and elements, except on the one
      page whose visit made the run raise. */
  lemma ExploreUpdatesSeenPages(app: App, maxPages: int, rows: seq<PageRow>)
    requires Unique(rows)
    ensures var t := Explore(app, maxPages, rows);
      && Unique(t.rows)
      && (forall a, u :: !(a == app.id && u in t.seen) ==> Stored(t.rows, a, u) == Stored(rows, a, u))
      && (forall u :: u in t.seen ==> Stored(t.rows, app.id, u) == Left(app, u, Stored(rows, app.id, u)))
      && (forall u :: u in t.seen && app.visit(u).stop.Completes? ==> Stored(t.rows, app.id, u) == Some(FreshRow(app, u)))
      && (!t.raised ==> forall u :: u in t.seen ==> app.visit(u).stop.Completes?)
      && (forall u, v :: u in t.seen && v in t.seen && !app.visit(u).stop.Completes? && !app.visit(v).stop.Completes? ==> u == v)
  {
    StartOk(app, rows);
    RunKeepsAll(app, maxPages, rows, State(rows, [app.baseUrl], {}, false));
  }

  lemma WantedIfReachable(app: App, u: string, n: nat)
    requires Reachable(app, u, n)
    ensures ShouldVisit(app.baseUrl, u)
  {
  }

  lemma {:induction false} WalksStaySeen(app: App, s: State, u: string, n: nat)
    requires NothingLost(app, s) && s.queue == [] && !s.raised && Reachable(app, u, n)
    ensures u in s.seen
    decreases n
  {
    hide Norm;
    hide ShouldVisit;
    hide LinksTo;
    if n == 0 {
      WantedIfReachable(app, u, n);
      assert Known(app, s, u);
    } else {
      var v :| Reachable(app, v, n - 1) && LinksTo(app, v, u);
      WalksStaySeen(app, s, v, n - 1);
      WantedIfReachable(app, u, n);
      assert Known(app, s, u);
    }
  }

  /** A run that returns below the page limit has seen exactly the pages that
      wanted links lead to; in particular what it has seen is closed under them. */
  lemma SeesAllReachable(app: App, maxPages: int, rows: seq<PageRow>, u: string)
    requires Unique(rows)
    requires var t := Explore(app, maxPages, rows); !t.raised && |t.seen| < maxPages
    ensures u in Explore(app, maxPages, rows).seen <==> Reached(app, u)
  {
    StartOk(app, rows);
    RunKeepsAll(app, maxPages, rows, State(rows, [app.baseUrl], {}, false));
    if Reached(app, u) {
      var n: nat :| Reachable(app, u, n);
      WalksStaySeen(app, Explore(app, maxPages, rows), u, n);
    }
  }

  lemma {:induction false} SeenGrows(app: App, maxPages: int, s: State)
    ensures s.seen <= Run(app, maxPages, s).seen
    decreases PagesLeft(s, maxPages), |s.queue|
  {
    hide Save;
    hide ShouldVisit;
    if !Done(s, maxPages) {
      SeenGrows(app, maxPages, Step(app, s));
    }
  }

  /** A run sees anything at all exactly when the base URL passes its own test,
      which a base URL with a fragment never does. */
  lemma {:induction false} SeesSomethingIff(app: App, maxPages: int, rows: seq<PageRow>)
    requires Unique(rows) && maxPages > 0
    ensures Explore(app, maxPages, rows).seen != {} <==> ShouldVisit(app.baseUrl, Norm(app.baseUrl))
    ensures '#' in app.baseUrl ==> Explore(app, maxPages, rows).seen == {}
  {
    hide Save;
    var s := State(rows, [app.baseUrl], {}, false);
    var t := Step(app, s);
    assert Explore(app, maxPages, rows) == Run(app, maxPages, t);
    if ShouldVisit(app.baseUrl, Norm(app.baseUrl)) {
      SeenGrows(app, maxPages, t);
      assert Norm(app.baseUrl) in t.seen;
    } else {
      assert t == s.(queue := []);
    }
  }

  // ---------------------------------------------------------------------
  // Nearer pages come first
  // ---------------------------------------------------------------------

  ghost predicate Within(app: App, u: string, n: nat) {
    exists m: nat :: m <= n && Reachable(app, u, m)
  }

  ghost predicate QueueLevel(app: App, s: State, d: nat, k: nat) {
    && (forall i :: 0 <= i < |s.queue| && ShouldVisit(app.baseUrl, Norm(s.queue[i])) ==>
                      Within(app, Norm(s.queue[i]), if i < k then d else d + 1))
    && (forall u :: Within(app, u, d) ==> u in s.seen || exists i :: 0 <= i < k && i < |s.queue| && Norm(s.queue[i]) == u)
  }

  /** The first `k` queued pages are within `d` links of the base URL and the
      others within `d + 1`; all pages nearer than `d` are seen and none farther. */
  ghost predicate Level(app: App, s: State, d: nat, k: nat) {
    && k <= |s.queue|
    && (forall u :: u in s.seen ==> Within(app, u, d))
    && (d > 0 ==> forall u :: Within(app, u, d - 1) ==> u in s.seen)
    && (!s.raised ==> QueueLevel(app, s, d, k))
  }

  lemma WithinMore(app: App, u: string, m: nat, n: nat)
    requires m <= n && Within(app, u, m)
    ensures Within(app, u, n)
  {
  }

  lemma WithinByLink(app: App, v: string, u: string, d: nat)
    requires Within(app, v, d) && LinksTo(app, v, u) && ShouldVisit(app.baseUrl, u)
    ensures Within(app, u, d + 1)
  {
    var m: nat :| m <= d && Reachable(app, v, m);
    assert Reachable(app, u, m + 1);
  }

  lemma LastLink(app: App, u: string, n: nat)
    requires Reachable(app, u, n) && n > 0
    ensures ShouldVisit(app.baseUrl, u) && exists v :: Reachable(app, v, n - 1) && LinksTo(app, v, u)
  {
  }

  lemma {:induction false} NextLevel(app: App, s: State, d: nat)
    requires Level(app, s, d, 0) && NothingLost(app, s) && !s.raised
    ensures Level(app, s, d + 1, |s.queue|)
  {
    hide Norm;
    hide ShouldVisit;
    hide LinksTo;
    hide Reachable;
    assert forall u :: Within(app, u, d) ==> u in s.seen;
    forall u | Within(app, u, d)
      ensures Within(app, u, d + 1)
    {
      WithinMore(app, u, d, d + 1);
    }
    forall u | Within(app, u, d + 1)
      ensures u in s.seen || exists i :: 0 <= i < |s.queue| && Norm(s.queue[i]) == u
    {
      var m: nat :| m <= d + 1 && Reachable(app, u, m);
      if m <= d {
        assert Within(app, u, d);
      } else {
        LastLink(app, u, m);
        var v :| Reachable(app, v, m - 1) && LinksTo(app, v, u);
        assert Within(app, v, d);
        assert Known(app, s, u);
      }
    }
  }

  lemma WithinIsWanted(app: App, u: string, d: nat)
    requires Within(app, u, d)
    ensures ShouldVisit(app.baseUrl, u)
  {
  }

  lemma {:induction false} StepKeepsLevel(app: App, s: State, d: nat, k: nat)
    requires Level(app, s, d, k) && k > 0 && !s.raised
    ensures Level(app, Step(app, s), d, k - 1)
  {
    hide Save;
    hide ShouldVisit;
    hide Within;
    var t := Step(app, s);
    var url := Norm(s.queue[0]);
    assert forall i :: 0 <= i < |s.queue| - 1 ==> t.queue[i] == s.queue[i + 1];
    if !t.raised {
      forall i | 0 <= i < |t.queue| && ShouldVisit(app.baseUrl, Norm(t.queue[i]))
        ensures Within(app, Norm(t.queue[i]), if i < k - 1 then d else d + 1)
      {
        if i >= |s.queue| - 1 {
          var u := t.queue[i];
          assert u in Wanted(app.baseUrl, app.visit(url).links, t.seen);
          assert LinksTo(app, url, u) && Norm(u) == u;
          WithinByLink(app, url, u, d);
        }
      }
      forall u | Within(app, u, d) && u !in t.seen
        ensures exists i :: 0 <= i < k - 1 && i < |t.queue| && Norm(t.queue[i]) == u
      {
        WithinIsWanted(app, u, d);
        var i :| 0 <= i < k && Norm(s.queue[i]) == u;
        assert i > 0 && t.queue[i - 1] == s.queue[i];
      }
    }
  }

  lemma {:induction false} RunKeepsLevel(app: App, maxPages: int, s: State, d: nat, k: nat) returns (d': nat, k': nat)
    requires Level(app, s, d, k) && NothingLost(app, s)
    ensures Level(app, Run(app, maxPages, s), d', k')
    decreases PagesLeft(s, maxPages), |s.queue|
  {
    hide Level;
    hide NothingLost;
    hide Save;
    hide ShouldVisit;
    d', k' := d, k;
    if !Done(s, maxPages) {
      if k == 0 {
        NextLevel(app, s, d);
        d', k' := d + 1, |s.queue|;
      }
      StepKeepsLevel(app, s, d', k');
      StepLosesNothing(app, s);
      d', k' := RunKeepsLevel(app, maxPages, Step(app, s), d', k' - 1);
    }
  }

  lemma StartLevel(app: App, rows: seq<PageRow>)
    ensures Level(app, State(rows, [app.baseUrl], {}, false), 0, 1)
  {
    var q := [app.baseUrl];
    assert q[0] == app.baseUrl;
    if ShouldVisit(app.baseUrl, Norm(app.baseUrl)) {
      assert Reachable(app, Norm(app.baseUrl), 0);
      assert Within(app, Norm(app.baseUrl), 0);
    }
  }

  /** In every run, cut short by the limit or an exception or not, a page is seen
      only after every wanted page that is fewer links away. */
  lemma {:induction false} NearerPagesAreSeen(app: App, maxPages: int, rows: seq<PageRow>, u: string, v: string, n: nat)
    requires Unique(rows) && u in Explore(app, maxPages, rows).seen
    requires Reachable(app, v, n) && forall m: nat :: m <= n ==> !Reachable(app, u, m)
    ensures v in Explore(app, maxPages, rows).seen
  {
    hide RowsOk;
    hide CrawlOk;
    hide NothingLost;
    hide ShouldVisit;
    hide Reachable;
    hide QueueLevel;
    var s := State(rows, [app.baseUrl], {}, false);
    StartOk(app, rows);
    StartLevel(app, rows);
    var d, k := RunKeepsLevel(app, maxPages, s, 0, 1);
    assert !Within(app, u, n) && Within(app, v, n);
    if n >= d {
      WithinMore(app, u, d, n);
      assert false;
    }
    WithinMore(app, v, n, d - 1);
  }

  // ---------------------------------------------------------------------
  // The pages seen, in plain terms
  // ---------------------------------------------------------------------

  lemma OccursIff(s: string, pat: string)
    ensures Occurs(s, pat) <==> exists i, j :: 0 <= i <= j <= |s| && s[i..j] == pat
  {
    if exists i, j :: 0 <= i <= j <= |s| && s[i..j] == pat {
      var i, j :| 0 <= i <= j <= |s| && s[i..j] == pat;
      assert j == i + |pat| && OccursAt(s, pat, i);
    }
    if Occurs(s, pat) {
      var i :| 0 <= i <= |s| && OccursAt(s, pat, i);
      assert s[i..i + |pat|] == pat;
    }
  }

  /** `c` starts with the base URL and holds none of the words that keep a page out. */
  lemma {:induction false} ShouldVisitIff(baseUrl: string, c: string)
    ensures ShouldVisit(baseUrl, c)
       <==> baseUrl <= c && forall i, j :: 0 <= i <= j <= |c| ==>
                                             c[i..j] !in ["/logout", "/signout", "/delete", "?destroy=", "/admin/delete"]
  {
    hide Occurs;
    forall k | 0 <= k < |EXCLUDE|
      ensures Occurs(c, EXCLUDE[k]) <==> exists i, j :: 0 <= i <= j <= |c| && c[i..j] == EXCLUDE[k]
    {
      OccursIff(c, EXCLUDE[k]);
    }
  }

  /** The part of `link` before its fragment. */
  ghost predicate CutOf(c: string, link: string) {
    c <= link && '#' !in c && (c == link || link[|c|] == '#')
  }

  lemma CutIsNorm(c: string, link: string)
    ensures CutOf(c, link) <==> c == Norm(link)
  {
    var r := Norm(link);
    if CutOf(c, link) {
      assert forall k :: 0 <= k < |r| ==> link[k] == r[k] && r[k] in r;
      assert forall k :: 0 <= k < |c| ==> link[k] == c[k] && c[k] in c;
      assert |c| == |r|;
      assert c == link[..|c|] && r == link[..|r|];
    }
  }

  lemma ReachableIsCut(app: App, u: string, n: nat)
    requires Reachable(app, u, n)
    ensures '#' !in u && ShouldVisit(app.baseUrl, u)
  {
  }

  lemma {:induction false} SeenWithinLimit(app: App, maxPages: nat, s: State)
    requires |s.seen| <= maxPages
    ensures |Run(app, maxPages, s).seen| <= maxPages
    decreases PagesLeft(s, maxPages), |s.queue|
  {
    hide Save;
    hide ShouldVisit;
    if !Done(s, maxPages) {
      SeenWithinLimit(app, maxPages, Step(app, s));
    }
  }

  /** Every page seen is stored without its fragment, below the base URL, and holds
      none of the excluded words; there are no more than the limit. */
  lemma {:induction false} SeenPagesAreWanted(app: App, maxPages: nat, rows: seq<PageRow>)
    requires Unique(rows)
    ensures |Explore(app, maxPages, rows).seen| <= maxPages
    ensures forall u :: u in Explore(app, maxPages, rows).seen ==>
              && app.baseUrl <= u && '#' !in u
              && forall i, j :: 0 <= i <= j <= |u| ==>
                                  u[i..j] !in ["/logout", "/signout", "/delete", "?destroy=", "/admin/delete"]
  {
    hide ShouldVisit;
    hide RowsOk;
    hide NothingLost;
    StartOk(app, rows);
    RunKeepsAll(app, maxPages, rows, State(rows, [app.baseUrl], {}, false));
    SeenWithinLimit(app, maxPages, State(rows, [app.baseUrl], {}, false));
    forall u | u in Explore(app, maxPages, rows).seen
      ensures app.baseUrl <= u && '#' !in u && ShouldVisit(app.baseUrl, u)
    {
      var n: nat :| Reachable(app, u, n);
      ReachableIsCut(app, u, n);
      ShouldVisitIff(app.baseUrl, u);
    }
    forall u | u in Explore(app, maxPages, rows).seen
      ensures forall i, j :: 0 <= i <= j <= |u| ==>
                               u[i..j] !in ["/logout", "/signout", "/delete", "?destroy=", "/admin/delete"]
    {
      ShouldVisitIff(app.baseUrl, u);
    }
  }

  /** A run that returns below the limit has seen whatever a link of a page it saw
      names without its fragment, if that is a page to visit. */
  lemma {:induction false} LinkedPageIsSeen(app: App, maxPages: int, rows: seq<PageRow>, v: string, i: nat, c: string)
    requires Unique(rows)
    requires var t := Explore(app, maxPages, rows); !t.raised && |t.seen| < maxPages && v in t.seen
    requires i < |app.visit(v).links| && CutOf(c, app.visit(v).links[i]) && app.baseUrl <= c
    requires forall a, b :: 0 <= a <= b <= |c| ==>
                              c[a..b] !in ["/logout", "/signout", "/delete", "?destroy=", "/admin/delete"]
    ensures c in Explore(app, maxPages, rows).seen
  {
    hide Explore;
    hide ShouldVisit;
    hide Reachable;
    CutIsNorm(c, app.visit(v).links[i]);
    ShouldVisitIff(app.baseUrl, c);
    SeesAllReachable(app, maxPages, rows, v);
    assert LinksTo(app, v, c);
    ReachedByLink(app, v, c);
    SeesAllReachable(app, maxPages, rows, c);
  }

  /** One turn: the page at the head of the queue, without its fragment, is passed
      over, or visited and its wanted links put at the end. */
  lemma Turn(app: App, s: State, c: string)
    requires s.queue != [] && CutOf(c, s.queue[0])
    ensures var t, v := Step(app, s), app.visit(c);
      && (c in s.seen || !ShouldVisit(app.baseUrl, c) ==> t == s.(queue := s.queue[1..]))
      && (c !in s.seen && ShouldVisit(app.baseUrl, c) ==>
            && t.seen == s.seen + {c} && (t.raised <==> v.stop != Completes)
            && t.rows == Save(s.rows, app.id, c, v)
            && (v.stop == Completes ==> t.queue == s.queue[1..] + Wanted(app.baseUrl, v.links, s.seen + {c})))
  {
    CutIsNorm(c, s.queue[0]);
  }

  /** Any number of runs, of any applications, each against its own site state. */
  function ExploreAll(runs: seq<(App, int)>, rows: seq<PageRow>): seq<PageRow> {
    if runs == [] then rows
    else Explore(runs[|runs| - 1].0, runs[|runs| - 1].1, ExploreAll(runs[..|runs| - 1], rows)).rows
  }

  /** Over any sequence of runs there is never more than one row per page, and
      an application none of the runs is for keeps its pages. */
  lemma {:induction false} RunsKeepRowsUnique(runs: seq<(App, int)>, rows: seq<PageRow>)
    requires Unique(rows)
    ensures Unique(ExploreAll(runs, rows))
    ensures forall a: nat, u :: (forall i :: 0 <= i < |runs| ==> runs[i].0.id != a) ==>
              Stored(ExploreAll(runs, rows), a, u) == Stored(rows, a, u)
  {
    hide Stored;
    hide Explore;
    hide Unique;
    if runs != [] {
      var last := |runs| - 1;
      RunsKeepRowsUnique(runs[..last], rows);
      ExploreUpdatesSeenPages(runs[last].0, runs[last].1, ExploreAll(runs[..last], rows));
      assert forall i :: 0 <= i < last ==> runs[..last][i] == runs[i];
    }
  }

  /** The pages that run `m` of the sequence saw. */
  ghost function SeenIn(runs: seq<(App, int)>, rows: seq<PageRow>, m: nat): set<string>
    requires m < |runs|
  {
    Explore(runs[m].0, runs[m].1, ExploreAll(runs[..m], rows)).seen
  }

  /** No run of application `a` from the `n`th on saw the page. */
  ghost predicate UnseenFrom(runs: seq<(App, int)>, rows: seq<PageRow>, n: nat, a: nat, u: string) {
    forall m :: n <= m < |runs| && runs[m].0.id == a ==> u !in SeenIn(runs, rows, m)
  }

  /** A page keeps what is stored for it while no run sees it; with `n` zero,
      a page that no run saw is as at the start. */
  lemma {:induction false} UnseenPageStays(runs: seq<(App, int)>, rows: seq<PageRow>, n: nat, a: nat, u: string)
    requires Unique(rows) && n <= |runs| && UnseenFrom(runs, rows, n, a, u)
    ensures Stored(ExploreAll(runs, rows), a, u) == Stored(ExploreAll(runs[..n], rows), a, u)
  {
    hide Stored;
    hide Explore;
    hide Unique;
    if n == |runs| {
      assert runs[..n] == runs;
    } else {
      var last := |runs| - 1;
      assert forall m :: n <= m < last ==> runs[..last][m] == runs[m] && runs[..last][..m] == runs[..m];
      UnseenPageStays(runs[..last], rows, n, a, u);
      assert runs[..last][..n] == runs[..n];
      RunsKeepRowsUnique(runs[..last], rows);
      ExploreUpdatesSeenPages(runs[last].0, runs[last].1, ExploreAll(runs[..last], rows));
      assert runs[last].0.id == a ==> u !in SeenIn(runs, rows, last);
    }
  }

  /** Over any sequence of runs a page holds what the last run that saw it left
      there: the title, hash and elements of that run, unless that very visit
      raised. */
  lemma {:induction false} LatestRunIsStored(runs: seq<(App, int)>, rows: seq<PageRow>, k: nat, u: string)
    requires Unique(rows) && k < |runs| && u in SeenIn(runs, rows, k)
    requires UnseenFrom(runs, rows, k + 1, runs[k].0.id, u)
    ensures var (app, limit) := runs[k];
      var before := ExploreAll(runs[..k], rows);
      var now := Stored(ExploreAll(runs, rows), app.id, u);
      && now == Left(app, u, Stored(before, app.id, u))
      && (!Explore(app, limit, before).raised || app.visit(u).stop.Completes? ==> now == Some(FreshRow(app, u)))
  {
    hide Stored;
    hide Explore;
    hide Unique;
    UnseenPageStays(runs, rows, k + 1, runs[k].0.id, u);
    RunsKeepRowsUnique(runs[..k], rows);
    ExploreUpdatesSeenPages(runs[k].0, runs[k].1, ExploreAll(runs[..k], rows));
    assert runs[..k + 1][..k] == runs[..k];
  }

  // ---------------------------------------------------------------------
  // The Celery job
  // ---------------------------------------------------------------------

  class PageStore {
    var rows: seq<PageRow>

    constructor ()
      ensures rows == []
    {
      rows := [];
    }

    method Upsert(row: PageRow)
      modifies this
      ensures rows == Put(old(rows), row)
    {
      var existing := Find(rows, row.app, row.url);
      if existing.Some? {
        rows := rows[existing.value := row];
      } else {
        rows := rows + [row];
      }
    }

    /** The commits of one page; returns whether the visit raised. */
    method SavePage(app: App, url: string) returns (raised: bool)
      modifies this
      ensures rows == Save(old(rows), app.id, url, app.visit(url)) && raised == !app.visit(url).stop.Completes?
    {
      hide Put;
      var v := app.visit(url);
      if v.stop.BeforeUpsert? {
        return true;
      }
      var existing := Stored(rows, app.id, url);
      var row := PageRow(app.id, url, v.title, v.domHash, if existing.Some? then existing.value.elements else []);
      Upsert(row);
      if v.stop.AfterUpsert? {
        return true;
      }
      Upsert(row.(elements := []));
      if v.stop.AfterDelete? {
        return true;
      }
      Upsert(row.(elements := Kept(v.elements)));
      return false;
    }

    method ExploreApp(app: App, maxPages: int) returns (seen: set<string>, raised: bool)
      modifies this
      ensures var t := Explore(app, maxPages, old(rows)); rows == t.rows && seen == t.seen && raised == t.raised
    {
      hide Save;
      hide ShouldVisit;
      var queue := [app.baseUrl];
      seen, raised := {}, false;
      while !raised && queue != [] && |seen| < maxPages
        invariant Run(app, maxPages, State(rows, queue, seen, raised)) == Explore(app, maxPages, old(rows))
        decreases !raised, PagesLeft(State(rows, queue, seen, raised), maxPages), |queue|
      {
        ghost var was := State(rows, queue, seen, raised);
        var url := Norm(queue[0]);
        queue := queue[1..];
        if url !in seen && ShouldVisit(app.baseUrl, url) {
          seen := seen + {url};
          raised := SavePage(app, url);
          if !app.visit(url).stop.BeforeUpsert? {
            queue := queue + Wanted(app.baseUrl, app.visit(url).links, seen);
          }
        }
        assert State(rows, queue, seen, raised) == Step(app, was);
      }
    }
  }
}
