/** The breadth-first web crawler. */
module WebCrawler {
  import opened Common

  /** A parsed URL; `rest` is everything between the origin and the fragment. */
  datatype Url = Url(scheme: string, netloc: string, rest: string, fragment: string)

  const EMPTY_URL := Url("", "", "", "")

  /** What a regular-expression search answers; a bad pattern raises and is ignored. */
  datatype SearchResult = Match | NoMatch | BadPattern

  datatype Config = Config(
    target: Url, maxDepth: int, maxPages: int,
    includePatterns: seq<string>, excludePatterns: seq<string>, sameOriginOnly: bool)

  /** The outside: pattern search, and the site itself. Visiting a page either
      raises (`None`) or yields the links found on it; what happens may depend on
      how many visits were made before, so a failed URL may do better later. */
  datatype World = World(search: (string, Url) -> SearchResult, visit: (Url, nat) -> Option<seq<Url>>)

  /** A queued URL with its depth and the page it was found on. */
  datatype Entry = Entry(url: Url, depth: int, referrer: Option<Url>)
  datatype Page = Page(url: Url, depth: int, links: seq<Url>)
  datatype Edge = Edge(from: Url, to: Url)
  datatype State = State(visited: set<Url>, queue: seq<Entry>, pages: seq<Page>, edges: seq<Edge>, errors: nat)

  function NormaliseUrl(u: Url): Url {
    if u.scheme == "" then EMPTY_URL else u.(fragment := "")
  }

  predicate SameOrigin(u: Url, base: Url) {
    u.netloc == base.netloc
  }

  predicate MatchesAny(w: World, patterns: seq<string>, u: Url) {
    exists i :: 0 <= i < |patterns| && w.search(patterns[i], u) == Match
  }

  predicate PassesFilters(c: Config, w: World, u: Url) {
    && !MatchesAny(w, c.excludePatterns, u)
    && (c.sameOriginOnly ==> SameOrigin(u, c.target))
    && (c.includePatterns != [] ==> MatchesAny(w, c.includePatterns, u))
  }

  // ---------------------------------------------------------------------
  // Reference definition: distance through good pages of a steady site
  // ---------------------------------------------------------------------

  /** A site whose pages answer every visit alike. */
  ghost predicate Steady(w: World) {
    forall u, m: nat, n: nat :: w.visit(u, m) == w.visit(u, n)
  }

  /** A page the crawl may and can visit. */
  predicate Good(c: Config, w: World, u: Url) {
    u != EMPTY_URL && PassesFilters(c, w, u) && w.visit(u, 0).Some?
  }

  ghost predicate Mentions(links: seq<Url>, u: Url) {
    exists i :: 0 <= i < |links| && NormaliseUrl(links[i]) == u
  }

  ghost predicate LinksTo(w: World, v: Url, u: Url) {
    w.visit(v, 0).Some? && Mentions(w.visit(v, 0).value, u)
  }

  /** Some walk of exactly `n` links leads from the seed to `u` through good pages. */
  ghost predicate Walk(c: Config, w: World, u: Url, n: nat)
    decreases n
  {
    Good(c, w, u) &&
    if n == 0 then u == NormaliseUrl(c.target)
    else exists v :: Walk(c, w, v, n - 1) && LinksTo(w, v, u)
  }

  ghost predicate Distance(c: Config, w: World, u: Url, d: int) {
    0 <= d && Walk(c, w, u, d) && forall m: nat :: m < d ==> !Walk(c, w, u, m)
  }

  // ---------------------------------------------------------------------
  // The loop as a function on states
  // ---------------------------------------------------------------------

  function Seed(c: Config): Entry {
    Entry(c.target, 0, None)
  }

  function Init(c: Config): State {
    State({}, [Seed(c)], [], [], 0)
  }

  /** Entries for the links that are not visited yet, in page order. */
  function NewEntries(links: seq<Url>, visited: set<Url>, depth: int, from: Url): (r: seq<Entry>)
    ensures forall i :: 0 <= i < |r| ==> r[i].depth == depth && r[i].referrer == Some(from) && r[i].url in links
    ensures forall l :: l in links && l !in visited ==> Entry(l, depth, Some(from)) in r
  {
    if links == [] then []
    else
      var rest := NewEntries(links[..|links| - 1], visited, depth, from);
      var l := links[|links| - 1];
      assert links == links[..|links| - 1] + [l];
      if l in visited then rest else rest + [Entry(l, depth, Some(from))]
  }

  /** Whether the loop goes on to visit the dequeued URL. */
  predicate Selected(c: Config, w: World, s: State, e: Entry) {
    var u := NormaliseUrl(e.url);
    u != EMPTY_URL && u !in s.visited && e.depth <= c.maxDepth && PassesFilters(c, w, u)
  }

  /** A page is recorded, linked to its referrer, and its links are queued. */
  function Record(c: Config, s: State, e: Entry, rest: seq<Entry>, links: seq<Url>): State {
    var u := NormaliseUrl(e.url);
    var visited := s.visited + {u};
    State(
      visited,
      rest + (if e.depth < c.maxDepth then NewEntries(links, visited, e.depth + 1, u) else []),
      s.pages + [Page(u, e.depth, links)],
      s.edges + (if e.referrer.Some? && e.referrer.value != EMPTY_URL then [Edge(e.referrer.value, u)] else []),
      s.errors)
  }

  /** The visits made so far. */
  function Visits(s: State): nat {
    |s.pages| + s.errors
  }

  /** One turn of the loop. */
  function Step(c: Config, w: World, s: State): State
    requires s.queue != []
  {
    var e := s.queue[0];
    var rest := s.queue[1..];
    if !Selected(c, w, s, e) then s.(queue := rest)
    else
      match w.visit(NormaliseUrl(e.url), Visits(s))
      case None => s.(queue := rest, errors := s.errors + 1)
      case Some(links) => Record(c, s, e, rest, links)
  }

  function PagesLeft(c: Config, s: State): nat {
    if |s.pages| < c.maxPages then c.maxPages - |s.pages| else 0
  }

  predicate Done(c: Config, s: State) {
    s.queue == [] || |s.pages| >= c.maxPages
  }

  function Run(c: Config, w: World, s: State): State
    decreases PagesLeft(c, s), |s.queue|
  {
    if Done(c, s) then s else Run(c, w, Step(c, w, s))
  }

  /** The whole crawl. */
  function CrawlResult(c: Config, w: World): State {
    Run(c, w, Init(c))
  }

  // ---------------------------------------------------------------------
  // Invariant of every crawl
  // ---------------------------------------------------------------------

  /** `pages` lists each visited URL once, by non-decreasing depth. */
  ghost predicate Listed(visited: set<Url>, pages: seq<Page>) {
    && (forall i :: 0 <= i < |pages| ==> pages[i].url in visited)
    && (forall u :: u in visited ==> exists i :: 0 <= i < |pages| && pages[i].url == u)
    && (forall i, j :: 0 <= i < j < |pages| ==> pages[i].url != pages[j].url)
    && (forall i, j :: 0 <= i < j < |pages| ==> pages[i].depth <= pages[j].depth)
  }

  ghost predicate PageOk(c: Config, w: World, p: Page) {
    && p.url != EMPTY_URL && NormaliseUrl(p.url) == p.url && PassesFilters(c, w, p.url)
    && p.depth <= c.maxDepth
    && exists n: nat :: w.visit(p.url, n) == Some(p.links)
  }

  ghost predicate PagesOk(c: Config, w: World, s: State) {
    Listed(s.visited, s.pages) && forall i :: 0 <= i < |s.pages| ==> PageOk(c, w, s.pages[i])
  }

  /** Page `j` is where the link to `u` at depth `d` was found. */
  ghost predicate FoundOn(s: State, j: int, from: Url, u: Url, d: int) {
    && 0 <= j < |s.pages|
    && s.pages[j].url == from
    && s.pages[j].depth + 1 == d
    && Mentions(s.pages[j].links, u)
  }

  ghost predicate EntryOk(c: Config, s: State, e: Entry) {
    && e.referrer.Some?
    && e.depth <= c.maxDepth
    && exists j :: FoundOn(s, j, e.referrer.value, NormaliseUrl(e.url), e.depth)
  }

  ghost predicate QueueOk(c: Config, s: State) {
    && (s.pages == [] ==> s.queue == [] || s.queue == [Seed(c)])
    && (s.pages != [] ==> forall i :: 0 <= i < |s.queue| ==> EntryOk(c, s, s.queue[i]))
    && (forall i, j :: 0 <= i < j < |s.queue| ==> s.queue[i].depth <= s.queue[j].depth <= s.queue[i].depth + 1)
    && (forall i, j :: 0 <= i < |s.pages| && 0 <= j < |s.queue| ==> s.pages[i].depth <= s.queue[j].depth)
  }

  /** The edge enters the page along a link found on one of the first `before`
      pages, one level up. */
  ghost predicate HasParent(s: State, edge: Edge, page: Page, before: int) {
    edge.to == page.url &&
    exists j :: j < before && FoundOn(s, j, edge.from, page.url, page.depth)
  }

  /** Edge `i` leads to page `i + 1` from an earlier page one level up. */
  ghost predicate TreeOk(s: State) {
    && |s.edges| == (if s.pages == [] then 0 else |s.pages| - 1)
    && (forall i :: 0 <= i < |s.edges| ==> HasParent(s, s.edges[i], s.pages[i + 1], i + 1))
  }

  ghost predicate Basic(c: Config, w: World, s: State) {
    PagesOk(c, w, s) && QueueOk(c, s) && TreeOk(s)
  }

  lemma {:induction false} EntryStays(c: Config, s: State, t: State, e: Entry)
    requires EntryOk(c, s, e) && s.pages <= t.pages
    ensures EntryOk(c, t, e)
  {
    var j :| FoundOn(s, j, e.referrer.value, NormaliseUrl(e.url), e.depth);
    assert FoundOn(t, j, e.referrer.value, NormaliseUrl(e.url), e.depth);
  }

  lemma {:induction false} ParentStays(s: State, t: State, edge: Edge, page: Page, before: int)
    requires HasParent(s, edge, page, before) && s.pages <= t.pages
    ensures HasParent(t, edge, page, before)
  {
    var j :| j < before && FoundOn(s, j, edge.from, page.url, page.depth);
    assert FoundOn(t, j, edge.from, page.url, page.depth);
  }

  /** Dropping the head of the queue keeps the basic invariant. */
  lemma {:induction false} DropKeepsBasic(c: Config, w: World, s: State, t: State)
    requires Basic(c, w, s) && s.queue != []
    requires t == s.(queue := s.queue[1..], errors := t.errors)
    ensures Basic(c, w, t)
  {
    hide PageOk;
    assert forall i :: 0 <= i < |t.queue| ==> t.queue[i] == s.queue[i + 1];
    forall i | 0 <= i < |t.queue| && t.pages != []
      ensures EntryOk(c, t, t.queue[i])
    {
      EntryStays(c, s, t, s.queue[i + 1]);
    }
    forall i | 0 <= i < |t.edges|
      ensures HasParent(t, t.edges[i], t.pages[i + 1], i + 1)
    {
      ParentStays(s, t, s.edges[i], s.pages[i + 1], i + 1);
    }
  }

  /** `t` is `s` after the head of the queue was visited, with `links` on its page. */
  ghost predicate Recorded(c: Config, w: World, s: State, e: Entry, u: Url, links: seq<Url>, t: State) {
    && s.queue != [] && e == s.queue[0] && u == NormaliseUrl(e.url)
    && u != EMPTY_URL && u !in s.visited && e.depth <= c.maxDepth && PassesFilters(c, w, u)
    && w.visit(u, Visits(s)) == Some(links)
    && t == Record(c, s, e, s.queue[1..], links)
  }

  lemma {:induction false} AppendListed(visited: set<Url>, pages: seq<Page>, p: Page)
    requires Listed(visited, pages) && p.url !in visited
    requires forall i :: 0 <= i < |pages| ==> pages[i].depth <= p.depth
    ensures Listed(visited + {p.url}, pages + [p])
  {
    forall v | v in visited + {p.url}
      ensures exists i :: 0 <= i < |pages + [p]| && (pages + [p])[i].url == v
    {
      if v == p.url {
        assert (pages + [p])[|pages|].url == v;
      } else {
        var i :| 0 <= i < |pages| && pages[i].url == v;
        assert (pages + [p])[i].url == v;
      }
    }
  }

  lemma {:induction false} RecordKeepsPages(c: Config, w: World, s: State, e: Entry, u: Url, links: seq<Url>, t: State)
    requires PagesOk(c, w, s) && QueueOk(c, s) && Recorded(c, w, s, e, u, links, t)
    ensures PagesOk(c, w, t)
  {
    hide PassesFilters;
    AppendListed(s.visited, s.pages, Page(u, e.depth, links));
    assert forall i :: 0 <= i < |s.pages| ==> t.pages[i] == s.pages[i];
    assert PageOk(c, w, Page(u, e.depth, links));
  }

  lemma {:induction false} RecordKeepsTree(c: Config, w: World, s: State, e: Entry, u: Url, links: seq<Url>, t: State)
    requires Recorded(c, w, s, e, u, links, t) && TreeOk(s)
    requires s.pages == [] ==> e == Seed(c)
    requires s.pages != [] ==> EntryOk(c, s, e) && e.referrer.value != EMPTY_URL
    ensures TreeOk(t)
  {
    hide PassesFilters;
    forall i | 0 <= i < |t.edges|
      ensures HasParent(t, t.edges[i], t.pages[i + 1], i + 1)
    {
      if i < |s.edges| {
        ParentStays(s, t, s.edges[i], s.pages[i + 1], i + 1);
      } else {
        var j :| FoundOn(s, j, e.referrer.value, u, e.depth);
        assert FoundOn(t, j, t.edges[i].from, t.pages[i + 1].url, t.pages[i + 1].depth);
      }
    }
  }

  ghost predicate AddedFor(c: Config, e: Entry, u: Url, links: seq<Url>, x: Entry) {
    x.url in links && x.referrer == Some(u) && x.depth == e.depth + 1 <= c.maxDepth
  }

  lemma {:induction false} RecordKeepsOrder(queue: seq<Entry>, added: seq<Entry>, d: int)
    requires queue != [] && queue[0].depth == d
    requires forall i, j :: 0 <= i < j < |queue| ==> queue[i].depth <= queue[j].depth <= queue[i].depth + 1
    requires forall i :: 0 <= i < |added| ==> added[i].depth == d + 1
    ensures var q := queue[1..] + added;
      forall i, j :: 0 <= i < j < |q| ==> q[i].depth <= q[j].depth <= q[i].depth + 1
  {
    var q := queue[1..] + added;
    forall i | 0 <= i < |q|
      ensures d <= q[i].depth <= d + 1
    {
      assert i < |queue| - 1 ==> q[i] == queue[i + 1];
    }
  }

  lemma {:induction false} RecordKeepsQueue(c: Config, w: World, s: State, e: Entry, u: Url, links: seq<Url>, t: State, added: seq<Entry>)
    requires Recorded(c, w, s, e, u, links, t) && QueueOk(c, s)
    requires t.queue == s.queue[1..] + added
    requires forall i :: 0 <= i < |added| ==> AddedFor(c, e, u, links, added[i])
    ensures QueueOk(c, t)
  {
    hide PassesFilters;
    RecordKeepsOrder(s.queue, added, e.depth);
    forall i | 0 <= i < |t.queue|
      ensures EntryOk(c, t, t.queue[i]) && e.depth <= t.queue[i].depth
    {
      if i < |s.queue| - 1 {
        assert t.queue[i] == s.queue[i + 1];
        EntryStays(c, s, t, s.queue[i + 1]);
      } else {
        var x := added[i - (|s.queue| - 1)];
        assert t.queue[i] == x && AddedFor(c, e, u, links, x);
        assert Mentions(links, NormaliseUrl(x.url));
        assert FoundOn(t, |s.pages|, u, NormaliseUrl(x.url), x.depth);
      }
    }
    forall i | 0 <= i < |t.pages|
      ensures t.pages[i].depth <= e.depth
    {
      assert i < |s.pages| ==> t.pages[i] == s.pages[i];
    }
  }

  lemma {:induction false} ReferrerIsPage(c: Config, w: World, s: State, e: Entry)
    requires PagesOk(c, w, s) && EntryOk(c, s, e)
    ensures e.referrer.value != EMPTY_URL
  {
    var j :| FoundOn(s, j, e.referrer.value, NormaliseUrl(e.url), e.depth);
    assert PageOk(c, w, s.pages[j]);
  }

  lemma {:induction false} RecordKeepsBasic(c: Config, w: World, s: State, e: Entry, u: Url, links: seq<Url>, t: State)
    requires Basic(c, w, s) && Recorded(c, w, s, e, u, links, t)
    ensures Basic(c, w, t)
  {
    hide EntryOk;
    hide TreeOk;
    hide PagesOk;
    hide PassesFilters;
    if s.pages != [] {
      assert EntryOk(c, s, s.queue[0]);
      ReferrerIsPage(c, w, s, e);
    }
    RecordKeepsPages(c, w, s, e, u, links, t);
    var added := if e.depth < c.maxDepth then NewEntries(links, t.visited, e.depth + 1, u) else [];
    assert t.queue == s.queue[1..] + added;
    RecordKeepsQueue(c, w, s, e, u, links, t, added);
    RecordKeepsTree(c, w, s, e, u, links, t);
  }

  /** One turn of the loop, whatever the visit does. */
  lemma {:induction false} StepKeepsBasic(c: Config, w: World, s: State)
    requires Basic(c, w, s) && s.queue != []
    ensures Basic(c, w, Step(c, w, s))
  {
    hide Basic;
    hide PassesFilters;
    var t := Step(c, w, s);
    var e := s.queue[0];
    var u := NormaliseUrl(e.url);
    if Selected(c, w, s, e) && w.visit(u, Visits(s)).Some? {
      RecordKeepsBasic(c, w, s, e, u, w.visit(u, Visits(s)).value, t);
    } else {
      DropKeepsBasic(c, w, s, t);
    }
  }

  lemma {:induction false} RunKeepsBasic(c: Config, w: World, s: State)
    requires Basic(c, w, s)
    ensures Basic(c, w, Run(c, w, s)) && Done(c, Run(c, w, s))
    decreases PagesLeft(c, s), |s.queue|
  {
    hide Basic;
    if !Done(c, s) {
      StepKeepsBasic(c, w, s);
      RunKeepsBasic(c, w, Step(c, w, s));
    }
  }

  lemma {:induction false} InitBasic(c: Config, w: World)
    ensures Basic(c, w, Init(c))
  {
  }

  // ---------------------------------------------------------------------
  // Invariant of a crawl of a steady site
  // ---------------------------------------------------------------------

  ghost predicate Settled(c: Config, w: World, s: State, u: Url, d: int) {
    || !Good(c, w, u)
    || u in s.visited
    || exists i :: 0 <= i < |s.queue| && NormaliseUrl(s.queue[i].url) == u && s.queue[i].depth <= d
  }

  /** Nothing reachable has been forgotten. */
  ghost predicate Covered(c: Config, w: World, s: State) {
    && (0 <= c.maxDepth ==> Settled(c, w, s, NormaliseUrl(c.target), 0))
    && (forall j, u :: 0 <= j < |s.pages| && s.pages[j].depth < c.maxDepth && Mentions(s.pages[j].links, u) ==>
          Settled(c, w, s, u, s.pages[j].depth + 1))
  }

  ghost predicate AtDistance(c: Config, w: World, p: Page) {
    Distance(c, w, p.url, p.depth) && w.visit(p.url, 0) == Some(p.links)
  }

  ghost predicate AllAtDistance(c: Config, w: World, s: State) {
    forall i :: 0 <= i < |s.pages| ==> AtDistance(c, w, s.pages[i])
  }

  ghost predicate Inv(c: Config, w: World, s: State) {
    Basic(c, w, s) && AllAtDistance(c, w, s) && Covered(c, w, s)
  }

  lemma WalkIsGood(c: Config, w: World, u: Url, n: nat)
    requires Walk(c, w, u, n)
    ensures Good(c, w, u)
  {
  }

  /** Every good page nearer than the queue has been visited. */
  lemma {:induction false} NearerVisited(c: Config, w: World, s: State, u: Url, m: nat)
    requires Inv(c, w, s) && Walk(c, w, u, m) && m <= c.maxDepth
    requires s.queue == [] || m < s.queue[0].depth
    ensures u in s.visited
    decreases m
  {
    hide TreeOk;
    hide EntryOk;
    hide PageOk;
    hide Good;
    assert Good(c, w, u) by {
      WalkIsGood(c, w, u, m);
    }
    if m == 0 {
      assert Settled(c, w, s, u, 0);
    } else {
      var v :| Walk(c, w, v, m - 1) && LinksTo(w, v, u);
      NearerVisited(c, w, s, v, m - 1);
      var j :| 0 <= j < |s.pages| && s.pages[j].url == v;
      assert AtDistance(c, w, s.pages[j]);
      assert s.pages[j].depth <= m - 1;
      assert Settled(c, w, s, u, s.pages[j].depth + 1);
    }
  }

  /** A queued URL that can be visited is reached by a walk of its queued length. */
  lemma {:induction false} EntryWalk(c: Config, w: World, s: State, e: Entry, u: Url)
    requires AllAtDistance(c, w, s) && EntryOk(c, s, e) && u == NormaliseUrl(e.url) && Good(c, w, u)
    ensures 0 <= e.depth && Walk(c, w, u, e.depth)
  {
    var j :| FoundOn(s, j, e.referrer.value, u, e.depth);
    assert AtDistance(c, w, s.pages[j]);
    assert Walk(c, w, s.pages[j].url, e.depth - 1) && LinksTo(w, s.pages[j].url, u);
  }

  /** The head of the queue, when good and unvisited, sits at its true distance. */
  lemma {:induction false} HeadDistance(c: Config, w: World, s: State, e: Entry, u: Url)
    requires Inv(c, w, s) && s.queue != [] && e == s.queue[0] && u == NormaliseUrl(e.url)
    requires Good(c, w, u) && u !in s.visited && e.depth <= c.maxDepth
    ensures Distance(c, w, u, e.depth)
  {
    hide Covered;
    hide TreeOk;
    hide PageOk;
    hide AtDistance;
    if s.pages != [] {
      assert EntryOk(c, s, s.queue[0]);
      EntryWalk(c, w, s, e, u);
    }
    forall m: nat | m < e.depth
      ensures !Walk(c, w, u, m)
    {
      if Walk(c, w, u, m) {
        NearerVisited(c, w, s, u, m);
      }
    }
  }

  lemma {:induction false} DropSettled(c: Config, w: World, s: State, t: State, u: Url, d: int)
    requires s.queue != [] && t == s.(queue := s.queue[1..], errors := t.errors)
    requires !(Selected(c, w, s, s.queue[0]) && w.visit(NormaliseUrl(s.queue[0].url), 0).Some?)
    requires Settled(c, w, s, u, d) && d <= c.maxDepth
    ensures Settled(c, w, t, u, d)
  {
    if Good(c, w, u) && u !in s.visited {
      var i :| 0 <= i < |s.queue| && NormaliseUrl(s.queue[i].url) == u && s.queue[i].depth <= d;
      assert i != 0;
      assert t.queue[i - 1] == s.queue[i];
    }
  }

  /** Dropping a head that can never be visited forgets nothing. */
  lemma {:induction false} DropKeepsCover(c: Config, w: World, s: State, t: State)
    requires Covered(c, w, s) && s.queue != []
    requires t == s.(queue := s.queue[1..], errors := t.errors)
    requires !(Selected(c, w, s, s.queue[0]) && w.visit(NormaliseUrl(s.queue[0].url), 0).Some?)
    ensures Covered(c, w, t)
  {
    hide Good;
    hide Selected;
    forall u, d | Settled(c, w, s, u, d) && d <= c.maxDepth
      ensures Settled(c, w, t, u, d)
    {
      DropSettled(c, w, s, t, u, d);
    }
  }

  lemma {:induction false} RecordSettled(c: Config, w: World, s: State, e: Entry, u: Url, links: seq<Url>, t: State, v: Url, d: int)
    requires Recorded(c, w, s, e, u, links, t)
    requires Settled(c, w, s, v, d)
    ensures Settled(c, w, t, v, d)
  {
    if Good(c, w, v) && v !in t.visited {
      var i :| 0 <= i < |s.queue| && NormaliseUrl(s.queue[i].url) == v && s.queue[i].depth <= d;
      assert t.queue[i - 1] == s.queue[i];
    }
  }

  /** A link of the page just recorded is visited, dead, or queued one level down. */
  lemma {:induction false} NewLinkSettled(c: Config, w: World, s: State, e: Entry, u: Url, links: seq<Url>, t: State, l: Url)
    requires Recorded(c, w, s, e, u, links, t) && e.depth < c.maxDepth && l in links
    requires forall v :: v in s.visited ==> NormaliseUrl(v) == v
    ensures Settled(c, w, t, NormaliseUrl(l), e.depth + 1)
  {
    if l !in t.visited {
      var added := NewEntries(links, t.visited, e.depth + 1, u);
      assert Entry(l, e.depth + 1, Some(u)) in added;
      var k :| 0 <= k < |added| && added[k] == Entry(l, e.depth + 1, Some(u));
      assert t.queue[|s.queue| - 1 + k] == added[k];
    }
  }

  lemma {:induction false} RecordKeepsCover(c: Config, w: World, s: State, e: Entry, u: Url, links: seq<Url>, t: State)
    requires Recorded(c, w, s, e, u, links, t) && Covered(c, w, s)
    requires forall v :: v in s.visited ==> NormaliseUrl(v) == v
    ensures Covered(c, w, t)
  {
    hide Good;
    hide PassesFilters;
    forall v, d | Settled(c, w, s, v, d)
      ensures Settled(c, w, t, v, d)
    {
      RecordSettled(c, w, s, e, u, links, t, v, d);
    }
    forall j, v | 0 <= j < |t.pages| && t.pages[j].depth < c.maxDepth && Mentions(t.pages[j].links, v)
      ensures Settled(c, w, t, v, t.pages[j].depth + 1)
    {
      if j == |s.pages| {
        var k :| 0 <= k < |links| && NormaliseUrl(links[k]) == v;
        NewLinkSettled(c, w, s, e, u, links, t, links[k]);
      } else {
        assert t.pages[j] == s.pages[j];
      }
    }
  }

  lemma {:induction false} VisitedIsNormal(c: Config, w: World, s: State)
    requires PagesOk(c, w, s)
    ensures forall v :: v in s.visited ==> NormaliseUrl(v) == v
  {
    forall v | v in s.visited
      ensures NormaliseUrl(v) == v
    {
      var i :| 0 <= i < |s.pages| && s.pages[i].url == v;
      assert PageOk(c, w, s.pages[i]);
    }
  }

  lemma BasicPages(c: Config, w: World, s: State)
    requires Basic(c, w, s)
    ensures PagesOk(c, w, s)
  {
  }

  lemma {:induction false} RecordKeepsInv(c: Config, w: World, s: State, e: Entry, u: Url, links: seq<Url>, t: State)
    requires Steady(w) && Inv(c, w, s) && Recorded(c, w, s, e, u, links, t)
    ensures Inv(c, w, t)
  {
    hide Distance;
    hide Covered;
    hide Basic;
    hide PassesFilters;
    assert w.visit(u, 0) == w.visit(u, Visits(s)) == Some(links);
    assert Good(c, w, u);
    HeadDistance(c, w, s, e, u);
    RecordKeepsBasic(c, w, s, e, u, links, t);
    assert PagesOk(c, w, s) by {
      BasicPages(c, w, s);
    }
    VisitedIsNormal(c, w, s);
    RecordKeepsCover(c, w, s, e, u, links, t);
    assert AtDistance(c, w, Page(u, e.depth, links));
    assert forall i :: 0 <= i < |s.pages| ==> t.pages[i] == s.pages[i];
  }

  lemma {:induction false} StepKeepsInv(c: Config, w: World, s: State)
    requires Steady(w) && Inv(c, w, s) && s.queue != []
    ensures Inv(c, w, Step(c, w, s))
  {
    hide Basic;
    hide Covered;
    hide AtDistance;
    hide PassesFilters;
    var t := Step(c, w, s);
    var e := s.queue[0];
    var u := NormaliseUrl(e.url);
    assert w.visit(u, 0) == w.visit(u, Visits(s));
    StepKeepsBasic(c, w, s);
    if Selected(c, w, s, e) && w.visit(u, Visits(s)).Some? {
      RecordKeepsInv(c, w, s, e, u, w.visit(u, Visits(s)).value, t);
    } else {
      DropKeepsCover(c, w, s, t);
    }
  }

  lemma {:induction false} InitInv(c: Config, w: World)
    ensures Inv(c, w, Init(c))
  {
    var s := Init(c);
    assert NormaliseUrl(s.queue[0].url) == NormaliseUrl(c.target);
  }

  lemma {:induction false} RunKeepsInv(c: Config, w: World, s: State)
    requires Steady(w) && Inv(c, w, s)
    ensures Inv(c, w, Run(c, w, s)) && Done(c, Run(c, w, s))
    decreases PagesLeft(c, s), |s.queue|
  {
    hide Inv;
    hide Steady;
    if !Done(c, s) {
      StepKeepsInv(c, w, s);
      RunKeepsInv(c, w, Step(c, w, s));
    }
  }

  // ---------------------------------------------------------------------
  // What a crawl delivers
  // ---------------------------------------------------------------------

  /** Every page is recorded once, as one of its visits showed it, shallower
      pages first, even when failed URLs are tried again with another outcome. */
  lemma {:induction false} PagesAreVisitedOnce(c: Config, w: World)
    ensures var s := CrawlResult(c, w);
      && s.visited == (set i | 0 <= i < |s.pages| :: s.pages[i].url)
      && (forall i, j :: 0 <= i < j < |s.pages| ==>
            s.pages[i].url != s.pages[j].url && s.pages[i].depth <= s.pages[j].depth)
      && (forall i :: 0 <= i < |s.pages| ==> PageOk(c, w, s.pages[i]))
  {
    InitBasic(c, w);
    RunKeepsBasic(c, w, Init(c));
  }

  /** A URL is permitted when no exclude pattern matches it, its host is the
      target's if it has to be, and some include pattern matches it if there are any. */
  lemma PermittedIff(c: Config, w: World, u: Url)
    ensures PassesFilters(c, w, u)
       <==> && (forall k :: 0 <= k < |c.excludePatterns| ==> w.search(c.excludePatterns[k], u) != Match)
            && (c.sameOriginOnly ==> u.netloc == c.target.netloc)
            && (c.includePatterns != [] ==> exists k :: 0 <= k < |c.includePatterns| && w.search(c.includePatterns[k], u) == Match)
  {
  }

  /** Recorded URLs have a scheme and no fragment, are permitted and within the
      depth limit, and no two of them differ in the fragment alone. */
  lemma {:induction false} PagesAreCanonical(c: Config, w: World)
    ensures var pages := CrawlResult(c, w).pages;
      && (forall i :: 0 <= i < |pages| ==>
            && pages[i].url.scheme != "" && pages[i].url.fragment == "" && pages[i].depth <= c.maxDepth
            && (forall k :: 0 <= k < |c.excludePatterns| ==> w.search(c.excludePatterns[k], pages[i].url) != Match)
            && (c.sameOriginOnly ==> pages[i].url.netloc == c.target.netloc)
            && (c.includePatterns != [] ==>
                  exists k :: 0 <= k < |c.includePatterns| && w.search(c.includePatterns[k], pages[i].url) == Match))
      && (forall i, j :: 0 <= i < j < |pages| ==>
            || pages[i].url.scheme != pages[j].url.scheme
            || pages[i].url.netloc != pages[j].url.netloc
            || pages[i].url.rest != pages[j].url.rest)
  {
    hide CrawlResult;
    hide PassesFilters;
    PagesAreVisitedOnce(c, w);
    var pages := CrawlResult(c, w).pages;
    forall i | 0 <= i < |pages|
      ensures pages[i].url.scheme != "" && pages[i].url.fragment == "" && PassesFilters(c, w, pages[i].url)
    {
      assert PageOk(c, w, pages[i]);
      PermittedIff(c, w, pages[i].url);
    }
    forall i | 0 <= i < |pages|
      ensures pages[i].depth <= c.maxDepth
      ensures forall k :: 0 <= k < |c.excludePatterns| ==> w.search(c.excludePatterns[k], pages[i].url) != Match
      ensures c.sameOriginOnly ==> pages[i].url.netloc == c.target.netloc
      ensures c.includePatterns != [] ==>
                exists k :: 0 <= k < |c.includePatterns| && w.search(c.includePatterns[k], pages[i].url) == Match
    {
      assert PageOk(c, w, pages[i]);
      PermittedIff(c, w, pages[i].url);
    }
  }

  /** On a steady site every page is recorded at its shortest distance from the seed. */
  lemma {:induction false} PagesAtShortestDistance(c: Config, w: World)
    requires Steady(w)
    ensures var s := CrawlResult(c, w);
      && s.visited == (set i | 0 <= i < |s.pages| :: s.pages[i].url)
      && (forall i, j :: 0 <= i < j < |s.pages| ==>
            s.pages[i].url != s.pages[j].url && s.pages[i].depth <= s.pages[j].depth)
      && (forall i :: 0 <= i < |s.pages| ==>
            Distance(c, w, s.pages[i].url, s.pages[i].depth) && s.pages[i].depth <= c.maxDepth)
  {
    InitInv(c, w);
    RunKeepsInv(c, w, Init(c));
    PagesAreVisitedOnce(c, w);
  }

  /** A crawl that stops short of the page limit has visited exactly the good
      pages within the depth limit. */
  lemma {:induction false} CompleteBelowLimit(c: Config, w: World, u: Url)
    requires Steady(w) && |CrawlResult(c, w).pages| < c.maxPages
    ensures u in CrawlResult(c, w).visited <==> exists n: nat :: n <= c.maxDepth && Walk(c, w, u, n)
  {
    InitInv(c, w);
    RunKeepsInv(c, w, Init(c));
    var s := CrawlResult(c, w);
    if n: nat :| n <= c.maxDepth && Walk(c, w, u, n) {
      NearerVisited(c, w, s, u, n);
    }
    if u in s.visited {
      var i :| 0 <= i < |s.pages| && s.pages[i].url == u;
      assert AtDistance(c, w, s.pages[i]) && PageOk(c, w, s.pages[i]);
      assert Walk(c, w, u, s.pages[i].depth);
    }
  }

  /** On a steady site, below the page limit: the target without its fragment is
      visited if it is permitted and can be visited. */
  lemma {:induction false} TargetIsVisited(c: Config, w: World)
    requires Steady(w) && |CrawlResult(c, w).pages| < c.maxPages && 0 <= c.maxDepth
    requires var u := c.target.(fragment := ""); u.scheme != "" && PassesFilters(c, w, u) && w.visit(u, 0).Some?
    ensures c.target.(fragment := "") in CrawlResult(c, w).visited
  {
    hide CrawlResult;
    hide Steady;
    assert Walk(c, w, c.target.(fragment := ""), 0);
    CompleteBelowLimit(c, w, c.target.(fragment := ""));
  }

  /** So is every link found on a recorded page above the depth limit. */
  lemma {:induction false} LinkIsVisited(c: Config, w: World, j: nat, l: Url)
    requires Steady(w) && |CrawlResult(c, w).pages| < c.maxPages && j < |CrawlResult(c, w).pages|
    requires var page := CrawlResult(c, w).pages[j]; page.depth < c.maxDepth && l in page.links
    requires var u := l.(fragment := ""); l.scheme != "" && PassesFilters(c, w, u) && w.visit(u, 0).Some?
    ensures l.(fragment := "") in CrawlResult(c, w).visited
  {
    InitInv(c, w);
    RunKeepsInv(c, w, Init(c));
    hide CrawlResult;
    hide Steady;
    hide PassesFilters;
    hide Basic;
    hide Covered;
    var page, u := CrawlResult(c, w).pages[j], l.(fragment := "");
    assert AtDistance(c, w, page);
    assert Mentions(page.links, u);
    assert Walk(c, w, page.url, page.depth) && LinksTo(w, page.url, u);
    assert Walk(c, w, u, page.depth + 1);
    CompleteBelowLimit(c, w, u);
  }

  /** A crawl that reaches the limit still visits nearest pages first: everything
      strictly nearer than the last recorded page has been recorded. */
  lemma {:induction false} NearerPagesComeFirst(c: Config, w: World, u: Url, n: nat)
    requires Steady(w)
    requires var s := CrawlResult(c, w); s.pages != [] && n < s.pages[|s.pages| - 1].depth
    requires Walk(c, w, u, n)
    ensures u in CrawlResult(c, w).visited
  {
    InitInv(c, w);
    RunKeepsInv(c, w, Init(c));
    var s := CrawlResult(c, w);
    var last := |s.pages| - 1;
    assert PageOk(c, w, s.pages[last]);
    assert s.queue != [] ==> s.pages[last].depth <= s.queue[0].depth;
    NearerVisited(c, w, s, u, n);
  }

  lemma {:induction false} RunExtends(c: Config, w: World, s: State)
    ensures s.pages <= Run(c, w, s).pages && s.edges <= Run(c, w, s).edges
    decreases PagesLeft(c, s), |s.queue|
  {
    if !Done(c, s) {
      RunExtends(c, w, Step(c, w, s));
    }
  }

  /** While nothing is recorded only the seed can be queued, so it comes first. */
  lemma {:induction false} FirstPageIsSeed(c: Config, w: World)
    requires CrawlResult(c, w).pages != []
    ensures var first := CrawlResult(c, w).pages[0]; first.url == c.target.(fragment := "") && first.depth == 0
  {
    var s := Step(c, w, Init(c));
    assert CrawlResult(c, w) == if Done(c, Init(c)) then Init(c) else Run(c, w, s);
    assert s.pages == [] ==> s.queue == [];
    RunExtends(c, w, s);
  }

  /** The flow graph is a tree on the visited pages, rooted at the first one:
      one edge fewer than pages, and each later page is entered by exactly one
      edge, along a link found on an earlier page exactly one level up. */
  lemma {:induction false} FlowGraphIsTree(c: Config, w: World)
    ensures var s := CrawlResult(c, w);
      && |s.edges| == (if s.pages == [] then 0 else |s.pages| - 1)
      && (forall i, k :: 0 <= i < |s.edges| && 0 <= k < |s.pages| ==>
            (s.edges[i].to == s.pages[k].url <==> k == i + 1))
      && (forall i :: 0 <= i < |s.edges| ==> HasParent(s, s.edges[i], s.pages[i + 1], i + 1))
      && (s.pages != [] ==> s.pages[0].url == c.target.(fragment := "") && s.pages[0].depth == 0)
  {
    hide PageOk;
    InitBasic(c, w);
    RunKeepsBasic(c, w, Init(c));
    var s := CrawlResult(c, w);
    if s.pages != [] {
      FirstPageIsSeed(c, w);
    }
  }

  /** Each edge comes from an earlier page, one level up, that shows a link to the
      page it enters, give or take the fragment. */
  lemma {:induction false} EdgeFollowsLink(c: Config, w: World, i: nat)
    requires i < |CrawlResult(c, w).edges|
    ensures var s := CrawlResult(c, w);
      && i + 1 < |s.pages| && s.edges[i].to == s.pages[i + 1].url
      && exists j, l :: 0 <= j <= i && l in s.pages[j].links && s.edges[i].from == s.pages[j].url
                        && s.pages[j].depth + 1 == s.pages[i + 1].depth && l.(fragment := "") == s.pages[i + 1].url
  {
    hide CrawlResult;
    FlowGraphIsTree(c, w);
    PagesAreCanonical(c, w);
    var s := CrawlResult(c, w);
    var page := s.pages[i + 1];
    assert HasParent(s, s.edges[i], page, i + 1);
    var j :| j < i + 1 && FoundOn(s, j, s.edges[i].from, page.url, page.depth);
    var k :| 0 <= k < |s.pages[j].links| && NormaliseUrl(s.pages[j].links[k]) == page.url;
    assert s.pages[j].links[k] in s.pages[j].links && s.pages[j].links[k].(fragment := "") == page.url;
  }

  /** One turn of the loop in full: what is dropped, what fails, what is recorded. */
  lemma {:induction false} Turn(c: Config, w: World, s: State)
    requires s.queue != []
    ensures var e, t := s.queue[0], Step(c, w, s);
      var u := e.url.(fragment := "");
      var outcome := w.visit(u, |s.pages| + s.errors);
      if e.url.scheme == "" || u in s.visited || e.depth > c.maxDepth || !PassesFilters(c, w, u) then t == s.(queue := s.queue[1..])
      else if outcome == None then t == s.(queue := s.queue[1..], errors := s.errors + 1)
      else
        && t.visited == s.visited + {u} && t.errors == s.errors
        && t.pages == s.pages + [Page(u, e.depth, outcome.value)]
        && t.edges == s.edges + (if e.referrer in {None, Some(EMPTY_URL)} then [] else [Edge(e.referrer.value, u)])
        && (e.depth >= c.maxDepth ==> t.queue == s.queue[1..])
        && (e.depth < c.maxDepth ==> t.queue == s.queue[1..] + NewEntries(outcome.value, s.visited + {u}, e.depth + 1, u))
  {
    hide PassesFilters;
    hide NewEntries;
  }

  /** The entries are those of the links not visited, in the order of the page. */
  lemma NewEntriesAre(links: seq<Url>, l: Url, visited: set<Url>, depth: int, from: Url)
    ensures NewEntries([], visited, depth, from) == []
    ensures NewEntries(links + [l], visited, depth, from)
         == NewEntries(links, visited, depth, from) + if l in visited then [] else [Entry(l, depth, Some(from))]
  {
    assert (links + [l])[..|links|] == links;
  }

  lemma {:induction false} SameStep(c: Config, c': Config, w: World, s: State)
    requires s.queue != [] && c' == c.(maxPages := c'.maxPages)
    ensures Step(c, w, s) == Step(c', w, s)
  {
    var u := NormaliseUrl(s.queue[0].url);
    assert PassesFilters(c, w, u) == PassesFilters(c', w, u);
  }

  lemma {:induction false} RunPrefix(c: Config, w: World, fewer: int, s: State)
    requires fewer <= c.maxPages
    ensures Run(c.(maxPages := fewer), w, s).pages <= Run(c, w, s).pages
    ensures Run(c.(maxPages := fewer), w, s).edges <= Run(c, w, s).edges
    decreases PagesLeft(c, s), |s.queue|
  {
    var c' := c.(maxPages := fewer);
    if Done(c', s) {
      RunExtends(c, w, s);
    } else {
      SameStep(c, c', w, s);
      RunPrefix(c, w, fewer, Step(c, w, s));
    }
  }

  /** A smaller page limit yields a prefix of the pages and of the edges. */
  lemma {:induction false} SmallerLimitGivesPrefix(c: Config, w: World, fewer: int)
    requires fewer <= c.maxPages
    ensures CrawlResult(c.(maxPages := fewer), w).pages <= CrawlResult(c, w).pages
    ensures CrawlResult(c.(maxPages := fewer), w).edges <= CrawlResult(c, w).edges
  {
    RunPrefix(c, w, fewer, Init(c));
  }

  // ---------------------------------------------------------------------
  // The crawler object
  // ---------------------------------------------------------------------

  /** The scan shared by the exclude and the include filter. */
  method ScanPatterns(w: World, patterns: seq<string>, u: Url) returns (found: bool)
    ensures found <==> MatchesAny(w, patterns, u)
  {
    for i := 0 to |patterns|
      invariant forall k :: 0 <= k < i ==> w.search(patterns[k], u) != Match
    {
      if w.search(patterns[i], u) == Match {
        return true;
      }
    }
    return false;
  }

  /** The termination measure: pages left, then queue length. Failed URLs may be
      retried, but each turn records a page or shortens the queue. */
  lemma StepDecreases(c: Config, w: World, s: State)
    requires !Done(c, s)
    ensures var t := Step(c, w, s);
      PagesLeft(c, t) < PagesLeft(c, s) || (PagesLeft(c, t) == PagesLeft(c, s) && |t.queue| < |s.queue|)
    ensures Run(c, w, s) == Run(c, w, Step(c, w, s))
  {
  }

  class WebUICrawler {
    const config: Config
    const world: World
    var visited: set<Url>
    var queue: seq<Entry>
    var pages: seq<Page>
    var flowGraph: seq<Edge>
    var errorCount: nat

    constructor (config: Config, world: World)
      ensures this.config == config && this.world == world
      ensures visited == {} && queue == [] && pages == [] && flowGraph == [] && errorCount == 0
    {
      this.config, this.world := config, world;
      visited, queue, pages, flowGraph, errorCount := {}, [], [], [], 0;
    }

    ghost function Snapshot(): State
      reads this
    {
      State(visited, queue, pages, flowGraph, errorCount)
    }

    /** The filters in the order the loop tries them. */
    method Wanted(u: Url, depth: int) returns (ok: bool)
      ensures ok <==> u != EMPTY_URL && u !in visited && depth <= config.maxDepth && PassesFilters(config, world, u)
    {
      if u == EMPTY_URL || u in visited || depth > config.maxDepth {
        return false;
      }
      var excluded := ScanPatterns(world, config.excludePatterns, u);
      if excluded || (config.sameOriginOnly && !SameOrigin(u, config.target)) {
        return false;
      }
      if config.includePatterns != [] {
        ok := ScanPatterns(world, config.includePatterns, u);
      } else {
        ok := true;
      }
    }

    method Enqueue(links: seq<Url>, depth: int, from: Url)
      modifies this`queue
      ensures queue == old(queue) + NewEntries(links, visited, depth, from)
    {
      for i := 0 to |links|
        invariant queue == old(queue) + NewEntries(links[..i], visited, depth, from)
      {
        assert links[..i + 1][..i] == links[..i];
        if links[i] !in visited {
          queue := queue + [Entry(links[i], depth, Some(from))];
        }
      }
      assert links[..|links|] == links;
    }

    /** The body of the loop: take the next URL off the queue and deal with it. */
    method VisitNext()
      requires queue != []
      modifies this
      ensures Snapshot() == Step(config, world, old(Snapshot()))
    {
      hide PassesFilters;
      hide NewEntries;
      hide NormaliseUrl;
      var entry := queue[0];
      queue := queue[1..];
      var url := NormaliseUrl(entry.url);
      var wanted := Wanted(url, entry.depth);
      if wanted {
        var outcome := world.visit(url, |pages| + errorCount);
        if outcome.Some? {
          visited := visited + {url};
          pages := pages + [Page(url, entry.depth, outcome.value)];
          if entry.referrer.Some? && entry.referrer.value != EMPTY_URL {
            flowGraph := flowGraph + [Edge(entry.referrer.value, url)];
          }
          if entry.depth < config.maxDepth {
            Enqueue(outcome.value, entry.depth + 1, url);
          }
        } else {
          errorCount := errorCount + 1;
        }
      }
    }

    /** Runs the crawl of a fresh crawler. */
    method Crawl()
      requires Snapshot() == State({}, [], [], [], 0)
      modifies this
      ensures Snapshot() == CrawlResult(config, world)
    {
      queue := queue + [Entry(config.target, 0, None)];
      assert Snapshot() == Init(config);
      while queue != [] && |pages| < config.maxPages
        invariant Run(config, world, Snapshot()) == CrawlResult(config, world)
        decreases PagesLeft(config, Snapshot()), |queue|
      {
        StepDecreases(config, world, Snapshot());
        VisitNext();
      }
    }
  }
}
