/** The SAP Fiori crawler: tiles of a launchpad, and the views inside each app.

    What the browser does is given: every attempt either raises, finds nothing,
    or opens a page. Exceptions inside an app are swallowed one attempt at a time. */
module SapCrawler {
  type Url = string

  datatype Page = Page(url: Url, depth: nat)
  datatype Edge = Edge(from: Url, to: Url)

  /** A discovered page with the edge recorded for it. */
  datatype View = View(page: Page, edge: Edge)

  function Pages(views: seq<View>): (pages: seq<Page>)
    ensures |pages| == |views|
  {
    seq(|views|, i requires 0 <= i < |views| => views[i].page)
  }

  function Edges(views: seq<View>): (edges: seq<Edge>)
    ensures |edges| == |views|
  {
    seq(|views|, i requires 0 <= i < |views| => views[i].edge)
  }

  lemma ListsAppend(a: seq<View>, b: seq<View>)
    ensures Pages(a + b) == Pages(a) + Pages(b) && Edges(a + b) == Edges(a) + Edges(b)
  {
  }

  lemma OneView(v: View)
    ensures Pages([v]) == [v.page] && Edges([v]) == [v.edge]
  {
  }

  const ROW_SELECTORS := 5
  const CREATE_TEXTS := 5
  const EDIT_TEXTS := 3

  /** One label tried for the edit button of a detail page. */
  datatype EditAttempt = NoEditButton | EditRaises | EditOpened(url: Url)

  /** One selector tried for the first row of a list: the click leads to `url`,
      which may still be the list's. `backRaises` says whether going back to the
      list fails afterwards. */
  datatype RowAttempt = NoRow | RowRaises | RowClicked(url: Url, edits: seq<EditAttempt>, backRaises: bool)

  /** One label tried for the create button. */
  datatype CreateAttempt = NoCreateButton | CreateRaises | CreateClicked(url: Url, backRaises: bool)

  datatype PageType = LIST | FORM | OTHER

  /** A tile either raises before anything is recorded, or opens its app. */
  datatype TileVisit = TileRaises | AppOpened(url: Url, pageType: PageType, rows: seq<RowAttempt>, creates: seq<CreateAttempt>)

  predicate RowOk(r: RowAttempt) {
    r.RowClicked? ==> |r.edits| == EDIT_TEXTS
  }

  /** There is one attempt for each selector and label. */
  predicate VisitOk(v: TileVisit) {
    v.AppOpened? ==>
      |v.rows| == ROW_SELECTORS && |v.creates| == CREATE_TEXTS && forall i :: 0 <= i < |v.rows| ==> RowOk(v.rows[i])
  }

  // ---------------------------------------------------------------------
  // The views an app yields
  // ---------------------------------------------------------------------

  function EditViews(detailUrl: Url, edits: seq<EditAttempt>): seq<View> {
    if edits == [] then []
    else if edits[0].EditOpened? then [View(Page(edits[0].url, 3), Edge(detailUrl, edits[0].url))]
    else EditViews(detailUrl, edits[1..])
  }

  function RowViews(listUrl: Url, rows: seq<RowAttempt>): seq<View> {
    if rows == [] then []
    else
      match rows[0]
      case RowClicked(url, edits, backRaises) =>
        if url == listUrl then []
        else
          [View(Page(url, 2), Edge(listUrl, url))] + EditViews(url, edits)
          + (if backRaises then RowViews(listUrl, rows[1..]) else [])
      case _ => RowViews(listUrl, rows[1..])
  }

  function CreateViews(sourceUrl: Url, creates: seq<CreateAttempt>): seq<View> {
    if creates == [] then []
    else
      match creates[0]
      case CreateClicked(url, backRaises) =>
        if url == sourceUrl then []
        else [View(Page(url, 2), Edge(sourceUrl, url))] + (if backRaises then CreateViews(sourceUrl, creates[1..]) else [])
      case _ => CreateViews(sourceUrl, creates[1..])
  }

  function TileViews(launchpadUrl: Url, v: TileVisit): seq<View> {
    match v
    case TileRaises => []
    case AppOpened(url, pageType, rows, creates) =>
      [View(Page(url, 1), Edge(launchpadUrl, url))]
      + (if pageType.LIST? then RowViews(url, rows) else [])
      + (if pageType.FORM? then [] else CreateViews(url, creates))
  }

  /** The views of a run that may still explore `left` tiles. */
  function RunViews(launchpadUrl: Url, tiles: seq<TileVisit>, left: int): seq<View> {
    if tiles == [] || left <= 0 then []
    else if tiles[0].TileRaises? then RunViews(launchpadUrl, tiles[1..], left)
    else TileViews(launchpadUrl, tiles[0]) + RunViews(launchpadUrl, tiles[1..], left - 1)
  }

  /** How many of the tiles are explored, and how many raise before the limit is reached. */
  function Explored(tiles: seq<TileVisit>, left: int): nat {
    if tiles == [] || left <= 0 then 0
    else if tiles[0].TileRaises? then Explored(tiles[1..], left)
    else 1 + Explored(tiles[1..], left - 1)
  }

  function Errors(tiles: seq<TileVisit>, left: int): nat {
    if tiles == [] || left <= 0 then 0
    else if tiles[0].TileRaises? then 1 + Errors(tiles[1..], left)
    else Errors(tiles[1..], left - 1)
  }

  // ---------------------------------------------------------------------
  // The views, attempt by attempt
  // ---------------------------------------------------------------------

  lemma MoreViews(a: seq<View>, b: seq<View>, c: seq<View>)
    ensures a + (b + c) == (a + b) + c
  {
  }

  lemma {:induction false} FirstEdit(detailUrl: Url, edits: seq<EditAttempt>, i: nat)
    requires i < |edits| && edits[i].EditOpened? && forall j :: 0 <= j < i ==> !edits[j].EditOpened?
    ensures EditViews(detailUrl, edits) == [View(Page(edits[i].url, 3), Edge(detailUrl, edits[i].url))]
  {
    if i > 0 {
      FirstEdit(detailUrl, edits[1..], i - 1);
    }
  }

  lemma {:induction false} NoEdit(detailUrl: Url, edits: seq<EditAttempt>)
    requires forall i :: 0 <= i < |edits| ==> edits[i].NoEditButton? || edits[i].EditRaises?
    ensures EditViews(detailUrl, edits) == []
  {
    if edits != [] {
      NoEdit(detailUrl, edits[1..]);
    }
  }

  /** The first label that opens a form gives the one view; later labels are not tried. */
  lemma {:induction false} EditViewsAre(detailUrl: Url, edits: seq<EditAttempt>)
    ensures (forall i :: 0 <= i < |edits| ==> edits[i].NoEditButton? || edits[i].EditRaises?) ==> EditViews(detailUrl, edits) == []
    ensures forall i :: 0 <= i < |edits| && edits[i].EditOpened? && (forall j :: 0 <= j < i ==> !edits[j].EditOpened?) ==>
                          EditViews(detailUrl, edits) == [View(Page(edits[i].url, 3), Edge(detailUrl, edits[i].url))]
  {
    hide EditViews;
    if forall i :: 0 <= i < |edits| ==> edits[i].NoEditButton? || edits[i].EditRaises? {
      NoEdit(detailUrl, edits);
    }
    forall i | 0 <= i < |edits| && edits[i].EditOpened? && forall j :: 0 <= j < i ==> !edits[j].EditOpened?
      ensures EditViews(detailUrl, edits) == [View(Page(edits[i].url, 3), Edge(detailUrl, edits[i].url))]
    {
      FirstEdit(detailUrl, edits, i);
    }
  }

  /** A click that stays on the list, or after which going back works, is the last attempt. */
  predicate RowsEnd(listUrl: Url, rows: seq<RowAttempt>) {
    exists i :: 0 <= i < |rows| && rows[i].RowClicked? && (rows[i].url == listUrl || !rows[i].backRaises)
  }

  predicate FormsEnd(sourceUrl: Url, creates: seq<CreateAttempt>) {
    exists i :: 0 <= i < |creates| && creates[i].CreateClicked? && (creates[i].url == sourceUrl || !creates[i].backRaises)
  }

  lemma NoRows(listUrl: Url)
    ensures !RowsEnd(listUrl, []) && RowViews(listUrl, []) == []
  {
  }

  lemma RowEndsFirst(listUrl: Url, attempts: seq<RowAttempt>)
    requires attempts != []
    ensures RowsEnd(listUrl, attempts)
       <==> (attempts[0].RowClicked? && (attempts[0].url == listUrl || !attempts[0].backRaises)) || RowsEnd(listUrl, attempts[1..])
  {
    if RowsEnd(listUrl, attempts) {
      var i :| 0 <= i < |attempts| && attempts[i].RowClicked? && (attempts[i].url == listUrl || !attempts[i].backRaises);
      assert i > 0 ==> attempts[1..][i - 1] == attempts[i];
    }
    if RowsEnd(listUrl, attempts[1..]) {
      var i :| 0 <= i < |attempts[1..]| && attempts[1..][i].RowClicked?
               && (attempts[1..][i].url == listUrl || !attempts[1..][i].backRaises);
      assert attempts[i + 1] == attempts[1..][i];
    }
  }

  lemma {:induction false} NextRow(listUrl: Url, rows: seq<RowAttempt>)
    requires rows != []
    ensures var r, later := rows[0], RowViews(listUrl, rows[1..]);
      && (!r.RowClicked? ==> RowViews(listUrl, rows) == later)
      && (r.RowClicked? && r.url == listUrl ==> RowViews(listUrl, rows) == [])
      && (r.RowClicked? && r.url != listUrl ==>
            RowViews(listUrl, rows)
            == [View(Page(r.url, 2), Edge(listUrl, r.url))] + EditViews(r.url, r.edits) + if r.backRaises then later else [])
  {
    hide EditViews;
  }

  lemma {:induction false} RowsInTurn(listUrl: Url, first: seq<RowAttempt>, rest: seq<RowAttempt>)
    ensures RowViews(listUrl, first + rest)
         == RowViews(listUrl, first) + if RowsEnd(listUrl, first) then [] else RowViews(listUrl, rest)
  {
    hide RowsEnd;
    hide EditViews;
    hide RowViews;
    if first == [] {
      assert first + rest == rest;
      NoRows(listUrl);
    } else {
      RowsInTurn(listUrl, first[1..], rest);
      assert (first + rest)[1..] == first[1..] + rest && (first + rest)[0] == first[0];
      RowEndsFirst(listUrl, first);
      NextRow(listUrl, first);
      NextRow(listUrl, first + rest);
      var r := first[0];
      if r.RowClicked? && r.url != listUrl && r.backRaises {
        MoreViews([View(Page(r.url, 2), Edge(listUrl, r.url))] + EditViews(r.url, r.edits), RowViews(listUrl, first[1..]),
                  if RowsEnd(listUrl, first[1..]) then [] else RowViews(listUrl, rest));
      }
    }
  }

  /** What one selector yields: nothing without a row, after an exception or when
      the click stays on the list, and otherwise a detail page with its edit form. */
  lemma OneRow(listUrl: Url, r: RowAttempt)
    ensures r.NoRow? || r.RowRaises? ==> RowViews(listUrl, [r]) == []
    ensures r.RowClicked? && r.url == listUrl ==> RowViews(listUrl, [r]) == []
    ensures r.RowClicked? && r.url != listUrl ==>
              RowViews(listUrl, [r]) == [View(Page(r.url, 2), Edge(listUrl, r.url))] + EditViews(r.url, r.edits)
  {
    assert RowViews(listUrl, [r][1..]) == [];
  }

  lemma NoForms(sourceUrl: Url)
    ensures !FormsEnd(sourceUrl, []) && CreateViews(sourceUrl, []) == []
  {
  }

  lemma FormEndsFirst(sourceUrl: Url, attempts: seq<CreateAttempt>)
    requires attempts != []
    ensures FormsEnd(sourceUrl, attempts)
       <==> (attempts[0].CreateClicked? && (attempts[0].url == sourceUrl || !attempts[0].backRaises)) || FormsEnd(sourceUrl, attempts[1..])
  {
    if FormsEnd(sourceUrl, attempts) {
      var i :| 0 <= i < |attempts| && attempts[i].CreateClicked? && (attempts[i].url == sourceUrl || !attempts[i].backRaises);
      assert i > 0 ==> attempts[1..][i - 1] == attempts[i];
    }
    if FormsEnd(sourceUrl, attempts[1..]) {
      var i :| 0 <= i < |attempts[1..]| && attempts[1..][i].CreateClicked?
               && (attempts[1..][i].url == sourceUrl || !attempts[1..][i].backRaises);
      assert attempts[i + 1] == attempts[1..][i];
    }
  }

  lemma NextForm(sourceUrl: Url, creates: seq<CreateAttempt>)
    requires creates != []
    ensures var c, later := creates[0], CreateViews(sourceUrl, creates[1..]);
      && (!c.CreateClicked? ==> CreateViews(sourceUrl, creates) == later)
      && (c.CreateClicked? && c.url == sourceUrl ==> CreateViews(sourceUrl, creates) == [])
      && (c.CreateClicked? && c.url != sourceUrl ==>
            CreateViews(sourceUrl, creates) == [View(Page(c.url, 2), Edge(sourceUrl, c.url))] + if c.backRaises then later else [])
  {
  }

  lemma {:induction false} FormsInTurn(sourceUrl: Url, first: seq<CreateAttempt>, rest: seq<CreateAttempt>)
    ensures CreateViews(sourceUrl, first + rest)
         == CreateViews(sourceUrl, first) + if FormsEnd(sourceUrl, first) then [] else CreateViews(sourceUrl, rest)
  {
    hide FormsEnd;
    hide CreateViews;
    if first == [] {
      assert first + rest == rest;
      NoForms(sourceUrl);
    } else {
      FormsInTurn(sourceUrl, first[1..], rest);
      assert (first + rest)[1..] == first[1..] + rest && (first + rest)[0] == first[0];
      FormEndsFirst(sourceUrl, first);
      NextForm(sourceUrl, first);
      NextForm(sourceUrl, first + rest);
      var c := first[0];
      if c.CreateClicked? && c.url != sourceUrl && c.backRaises {
        MoreViews([View(Page(c.url, 2), Edge(sourceUrl, c.url))], CreateViews(sourceUrl, first[1..]),
                  if FormsEnd(sourceUrl, first[1..]) then [] else CreateViews(sourceUrl, rest));
      }
    }
  }

  lemma OneForm(sourceUrl: Url, c: CreateAttempt)
    ensures c.NoCreateButton? || c.CreateRaises? ==> CreateViews(sourceUrl, [c]) == []
    ensures c.CreateClicked? && c.url == sourceUrl ==> CreateViews(sourceUrl, [c]) == []
    ensures c.CreateClicked? && c.url != sourceUrl ==>
              CreateViews(sourceUrl, [c]) == [View(Page(c.url, 2), Edge(sourceUrl, c.url))]
  {
    assert CreateViews(sourceUrl, [c][1..]) == [];
  }

  function Flatten(groups: seq<seq<TileVisit>>): seq<TileVisit> {
    if groups == [] then [] else groups[0] + Flatten(groups[1..])
  }

  lemma {:induction false} GroupsInTurn(before: seq<seq<TileVisit>>, group: seq<TileVisit>, after: seq<seq<TileVisit>>)
    ensures Flatten(before + [group] + after) == Flatten(before) + group + Flatten(after)
  {
    if before == [] {
      assert before + [group] + after == [group] + after && ([group] + after)[1..] == after;
    } else {
      GroupsInTurn(before[1..], group, after);
      assert (before + [group] + after)[1..] == before[1..] + [group] + after;
    }
  }

  // ---------------------------------------------------------------------
  // Pages and edges stay aligned
  // ---------------------------------------------------------------------

  /** The edge of view `i` starts at the earlier view `j`, one level up. */
  ghost predicate Leads(views: seq<View>, j: int, i: int) {
    0 <= j < i < |views| && views[j].page.url == views[i].edge.from && views[j].page.depth + 1 == views[i].page.depth
  }

  /** View `i` is entered from the launchpad at depth 1, or from an earlier view
      one level up. */
  ghost predicate Entered(launchpadUrl: Url, views: seq<View>, i: nat)
    requires i < |views|
  {
    var v := views[i];
    v.edge.to == v.page.url &&
    if v.page.depth == 1 then v.edge.from == launchpadUrl
    else exists j :: Leads(views, j, i)
  }

  ghost predicate Forest(launchpadUrl: Url, views: seq<View>) {
    forall i :: 0 <= i < |views| ==> Entered(launchpadUrl, views, i)
  }

  ghost predicate HangsBelow(root: Url, d: nat, views: seq<View>, i: nat)
    requires i < |views|
  {
    var v := views[i];
    && v.edge.to == v.page.url && v.page.depth > d
    && ((v.edge.from == root && v.page.depth == d + 1)
        || exists j :: Leads(views, j, i))
  }

  /** `views` all hang, directly or not, below a page `root` at depth `d`. */
  ghost predicate Below(root: Url, d: nat, views: seq<View>) {
    forall i :: 0 <= i < |views| ==> HangsBelow(root, d, views, i)
  }

  lemma BelowAppend(root: Url, d: nat, a: seq<View>, b: seq<View>)
    requires Below(root, d, a) && Below(root, d, b)
    ensures Below(root, d, a + b)
  {
    forall i | 0 <= i < |a + b|
      ensures HangsBelow(root, d, a + b, i)
    {
      var k := if i < |a| then i else i - |a|;
      var part := if i < |a| then a else b;
      assert HangsBelow(root, d, part, k);
      if !(part[k].edge.from == root && part[k].page.depth == d + 1) {
        var j :| Leads(part, j, k);
        assert Leads(a + b, if i < |a| then j else |a| + j, i);
      }
    }
  }

  lemma BelowNest(root: Url, d: nat, v: View, inner: seq<View>)
    requires v.edge == Edge(root, v.page.url) && v.page.depth == d + 1
    requires Below(v.page.url, d + 1, inner)
    ensures Below(root, d, [v] + inner)
  {
    var all := [v] + inner;
    forall i | 0 <= i < |all|
      ensures HangsBelow(root, d, all, i)
    {
      if i > 0 {
        assert HangsBelow(v.page.url, d + 1, inner, i - 1);
        if inner[i - 1].edge.from == v.page.url && inner[i - 1].page.depth == d + 2 {
          assert Leads(all, 0, i);
        } else {
          var j :| Leads(inner, j, i - 1);
          assert Leads(all, j + 1, i);
        }
      }
    }
  }

  lemma {:induction false} EditViewsBelow(detailUrl: Url, edits: seq<EditAttempt>)
    ensures Below(detailUrl, 2, EditViews(detailUrl, edits)) && |EditViews(detailUrl, edits)| <= 1
  {
    if edits != [] && !edits[0].EditOpened? {
      EditViewsBelow(detailUrl, edits[1..]);
    }
  }

  /** Whether going back ever fails. */
  predicate AnyRowBackRaises(rows: seq<RowAttempt>) {
    exists i :: 0 <= i < |rows| && rows[i].RowClicked? && rows[i].backRaises
  }

  predicate AnyFormBackRaises(creates: seq<CreateAttempt>) {
    exists i :: 0 <= i < |creates| && creates[i].CreateClicked? && creates[i].backRaises
  }

  lemma {:induction false} RowViewsBelow(listUrl: Url, rows: seq<RowAttempt>)
    ensures Below(listUrl, 1, RowViews(listUrl, rows)) && |RowViews(listUrl, rows)| <= 2 * |rows|
    ensures !AnyRowBackRaises(rows) ==> |RowViews(listUrl, rows)| <= 2
  {
    if rows != [] {
      RowViewsBelow(listUrl, rows[1..]);
      assert !AnyRowBackRaises(rows) ==> !AnyRowBackRaises(rows[1..]) by {
        assert forall i :: 0 <= i < |rows[1..]| ==> rows[1..][i] == rows[i + 1];
      }
      if rows[0].RowClicked? && rows[0].url != listUrl {
        var r := rows[0];
        var v := View(Page(r.url, 2), Edge(listUrl, r.url));
        EditViewsBelow(r.url, r.edits);
        BelowNest(listUrl, 1, v, EditViews(r.url, r.edits));
        BelowAppend(listUrl, 1, [v] + EditViews(r.url, r.edits), if r.backRaises then RowViews(listUrl, rows[1..]) else []);
      }
    }
  }

  lemma {:induction false} CreateViewsBelow(sourceUrl: Url, creates: seq<CreateAttempt>)
    ensures Below(sourceUrl, 1, CreateViews(sourceUrl, creates)) && |CreateViews(sourceUrl, creates)| <= |creates|
    ensures !AnyFormBackRaises(creates) ==> |CreateViews(sourceUrl, creates)| <= 1
  {
    if creates != [] {
      CreateViewsBelow(sourceUrl, creates[1..]);
      assert !AnyFormBackRaises(creates) ==> !AnyFormBackRaises(creates[1..]) by {
        assert forall i :: 0 <= i < |creates[1..]| ==> creates[1..][i] == creates[i + 1];
      }
      if creates[0].CreateClicked? && creates[0].url != sourceUrl {
        var c := creates[0];
        var v := View(Page(c.url, 2), Edge(sourceUrl, c.url));
        BelowNest(sourceUrl, 1, v, []);
        assert [v] + [] == [v];
        BelowAppend(sourceUrl, 1, [v], if c.backRaises then CreateViews(sourceUrl, creates[1..]) else []);
      }
    }
  }

  predicate BackNeverRaises(v: TileVisit) {
    v.AppOpened? ==> !AnyRowBackRaises(v.rows) && !AnyFormBackRaises(v.creates)
  }

  /** An explored tile yields between 1 and 16 views, and at most 4 when going
      back never fails. */
  lemma TileViewsBelow(launchpadUrl: Url, v: TileVisit)
    requires VisitOk(v)
    ensures Below(launchpadUrl, 0, TileViews(launchpadUrl, v))
    ensures |TileViews(launchpadUrl, v)| <= 16
    ensures v.AppOpened? ==> |TileViews(launchpadUrl, v)| >= 1
    ensures BackNeverRaises(v) ==> |TileViews(launchpadUrl, v)| <= 4
  {
    if v.AppOpened? {
      RowViewsBelow(v.url, v.rows);
      CreateViewsBelow(v.url, v.creates);
      var rows := if v.pageType.LIST? then RowViews(v.url, v.rows) else [];
      var forms := if v.pageType.FORM? then [] else CreateViews(v.url, v.creates);
      var main := View(Page(v.url, 1), Edge(launchpadUrl, v.url));
      BelowAppend(v.url, 1, rows, forms);
      BelowNest(launchpadUrl, 0, main, rows + forms);
      assert [main] + (rows + forms) == [main] + rows + forms;
    }
  }

  lemma {:induction false} RunViewsBelow(launchpadUrl: Url, tiles: seq<TileVisit>, left: int)
    requires forall i :: 0 <= i < |tiles| ==> VisitOk(tiles[i])
    ensures Below(launchpadUrl, 0, RunViews(launchpadUrl, tiles, left))
    ensures Explored(tiles, left) <= |RunViews(launchpadUrl, tiles, left)| <= 16 * Explored(tiles, left)
    ensures (forall i :: 0 <= i < |tiles| ==> BackNeverRaises(tiles[i])) ==>
              |RunViews(launchpadUrl, tiles, left)| <= 4 * Explored(tiles, left)
    ensures left >= 0 ==> Explored(tiles, left) <= left
    ensures left <= 0 ==> Explored(tiles, left) == 0
    decreases |tiles|
  {
    if tiles != [] && left > 0 {
      var next := if tiles[0].TileRaises? then left else left - 1;
      assert forall i :: 0 <= i < |tiles[1..]| ==> tiles[1..][i] == tiles[i + 1];
      RunViewsBelow(launchpadUrl, tiles[1..], next);
      if tiles[0].AppOpened? {
        TileViewsBelow(launchpadUrl, tiles[0]);
        BelowAppend(launchpadUrl, 0, TileViews(launchpadUrl, tiles[0]), RunViews(launchpadUrl, tiles[1..], next));
      }
    }
  }

  /** In every run edge `i` leads to page `i + 1`, from the launchpad or from an
      earlier page one level up. */
  lemma RunIsForest(launchpadUrl: Url, tiles: seq<TileVisit>, maxPages: int)
    requires forall i :: 0 <= i < |tiles| ==> VisitOk(tiles[i])
    ensures Forest(launchpadUrl, RunViews(launchpadUrl, tiles, maxPages - 1))
  {
    RunViewsBelow(launchpadUrl, tiles, maxPages - 1);
    var views := RunViews(launchpadUrl, tiles, maxPages - 1);
    forall i | 0 <= i < |views|
      ensures Entered(launchpadUrl, views, i)
    {
      assert HangsBelow(launchpadUrl, 0, views, i);
      forall j | Leads(views, j, i)
        ensures views[j].page.depth > 0
      {
        assert HangsBelow(launchpadUrl, 0, views, j);
      }
    }
  }

  /** The page limit bounds tiles, not pages: at most `maxPages - 1` tiles are
      explored, which can bring 16 pages each, or 4 if going back never fails. */
  lemma PagesPerTile(launchpadUrl: Url, tiles: seq<TileVisit>, maxPages: int)
    requires maxPages >= 1 && forall i :: 0 <= i < |tiles| ==> VisitOk(tiles[i])
    ensures Explored(tiles, maxPages - 1) <= maxPages - 1
    ensures 1 + |RunViews(launchpadUrl, tiles, maxPages - 1)| <= 1 + 16 * (maxPages - 1)
    ensures (forall i :: 0 <= i < |tiles| ==> BackNeverRaises(tiles[i])) ==>
              1 + |RunViews(launchpadUrl, tiles, maxPages - 1)| <= 1 + 4 * (maxPages - 1)
  {
    RunViewsBelow(launchpadUrl, tiles, maxPages - 1);
  }

  function Successes(tiles: seq<TileVisit>): nat {
    if tiles == [] then 0 else (if tiles[0].TileRaises? then 0 else 1) + Successes(tiles[1..])
  }

  /** Exactly the first tiles that do not raise are explored, up to the limit. */
  lemma {:induction false} ExploresUpToLimit(tiles: seq<TileVisit>, left: nat)
    ensures Explored(tiles, left) == if Successes(tiles) < left then Successes(tiles) else left
    decreases |tiles|
  {
    if tiles != [] && left > 0 {
      ExploresUpToLimit(tiles[1..], if tiles[0].TileRaises? then left else left - 1);
    }
  }

  /** The tiles whose app opened. */
  function OpenedAt(tiles: seq<TileVisit>): set<nat> {
    set k: nat | k < |tiles| && tiles[k].AppOpened?
  }

  lemma {:induction false} SuccessesSplit(tiles: seq<TileVisit>, n: nat)
    requires n <= |tiles|
    ensures Successes(tiles) == Successes(tiles[..n]) + Successes(tiles[n..])
  {
    if n == 0 {
      assert tiles[0..] == tiles;
    } else {
      SuccessesSplit(tiles[1..], n - 1);
      assert tiles[1..][..n - 1] == tiles[..n][1..] && tiles[1..][n - 1..] == tiles[n..];
    }
  }

  lemma LastOpened(tiles: seq<TileVisit>)
    requires tiles != []
    ensures var last := |tiles| - 1;
      OpenedAt(tiles) == OpenedAt(tiles[..last]) + (if tiles[last].AppOpened? then {last} else {}) && last !in OpenedAt(tiles[..last])
  {
    assert forall k :: 0 <= k < |tiles| - 1 ==> tiles[..|tiles| - 1][k] == tiles[k];
  }

  lemma NoneOpened()
    ensures OpenedAt([]) == {}
  {
  }

  lemma {:induction false} SuccessesCount(tiles: seq<TileVisit>)
    ensures Successes(tiles) == |OpenedAt(tiles)|
  {
    hide OpenedAt;
    if tiles == [] {
      NoneOpened();
    } else {
      var last := |tiles| - 1;
      SuccessesCount(tiles[..last]);
      SuccessesSplit(tiles, last);
      assert tiles[last..] == [tiles[last]];
      LastOpened(tiles);
    }
  }

  /** The views of all the given tiles, one tile after the other. */
  function AllViews(launchpadUrl: Url, tiles: seq<TileVisit>): seq<View> {
    if tiles == [] then [] else TileViews(launchpadUrl, tiles[0]) + AllViews(launchpadUrl, tiles[1..])
  }

  lemma TileRaisesHasNoViews(launchpadUrl: Url, v: TileVisit)
    ensures v.TileRaises? ==> TileViews(launchpadUrl, v) == []
  {
  }

  lemma {:induction false} TilesCounted(launchpadUrl: Url, tiles: seq<TileVisit>, left: nat) returns (n: nat)
    ensures n <= |tiles|
    ensures n < |tiles| ==> Successes(tiles[..n]) == left
    ensures n > 0 ==> Successes(tiles[..n - 1]) < left
    ensures Explored(tiles, left) == Successes(tiles[..n])
    ensures Errors(tiles, left) == n - Successes(tiles[..n])
    ensures RunViews(launchpadUrl, tiles, left) == AllViews(launchpadUrl, tiles[..n])
    decreases |tiles|
  {
    hide TileViews;
    if tiles == [] || left == 0 {
      return 0;
    }
    TileRaisesHasNoViews(launchpadUrl, tiles[0]);
    var m := TilesCounted(launchpadUrl, tiles[1..], if tiles[0].TileRaises? then left else left - 1);
    n := m + 1;
    assert tiles[..n][1..] == tiles[1..][..m];
    if m > 0 {
      assert tiles[..m][1..] == tiles[1..][..m - 1];
    }
  }

  /** A run clicks the first `n` tiles, where `n` is the least number of tiles by
      which `left` apps have opened, or all the tiles. Each that raises is one
      error, the others are explored, and what is recorded is what they yield. */
  lemma {:induction false} TilesClicked(launchpadUrl: Url, tiles: seq<TileVisit>, left: nat) returns (n: nat)
    ensures n <= |tiles|
    ensures n < |tiles| ==> |OpenedAt(tiles[..n])| == left
    ensures n > 0 ==> |OpenedAt(tiles[..n - 1])| < left
    ensures Explored(tiles, left) == |OpenedAt(tiles[..n])|
    ensures Errors(tiles, left) == n - |OpenedAt(tiles[..n])|
    ensures RunViews(launchpadUrl, tiles, left) == AllViews(launchpadUrl, tiles[..n])
  {
    hide TileViews;
    n := TilesCounted(launchpadUrl, tiles, left);
    SuccessesCount(tiles[..n]);
    if n > 0 {
      SuccessesCount(tiles[..n - 1]);
    }
  }

  /** The bound of 16 is reached, by an app whose every attempt opens another
      page and then fails to go back. */
  lemma SixteenViews(launchpadUrl: Url, a: Url, u: Url)
    requires a != u
    ensures exists v :: VisitOk(v) && |TileViews(launchpadUrl, v)| == 16
  {
    var edits := [EditOpened(u), EditOpened(u), EditOpened(u)];
    var r := RowClicked(u, edits, true);
    var c := CreateClicked(u, true);
    var v := AppOpened(a, LIST, [r, r, r, r, r], [c, c, c, c, c]);
    assert |EditViews(u, edits)| == 1;
    assert |RowViews(a, [r])| == 2 by { assert [r][1..] == []; }
    assert |RowViews(a, [r, r])| == 4 by { assert [r, r][1..] == [r]; }
    assert |RowViews(a, [r, r, r])| == 6 by { assert [r, r, r][1..] == [r, r]; }
    assert |RowViews(a, [r, r, r, r])| == 8 by { assert [r, r, r, r][1..] == [r, r, r]; }
    assert |RowViews(a, [r, r, r, r, r])| == 10 by { assert [r, r, r, r, r][1..] == [r, r, r, r]; }
    assert |CreateViews(a, [c])| == 1 by { assert [c][1..] == []; }
    assert |CreateViews(a, [c, c])| == 2 by { assert [c, c][1..] == [c]; }
    assert |CreateViews(a, [c, c, c])| == 3 by { assert [c, c, c][1..] == [c, c]; }
    assert |CreateViews(a, [c, c, c, c])| == 4 by { assert [c, c, c, c][1..] == [c, c, c]; }
    assert |CreateViews(a, [c, c, c, c, c])| == 5 by { assert [c, c, c, c, c][1..] == [c, c, c, c]; }
    assert VisitOk(v) && |TileViews(launchpadUrl, v)| == 16;
  }

  /** So is the bound of 4, when going back never fails. */
  lemma FourViews(launchpadUrl: Url, a: Url, u: Url)
    requires a != u
    ensures exists v :: VisitOk(v) && BackNeverRaises(v) && |TileViews(launchpadUrl, v)| == 4
  {
    var edits := [EditOpened(u), EditOpened(u), EditOpened(u)];
    var r := RowClicked(u, edits, false);
    var c := CreateClicked(u, false);
    var v := AppOpened(a, LIST, [r, r, r, r, r], [c, c, c, c, c]);
    assert |EditViews(u, edits)| == 1;
    assert |RowViews(a, v.rows)| == 2 && |CreateViews(a, v.creates)| == 1;
    assert VisitOk(v) && BackNeverRaises(v) && |TileViews(launchpadUrl, v)| == 4;
  }

  lemma {:induction false} SameTileViews(launchpadUrl: Url, v: TileVisit, n: nat) returns (tiles: seq<TileVisit>)
    requires v.AppOpened?
    ensures |tiles| == n && forall i :: 0 <= i < n ==> tiles[i] == v
    ensures |RunViews(launchpadUrl, tiles, n)| == n * |TileViews(launchpadUrl, v)|
  {
    if n == 0 {
      tiles := [];
    } else {
      var rest := SameTileViews(launchpadUrl, v, n - 1);
      tiles := [v] + rest;
      assert tiles[1..] == rest;
      assert n * |TileViews(launchpadUrl, v)| == (n - 1) * |TileViews(launchpadUrl, v)| + |TileViews(launchpadUrl, v)|;
    }
  }

  ghost predicate AllOk(tiles: seq<TileVisit>) {
    forall i :: 0 <= i < |tiles| ==> VisitOk(tiles[i])
  }

  ghost predicate NoneRaisesBack(tiles: seq<TileVisit>) {
    forall i :: 0 <= i < |tiles| ==> BackNeverRaises(tiles[i])
  }

  lemma OpenedIfViews(launchpadUrl: Url, v: TileVisit)
    requires TileViews(launchpadUrl, v) != []
    ensures v.AppOpened?
  {
  }

  /** For every page limit both bounds of a whole run are reached. */
  lemma {:induction false} RunBoundsAreReached(launchpadUrl: Url, a: Url, u: Url, maxPages: int)
    requires maxPages >= 1 && a != u
    ensures exists tiles :: AllOk(tiles) && 1 + |RunViews(launchpadUrl, tiles, maxPages - 1)| == 1 + 16 * (maxPages - 1)
    ensures exists tiles :: AllOk(tiles) && NoneRaisesBack(tiles)
                            && 1 + |RunViews(launchpadUrl, tiles, maxPages - 1)| == 1 + 4 * (maxPages - 1)
  {
    hide TileViews;
    hide RunViews;
    SixteenViews(launchpadUrl, a, u);
    var v :| VisitOk(v) && |TileViews(launchpadUrl, v)| == 16;
    OpenedIfViews(launchpadUrl, v);
    var tiles := SameTileViews(launchpadUrl, v, maxPages - 1);
    assert AllOk(tiles) && |RunViews(launchpadUrl, tiles, maxPages - 1)| == 16 * (maxPages - 1);
    FourViews(launchpadUrl, a, u);
    var v' :| VisitOk(v') && BackNeverRaises(v') && |TileViews(launchpadUrl, v')| == 4;
    OpenedIfViews(launchpadUrl, v');
    var tiles' := SameTileViews(launchpadUrl, v', maxPages - 1);
    assert AllOk(tiles') && NoneRaisesBack(tiles') && |RunViews(launchpadUrl, tiles', maxPages - 1)| == 4 * (maxPages - 1);
  }

  // ---------------------------------------------------------------------
  // The crawler object
  // ---------------------------------------------------------------------

  /** What is done together with what lies ahead makes the whole run. */
  ghost predicate Ahead(launchpadUrl: Url, views: seq<View>, errors: nat, rest: seq<TileVisit>, left: int, all: seq<TileVisit>, limit: int) {
    && views + RunViews(launchpadUrl, rest, left) == RunViews(launchpadUrl, all, limit)
    && errors + Errors(rest, left) == Errors(all, limit)
  }

  lemma TileViewsAre(launchpadUrl: Url, v: TileVisit)
    ensures v.TileRaises? ==> TileViews(launchpadUrl, v) == []
    ensures v.AppOpened? ==>
              TileViews(launchpadUrl, v)
              == [View(Page(v.url, 1), Edge(launchpadUrl, v.url))]
                 + (if v.pageType.LIST? then RowViews(v.url, v.rows) else [])
                 + (if v.pageType.FORM? then [] else CreateViews(v.url, v.creates))
  {
  }

  lemma NoViews()
    ensures Pages([]) == [] && Edges([]) == []
  {
  }

  class SAPFioriCrawler {
    var pages: seq<Page>
    var flowGraph: seq<Edge>
    var errorCount: nat

    constructor ()
      ensures pages == [] && flowGraph == [] && errorCount == 0
    {
      pages, flowGraph, errorCount := [], [], 0;
    }

    method ExploreEditForm(detailUrl: Url, edits: seq<EditAttempt>) returns (discovered: seq<Page>)
      modifies this`flowGraph
      ensures discovered == Pages(EditViews(detailUrl, edits))
      ensures flowGraph == old(flowGraph) + Edges(EditViews(detailUrl, edits))
    {
      discovered := [];
      for i := 0 to |edits|
        invariant discovered == [] && flowGraph == old(flowGraph)
        invariant EditViews(detailUrl, edits[i..]) == EditViews(detailUrl, edits)
      {
        assert edits[i..][1..] == edits[i + 1..];
        if edits[i].EditOpened? {
          discovered := discovered + [Page(edits[i].url, 3)];
          flowGraph := flowGraph + [Edge(detailUrl, edits[i].url)];
          break;
        }
      }
    }

    method ExploreListDetail(listUrl: Url, rows: seq<RowAttempt>) returns (discovered: seq<Page>)
      modifies this`flowGraph
      ensures discovered == Pages(RowViews(listUrl, rows))
      ensures flowGraph == old(flowGraph) + Edges(RowViews(listUrl, rows))
    {
      hide Pages;
      hide Edges;
      NoViews();
      discovered := [];
      ghost var views: seq<View> := [];
      for i := 0 to |rows|
        invariant discovered == Pages(views) && flowGraph == old(flowGraph) + Edges(views)
        invariant views + RowViews(listUrl, rows[i..]) == RowViews(listUrl, rows)
      {
        assert rows[i..][1..] == rows[i + 1..];
        match rows[i]
        case RowClicked(url, edits, backRaises) =>
          if url == listUrl {
            assert views + [] == views;
            break;
          }
          discovered := discovered + [Page(url, 2)];
          flowGraph := flowGraph + [Edge(listUrl, url)];
          var inner := ExploreEditForm(url, edits);
          discovered := discovered + inner;
          ghost var detail := [View(Page(url, 2), Edge(listUrl, url))];
          OneView(detail[0]);
          ListsAppend(detail, EditViews(url, edits));
          ListsAppend(views, detail + EditViews(url, edits));
          MoreViews(views, detail + EditViews(url, edits), if backRaises then RowViews(listUrl, rows[i + 1..]) else []);
          views := views + (detail + EditViews(url, edits));
          if !backRaises {
            assert views + [] == views;
            break;
          }
        case _ =>
      }
      assert views + [] == views;
    }

    method ExploreCreateForm(sourceUrl: Url, creates: seq<CreateAttempt>) returns (discovered: seq<Page>)
      modifies this`flowGraph
      ensures discovered == Pages(CreateViews(sourceUrl, creates))
      ensures flowGraph == old(flowGraph) + Edges(CreateViews(sourceUrl, creates))
    {
      hide Pages;
      hide Edges;
      NoViews();
      discovered := [];
      ghost var views: seq<View> := [];
      for i := 0 to |creates|
        invariant discovered == Pages(views) && flowGraph == old(flowGraph) + Edges(views)
        invariant views + CreateViews(sourceUrl, creates[i..]) == CreateViews(sourceUrl, creates)
      {
        assert creates[i..][1..] == creates[i + 1..];
        match creates[i]
        case CreateClicked(url, backRaises) =>
          if url == sourceUrl {
            assert views + [] == views;
            break;
          }
          discovered := discovered + [Page(url, 2)];
          flowGraph := flowGraph + [Edge(sourceUrl, url)];
          ghost var form := [View(Page(url, 2), Edge(sourceUrl, url))];
          OneView(form[0]);
          ListsAppend(views, form);
          MoreViews(views, form, if backRaises then CreateViews(sourceUrl, creates[i + 1..]) else []);
          views := views + form;
          if !backRaises {
            assert views + [] == views;
            break;
          }
        case _ =>
      }
      assert views + [] == views;
    }

    /** Clicks a tile and explores its app; raises before anything is recorded, or not at all. */
    method ExploreTileApp(launchpadUrl: Url, v: TileVisit) returns (raised: bool, discovered: seq<Page>)
      modifies this`flowGraph
      ensures raised == v.TileRaises? && discovered == Pages(TileViews(launchpadUrl, v))
      ensures flowGraph == old(flowGraph) + Edges(TileViews(launchpadUrl, v))
      ensures raised ==> flowGraph == old(flowGraph)
    {
      hide *;
      raised, discovered := v.TileRaises?, [];
      NoViews();
      TileViewsAre(launchpadUrl, v);
      if raised {
        return;
      }
      ghost var views := [View(Page(v.url, 1), Edge(launchpadUrl, v.url))];
      OneView(views[0]);
      discovered := [Page(v.url, 1)];
      flowGraph := flowGraph + [Edge(launchpadUrl, v.url)];
      if v.pageType.LIST? {
        var details := ExploreListDetail(v.url, v.rows);
        discovered := discovered + details;
        ListsAppend(views, RowViews(v.url, v.rows));
        views := views + RowViews(v.url, v.rows);
      }
      assert views == [View(Page(v.url, 1), Edge(launchpadUrl, v.url))] + if v.pageType.LIST? then RowViews(v.url, v.rows) else [];
      if !v.pageType.FORM? {
        var forms := ExploreCreateForm(v.url, v.creates);
        discovered := discovered + forms;
        ListsAppend(views, CreateViews(v.url, v.creates));
        views := views + CreateViews(v.url, v.creates);
      }
      assert views == TileViews(launchpadUrl, v);
    }

    /** A crawl past authentication, on the tile groups found on the launchpad. */
    method Crawl(launchpadUrl: Url, launchpadPage: Page, groups: seq<seq<TileVisit>>, maxPages: int)
      requires pages == [] && flowGraph == [] && errorCount == 0
      modifies this
      ensures pages == [launchpadPage] + Pages(RunViews(launchpadUrl, Flatten(groups), maxPages - 1))
      ensures flowGraph == Edges(RunViews(launchpadUrl, Flatten(groups), maxPages - 1))
      ensures errorCount == Errors(Flatten(groups), maxPages - 1)
    {
      hide Pages;
      hide Edges;
      hide TileViews;
      pages := pages + [launchpadPage];
      var tileCount: nat := 0;
      ghost var limit := maxPages - 1;
      ghost var views: seq<View> := [];
      NoViews();
      assert groups[0..] == groups;
      for g := 0 to |groups|
        invariant Recorded(launchpadPage, views)
        invariant Ahead(launchpadUrl, views, errorCount, Flatten(groups[g..]), limit - tileCount, Flatten(groups), limit)
      {
        ghost var later := Flatten(groups[g + 1..]);
        assert groups[g..][1..] == groups[g + 1..];
        tileCount, views := CrawlGroup(launchpadUrl, launchpadPage, groups[g], maxPages, tileCount, views, later, Flatten(groups));
      }
      assert views + [] == views;
    }

    /** Pages and edges recorded so far are those of the launchpad and of `views`. */
    ghost predicate Recorded(launchpadPage: Page, views: seq<View>)
      reads this
    {
      pages == [launchpadPage] + Pages(views) && flowGraph == Edges(views)
    }

    /** One group; the limit only ends the inner loop. */
    method CrawlGroup(launchpadUrl: Url, launchpadPage: Page, tiles: seq<TileVisit>, maxPages: int, count: nat,
                      ghost before: seq<View>, ghost later: seq<TileVisit>, ghost all: seq<TileVisit>)
      returns (tileCount: nat, ghost views: seq<View>)
      requires Recorded(launchpadPage, before)
      requires Ahead(launchpadUrl, before, errorCount, tiles + later, maxPages - 1 - count, all, maxPages - 1)
      modifies this
      ensures Recorded(launchpadPage, views)
      ensures Ahead(launchpadUrl, views, errorCount, later, maxPages - 1 - tileCount, all, maxPages - 1)
    {
      hide Pages;
      hide Edges;
      hide TileViews;
      tileCount, views := count, before;
      assert tiles[0..] == tiles;
      for k := 0 to |tiles|
        invariant Recorded(launchpadPage, views)
        invariant Ahead(launchpadUrl, views, errorCount, tiles[k..] + later, maxPages - 1 - tileCount, all, maxPages - 1)
      {
        if tileCount >= maxPages - 1 {
          break;
        }
        assert (tiles[k..] + later)[1..] == tiles[k + 1..] + later && (tiles[k..] + later)[0] == tiles[k];
        var raised, found := ExploreTileApp(launchpadUrl, tiles[k]);
        if raised {
          errorCount := errorCount + 1;
        } else {
          ListsAppend(views, TileViews(launchpadUrl, tiles[k]));
          MoreViews(views, TileViews(launchpadUrl, tiles[k]), RunViews(launchpadUrl, tiles[k + 1..] + later, maxPages - 1 - tileCount - 1));
          pages := pages + found;
          tileCount := tileCount + 1;
          views := views + TileViews(launchpadUrl, tiles[k]);
        }
      }
      assert tileCount < maxPages - 1 ==> tiles[|tiles|..] + later == later;
    }
  }
}
