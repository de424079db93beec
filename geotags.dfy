/** The page-accumulation loop of `get_geotag_csv` (vk_geotags.py:75-116).

    The loop requests the pages at offsets 0, 1000 and 2000 in turn, keeps the items
    of each page that carry a date, a latitude and a longitude, and stops early on an
    empty page or once the server-reported total has been reached. The server is a
    parameter: `fetch` maps the arguments of a `get_photos` call to the decoded
    reply. */
module Geotags {
  import opened Wrappers
  import opened Json
  import opened Photos

  /** Page size and the fixed offsets of vk_geotags.py:83-85. */
  const PageSize := 1000
  const PageOffsets: seq<int> := [0, 1000, 2000]

  /** `get_photos` seen from the loop: the arguments of one call to the decoded
      reply. Building the query string is Photos.Parameters; the HTTP round trip is
      not modelled. */
  type Fetcher = PhotosArgs -> Reply

  /** The arguments of `get_geotag_csv` that reach the requests, the time window
      already converted to Unix seconds (vk_geotags.py:72-73). */
  datatype Search = Search(
    q: string,
    lat: real,
    long: real,
    radius: int,
    startTimeUnix: int,
    endTimeUnix: int,
    sort: int)

  /** The Python exceptions a malformed reply raises inside the loop. */
  datatype Error =
    | AttributeError  // `response` is null, so `.get('items', [])` is called on None
    | TypeError       // `count` is null, so `offset + len(items) >= None` is evaluated

  /** One output row, its columns in the order of vk_geotags.py:120. */
  datatype Row = Row(date: int, ownerId: Option<int>, photoId: Option<int>, lat: real, long: real)

  /** The five accumulator lists of vk_geotags.py:76-80. */
  datatype Columns = Columns(
    dates: seq<int>,
    ownerIds: seq<Option<int>>,
    photoIds: seq<Option<int>>,
    lats: seq<real>,
    longs: seq<real>)
  {
    predicate Aligned() {
      |ownerIds| == |dates| && |photoIds| == |dates| && |lats| == |dates| && |longs| == |dates|
    }
  }

  /** `np.column_stack((dates, owner_ids, photo_ids, lats, longs))`: row k holds entry
      k of every list. */
  function ColumnStack(c: Columns): (rows: seq<Row>)
    requires c.Aligned()
    ensures |rows| == |c.dates|
  {
    seq(|c.dates|, k requires 0 <= k < |c.dates| =>
      Row(c.dates[k], c.ownerIds[k], c.photoIds[k], c.lats[k], c.longs[k]))
  }

  /** Splits rows back into the five columns: the inverse of ColumnStack. */
  function Unstack(rows: seq<Row>): (c: Columns)
    ensures c.Aligned() && |c.dates| == |rows|
  {
    Columns(
      seq(|rows|, k requires 0 <= k < |rows| => rows[k].date),
      seq(|rows|, k requires 0 <= k < |rows| => rows[k].ownerId),
      seq(|rows|, k requires 0 <= k < |rows| => rows[k].photoId),
      seq(|rows|, k requires 0 <= k < |rows| => rows[k].lat),
      seq(|rows|, k requires 0 <= k < |rows| => rows[k].long))
  }

  lemma StackUnstack(rows: seq<Row>)
    ensures ColumnStack(Unstack(rows)) == rows
  {
  }

  lemma UnstackStack(c: Columns)
    requires c.Aligned()
    ensures Unstack(ColumnStack(c)) == c
  {
  }

  // ---------------------------------------------------------------------------
  // Filtering one page (vk_geotags.py:95-108)

  /** The test of vk_geotags.py:103. The id and the owner id are not looked at. */
  predicate Complete(item: Item) {
    item.date.Some? && item.lat.Some? && item.long.Some?
  }

  /** The five values appended for a complete item, as one row. */
  function RowOf(item: Item): Row
    requires Complete(item)
  {
    Row(item.date.value, item.ownerId, item.id, item.lat.value, item.long.value)
  }

  /** The rows a page's items add, in item order. */
  function Extract(items: seq<Item>): (rows: seq<Row>)
    ensures |rows| <= |items|
  {
    if items == [] then []
    else
      var last := items[|items| - 1];
      Extract(items[..|items| - 1]) + (if Complete(last) then [RowOf(last)] else [])
  }

  /** Filtering commutes with concatenation, so relative order is preserved. */
  lemma {:induction false} ExtractAppend(a: seq<Item>, b: seq<Item>)
    ensures Extract(a + b) == Extract(a) + Extract(b)
    decreases |b|
  {
    if b == [] {
      assert a + b == a;
    } else {
      var b' := b[..|b| - 1];
      assert (a + b)[..|a + b| - 1] == a + b';
      ExtractAppend(a, b');
    }
  }

  /** Every complete item gives a row, whatever its id and owner id. */
  lemma {:induction false} ExtractKeepsComplete(items: seq<Item>, k: nat)
    requires k < |items| && Complete(items[k])
    ensures RowOf(items[k]) in Extract(items)
    decreases |items|
  {
    if k < |items| - 1 {
      var init := items[..|items| - 1];
      assert init[k] == items[k];
      ExtractKeepsComplete(init, k);
    }
  }

  /** Every row comes from a complete item of the page. */
  lemma {:induction false} ExtractOnlyComplete(items: seq<Item>, r: Row)
    requires r in Extract(items)
    ensures exists k :: 0 <= k < |items| && Complete(items[k]) && RowOf(items[k]) == r
    decreases |items|
  {
    var init := items[..|items| - 1];
    var last := items[|items| - 1];
    if r in Extract(init) {
      ExtractOnlyComplete(init, r);
      var k :| 0 <= k < |init| && Complete(init[k]) && RowOf(init[k]) == r;
      assert items[k] == init[k];
    } else {
      assert Complete(last) && r == RowOf(last);
    }
  }

  /** A page of complete items is kept whole. */
  lemma {:induction false} ExtractAllComplete(items: seq<Item>)
    requires forall k :: 0 <= k < |items| ==> Complete(items[k])
    ensures |Extract(items)| == |items|
    ensures forall k :: 0 <= k < |items| ==> Extract(items)[k] == RowOf(items[k])
    decreases |items|
  {
    if items != [] {
      var init := items[..|items| - 1];
      ExtractAllComplete(init);
    }
  }

  // ---------------------------------------------------------------------------
  // One page (vk_geotags.py:84-114)

  /** `data.get('response', {}).get('items', [])` (vk_geotags.py:88). A missing
      `response` or `items` gives the empty list, a null `items` gives None, which the
      loop treats like an empty list; a null `response` raises. */
  function Received(reply: Reply): (r: Result<seq<Item>, Error>)
    ensures r.Err? <==> reply.response.Null?
    ensures r.Err? ==> r.error == AttributeError
    ensures r.Ok? && r.value != [] ==>
      reply.response.Present? && reply.response.value.items == Present(r.value)
    ensures reply.response.Present? && reply.response.value.items.Present? ==>
      r == Ok(reply.response.value.items.value)
  {
    match reply.response
    case Absent => Ok([])
    case Null => Err(AttributeError)
    case Present(body) => Ok(if body.items.Present? then body.items.value else [])
  }

  /** `data.get('response', {}).get('count', 0)` (vk_geotags.py:112), and whether it
      can be compared with an int (vk_geotags.py:113). */
  function TotalCount(reply: Reply): (r: Result<int, Error>)
    ensures r.Err? <==>
      reply.response.Null? || (reply.response.Present? && reply.response.value.count.Null?)
    ensures r == Err(AttributeError) <==> reply.response.Null?
    ensures r.Ok? && r.value != 0 ==>
      reply.response.Present? && reply.response.value.count == Present(r.value)
    ensures reply.response.Present? && reply.response.value.count.Present? ==>
      r == Ok(reply.response.value.count.value)
  {
    match reply.response
    case Absent => Ok(0)
    case Null => Err(AttributeError)
    case Present(body) =>
      match body.count
      case Absent => Ok(0)
      case Null => Err(TypeError)
      case Present(c) => Ok(c)
  }

  /** The number of items a reply carries, for bounds. */
  function ItemCount(reply: Reply): nat {
    match Received(reply)
    case Ok(items) => |items|
    case Err(_) => 0
  }

  /** What one iteration of the loop makes of a reply at a given offset: an
      exception, the rows it adds and a stop, or the rows it adds and a next page. */
  datatype PageResult = Raised(error: Error) | Last(rows: seq<Row>) | More(rows: seq<Row>)

  function Page(reply: Reply, offset: int): PageResult {
    match Received(reply)
    case Err(e) => Raised(e)
    case Ok(items) =>
      if items == [] then Last([])
      else
        match TotalCount(reply)
        case Err(e) => Raised(e)
        case Ok(total) =>
          if offset + |items| >= total then Last(Extract(items)) else More(Extract(items))
  }

  function PageRows(p: PageResult): seq<Row> {
    if p.Raised? then [] else p.rows
  }

  /** A page raises exactly when its reply raises before the count comparison, and
      with the exception of the read that failed; otherwise it adds the rows of its
      complete items. An empty page ends the run with no rows, and the run goes on
      exactly after a non-empty page whose offset plus item count stays below a
      well-formed total. */
  lemma PageCases(reply: Reply, offset: int)
    ensures var p := Page(reply, offset);
      (p.Raised? <==>
         Received(reply).Err? || (Received(reply).value != [] && TotalCount(reply).Err?))
      && (p.Raised? ==>
            p.error == if Received(reply).Err? then Received(reply).error else TotalCount(reply).error)
      && (Received(reply) == Ok([]) ==> p == Last([]))
      && (!p.Raised? ==> p.rows == Extract(Received(reply).value))
      && (p.More? <==>
            Received(reply).Ok? && Received(reply).value != [] && TotalCount(reply).Ok?
            && offset + |Received(reply).value| < TotalCount(reply).value)
  {
  }

  /** The `get_photos` call the loop makes for one offset (vk_geotags.py:84-87). */
  function Request(s: Search, offset: int): PhotosArgs {
    PhotosArgs(s.q, s.lat, s.long, s.radius, s.startTimeUnix, s.endTimeUnix,
               PageSize, offset, s.sort)
  }

  function PageAt(fetch: Fetcher, s: Search, offset: int): PageResult {
    Page(fetch(Request(s, offset)), offset)
  }

  // ---------------------------------------------------------------------------
  // The whole loop

  /** What a run produces: the rows (or the exception that ended it) and the
      requests sent, in order. */
  datatype Trace = Trace(outcome: Result<seq<Row>, Error>, requests: seq<PhotosArgs>)

  /** The control flow of the loop, seen through the results of its pages in offset
      order: the outcome, and how many pages were asked for. */
  datatype Run = Run(outcome: Result<seq<Row>, Error>, asked: nat)

  /** A run that follows rows already accumulated over `n` pages already asked for. */
  function Resumed(rows: seq<Row>, n: nat, r: Run): Run {
    Run(if r.outcome.Ok? then Ok(rows + r.outcome.value) else r.outcome, n + r.asked)
  }

  lemma ResumedNothing(r: Run)
    ensures Resumed([], 0, r) == r
  {
    if r.outcome.Ok? {
      assert [] + r.outcome.value == r.outcome.value;
    }
  }

  lemma ResumedTwice(rows: seq<Row>, n: nat, more: seq<Row>, m: nat, r: Run)
    ensures Resumed(rows, n, Resumed(more, m, r)) == Resumed(rows + more, n + m, r)
  {
    if r.outcome.Ok? {
      assert rows + (more + r.outcome.value) == (rows + more) + r.outcome.value;
    }
  }

  /** The loop over a list of page results: stop on a page that raises or ends the
      run, go on after a page that asks for more. */
  function Drive(pages: seq<PageResult>): (r: Run)
    ensures r.asked <= |pages|
    ensures pages != [] ==> r.asked >= 1
    decreases |pages|
  {
    if pages == [] then Run(Ok([]), 0)
    else
      match pages[0]
      case Raised(e) => Run(Err(e), 1)
      case Last(rows) => Run(Ok(rows), 1)
      case More(rows) => Resumed(rows, 1, Drive(pages[1..]))
  }

  /** The rows of a list of page results, concatenated in order. */
  function Collected(pages: seq<PageResult>): seq<Row>
    decreases |pages|
  {
    if pages == [] then [] else PageRows(pages[0]) + Collected(pages[1..])
  }

  /** What the server's reply at each offset makes of that page. */
  function Pages(fetch: Fetcher, s: Search, offsets: seq<int>): (ps: seq<PageResult>)
    ensures |ps| == |offsets|
  {
    seq(|offsets|, i requires 0 <= i < |offsets| => PageAt(fetch, s, offsets[i]))
  }

  /** The request for each offset. */
  function Requests(s: Search, offsets: seq<int>): (rs: seq<PhotosArgs>)
    ensures |rs| == |offsets|
  {
    seq(|offsets|, i requires 0 <= i < |offsets| => Request(s, offsets[i]))
  }

  /** Reference definition of the loop over a list of offsets. */
  function Crawl(fetch: Fetcher, s: Search, offsets: seq<int>): (t: Trace)
    ensures |t.requests| <= |offsets|
    ensures offsets != [] ==> |t.requests| >= 1
  {
    var r := Drive(Pages(fetch, s, offsets));
    Trace(r.outcome, Requests(s, offsets[..r.asked]))
  }

  /** The rows of the pages at the given offsets, concatenated in order. */
  function RowsOver(fetch: Fetcher, s: Search, offsets: seq<int>): seq<Row> {
    Collected(Pages(fetch, s, offsets))
  }

  /** The number of items each reply at the given offsets carries. */
  function ItemCounts(fetch: Fetcher, s: Search, offsets: seq<int>): (cs: seq<nat>)
    ensures |cs| == |offsets|
  {
    seq<nat>(|offsets|, i requires 0 <= i < |offsets| => ItemCount(fetch(Request(s, offsets[i]))))
  }

  function Sum(ns: seq<nat>): nat
    decreases |ns|
  {
    if ns == [] then 0 else ns[0] + Sum(ns[1..])
  }

  lemma PagesPrefix(fetch: Fetcher, s: Search, offsets: seq<int>, n: nat)
    requires n <= |offsets|
    ensures Pages(fetch, s, offsets)[..n] == Pages(fetch, s, offsets[..n])
  {
  }

  lemma PagesFrom(fetch: Fetcher, s: Search, offsets: seq<int>, i: nat)
    requires i < |offsets|
    ensures Pages(fetch, s, offsets)[i..][0] == PageAt(fetch, s, offsets[i])
    ensures Pages(fetch, s, offsets)[i..][1..] == Pages(fetch, s, offsets)[i + 1..]
  {
  }

  lemma RequestsSnoc(s: Search, offsets: seq<int>, i: nat)
    requires i < |offsets|
    ensures Requests(s, offsets[..i]) + [Request(s, offsets[i])]
         == Requests(s, offsets[..i + 1])
  {
  }

  /** The inner loop of vk_geotags.py:95-108: append the five values of every
      complete item of a page to the five lists, in item order. */
  method AppendComplete(acc: Columns, items: seq<Item>) returns (out: Columns)
    requires acc.Aligned()
    ensures out.Aligned()
    ensures ColumnStack(out) == ColumnStack(acc) + Extract(items)
  {
    var dates, ownerIds, photoIds, lats, longs :=
      acc.dates, acc.ownerIds, acc.photoIds, acc.lats, acc.longs;
    ghost var rows := ColumnStack(acc);
    var j := 0;
    while j < |items|
      invariant 0 <= j <= |items|
      invariant |lats| == |dates| && |longs| == |dates| && |photoIds| == |dates|
      invariant |ownerIds| == |dates| && |rows| == |dates|
      invariant forall k :: 0 <= k < |rows| ==>
        rows[k] == Row(dates[k], ownerIds[k], photoIds[k], lats[k], longs[k])
      invariant rows == ColumnStack(acc) + Extract(items[..j])
    {
      var item := items[j];
      assert items[..j + 1][..j] == items[..j];
      if item.date.Some? && item.lat.Some? && item.long.Some? {
        dates := dates + [item.date.value];
        lats := lats + [item.lat.value];
        longs := longs + [item.long.value];
        photoIds := photoIds + [item.id];
        ownerIds := ownerIds + [item.ownerId];
        rows := rows + [RowOf(item)];
      }
      j := j + 1;
    }
    assert items[..j] == items;
    out := Columns(dates, ownerIds, photoIds, lats, longs);
    assert ColumnStack(out) == rows;
  }

  /** The loop of vk_geotags.py:75-116. `acc` holds the five accumulator lists. It
      returns the rows `np.column_stack` is given, or the exception that ended the
      loop, and the requests sent. */
  method GetGeotagRows(fetch: Fetcher, s: Search)
    returns (outcome: Result<seq<Row>, Error>, requests: seq<PhotosArgs>)
    ensures Trace(outcome, requests) == Crawl(fetch, s, PageOffsets)
  {
    var acc := Columns([], [], [], [], []);
    ghost var pages := Pages(fetch, s, PageOffsets);
    requests := [];
    var i := 0;
    assert pages[0..] == pages;
    ResumedNothing(Drive(pages));
    while i < |PageOffsets|
      invariant 0 <= i <= |PageOffsets| && requests == Requests(s, PageOffsets[..i])
      invariant acc.Aligned()
      invariant Drive(pages) == Resumed(ColumnStack(acc), i, Drive(pages[i..]))
      invariant ColumnStack(acc) == Collected(pages[..i])
    {
      var offset := PageOffsets[i];
      var request := Request(s, offset);
      RequestsSnoc(s, PageOffsets, i);
      requests := requests + [request];
      var reply := fetch(request);
      PagesFrom(fetch, s, PageOffsets, i);
      var received := Received(reply);
      if received.Err? {
        outcome := Err(received.error);
        return;
      }
      var items := received.value;
      if items == [] {
        assert ColumnStack(acc) + [] == ColumnStack(acc);
        break;
      }
      ghost var before := ColumnStack(acc);
      acc := AppendComplete(acc, items);
      var total := TotalCount(reply);
      if total.Err? {
        outcome := Err(total.error);
        return;
      }
      if offset + |items| >= total.value {
        break;
      }
      ResumedTwice(before, i, Extract(items), 1, Drive(pages[i + 1..]));
      CollectedPrefix(pages, i);
      i := i + 1;
    }
    outcome := Ok(ColumnStack(acc));
    if i == |PageOffsets| {
      assert pages[i..] == [];
      assert ColumnStack(acc) + [] == ColumnStack(acc);
    }
  }

  // ---------------------------------------------------------------------------
  // Properties of the loop over any list of page results

  /** Every page but the last one asked for continues; when fewer pages than there
      are were asked for, the last one did not. */
  lemma {:induction false} DriveStops(pages: seq<PageResult>)
    ensures var r := Drive(pages);
      (forall i :: 0 <= i < r.asked - 1 ==> pages[i].More?)
      && (0 < r.asked < |pages| ==> !pages[r.asked - 1].More?)
    decreases |pages|
  {
    if pages != [] && pages[0].More? {
      var rest := pages[1..];
      DriveStops(rest);
      var n := Drive(rest).asked;
      forall i | 0 < i < n ensures pages[i].More? {
        assert pages[i] == rest[i - 1];
      }
      if 0 < n {
        assert pages[n] == rest[n - 1];
      }
    }
  }

  /** A run fails exactly when its last page raised, with that page's exception;
      otherwise its rows are those of the pages asked for, in order. */
  lemma {:induction false} DriveOutcome(pages: seq<PageResult>)
    ensures var r := Drive(pages);
      (r.outcome.Err? <==> 0 < r.asked && pages[r.asked - 1].Raised?)
      && (r.outcome.Err? ==> r.outcome.error == pages[r.asked - 1].error)
      && (r.outcome.Ok? ==> r.outcome.value == Collected(pages[..r.asked]))
    decreases |pages|
  {
    if pages != [] {
      if pages[0].More? {
        var rest := pages[1..];
        DriveOutcome(rest);
        var n := Drive(rest).asked;
        assert pages[..n + 1][0] == pages[0];
        assert pages[..n + 1][1..] == rest[..n];
        if n > 0 {
          assert pages[n] == rest[n - 1];
        }
      } else {
        assert pages[..1][1..] == [];
      }
    }
  }

  /** Collected grows page by page. */
  lemma {:induction false} CollectedSnoc(pages: seq<PageResult>, p: PageResult)
    ensures Collected(pages + [p]) == Collected(pages) + PageRows(p)
    decreases |pages|
  {
    if pages == [] {
      assert ([] + [p])[1..] == [];
    } else {
      assert (pages + [p])[1..] == pages[1..] + [p];
      CollectedSnoc(pages[1..], p);
    }
  }

  /** Collected over one more page of the same list. */
  lemma CollectedPrefix(pages: seq<PageResult>, i: nat)
    requires i < |pages|
    ensures Collected(pages[..i + 1]) == Collected(pages[..i]) + PageRows(pages[i])
  {
    assert pages[..i + 1] == pages[..i] + [pages[i]];
    CollectedSnoc(pages[..i], pages[i]);
  }

  /** Pages that each add at most their count of rows add at most the sum. */
  lemma {:induction false} CollectedBound(pages: seq<PageResult>, counts: seq<nat>)
    requires |counts| == |pages|
    requires forall i :: 0 <= i < |pages| ==> |PageRows(pages[i])| <= counts[i]
    ensures |Collected(pages)| <= Sum(counts)
    decreases |pages|
  {
    if pages != [] {
      forall i | 0 <= i < |pages| - 1 ensures |PageRows(pages[1..][i])| <= counts[1..][i] {
        assert pages[1..][i] == pages[i + 1] && counts[1..][i] == counts[i + 1];
      }
      CollectedBound(pages[1..], counts[1..]);
    }
  }

  lemma {:induction false} SumBound(counts: seq<nat>, cap: nat)
    requires forall i :: 0 <= i < |counts| ==> counts[i] <= cap
    ensures Sum(counts) <= cap * |counts|
    decreases |counts|
  {
    if counts != [] {
      forall i | 0 <= i < |counts| - 1 ensures counts[1..][i] <= cap {
        assert counts[1..][i] == counts[i + 1];
      }
      SumBound(counts[1..], cap);
    }
  }

  /** A page adds at most as many rows as its reply carries items. */
  lemma PageRowsBound(reply: Reply, offset: int)
    ensures |PageRows(Page(reply, offset))| <= ItemCount(reply)
  {
  }

  // ---------------------------------------------------------------------------
  // Properties of the loop over any list of offsets

  /** Every page but the last one requested continues; a run that stops before the
      offsets run out stops on a page that does not continue. */
  lemma CrawlStops(fetch: Fetcher, s: Search, offsets: seq<int>)
    ensures var t := Crawl(fetch, s, offsets);
      (forall i :: 0 <= i < |t.requests| - 1 ==> PageAt(fetch, s, offsets[i]).More?)
      && (0 < |t.requests| < |offsets| ==> !PageAt(fetch, s, offsets[|t.requests| - 1]).More?)
  {
    var pages := Pages(fetch, s, offsets);
    DriveStops(pages);
    var n := Drive(pages).asked;
    assert |Crawl(fetch, s, offsets).requests| == n;
    forall i | 0 <= i < n - 1 ensures PageAt(fetch, s, offsets[i]).More? {
      assert pages[i] == PageAt(fetch, s, offsets[i]);
    }
    if 0 < n < |offsets| {
      assert pages[n - 1] == PageAt(fetch, s, offsets[n - 1]);
    }
  }

  /** A run fails exactly when its last page raised, with that page's exception;
      otherwise its rows are those of the pages requested, in order. */
  lemma CrawlOutcome(fetch: Fetcher, s: Search, offsets: seq<int>)
    ensures var t := Crawl(fetch, s, offsets);
      (t.outcome.Err? <==>
         0 < |t.requests| && PageAt(fetch, s, offsets[|t.requests| - 1]).Raised?)
      && (t.outcome.Err? ==> t.outcome.error == PageAt(fetch, s, offsets[|t.requests| - 1]).error)
      && (t.outcome.Ok? ==> t.outcome.value == RowsOver(fetch, s, offsets[..|t.requests|]))
  {
    var pages := Pages(fetch, s, offsets);
    DriveOutcome(pages);
    PagesPrefix(fetch, s, offsets, Drive(pages).asked);
  }

  /** RowsOver grows page by page. */
  lemma RowsOverSnoc(fetch: Fetcher, s: Search, offsets: seq<int>, o: int)
    ensures RowsOver(fetch, s, offsets + [o])
         == RowsOver(fetch, s, offsets) + PageRows(PageAt(fetch, s, o))
  {
    assert Pages(fetch, s, offsets + [o]) == Pages(fetch, s, offsets) + [PageAt(fetch, s, o)];
    CollectedSnoc(Pages(fetch, s, offsets), PageAt(fetch, s, o));
  }

  /** The rows of a list of pages are at most the items they carry. */
  lemma RowsOverBound(fetch: Fetcher, s: Search, offsets: seq<int>)
    ensures |RowsOver(fetch, s, offsets)| <= Sum(ItemCounts(fetch, s, offsets))
  {
    var pages := Pages(fetch, s, offsets);
    var counts := ItemCounts(fetch, s, offsets);
    forall i | 0 <= i < |pages| ensures |PageRows(pages[i])| <= counts[i] {
      PageRowsBound(fetch(Request(s, offsets[i])), offsets[i]);
    }
    CollectedBound(pages, counts);
  }

  // ---------------------------------------------------------------------------
  // Properties of the loop over offsets 0, 1000, 2000

  /** One to three requests, at offsets 0, 1000, 2000 in that order, each asking for
      1000 items. */
  lemma RequestedPages(fetch: Fetcher, s: Search)
    ensures var t := Crawl(fetch, s, PageOffsets);
      1 <= |t.requests| <= 3
      && forall i :: 0 <= i < |t.requests| ==>
           t.requests[i] == Request(s, PageOffsets[i])
           && t.requests[i].offset == PageSize * i
           && t.requests[i].count == PageSize
  {
  }

  /** The query strings sent: every one carries the search's own radius, unchecked,
      a count of 1000 and the offset of its page, besides the eleven keys. */
  lemma SentQueries(fetch: Fetcher, s: Search, cfg: Config)
    ensures var t := Crawl(fetch, s, PageOffsets);
      forall i :: 0 <= i < |t.requests| ==>
        var m := Parameters(t.requests[i], cfg);
        m.Keys == ParameterKeys
        && m[Radius] == Integer(s.radius)
        && m[Count] == Integer(PageSize)
        && m[Offset] == Integer(PageSize * i)
  {
    RequestedPages(fetch, s);
  }

  /** A requested page that ends the run without raising is the last one requested,
      and the run's rows are those before it followed by its own. */
  lemma LastPageIsFinal(fetch: Fetcher, s: Search, i: nat)
    requires i < |Crawl(fetch, s, PageOffsets).requests|
    requires PageAt(fetch, s, PageOffsets[i]).Last?
    ensures var t := Crawl(fetch, s, PageOffsets);
      |t.requests| == i + 1
      && t.outcome == Ok(RowsOver(fetch, s, PageOffsets[..i])
                         + PageAt(fetch, s, PageOffsets[i]).rows)
  {
    var t := Crawl(fetch, s, PageOffsets);
    CrawlStops(fetch, s, PageOffsets);
    CrawlOutcome(fetch, s, PageOffsets);
    assert |t.requests| == i + 1;
    assert t.outcome == Ok(RowsOver(fetch, s, PageOffsets[..i + 1]));
    assert PageOffsets[..i + 1] == PageOffsets[..i] + [PageOffsets[i]];
    RowsOverSnoc(fetch, s, PageOffsets[..i], PageOffsets[i]);
  }

  /** An empty page (or one whose `response` or `items` is missing or null) ends the
      run at once and adds nothing. */
  lemma EmptyPageIsFinal(fetch: Fetcher, s: Search, i: nat)
    requires i < |Crawl(fetch, s, PageOffsets).requests|
    requires Received(fetch(Request(s, PageOffsets[i]))) == Ok([])
    ensures var t := Crawl(fetch, s, PageOffsets);
      |t.requests| == i + 1 && t.outcome == Ok(RowsOver(fetch, s, PageOffsets[..i]))
  {
    assert PageAt(fetch, s, PageOffsets[i]) == Last([]);
    LastPageIsFinal(fetch, s, i);
    assert RowsOver(fetch, s, PageOffsets[..i]) + [] == RowsOver(fetch, s, PageOffsets[..i]);
  }

  /** A non-empty page whose offset plus item count reaches the reported total ends
      the run, after its rows are added. */
  lemma CountReachedIsFinal(fetch: Fetcher, s: Search, i: nat, items: seq<Item>, total: int)
    requires i < |Crawl(fetch, s, PageOffsets).requests|
    requires Received(fetch(Request(s, PageOffsets[i]))) == Ok(items) && items != []
    requires TotalCount(fetch(Request(s, PageOffsets[i]))) == Ok(total)
    requires PageOffsets[i] + |items| >= total
    ensures var t := Crawl(fetch, s, PageOffsets);
      |t.requests| == i + 1
      && t.outcome == Ok(RowsOver(fetch, s, PageOffsets[..i]) + Extract(items))
  {
    assert PageAt(fetch, s, PageOffsets[i]) == Last(Extract(items));
    LastPageIsFinal(fetch, s, i);
  }

  /** Conversely, a next page is asked for only after a non-empty page whose offset
      plus item count stays below a well-formed reported total. */
  lemma ContinuesOnlyWhenShort(fetch: Fetcher, s: Search, i: nat)
    requires i + 1 < |Crawl(fetch, s, PageOffsets).requests|
    ensures var reply := fetch(Request(s, PageOffsets[i]));
      Received(reply).Ok? && Received(reply).value != [] && TotalCount(reply).Ok?
      && PageOffsets[i] + |Received(reply).value| < TotalCount(reply).value
  {
    CrawlStops(fetch, s, PageOffsets);
    assert PageAt(fetch, s, PageOffsets[i]).More?;
  }

  /** A missing `count` counts as 0, so a non-empty first page without one is the
      only page asked for. */
  lemma MissingCountStopsAfterFirst(fetch: Fetcher, s: Search, items: seq<Item>)
    requires items != []
    requires fetch(Request(s, 0)).response == Present(Body(Present(items), Absent))
    ensures Crawl(fetch, s, PageOffsets) == Trace(Ok(Extract(items)), [Request(s, 0)])
  {
  }

  /** The first page is empty: no rows and no second request. This covers a reply
      without a `response` key; if the server rejects the request, its error object
      has no such key. */
  lemma FirstPageEmpty(fetch: Fetcher, s: Search)
    requires Received(fetch(Request(s, 0))) == Ok([])
    ensures Crawl(fetch, s, PageOffsets) == Trace(Ok([]), [Request(s, 0)])
  {
  }

  /** Three full pages with a total of 3000: three requests, and the rows of all
      three pages in request order. */
  lemma ThreeFullPages(fetch: Fetcher, s: Search, pages: seq<seq<Item>>)
    requires |pages| == 3
    requires forall i :: 0 <= i < 3 ==>
      Received(fetch(Request(s, PageOffsets[i]))) == Ok(pages[i])
      && |pages[i]| == PageSize
      && TotalCount(fetch(Request(s, PageOffsets[i]))) == Ok(3 * PageSize)
    ensures Crawl(fetch, s, PageOffsets)
         == Trace(Ok(Extract(pages[0]) + Extract(pages[1]) + Extract(pages[2])),
                  [Request(s, 0), Request(s, 1000), Request(s, 2000)])
  {
    var e0, e1, e2 := Extract(pages[0]), Extract(pages[1]), Extract(pages[2]);
    ThreePages(fetch, s, pages);
    DriveThree(e0, e1, e2);
    assert PageOffsets[..3] == PageOffsets;
  }

  lemma ThreePages(fetch: Fetcher, s: Search, pages: seq<seq<Item>>)
    requires |pages| == 3
    requires forall i :: 0 <= i < 3 ==>
      Received(fetch(Request(s, PageOffsets[i]))) == Ok(pages[i])
      && |pages[i]| == PageSize
      && TotalCount(fetch(Request(s, PageOffsets[i]))) == Ok(3 * PageSize)
    ensures Pages(fetch, s, PageOffsets)
         == [More(Extract(pages[0])), More(Extract(pages[1])), Last(Extract(pages[2]))]
  {
    forall i | 0 <= i < 3
      ensures PageAt(fetch, s, PageOffsets[i])
           == if i < 2 then More(Extract(pages[i])) else Last(Extract(pages[i]))
    {
      PageCases(fetch(Request(s, PageOffsets[i])), PageOffsets[i]);
    }
  }

  lemma DriveThree(e0: seq<Row>, e1: seq<Row>, e2: seq<Row>)
    ensures Drive([More(e0), More(e1), Last(e2)]) == Run(Ok(e0 + e1 + e2), 3)
  {
    var ps := [More(e0), More(e1), Last(e2)];
    assert ps[1..][1..] == [Last(e2)];
    assert Drive(ps[1..][1..]) == Run(Ok(e2), 1);
    assert ps[1..] == [More(e1), Last(e2)];
    assert Drive(ps[1..]) == Resumed(e1, 1, Run(Ok(e2), 1));
    assert e0 + (e1 + e2) == e0 + e1 + e2;
  }

  /** The rows never outnumber the items received on the pages asked for. */
  lemma RowsWithinItems(fetch: Fetcher, s: Search)
    ensures var t := Crawl(fetch, s, PageOffsets);
      t.outcome.Ok? ==>
        |t.outcome.value| <= Sum(ItemCounts(fetch, s, PageOffsets[..|t.requests|]))
  {
    var t := Crawl(fetch, s, PageOffsets);
    CrawlOutcome(fetch, s, PageOffsets);
    RowsOverBound(fetch, s, PageOffsets[..|t.requests|]);
  }

  /** When the server keeps to the page size, a run yields at most 3000 rows. */
  lemma AtMostThreePages(fetch: Fetcher, s: Search)
    requires forall i :: 0 <= i < |PageOffsets| ==>
      ItemCount(fetch(Request(s, PageOffsets[i]))) <= PageSize
    ensures var t := Crawl(fetch, s, PageOffsets);
      t.outcome.Ok? ==> |t.outcome.value| <= 3 * PageSize
  {
    var t := Crawl(fetch, s, PageOffsets);
    var counts := ItemCounts(fetch, s, PageOffsets[..|t.requests|]);
    RowsWithinItems(fetch, s);
    SumBound(counts, PageSize);
  }
}
