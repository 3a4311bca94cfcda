/** Cursor pagination over the group replies of the chat log, newest first. */
module Pagination {
  import opened PyValue
  import opened Registry

  datatype Row = Row(id: int, role: string, session: string, meta: Object)

  // ---- Filters

  /** SQLite's `LIKE 'group_%'`: ASCII case is ignored and the underscore stands for any character. */
  predicate LikeGroup(session: string) {
    |session| >= 6 && Lower(session[..5]) == "group"
  }

  predicate InScope(r: Row, group: string) {
    r.role == "assistant" && LikeGroup(r.session) && (group == "" || r.session == group)
  }

  predicate OfKind(r: Row, kind: string) {
    kind == "" || Get(r.meta, "kind") == Str(kind)
  }

  function Scope(table: seq<Row>, group: string): seq<Row> {
    if table == [] then []
    else (if InScope(table[0], group) then [table[0]] else []) + Scope(table[1..], group)
  }

  function Matching(rows: seq<Row>, kind: string): seq<Row> {
    if rows == [] then []
    else (if OfKind(rows[0], kind) then [rows[0]] else []) + Matching(rows[1..], kind)
  }

  /** Rows with a smaller id; 0 is no bound. */
  function Below(rows: seq<Row>, cursor: int): seq<Row> {
    if cursor == 0 || rows == [] then rows
    else (if rows[0].id < cursor then [rows[0]] else []) + Below(rows[1..], cursor)
  }

  ghost predicate AllBelow(rows: seq<Row>, bound: int) {
    forall r | r in rows :: r.id < bound
  }

  /** `ORDER BY id DESC` over positive, unique ids. */
  ghost predicate Descending(rows: seq<Row>) {
    rows == [] || (rows[0].id >= 1 && AllBelow(rows[1..], rows[0].id) && Descending(rows[1..]))
  }

  function Take(n: nat, rows: seq<Row>): seq<Row> {
    if |rows| <= n then rows else rows[..n]
  }

  // ---- Reference

  datatype Page = Page(items: seq<Row>, hasMore: bool, nextBeforeId: int)

  /** The first `limit` matching rows below the cursor. */
  ghost predicate IsPage(rows: seq<Row>, kind: string, limit: nat, before: int, page: Page) {
    var matches := Matching(Below(rows, before), kind);
    && page.items == Take(limit, matches)
    && (page.hasMore <==> |matches| > limit)
    && page.nextBeforeId == if page.items != [] then LastId(page.items) else LastId(Below(rows, before))
  }

  /** The id of the last row, 0 if there is none. */
  function LastId(rows: seq<Row>): int {
    if rows == [] then 0 else rows[|rows| - 1].id
  }

  lemma {:induction false} MatchingConcat(a: seq<Row>, b: seq<Row>, kind: string)
    ensures Matching(a + b, kind) == Matching(a, kind) + Matching(b, kind)
  {
    if a == [] {
      assert a + b == b;
    } else {
      assert (a + b)[1..] == a[1..] + b;
      MatchingConcat(a[1..], b, kind);
    }
  }

  lemma {:induction false} BelowAll(rows: seq<Row>, cursor: int)
    requires AllBelow(rows, cursor)
    ensures Below(rows, cursor) == rows
  {
    if cursor != 0 && rows != [] {
      assert rows[0] in rows;
      BelowAll(rows[1..], cursor);
      assert rows == [rows[0]] + rows[1..];
    }
  }

  /** The rows below a row are the rows after it. */
  lemma {:induction false} BelowRow(rows: seq<Row>, k: nat)
    requires Descending(rows) && k < |rows|
    ensures Below(rows, rows[k].id) == rows[k + 1..] && rows[k].id >= 1
  {
    if k == 0 {
      BelowAll(rows[1..], rows[0].id);
    } else {
      assert rows[1..][k - 1] == rows[k];
      BelowRow(rows[1..], k - 1);
      assert rows[1..][k..] == rows[k + 1..];
      assert rows[1..][k - 1] in rows[1..];
    }
  }

  lemma DescendingCons(head: Row, rest: seq<Row>)
    requires Descending(rest) && head.id >= 1 && AllBelow(rest, head.id)
    ensures Descending([head] + rest)
  {
    assert ([head] + rest)[1..] == rest;
  }

  lemma {:induction false} BelowDescending(rows: seq<Row>, cursor: int)
    requires Descending(rows)
    ensures Descending(Below(rows, cursor))
    ensures forall r | r in Below(rows, cursor) :: r in rows && (cursor != 0 ==> r.id < cursor)
  {
    if cursor != 0 && rows != [] {
      BelowDescending(rows[1..], cursor);
      var kept := Below(rows[1..], cursor);
      assert AllBelow(kept, rows[0].id);
      if rows[0].id < cursor {
        DescendingCons(rows[0], kept);
      } else {
        assert Below(rows, cursor) == kept;
      }
    }
  }

  /** A lower cursor cuts further into the same rows. */
  lemma {:induction false} BelowTwice(rows: seq<Row>, high: int, low: int)
    requires Descending(rows) && low != 0 && (high == 0 || low <= high)
    ensures Below(Below(rows, high), low) == Below(rows, low)
  {
    if high != 0 && rows != [] {
      BelowTwice(rows[1..], high, low);
      var kept := Below(rows[1..], high);
      if rows[0].id < high {
        assert ([rows[0]] + kept)[1..] == kept;
      } else {
        assert Below(rows, high) == kept;
      }
    }
  }

  // ---- The loop

  function PageLimit(limit: int): nat {
    if limit < 1 then 1 else if limit > 100 then 100 else limit
  }

  function BatchSize(limit: nat): nat {
    if limit * 3 > 200 then limit * 3 else 200
  }

  /** Adds the matching rows of a batch until one more than a page is collected. */
  method ScanBatch(batch: seq<Row>, kind: string, limit: nat, found: seq<Row>) returns (items: seq<Row>)
    requires |found| <= limit
    ensures items == Take(limit + 1, found + Matching(batch, kind))
  {
    items := found;
    for i := 0 to |batch|
      invariant |items| <= limit
      invariant items + Matching(batch[i..], kind) == found + Matching(batch, kind)
    {
      assert batch[i..][1..] == batch[i + 1..];
      if OfKind(batch[i], kind) {
        items := items + [batch[i]];
        if |items| > limit {
          assert items <= found + Matching(batch, kind);
          return;
        }
      }
    }
    assert items + [] == items;
  }

  /** One query: the next rows below the cursor. */
  function Batch(rows: seq<Row>, cursor: int, size: nat): seq<Row> {
    Take(size, Below(rows, cursor))
  }

  method ModelReplies(table: seq<Row>, group: string, kind: string, limit: int, beforeId: int) returns (page: Page)
    requires Descending(table)
    ensures IsPage(Scope(table, group), kind, PageLimit(limit), beforeId, page)
  {
    ScopeDescending(table, group);
    var rows := Scope(table, group);
    var size := PageLimit(limit);
    var batchSize := BatchSize(size);
    var items: seq<Row> := [];
    var cursor := beforeId;
    var lastScanned := 0;
    ghost var all := Matching(Below(rows, beforeId), kind);
    while |items| <= size
      invariant Scanned(rows, beforeId, cursor, lastScanned)
      invariant Collected(items, Matching(Below(rows, cursor), kind), all, size)
      decreases |items| <= size, |Below(rows, cursor)|
    {
      var batch := Batch(rows, cursor, batchSize);
      if batch == [] {
        break;
      }
      NextBatch(rows, cursor, batchSize, kind);
      ScanFurther(rows, beforeId, cursor, lastScanned, batchSize);
      cursor := batch[|batch| - 1].id;
      lastScanned := cursor;
      ghost var before := items;
      items := ScanBatch(batch, kind, size, items);
      PageSoFar(before, Matching(batch, kind), Matching(Below(rows, cursor), kind), all, size);
      if |batch| < batchSize {
        break;
      }
    }
    if |items| <= size {
      ScannedAll(rows, beforeId, cursor, lastScanned);
    }
    page := Cut(items, size, lastScanned, Matching(Below(rows, cursor), kind), all);
  }

  /** The cursor is the initial one, or the id of the row scanned last. */
  ghost predicate Scanned(rows: seq<Row>, before: int, cursor: int, lastScanned: int) {
    if lastScanned == 0 then cursor == before
    else cursor == lastScanned && (before == 0 || cursor < before)
         && exists r | r in Below(rows, before) :: r.id == cursor
  }

  lemma ScanFurther(rows: seq<Row>, before: int, cursor: int, lastScanned: int, size: nat)
    requires Descending(rows) && Scanned(rows, before, cursor, lastScanned) && Batch(rows, cursor, size) != []
    ensures var next := LastId(Batch(rows, cursor, size)); next != 0 && Scanned(rows, before, next, next)
  {
    var batch := Batch(rows, cursor, size);
    var r := batch[|batch| - 1];
    assert r in Below(rows, cursor);
    BelowDescending(rows, cursor);
    BelowRow(Below(rows, cursor), |batch| - 1);
    BelowDescending(rows, before);
    if lastScanned != 0 {
      BelowTwice(rows, before, cursor);
      BelowDescending(Below(rows, before), cursor);
    }
  }

  lemma LowestRow(rows: seq<Row>, r: Row)
    requires Descending(rows) && r in rows && Below(rows, r.id) == []
    ensures r.id == LastId(rows)
  {
    var k :| 0 <= k < |rows| && rows[k] == r;
    BelowRow(rows, k);
  }

  lemma ScannedAll(rows: seq<Row>, before: int, cursor: int, lastScanned: int)
    requires Descending(rows) && Scanned(rows, before, cursor, lastScanned) && Below(rows, cursor) == []
    ensures lastScanned == LastId(Below(rows, before))
  {
    if lastScanned != 0 {
      var r :| r in Below(rows, before) && r.id == cursor;
      BelowDescending(rows, before);
      BelowTwice(rows, before, cursor);
      LowestRow(Below(rows, before), r);
    }
  }

  /** The page proper: one row beyond it only tells that there is more. */
  method Cut(items: seq<Row>, size: nat, lastScanned: int, ghost rest: seq<Row>, ghost all: seq<Row>)
    returns (page: Page)
    requires Collected(items, rest, all, size) && (|items| <= size ==> rest == [])
    ensures page.items == Take(size, all) && (page.hasMore <==> |all| > size)
    ensures page.nextBeforeId == if page.items != [] then LastId(page.items) else lastScanned
  {
    CollectedAll(items, rest, all, size);
    var hasMore := |items| > size;
    var shown := if hasMore then items[..size] else items;
    page := Page(shown, hasMore, if shown != [] then shown[|shown| - 1].id else lastScanned);
  }

  /** `items` is what has been found of `all`, of which `rest` is still ahead; one row beyond a page is enough. */
  ghost predicate Collected(items: seq<Row>, rest: seq<Row>, all: seq<Row>, size: nat) {
    if |items| <= size then items + rest == all else items == Take(size + 1, all)
  }

  lemma CollectedAll(items: seq<Row>, rest: seq<Row>, all: seq<Row>, size: nat)
    requires Collected(items, rest, all, size) && (|items| <= size ==> rest == [])
    ensures |items| > size <==> |all| > size
    ensures (if |items| > size then items[..size] else items) == Take(size, all)
  {
    assert rest == [] ==> items + rest == items;
  }

  /** After a batch the cursor leaves the remaining rows below it. */
  lemma NextBatch(rows: seq<Row>, cursor: int, size: nat, kind: string)
    requires Descending(rows) && Batch(rows, cursor, size) != []
    ensures var batch := Batch(rows, cursor, size);
            var next := batch[|batch| - 1].id;
            && next >= 1
            && |Below(rows, next)| < |Below(rows, cursor)|
            && (|batch| < size ==> Below(rows, next) == [])
            && Matching(Below(rows, cursor), kind) == Matching(batch, kind) + Matching(Below(rows, next), kind)
  {
    var left := Below(rows, cursor);
    var batch := Batch(rows, cursor, size);
    BelowDescending(rows, cursor);
    var k := |batch| - 1;
    assert batch == left[..k + 1] && batch[k] == left[k];
    BelowRow(left, k);
    assert left[k] in left;
    BelowTwice(rows, cursor, left[k].id);
    assert left == left[..k + 1] + left[k + 1..];
    MatchingConcat(left[..k + 1], left[k + 1..], kind);
  }

  lemma PageSoFar(before: seq<Row>, found: seq<Row>, rest: seq<Row>, all: seq<Row>, size: nat)
    requires before + (found + rest) == all
    ensures Collected(Take(size + 1, before + found), rest, all, size)
  {
    assert (before + found) + rest == before + (found + rest);
  }

  lemma {:induction false} ScopeDescending(table: seq<Row>, group: string)
    requires Descending(table)
    ensures Descending(Scope(table, group))
    ensures forall r | r in Scope(table, group) :: r in table
  {
    if table != [] {
      ScopeDescending(table[1..], group);
      assert AllBelow(Scope(table[1..], group), table[0].id);
      if InScope(table[0], group) {
        DescendingCons(table[0], Scope(table[1..], group));
      } else {
        assert Scope(table, group) == Scope(table[1..], group);
      }
    }
  }

  // ---- Following the cursor

  lemma {:induction false} MatchingFrom(rows: seq<Row>, kind: string, k: nat)
    requires Descending(rows) && k < |Matching(rows, kind)|
    ensures Matching(rows, kind)[k] in rows && Matching(rows, kind)[k].id >= 1
    ensures Matching(Below(rows, Matching(rows, kind)[k].id), kind) == Matching(rows, kind)[k + 1..]
  {
    if OfKind(rows[0], kind) && k == 0 {
      BelowRow(rows, 0);
    } else {
      MatchingFurther(rows, kind, k);
      MatchingFrom(rows[1..], kind, if OfKind(rows[0], kind) then k - 1 else k);
    }
  }

  lemma MatchingHead(rows: seq<Row>, kind: string, k: nat)
    requires rows != [] && k < |Matching(rows, kind)| && (OfKind(rows[0], kind) ==> k > 0)
    ensures var j := if OfKind(rows[0], kind) then k - 1 else k;
            var found := Matching(rows[1..], kind);
            j < |found| && Matching(rows, kind)[k] == found[j] && Matching(rows, kind)[k + 1..] == found[j + 1..]
  {
    var found := Matching(rows[1..], kind);
    if OfKind(rows[0], kind) {
      assert Matching(rows, kind) == [rows[0]] + found;
    } else {
      assert Matching(rows, kind) == [] + found && [] + found == found;
    }
  }

  lemma MatchingFurther(rows: seq<Row>, kind: string, k: nat)
    requires Descending(rows) && k < |Matching(rows, kind)| && (OfKind(rows[0], kind) ==> k > 0)
    ensures var j := if OfKind(rows[0], kind) then k - 1 else k;
            var found := Matching(rows[1..], kind);
            && j < |found| && Matching(rows, kind)[k] == found[j] && Matching(rows, kind)[k + 1..] == found[j + 1..]
            && Below(rows, found[j].id) == Below(rows[1..], found[j].id)
  {
    var j := if OfKind(rows[0], kind) then k - 1 else k;
    var found := Matching(rows[1..], kind);
    MatchingHead(rows, kind, k);
    MatchingSubset(rows[1..], kind);
    assert found[j] in rows[1..];
    PositiveIds(rows[1..], found[j]);
    assert [] + Below(rows[1..], found[j].id) == Below(rows[1..], found[j].id);
  }

  lemma {:induction false} PositiveIds(rows: seq<Row>, r: Row)
    requires Descending(rows) && r in rows
    ensures r.id >= 1
  {
    if r != rows[0] {
      PositiveIds(rows[1..], r);
    }
  }

  lemma {:induction false} MatchingSubset(rows: seq<Row>, kind: string)
    ensures forall r | r in Matching(rows, kind) :: r in rows
  {
    if rows != [] {
      MatchingSubset(rows[1..], kind);
    }
  }

  /** The cursor of a page that has a successor leaves exactly the matches that were not shown. */
  lemma RestOfMatches(rows: seq<Row>, kind: string, limit: nat, before: int, page: Page)
    requires Descending(rows) && limit >= 1 && IsPage(rows, kind, limit, before, page) && page.hasMore
    ensures 1 <= page.nextBeforeId && rows != [] && page.nextBeforeId <= rows[0].id
    ensures page.items + Matching(Below(rows, page.nextBeforeId), kind) == Matching(Below(rows, before), kind)
  {
    var left := Below(rows, before);
    var matches := Matching(left, kind);
    BelowDescending(rows, before);
    MatchingFrom(left, kind, limit - 1);
    var cut := matches[limit - 1];
    assert cut in left && cut in rows;
    BelowTwice(rows, before, cut.id);
    assert matches == matches[..limit] + matches[limit..];
  }

  /** Between requests rows are only added, above every row that was there at the start. */
  ghost predicate OnlyNewerRows(view: nat -> seq<Row>) {
    && Descending(view(0))
    && forall n, c | 0 < c && view(0) != [] && c <= view(0)[0].id :: Below(view(n), c) == Below(view(0), c)
  }

  function CursorAt(pages: seq<Page>, k: nat): int
    requires k <= |pages|
  {
    if k == 0 then 0 else pages[k - 1].nextBeforeId
  }

  /** A client reads pages, following `nextBeforeId` as long as there is more; `view(n)` is the table as its n-th
      request sees it. */
  ghost predicate Reading(view: nat -> seq<Row>, kind: string, limit: nat, pages: seq<Page>) {
    pages != [] && forall k | 0 <= k < |pages| :: RequestAt(view, kind, limit, pages, k)
  }

  ghost predicate RequestAt(view: nat -> seq<Row>, kind: string, limit: nat, pages: seq<Page>, k: nat)
    requires k < |pages|
  {
    IsPage(view(k), kind, limit, CursorAt(pages, k), pages[k]) && (pages[k].hasMore <==> k + 1 < |pages|)
  }

  function Items(pages: seq<Page>): seq<Row> {
    if pages == [] then [] else pages[0].items + Items(pages[1..])
  }

  lemma SeenFromStart(view: nat -> seq<Row>, kind: string, limit: nat, pages: seq<Page>, k: nat)
    requires OnlyNewerRows(view) && Reading(view, kind, limit, pages) && k < |pages|
    requires k == 0 || (view(0) != [] && 0 < CursorAt(pages, k) <= view(0)[0].id)
    ensures IsPage(view(0), kind, limit, CursorAt(pages, k), pages[k])
    ensures pages[k].hasMore <==> k + 1 < |pages|
  {
    assert RequestAt(view, kind, limit, pages, k);
    if k > 0 {
      assert Below(view(k), CursorAt(pages, k)) == Below(view(0), CursorAt(pages, k));
    }
  }

  lemma {:induction false} ItemsFrom(view: nat -> seq<Row>, kind: string, limit: nat, pages: seq<Page>, k: nat)
    requires OnlyNewerRows(view) && Reading(view, kind, limit, pages) && limit >= 1 && k < |pages|
    requires k == 0 || (view(0) != [] && 0 < CursorAt(pages, k) <= view(0)[0].id)
    ensures Items(pages[k..]) == Matching(Below(view(0), CursorAt(pages, k)), kind)
    decreases |pages| - k
  {
    SeenFromStart(view, kind, limit, pages, k);
    assert pages[k..][1..] == pages[k + 1..];
    if pages[k].hasMore {
      RestOfMatches(view(0), kind, limit, CursorAt(pages, k), pages[k]);
      ItemsFrom(view, kind, limit, pages, k + 1);
    } else {
      assert pages[k + 1..] == [];
      assert pages[k].items + [] == pages[k].items;
    }
  }

  /** The pages list every match of the first table exactly once, newest first, although rows keep arriving while
      the client reads. */
  lemma PagesListEveryMatch(view: nat -> seq<Row>, kind: string, limit: nat, pages: seq<Page>)
    requires OnlyNewerRows(view) && Reading(view, kind, limit, pages) && limit >= 1
    ensures Items(pages) == Matching(view(0), kind)
  {
    ItemsFrom(view, kind, limit, pages, 0);
    assert pages[0..] == pages;
  }

  // ---- A page, row by row

  /** An assistant's row of a group session, of the asked group and kind, below the cursor. */
  ghost predicate Wanted(r: Row, group: string, kind: string, before: int) {
    && r.role == "assistant" && |r.session| >= 6 && Lower(r.session[..5]) == "group"
    && (group == "" || r.session == group)
    && (kind == "" || Get(r.meta, "kind") == Str(kind))
    && (before == 0 || r.id < before)
  }

  lemma {:induction false} InScopeIff(table: seq<Row>, group: string, r: Row)
    ensures r in Scope(table, group) <==> r in table && InScope(r, group)
  {
    if table != [] {
      InScopeIff(table[1..], group, r);
      assert table == [table[0]] + table[1..];
    }
  }

  lemma {:induction false} BelowIff(rows: seq<Row>, before: int, r: Row)
    ensures r in Below(rows, before) <==> r in rows && (before == 0 || r.id < before)
  {
    if rows != [] {
      BelowIff(rows[1..], before, r);
      assert rows == [rows[0]] + rows[1..];
    }
  }

  lemma {:induction false} MatchingIff(rows: seq<Row>, kind: string, r: Row)
    ensures r in Matching(rows, kind) <==> r in rows && OfKind(r, kind)
  {
    if rows != [] {
      MatchingIff(rows[1..], kind, r);
      assert rows == [rows[0]] + rows[1..];
    }
  }

  function Matches(table: seq<Row>, group: string, kind: string, before: int): seq<Row> {
    Matching(Below(Scope(table, group), before), kind)
  }

  lemma MatchesIff(table: seq<Row>, group: string, kind: string, before: int, r: Row)
    ensures r in Matches(table, group, kind, before) <==> r in table && Wanted(r, group, kind, before)
  {
    InScopeIff(table, group, r);
    BelowIff(Scope(table, group), before, r);
    MatchingIff(Below(Scope(table, group), before), kind, r);
  }

  lemma {:induction false} MatchingDescending(rows: seq<Row>, kind: string)
    requires Descending(rows)
    ensures Descending(Matching(rows, kind))
  {
    if rows != [] {
      MatchingDescending(rows[1..], kind);
      forall r | r in Matching(rows[1..], kind)
        ensures r.id < rows[0].id
      {
        MatchingIff(rows[1..], kind, r);
      }
      if OfKind(rows[0], kind) {
        DescendingCons(rows[0], Matching(rows[1..], kind));
      } else {
        assert [] + Matching(rows[1..], kind) == Matching(rows[1..], kind);
      }
    }
  }

  lemma {:induction false} DescendingAt(rows: seq<Row>, i: nat, j: nat)
    requires Descending(rows) && i < j < |rows|
    ensures rows[j].id < rows[i].id
  {
    if i == 0 {
      assert rows[j] == rows[1..][j - 1];
    } else {
      DescendingAt(rows[1..], i - 1, j - 1);
    }
  }

  lemma MatchesDescending(table: seq<Row>, group: string, kind: string, before: int)
    requires Descending(table)
    ensures Descending(Matches(table, group, kind, before))
  {
    ScopeDescending(table, group);
    BelowDescending(Scope(table, group), before);
    MatchingDescending(Below(Scope(table, group), before), kind);
  }

  /**
   * What a caller gets: at most the asked number of rows, between one and a hundred; every one of them wanted, newest
   * first; no wanted row newer than the last one missing; and more to come exactly if a wanted row was left out.
   */
  lemma PageOnFields(table: seq<Row>, group: string, kind: string, limit: int, before: int, page: Page)
    requires Descending(table) && IsPage(Scope(table, group), kind, PageLimit(limit), before, page)
    ensures |page.items| <= if limit < 1 then 1 else if limit > 100 then 100 else limit
    ensures forall r | r in page.items :: r in table && Wanted(r, group, kind, before)
    ensures forall i, j | 0 <= i < j < |page.items| :: page.items[j].id < page.items[i].id
    ensures forall r | r in table && Wanted(r, group, kind, before) ::
              r in page.items || (page.hasMore && page.items != [] && r.id < page.items[|page.items| - 1].id)
    ensures page.hasMore ==> exists r :: r in table && Wanted(r, group, kind, before) && r !in page.items
    ensures page.items != [] ==> page.nextBeforeId == page.items[|page.items| - 1].id
  {
    var matches := Matches(table, group, kind, before);
    MatchesDescending(table, group, kind, before);
    TakenFirst(matches, PageLimit(limit));
    forall r
      ensures r in matches <==> r in table && Wanted(r, group, kind, before)
    {
      MatchesIff(table, group, kind, before, r);
    }
  }

  /** The first `n` of a descending table, and what is left out. */
  lemma TakenFirst(rows: seq<Row>, n: nat)
    requires Descending(rows) && n >= 1
    ensures var taken := Take(n, rows);
            && |taken| <= n && (forall r | r in taken :: r in rows)
            && (forall i, j | 0 <= i < j < |taken| :: taken[j].id < taken[i].id)
            && (forall r | r in rows :: r in taken || (|rows| > n && taken != [] && r.id < taken[|taken| - 1].id))
            && (|rows| > n ==> exists r :: r in rows && r !in taken)
  {
    forall i, j | 0 <= i < j < |rows|
      ensures rows[j].id < rows[i].id
    {
      DescendingAt(rows, i, j);
    }
    if |rows| > n {
      assert rows[n] in rows && rows[n] !in Take(n, rows);
    }
  }
}
