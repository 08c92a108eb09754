/** Model of message pagination (`listProjectedMessages` in `cli/common.ts`): batches of log
    rows after a cursor, projected and filtered until a page is full. */
module Messages {
  import opened Arithmetic
  import opened Outcomes

  datatype RowId = RowId(key: int)

  datatype MessageEntry = MessageEntry(id: RowId, level: int, force: bool, payload: string)

  /** A log row and what `projectStageLogRow` makes of it, if anything. */
  datatype Row = Row(id: RowId, level: int, force: bool, payload: string, visible: bool)

  type Cursor = Option<RowId>

  datatype Page = Page(entries: seq<MessageEntry>, nextSince: Cursor)

  ghost predicate UniqueIds(log: seq<Row>) {
    forall i, j :: 0 <= i < j < |log| ==> log[i].id != log[j].id
  }

  function Project(row: Row): Option<MessageEntry> {
    if row.visible then Some(MessageEntry(row.id, row.level, row.force, row.payload)) else None
  }

  predicate ShouldDeliver(entry: MessageEntry, level: int) { entry.force || entry.level >= level }

  /** The plain filtering that pagination must add up to. */
  function Deliverable(rows: seq<Row>, level: int): seq<MessageEntry> {
    if rows == [] then []
    else
      var entry := Project(rows[|rows| - 1]);
      Deliverable(rows[..|rows| - 1], level) + (if entry.Some? && ShouldDeliver(entry.value, level) then [entry.value] else [])
  }

  /** `listLogsForRunAfterId`: the rows strictly after the cursor; no cursor, or one that
      names no row, means all of them. */
  function After(log: seq<Row>, cursor: Cursor): seq<Row> {
    if cursor.None? || log == [] then log
    else if log[0].id == cursor.value then log[1..]
    else if exists i :: 0 <= i < |log| && log[i].id == cursor.value then After(log[1..], cursor)
    else log
  }

  function BatchSize(limit: int): int { Min(Max(limit, 1), 500) }

  /** What one call returns: the first `limit` deliverable entries after the cursor, and
      the id of the last one if the page is full. */
  function PageOf(log: seq<Row>, level: int, since: Cursor, limit: int): Page
    requires limit >= 1
  {
    var all := Deliverable(After(log, since), level);
    var entries := all[..Min(limit, |all|)];
    Page(entries, if |entries| == limit then Some(entries[|entries| - 1].id) else None)
  }

  lemma {:induction false} DeliverableConcat(a: seq<Row>, b: seq<Row>, level: int)
    ensures Deliverable(a + b, level) == Deliverable(a, level) + Deliverable(b, level)
    decreases |b|
  {
    if b == [] {
      assert a + b == a;
    } else {
      assert (a + b)[..|a + b| - 1] == a + b[..|b| - 1];
      DeliverableConcat(a, b[..|b| - 1], level);
    }
  }

  /** A row is delivered if it projects to an entry that is forced or important enough, with the
      fields of the row. */
  lemma {:induction false} RowIsDelivered(before: seq<Row>, row: Row, rest: seq<Row>, level: int)
    ensures Deliverable(before + [row] + rest, level)
         == Deliverable(before, level)
            + (if row.visible && (row.force || row.level >= level)
               then [MessageEntry(row.id, row.level, row.force, row.payload)] else [])
            + Deliverable(rest, level)
  {
    DeliverableConcat(before + [row], rest, level);
    assert (before + [row])[..|before|] == before;
  }

  /** A page holds at most `limit` entries, from the front of the filtered log, all of them if
      there are not more; a full one names its last entry as the place to go on from, any
      other none. */
  lemma {:induction false} PageIsFilled(log: seq<Row>, level: int, since: Cursor, limit: int)
    requires limit >= 1
    ensures var page, all := PageOf(log, level, since, limit), Deliverable(After(log, since), level);
            && page.entries <= all && |page.entries| <= limit && (|page.entries| < limit ==> page.entries == all)
            && (|page.entries| == limit ==> page.nextSince == Some(page.entries[limit - 1].id))
            && (|page.entries| < limit ==> page.nextSince == None)
  {
    hide Deliverable, After;
  }

  lemma {:induction false} AfterRow(log: seq<Row>, i: nat)
    requires i < |log| && UniqueIds(log)
    ensures After(log, Some(log[i].id)) == log[i + 1..]
  {
    if i > 0 {
      AfterRow(log[1..], i - 1);
    }
  }

  /** The rows after a cursor are the tail of the log, and start behind the cursor's row if
      there is one. */
  lemma {:induction false} AfterIsATail(log: seq<Row>, cursor: Cursor) returns (k: nat)
    requires UniqueIds(log)
    ensures k <= |log| && After(log, cursor) == log[k..]
    ensures k > 0 ==> cursor == Some(log[k - 1].id)
    ensures k == 0 ==> cursor.None? || forall i :: 0 <= i < |log| ==> log[i].id != cursor.value
  {
    if cursor.Some? && exists i :: 0 <= i < |log| && log[i].id == cursor.value {
      var i :| 0 <= i < |log| && log[i].id == cursor.value;
      AfterRow(log, i);
      k := i + 1;
    } else {
      k := 0;
    }
  }

  /** Every delivered entry comes from a row, and entries before it from earlier rows. */
  lemma {:induction false} EntryHasARow(rows: seq<Row>, level: int, n: nat) returns (k: nat)
    requires n < |Deliverable(rows, level)|
    ensures k < |rows| && rows[k].id == Deliverable(rows, level)[n].id
    ensures Deliverable(rows[..k + 1], level) == Deliverable(rows, level)[..n + 1]
  {
    var front := rows[..|rows| - 1];
    if n < |Deliverable(front, level)| {
      k := EntryHasARow(front, level, n);
      assert front[..k + 1] == rows[..k + 1];
    } else {
      k := |rows| - 1;
      assert rows[..k + 1] == rows;
    }
  }

  // ---------- one call ----------

  /** The inner loop: rows of one batch until the page is full. */
  method ScanBatch(batch: seq<Row>, level: int, limit: int, entries: seq<MessageEntry>, cursor: Cursor)
    returns (entries': seq<MessageEntry>, cursor': Cursor, n: nat)
    requires |entries| < limit
    ensures n <= |batch| && (batch != [] ==> n > 0)
    ensures entries' == entries + Deliverable(batch[..n], level)
    ensures |entries'| <= limit && (n == |batch| || |entries'| == limit)
    ensures cursor' == if n > 0 then Some(batch[n - 1].id) else cursor
  {
    entries', cursor', n := entries, cursor, 0;
    while n < |batch|
      invariant 0 <= n <= |batch| && |entries'| < limit
      invariant entries' == entries + Deliverable(batch[..n], level)
      invariant cursor' == if n > 0 then Some(batch[n - 1].id) else cursor
    {
      assert batch[..n + 1][..n] == batch[..n];
      var entry := Project(batch[n]);
      if entry.Some? && ShouldDeliver(entry.value, level) {
        entries' := entries' + [entry.value];
      }
      cursor' := Some(batch[n].id);
      n := n + 1;
      if |entries'| >= limit { break; }
    }
  }

  /** The outer loop of `listProjectedMessages`, batch by batch. The page does not depend
      on the batch size. */
  method ListProjectedMessages(log: seq<Row>, level: int, since: Cursor, limit: int) returns (page: Page)
    requires UniqueIds(log)
    ensures limit >= 1 ==> page == PageOf(log, level, since, limit)
    ensures limit < 1 ==> page == Page([], None)
  {
    hide *;
    var entries: seq<MessageEntry> := [];
    var cursor := since;
    var batchSize := BatchSize(limit);
    BatchesAreFull(limit);
    ghost var start := ScanStarts(log, level, since);
    ghost var k := start;
    while |entries| < limit
      invariant start <= k <= |log| && ScannedTo(log, level, start, k, cursor, entries)
      invariant limit >= 0 ==> |entries| <= limit
      invariant limit <= 0 ==> entries == []
      decreases |log| - k
    {
      CursorIsAt(log, level, start, k, cursor, entries);
      var rest := After(log, cursor);
      MinIsMin(batchSize, |rest|);
      var batch := rest[..Min(batchSize, |rest|)];
      if |batch| == 0 { break; }
      ghost var before, at := entries, cursor;
      var n;
      entries, cursor, n := ScanBatch(batch, level, limit, entries, cursor);
      ScanGoesOn(log, level, start, k, at, before, batch, n);
      k := k + n;
      if |batch| < batchSize { break; }
    }
    CursorIsAt(log, level, start, k, cursor, entries);
    page := Page(entries, if |entries| == limit && |entries| > 0 then Some(entries[|entries| - 1].id) else None);
    if limit >= 1 {
      PageFromRows(log, level, since, limit, start, k);
    }
  }

  /** The cursor is at row k, and the entries are those of the rows from `start` up to it. */
  ghost predicate ScannedTo(log: seq<Row>, level: int, start: nat, k: nat, cursor: Cursor, entries: seq<MessageEntry>)
    requires start <= k <= |log|
  {
    After(log, cursor) == log[k..] && entries == Deliverable(log[start..k], level)
  }

  lemma {:induction false} CursorIsAt(log: seq<Row>, level: int, start: nat, k: nat, cursor: Cursor,
                                      entries: seq<MessageEntry>)
    requires start <= k <= |log| && ScannedTo(log, level, start, k, cursor, entries)
    ensures After(log, cursor) == log[k..] && entries == Deliverable(log[start..k], level)
  {
  }

  /** One batch further. */
  lemma {:induction false} ScanGoesOn(log: seq<Row>, level: int, start: nat, k: nat, cursor: Cursor,
                                      entries: seq<MessageEntry>, batch: seq<Row>, n: nat)
    requires start <= k <= |log| && ScannedTo(log, level, start, k, cursor, entries) && UniqueIds(log)
    requires 0 < n <= |batch| <= |log| - k && batch == log[k..][..|batch|]
    ensures ScannedTo(log, level, start, k + n, Some(batch[n - 1].id), entries + Deliverable(batch[..n], level))
  {
    hide Deliverable, After, UniqueIds;
    SliceGrows(log, start, k, batch, n);
    DeliverableConcat(log[start..k], batch[..n], level);
    AfterRow(log, k + n - 1);
  }

  lemma {:induction false} BatchesAreFull(limit: int)
    ensures BatchSize(limit) >= 1
  {
  }

  lemma {:induction false} MinIsMin(a: int, b: int)
    ensures Min(a, b) == if a < b then a else b
  {
  }

  /** The scan starts behind the cursor with nothing delivered. */
  lemma {:induction false} ScanStarts(log: seq<Row>, level: int, since: Cursor) returns (start: nat)
    requires UniqueIds(log)
    ensures start <= |log| && After(log, since) == log[start..] && ScannedTo(log, level, start, start, since, [])
  {
    start := AfterIsATail(log, since);
    assert log[start..start] == [];
  }

  lemma {:induction false} SliceGrows(log: seq<Row>, start: nat, k: nat, batch: seq<Row>, n: nat)
    requires start <= k <= |log| && n <= |batch| <= |log| - k && batch == log[k..][..|batch|]
    ensures log[start..k + n] == log[start..k] + batch[..n]
    ensures n > 0 ==> batch[n - 1] == log[k + n - 1]
  {
    assert batch[..n] == log[k..k + n];
  }

  lemma {:induction false} PageFromRows(log: seq<Row>, level: int, since: Cursor, limit: int, start: nat, k: nat)
    requires limit >= 1 && start <= k <= |log| && After(log, since) == log[start..]
    requires var entries := Deliverable(log[start..k], level); |entries| == limit || (|entries| < limit && k == |log|)
    ensures var entries := Deliverable(log[start..k], level);
            PageOf(log, level, since, limit)
            == Page(entries, if |entries| == limit then Some(entries[|entries| - 1].id) else None)
  {
    hide Deliverable, After;
    assert log[start..] == log[start..k] + log[k..];
    DeliverableConcat(log[start..k], log[k..], level);
    var entries, all := Deliverable(log[start..k], level), Deliverable(log[start..], level);
    if |entries| == limit {
      assert all[..limit] == entries;
    } else {
      assert log[start..k] == log[start..] && all[..|all|] == all;
    }
  }

  // ---------- following the cursor ----------

  /** All pages, one after the other, until there is no next cursor. */
  ghost function FollowAll(log: seq<Row>, level: int, since: Cursor, limit: int): seq<MessageEntry>
    requires limit >= 1 && UniqueIds(log)
    decreases |After(log, since)|
  {
    var page := PageOf(log, level, since, limit);
    if page.nextSince.None? then page.entries
    else
      NextPageIsShorter(log, level, since, limit);
      page.entries + FollowAll(log, level, page.nextSince, limit)
  }

  /** Behind a full page the rest of the filtered log goes on where the page ended. */
  lemma {:induction false} NextPageContinues(log: seq<Row>, level: int, since: Cursor, limit: int) returns (k: nat)
    requires limit >= 1 && UniqueIds(log) && PageOf(log, level, since, limit).nextSince.Some?
    ensures var page := PageOf(log, level, since, limit);
            && 0 < k <= |log| && page.nextSince == Some(log[k - 1].id)
            && After(log, page.nextSince) == log[k..]
            && |After(log, page.nextSince)| < |After(log, since)|
            && Deliverable(After(log, since), level) == page.entries + Deliverable(After(log, page.nextSince), level)
  {
    hide Deliverable, After, UniqueIds;
    var rows := After(log, since);
    var page := PageOf(log, level, since, limit);
    var start := AfterIsATail(log, since);
    var i := EntryHasARow(rows, level, limit - 1);
    assert rows == rows[..i + 1] + rows[i + 1..];
    DeliverableConcat(rows[..i + 1], rows[i + 1..], level);
    k := start + i + 1;
    assert rows[i] == log[k - 1];
    AfterRow(log, k - 1);
    assert log[k..] == rows[i + 1..];
  }

  lemma {:induction false} NextPageIsShorter(log: seq<Row>, level: int, since: Cursor, limit: int)
    requires limit >= 1 && UniqueIds(log) && PageOf(log, level, since, limit).nextSince.Some?
    ensures |After(log, PageOf(log, level, since, limit).nextSince)| < |After(log, since)|
  {
    var _ := NextPageContinues(log, level, since, limit);
  }

  /** Pagination equals filtering: the pages, followed to the end, are the filtered log. */
  lemma {:induction false} PaginationIsFiltering(log: seq<Row>, level: int, since: Cursor, limit: int)
    requires limit >= 1 && UniqueIds(log)
    ensures FollowAll(log, level, since, limit) == Deliverable(After(log, since), level)
    decreases |After(log, since)|
  {
    var page := PageOf(log, level, since, limit);
    if page.nextSince.Some? {
      var k := NextPageContinues(log, level, since, limit);
      PaginationIsFiltering(log, level, page.nextSince, limit);
    }
  }

  // ---------- while the log grows ----------

  /** The log at successive calls: rows are only appended. */
  ghost predicate Growing(logs: seq<seq<Row>>) {
    && (forall i :: 0 <= i < |logs| ==> UniqueIds(logs[i]))
    && (forall i, j :: 0 <= i <= j < |logs| ==> logs[i] <= logs[j])
  }

  predicate KnownCursor(log: seq<Row>, cursor: Cursor) {
    cursor.None? || exists i :: 0 <= i < |log| && log[i].id == cursor.value
  }

  /** One page per call, each from the log as it is then, until a page has no next cursor
      or the calls are over. */
  function FollowGrowing(logs: seq<seq<Row>>, level: int, since: Cursor, limit: int): seq<MessageEntry>
    requires limit >= 1
  {
    if logs == [] then []
    else
      var page := PageOf(logs[0], level, since, limit);
      page.entries + (if page.nextSince.None? then [] else FollowGrowing(logs[1..], level, page.nextSince, limit))
  }

  lemma {:induction false} AfterGrows(a: seq<Row>, b: seq<Row>, cursor: Cursor)
    requires UniqueIds(a) && UniqueIds(b) && a <= b && KnownCursor(a, cursor)
    ensures After(a, cursor) <= After(b, cursor)
  {
    if cursor.Some? {
      var i :| 0 <= i < |a| && a[i].id == cursor.value;
      AfterRow(a, i);
      AfterRow(b, i);
    }
  }

  lemma {:induction false} DeliverableGrows(a: seq<Row>, b: seq<Row>, level: int)
    requires a <= b
    ensures Deliverable(a, level) <= Deliverable(b, level)
  {
    assert b == a + b[|a|..];
    DeliverableConcat(a, b[|a|..], level);
  }

  /** Pages taken while rows are being appended never repeat, skip or reorder an entry:
      together they are a beginning of the final filtered log. */
  lemma {:induction false} GrowingPagesLoseNothing(logs: seq<seq<Row>>, level: int, since: Cursor, limit: int)
    requires limit >= 1 && logs != [] && Growing(logs) && KnownCursor(logs[0], since)
    ensures FollowGrowing(logs, level, since, limit) <= Deliverable(After(logs[|logs| - 1], since), level)
    decreases |logs|
  {
    hide Deliverable, After, UniqueIds, PageOf;
    var first, last := logs[0], logs[|logs| - 1];
    var page := PageOf(first, level, since, limit);
    AfterGrows(first, last, since);
    DeliverableGrows(After(first, since), After(last, since), level);
    PageIsABeginning(first, level, since, limit);
    if page.nextSince.Some? && |logs| > 1 {
      var k := NextPageContinues(first, level, since, limit);
      PageStaysFull(first, last, level, since, limit);
      var k' := NextPageContinues(last, level, since, limit);
      assert logs[1][k - 1] == first[k - 1];
      GrowingPagesLoseNothing(logs[1..], level, page.nextSince, limit);
    } else if page.nextSince.Some? {
      assert FollowGrowing(logs[1..], level, page.nextSince, limit) == [];
    }
  }

  /** Nor do they stop early: there is a full page for every call, or together the pages are
      all there was at the call that ended them. */
  lemma {:induction false} GrowingPagesGoOn(logs: seq<seq<Row>>, level: int, since: Cursor, limit: int)
    requires limit >= 1 && logs != [] && Growing(logs) && KnownCursor(logs[0], since)
    ensures var pages := FollowGrowing(logs, level, since, limit);
            || |pages| == limit * |logs|
            || exists i :: 0 <= i < |logs| && pages == Deliverable(After(logs[i], since), level)
    decreases |logs|
  {
    hide Deliverable, After, UniqueIds, PageOf;
    var first := logs[0];
    var page := PageOf(first, level, since, limit);
    PageIsFilled(first, level, since, limit);
    if page.nextSince.None? {
      assert FollowGrowing(logs, level, since, limit) == page.entries + [] == Deliverable(After(logs[0], since), level);
    } else if |logs| == 1 {
      assert FollowGrowing(logs[1..], level, page.nextSince, limit) == [];
    } else {
      var k := NextPageContinues(first, level, since, limit);
      assert logs[1][k - 1] == first[k - 1];
      GrowingPagesGoOn(logs[1..], level, page.nextSince, limit);
      var rest := FollowGrowing(logs[1..], level, page.nextSince, limit);
      if |rest| == limit * (|logs| - 1) {
        assert |page.entries + rest| == limit * |logs|;
      } else {
        var i :| 0 <= i < |logs| - 1 && rest == Deliverable(After(logs[1..][i], page.nextSince), level);
        PageStaysFull(first, logs[i + 1], level, since, limit);
        var _ := NextPageContinues(logs[i + 1], level, since, limit);
        assert page.entries + rest == Deliverable(After(logs[i + 1], since), level);
      }
    }
  }

  lemma {:induction false} PageIsABeginning(log: seq<Row>, level: int, since: Cursor, limit: int)
    requires limit >= 1
    ensures PageOf(log, level, since, limit).entries <= Deliverable(After(log, since), level)
  {
  }

  /** A full page stays the same page however the log grows. */
  lemma {:induction false} PageStaysFull(a: seq<Row>, b: seq<Row>, level: int, since: Cursor, limit: int)
    requires limit >= 1 && UniqueIds(a) && UniqueIds(b) && a <= b && KnownCursor(a, since)
    requires PageOf(a, level, since, limit).nextSince.Some?
    ensures PageOf(b, level, since, limit) == PageOf(a, level, since, limit)
  {
    AfterGrows(a, b, since);
    DeliverableGrows(After(a, since), After(b, since), level);
    var x, y := Deliverable(After(a, since), level), Deliverable(After(b, since), level);
    assert y[..limit] == y[..|x|][..limit];
  }
}
