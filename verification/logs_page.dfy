/** The Chat Logs admin page: bulk deletion by id, and the page of rows shown, newest
    first, twenty at a time. */
module LogsPage {
  import opened Php
  import opened ChatLog

  const PerPage := 20

  // ---------------------------------------------------------------------------
  // ORDER BY timestamp DESC

  /** Newest first. */
  predicate NewestFirst(s: seq<LogRow>) {
    forall i, j :: 0 <= i < j < |s| ==> s[i].timestamp >= s[j].timestamp
  }

  function InsertByTime(x: LogRow, s: seq<LogRow>): (r: seq<LogRow>)
    ensures multiset(r) == multiset(s) + multiset{x}
    ensures |r| == |s| + 1
  {
    if s == [] then [x]
    else if x.timestamp >= s[0].timestamp then [x] + s
    else
      assert s == [s[0]] + s[1..];
      [s[0]] + InsertByTime(x, s[1..])
  }

  /** A row no older than the head of a newest-first list can go in front of it. */
  lemma ConsNewestFirst(a: LogRow, t: seq<LogRow>)
    requires NewestFirst(t) && (t == [] || a.timestamp >= t[0].timestamp)
    ensures NewestFirst([a] + t)
  {
    var r := [a] + t;
    forall i, j | 0 <= i < j < |r| ensures r[i].timestamp >= r[j].timestamp {
      if i == 0 {
        assert r[j] == t[j - 1] && t[0].timestamp >= t[j - 1].timestamp;
      } else {
        assert r[i] == t[i - 1] && r[j] == t[j - 1];
      }
    }
  }

  lemma {:induction false} InsertByTimeKeepsOrder(x: LogRow, s: seq<LogRow>)
    requires NewestFirst(s)
    ensures NewestFirst(InsertByTime(x, s))
    ensures InsertByTime(x, s) != [] && (InsertByTime(x, s)[0] == x || (s != [] && InsertByTime(x, s)[0] == s[0]))
  {
    if s == [] {
      ConsNewestFirst(x, s);
    } else if x.timestamp >= s[0].timestamp {
      ConsNewestFirst(x, s);
    } else {
      var rest := s[1..];
      assert NewestFirst(rest) by {
        forall i, j | 0 <= i < j < |rest| ensures rest[i].timestamp >= rest[j].timestamp {
          assert rest[i] == s[i + 1] && rest[j] == s[j + 1];
        }
      }
      InsertByTimeKeepsOrder(x, rest);
      var t := InsertByTime(x, rest);
      assert t[0] == x || t[0] == s[1];
      assert s[0].timestamp >= t[0].timestamp by {
        if t[0] != x { assert s[0].timestamp >= s[1].timestamp; }
      }
      ConsNewestFirst(s[0], t);
    }
  }

  /** The rows as `ORDER BY timestamp DESC` returns them. SQL leaves the order of rows
      with equal timestamps open; this one keeps older rows first among them. */
  function SortedByTime(rows: seq<LogRow>): (r: seq<LogRow>)
    ensures multiset(r) == multiset(rows) && |r| == |rows|
  {
    if rows == [] then []
    else
      assert rows == [rows[0]] + rows[1..];
      InsertByTime(rows[0], SortedByTime(rows[1..]))
  }

  lemma {:induction false} SortedByTimeIsNewestFirst(rows: seq<LogRow>)
    ensures NewestFirst(SortedByTime(rows))
  {
    if rows != [] {
      SortedByTimeIsNewestFirst(rows[1..]);
      InsertByTimeKeepsOrder(rows[0], SortedByTime(rows[1..]));
    }
  }

  // ---------------------------------------------------------------------------
  // Paging

  /** `isset($_GET['paged']) ? max(1, intval($_GET['paged'])) : 1`. */
  function CurrentPage(paged: Value): (page: nat)
    ensures page >= 1
    ensures !IsSet(paged) ==> page == 1
    ensures IsSet(paged) && IntVal(paged) >= 1 ==> page == IntVal(paged)
    ensures IsSet(paged) && IntVal(paged) < 1 ==> page == 1
  {
    if IsSet(paged) then (if IntVal(paged) > 1 then IntVal(paged) else 1) else 1
  }

  function Offset(page: nat): nat
    requires page >= 1
  {
    (page - 1) * PerPage
  }

  /** `LIMIT 20 OFFSET offset` on the ordered rows. */
  function PageRows(ordered: seq<LogRow>, page: nat): (r: seq<LogRow>)
    requires page >= 1
    ensures |r| <= PerPage
    ensures forall i :: 0 <= i < |r| ==> Offset(page) + i < |ordered| && r[i] == ordered[Offset(page) + i]
    ensures |r| == if Offset(page) >= |ordered| then 0
                   else if |ordered| - Offset(page) < PerPage then |ordered| - Offset(page) else PerPage
  {
    var lo := if Offset(page) < |ordered| then Offset(page) else |ordered|;
    var hi := if lo + PerPage < |ordered| then lo + PerPage else |ordered|;
    ordered[lo..hi]
  }

  /** `ceil($total_items / 20)`. */
  function TotalPages(total: nat): (n: nat)
    ensures (n - 1) * PerPage < total <= n * PerPage || (total == 0 && n == 0)
  {
    (total + PerPage - 1) / PerPage
  }

  /** Page links are shown exactly when there are more rows than fit on one page. */
  lemma PageLinksIff(total: nat)
    ensures TotalPages(total) > 1 <==> total > PerPage
  {
  }

  /** Every row of the ordering is on exactly one page: page `i / 20 + 1`, at position
      `i % 20`, and that page is within the page count. */
  lemma RowOnItsPage(ordered: seq<LogRow>, i: nat)
    requires i < |ordered|
    ensures var page := i / PerPage + 1;
            && page <= TotalPages(|ordered|)
            && i % PerPage < |PageRows(ordered, page)|
            && PageRows(ordered, page)[i % PerPage] == ordered[i]
  {
    var page := i / PerPage + 1;
    assert Offset(page) + i % PerPage == i;
  }

  // ---------------------------------------------------------------------------
  // Bulk delete

  /** `DELETE FROM ... WHERE id IN (...)`: the rows whose id is not listed, in order. */
  function DeleteIds(rows: seq<LogRow>, ids: set<int>): (r: seq<LogRow>)
    ensures |r| <= |rows|
    ensures forall k :: 0 <= k < |r| ==> r[k].id !in ids
    ensures multiset(r) <= multiset(rows)
  {
    if rows == [] then []
    else
      assert rows == [rows[0]] + rows[1..];
      if rows[0].id in ids then DeleteIds(rows[1..], ids) else [rows[0]] + DeleteIds(rows[1..], ids)
  }

  /** Deleting by id keeps exactly the rows whose id is not listed. */
  lemma {:induction false} DeleteIdsKeeps(rows: seq<LogRow>, ids: set<int>, row: LogRow)
    ensures row in DeleteIds(rows, ids) <==> row in rows && row.id !in ids
  {
    if rows != [] {
      DeleteIdsKeeps(rows[1..], ids, row);
      assert row in rows <==> row == rows[0] || row in rows[1..];
    }
  }

  /** `isset($_POST['action']) && $_POST['action'] === 'bulk_delete' && isset($_POST['delete_logs'])`. */
  predicate BulkDeleteRequested(post: Value) {
    Field(post, "action") == Str("bulk_delete") && IsSet(Field(post, "delete_logs"))
  }

  /** `array_map('intval', $_POST['delete_logs'])`, as a set of ids. */
  function RequestedIds(post: Value): set<int> {
    var items := Items(Field(post, "delete_logs"));
    set k | 0 <= k < |items| :: IntVal(items[k])
  }

  /** What the page shows: a missing-table notice, or a page of rows. */
  datatype LogsView =
    | MissingTable
    | Listing(deleted: bool, page: nat, rows: seq<LogRow>, total: nat, totalPages: nat, pageLinks: bool)

  /** `echo5_chatbot_chat_logs_page_html` (data part): the table after the request and the view. */
  function ChatLogsPage(tableExists: bool, post: Value, paged: Value, log: LogTable): (r: (LogsView, LogTable))
    ensures !tableExists ==> r == (MissingTable, log)
    ensures tableExists ==> r.0.Listing?
    ensures tableExists && !BulkDeleteRequested(post) ==> r.1 == log && !r.0.deleted
    ensures tableExists && BulkDeleteRequested(post) ==>
              r.0.deleted && r.1 == LogTable(DeleteIds(log.rows, RequestedIds(post)), log.nextId)
    ensures tableExists ==>
              && r.0.page == CurrentPage(paged)
              && r.0.total == |r.1.rows|
              && r.0.rows == PageRows(SortedByTime(r.1.rows), CurrentPage(paged))
              && r.0.totalPages == TotalPages(|r.1.rows|)
              && (r.0.pageLinks <==> |r.1.rows| > PerPage)
  {
    if !tableExists then (MissingTable, log)
    else
      var deleted := BulkDeleteRequested(post);
      var after := if deleted then LogTable(DeleteIds(log.rows, RequestedIds(post)), log.nextId) else log;
      var page := CurrentPage(paged);
      var total := |after.rows|;
      (Listing(deleted, page, PageRows(SortedByTime(after.rows), page), total, TotalPages(total), TotalPages(total) > 1),
       after)
  }

  predicate IdsIncreasing(rows: seq<LogRow>) {
    forall i, j :: 0 <= i < j < |rows| ==> rows[i].id < rows[j].id
  }

  /** Bulk deletion keeps the table's ids valid and never reuses an id. */
  lemma DeleteKeepsValid(log: LogTable, ids: set<int>)
    requires Valid(log)
    ensures Valid(LogTable(DeleteIds(log.rows, ids), log.nextId))
  {
    var r := DeleteIds(log.rows, ids);
    DeleteIdsIncreasing(log.rows, ids);
    forall k | 0 <= k < |r| ensures r[k].id < log.nextId {
      assert r[k] in multiset(r);
      var j :| 0 <= j < |log.rows| && log.rows[j] == r[k];
    }
  }

  lemma {:induction false} DeleteIdsIncreasing(rows: seq<LogRow>, ids: set<int>)
    requires IdsIncreasing(rows)
    ensures IdsIncreasing(DeleteIds(rows, ids))
    ensures DeleteIds(rows, ids) != [] ==> rows != [] && DeleteIds(rows, ids)[0].id >= rows[0].id
  {
    if rows != [] {
      var rest := DeleteIds(rows[1..], ids);
      TailIncreasing(rows);
      DeleteIdsIncreasing(rows[1..], ids);
      if rows[0].id !in ids {
        ConsIncreasing(rows[0], rest);
      }
    }
  }

  lemma TailIncreasing(rows: seq<LogRow>)
    requires rows != [] && IdsIncreasing(rows)
    ensures IdsIncreasing(rows[1..])
    ensures |rows| > 1 ==> rows[0].id < rows[1].id
  {
    forall i, j | 0 <= i < j < |rows| - 1 ensures rows[1..][i].id < rows[1..][j].id {
      assert rows[i + 1].id < rows[j + 1].id;
    }
  }

  lemma ConsIncreasing(x: LogRow, rest: seq<LogRow>)
    requires IdsIncreasing(rest) && (rest != [] ==> x.id < rest[0].id)
    ensures IdsIncreasing([x] + rest)
  {
    var r := [x] + rest;
    forall i, j | 0 <= i < j < |r| ensures r[i].id < r[j].id {
      if i > 0 { assert r[i] == rest[i - 1] && r[j] == rest[j - 1]; }
      else if j > 1 { assert r[j] == rest[j - 1] && rest[0].id <= rest[j - 1].id; }
    }
  }
}
