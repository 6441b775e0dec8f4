/** The chat-log table (`{prefix}echo5_chatbot_logs`) that both message handlers append to
    and the Chat Logs admin page pages through and deletes from. */
module ChatLog {

  /** The value of the `timestamp` DATETIME column, ordered as the column orders. */
  type Timestamp = nat

  datatype LogRow = LogRow(id: nat, userName: string, message: string, response: string, timestamp: Timestamp)

  /** The rows in insertion order and the next AUTO_INCREMENT id. */
  datatype LogTable = LogTable(rows: seq<LogRow>, nextId: nat)

  /** Ids are assigned in increasing order and stay below the next id, so they are unique. */
  predicate Valid(t: LogTable) {
    && (forall i :: 0 <= i < |t.rows| ==> t.rows[i].id < t.nextId)
    && (forall i, j :: 0 <= i < j < |t.rows| ==> t.rows[i].id < t.rows[j].id)
  }

  /** A successful `$wpdb->insert`: one row with a fresh id at the end. */
  function Insert(t: LogTable, userName: string, message: string, response: string, now: Timestamp): (r: LogTable)
    ensures |r.rows| == |t.rows| + 1 && r.rows[..|t.rows|] == t.rows
    ensures r.rows[|t.rows|] == LogRow(t.nextId, userName, message, response, now)
    ensures r.nextId == t.nextId + 1
    ensures Valid(t) ==> Valid(r)
  {
    var r := LogTable(t.rows + [LogRow(t.nextId, userName, message, response, now)], t.nextId + 1);
    assert r.rows[..|t.rows|] == t.rows;
    r
  }

  /** `$wpdb->insert` whose outcome is `ok`: a failed insert leaves the table as it was. */
  function TryInsert(t: LogTable, ok: bool, userName: string, message: string, response: string, now: Timestamp): LogTable {
    if ok then Insert(t, userName, message, response, now) else t
  }

  /** The row an insert added: the last one. */
  function LastRow(t: LogTable): LogRow
    requires t.rows != []
  {
    t.rows[|t.rows| - 1]
  }
}
