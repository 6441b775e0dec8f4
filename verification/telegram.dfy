/** `Echo5_Telegram_Integration`: relays chat messages to a Telegram chat, remembers
    which Telegram message belongs to which chat session, polls Telegram for replies
    and keeps them as pending responses until they are collected. All of its state
    lives in the options table. */
module Telegram {
  import opened Strings
  import opened Php
  import opened WordPress
  import opened Wrappers

  const TokenOption := "echo5_chatbot_telegram_bot_token"
  const ChatIdOption := "echo5_chatbot_telegram_chat_id"
  const MessagesOption := "echo5_telegram_messages"
  const OffsetOption := "echo5_telegram_update_offset"
  const ResponsePrefix := "echo5_telegram_response_"
  const ResponseTtl := 3600
  const ApiBase := "https://api.telegram.org/bot"

  /** A `sendMessage` call: the endpoint, the chat, the text and the parse mode. */
  datatype TelegramPost = TelegramPost(url: string, chatId: Value, text: string, parseMode: string)

  // ---------------------------------------------------------------------------
  // The notification

  const NotificationHead := "\U{1F514} New message from: "

  function NotificationText(userName: string, message: string, sessionId: string): string {
    NotificationHead + userName + "\nSession ID: " + sessionId + "\n\nMessage: " + message
  }

  /** The layout of a notification: when the user name has no line break, the first line
      is exactly the bell header and the name; the session id follows on the second line,
      and the text ends with the message after a blank line. */
  lemma NotificationLayout(userName: string, message: string, sessionId: string)
    requires forall i :: 0 <= i < |userName| ==> userName[i] != '\n'
    ensures var t := NotificationText(userName, message, sessionId);
            var k := |NotificationHead| + |userName|;
            && k < |t| && t[k] == '\n'
            && (forall i :: 0 <= i < k ==> t[i] != '\n')
            && t[..k] == NotificationHead + userName
            && t[k + 1..k + 13 + |sessionId|] == "Session ID: " + sessionId
            && t[|t| - |message| - 11..] == "\n\nMessage: " + message
  {
    var t := NotificationText(userName, message, sessionId);
    var k := |NotificationHead| + |userName|;
    var head := NotificationHead + userName;
    var rest := "\nSession ID: " + sessionId + "\n\nMessage: " + message;
    assert t == head + rest;
    assert t[..k] == head;
    assert t[k] == rest[0];
    forall i | 0 <= i < k ensures t[i] != '\n' {
      assert t[i] == head[i];
      if i >= |NotificationHead| {
        assert head[i] == userName[i - |NotificationHead|];
      }
    }
    assert t[k + 1..k + 13 + |sessionId|] == rest[1..13 + |sessionId|];
    var tail := "\n\nMessage: " + message;
    assert t == head + "\nSession ID: " + sessionId + tail;
  }

  // ---------------------------------------------------------------------------
  // The reply of a Telegram call

  /** `isset($body['ok']) && $body['ok']`. */
  predicate Acknowledged(body: Value) {
    IsSet(Field(body, "ok")) && Truthy(Field(body, "ok"))
  }

  /** `$body['description'] ?? 'Unknown error'`. */
  function Description(body: Value): string {
    var d := Field(body, "description");
    if IsSet(d) then ToStr(d) else "Unknown error"
  }

  // ---------------------------------------------------------------------------
  // The session map (`echo5_telegram_messages`)

  /** The stored session map, or an empty one when the option is missing. */
  function Messages(opts: map<string, Value>): seq<(Key, Value)> {
    if MessagesOption in opts && opts[MessagesOption].Arr? then opts[MessagesOption].entries else []
  }

  function SentRecord(messageId: Value, now: nat): Value {
    Record([("message_id", messageId), ("timestamp", Int(now))])
  }

  /** `store_telegram_message_id` on the options. */
  function RecordSent(opts: map<string, Value>, sessionId: string, messageId: Value, now: nat): map<string, Value> {
    opts[MessagesOption := Arr(Put(Messages(opts), StrKey(sessionId), SentRecord(messageId, now)))]
  }

  /** After a message is sent for a session, that session maps to the new record and
      every other session keeps what it had; a later send for the same session replaces
      the earlier record. */
  lemma RecordSentLookup(opts: map<string, Value>, sessionId: string, messageId: Value, now: nat, other: Key)
    ensures Lookup(Messages(RecordSent(opts, sessionId, messageId, now)), other)
         == if other == StrKey(sessionId) then SentRecord(messageId, now) else Lookup(Messages(opts), other)
  {
    PutLookup(Messages(opts), StrKey(sessionId), SentRecord(messageId, now), other);
  }

  lemma ResendOverwrites(opts: map<string, Value>, sessionId: string, first: Value, second: Value, t1: nat, t2: nat)
    ensures var twice := RecordSent(RecordSent(opts, sessionId, first, t1), sessionId, second, t2);
            Lookup(Messages(twice), StrKey(sessionId)) == SentRecord(second, t2)
  {
    RecordSentLookup(RecordSent(opts, sessionId, first, t1), sessionId, second, t2, StrKey(sessionId));
  }

  // ---------------------------------------------------------------------------
  // Pending responses

  /** The transient key of a response received at second `now`. */
  function ResponseKey(now: nat): string {
    ResponsePrefix + NatToString(now)
  }

  /** Responses received in different seconds get different keys, and responses received
      in the same second the same key. */
  lemma ResponseKeyInjective(a: nat, b: nat)
    ensures ResponseKey(a) == ResponseKey(b) <==> a == b
  {
    if ResponseKey(a) == ResponseKey(b) {
      assert NatToString(a) == ResponseKey(a)[|ResponsePrefix|..];
      assert NatToString(b) == ResponseKey(b)[|ResponsePrefix|..];
      NatToStringInjective(a, b);
    }
  }

  function ResponseRecord(text: Value, now: nat): Value {
    Record([("message", text), ("timestamp", Int(now))])
  }

  /** The three readings of `time()` taken while one text update is handled: the one in
      the transient key, the one stored with the text, and the one `set_transient` adds
      the expiry to. */
  datatype Tick = Tick(key: nat, stamp: nat, expiry: nat)

  /** `process_telegram_response` on the options: a transient keyed by the second. */
  function StoreResponse(opts: map<string, Value>, message: Value, tick: Tick): map<string, Value> {
    var key := ResponseKey(tick.key);
    opts[TransientOption(key) := ResponseRecord(Field(message, "text"), tick.stamp)]
        [TimeoutOption(key) := Int(tick.expiry + ResponseTtl)]
  }

  /** What `set_transient` writes is the stored response, and it keeps the options valid. */
  lemma StoreResponseWrites(opts: map<string, Value>, message: Value, tick: Tick, key: string, record: Value)
    requires ValidOptions(opts)
    requires key == ResponseKey(tick.key) && record == ResponseRecord(Field(message, "text"), tick.stamp)
    ensures var next := opts[TransientOption(key) := record][TimeoutOption(key) := Int(tick.expiry + ResponseTtl)];
            next == StoreResponse(opts, message, tick) && ValidOptions(next)
  {
    StoreResponseValid(opts, message, tick);
  }

  /** `isset($update['message']['text'])`. */
  predicate HasText(update: Value) {
    IsSet(Field(Field(update, "message"), "text"))
  }

  /** One turn of the `foreach` over updates: store the text if there is one, then move
      the offset past this update. */
  function ApplyUpdate(opts: map<string, Value>, update: Value, tick: Tick): map<string, Value> {
    var stored := if HasText(update) then StoreResponse(opts, Field(update, "message"), tick) else opts;
    stored[OffsetOption := Int(IntVal(Field(update, "update_id")) + 1)]
  }

  /** The whole `foreach`; `clock(i)` are the readings taken while update `i` is handled. */
  function ApplyUpdates(opts: map<string, Value>, updates: seq<Value>, clock: nat -> Tick): map<string, Value> {
    if updates == [] then opts
    else
      var n := |updates| - 1;
      ApplyUpdate(ApplyUpdates(opts, updates[..n], clock), updates[n], clock(n))
  }

  /** The position of the last update with text. */
  function LastText(updates: seq<Value>): (r: Option<nat>)
    ensures r.Some? ==> r.value < |updates| && HasText(updates[r.value])
  {
    if updates == [] then None
    else if HasText(updates[|updates| - 1]) then Some(|updates| - 1)
    else LastText(updates[..|updates| - 1])
  }

  /** The position of the last update with text whose key was read in second `t`. */
  function LastTextAt(updates: seq<Value>, clock: nat -> Tick, t: nat): (r: Option<nat>)
    ensures r.Some? ==> r.value < |updates| && HasText(updates[r.value]) && clock(r.value).key == t
  {
    if updates == [] then None
    else
      var n := |updates| - 1;
      if HasText(updates[n]) && clock(n).key == t then Some(n) else LastTextAt(updates[..n], clock, t)
  }

  /** After a non-empty batch the offset is one past the last update's id. */
  lemma OffsetAfterBatch(opts: map<string, Value>, updates: seq<Value>, clock: nat -> Tick)
    requires updates != []
    ensures ApplyUpdates(opts, updates, clock)[OffsetOption] == Int(IntVal(Field(updates[|updates| - 1], "update_id")) + 1)
  {
  }

  /** A batch without text moves the offset and nothing else. */
  lemma {:induction false} TextlessBatchOnlyMovesOffset(opts: map<string, Value>, updates: seq<Value>, clock: nat -> Tick, k: string)
    requires forall i :: 0 <= i < |updates| ==> !HasText(updates[i])
    requires k != OffsetOption
    ensures var r := ApplyUpdates(opts, updates, clock);
            (k in r <==> k in opts) && (k in opts ==> r[k] == opts[k])
  {
    if updates != [] {
      TextlessBatchOnlyMovesOffset(opts, updates[..|updates| - 1], clock, k);
    }
  }

  /** The transient of second `t` is not touched by an update that stores nothing under it. */
  lemma UpdateKeepsOtherSecond(opts: map<string, Value>, update: Value, tick: Tick, t: nat)
    requires !(HasText(update) && tick.key == t)
    ensures var r, key := ApplyUpdate(opts, update, tick), TransientOption(ResponseKey(t));
            (key in r <==> key in opts) && (key in opts ==> r[key] == opts[key])
  {
    var key := TransientOption(ResponseKey(t));
    OffsetIsNotTransient(ResponseKey(t));
    if HasText(update) {
      var other := ResponseKey(tick.key);
      ResponseKeyInjective(t, tick.key);
      assert key != TransientOption(other) by {
        assert key[11..] == ResponseKey(t) && TransientOption(other)[11..] == other;
      }
      assert key != TimeoutOption(other) by {
        assert key[11] == 'e' && TimeoutOption(other)[11] == 't';
      }
    }
  }

  /** Each second's transient holds the text of the last update handled in that second,
      stamped with that update's reading; a second in which no text was handled keeps
      what it had. So texts handled in different seconds are all kept. */
  lemma {:induction false} BatchStoresLastTextPerSecond(opts: map<string, Value>, updates: seq<Value>, clock: nat -> Tick, t: nat)
    ensures var r, key := ApplyUpdates(opts, updates, clock), TransientOption(ResponseKey(t));
            match LastTextAt(updates, clock, t)
            case Some(j) =>
              key in r && r[key] == ResponseRecord(Field(Field(updates[j], "message"), "text"), clock(j).stamp)
            case None =>
              (key in r <==> key in opts) && (key in opts ==> r[key] == opts[key])
  {
    if updates != [] {
      var n := |updates| - 1;
      var key := TransientOption(ResponseKey(t));
      var before := ApplyUpdates(opts, updates[..n], clock);
      if HasText(updates[n]) && clock(n).key == t {
        OffsetIsNotTransient(ResponseKey(t));
        TransientIsNotTimeout(ResponseKey(t));
        assert StoreResponse(before, Field(updates[n], "message"), clock(n))[key]
            == ResponseRecord(Field(Field(updates[n], "message"), "text"), clock(n).stamp);
      } else {
        BatchStoresLastTextPerSecond(opts, updates[..n], clock, t);
        UpdateKeepsOtherSecond(before, updates[n], clock(n), t);
      }
    }
  }

  /** When every update's key is read in the same second, the last text update is the
      last one of that second. */
  lemma {:induction false} SameSecondLastText(updates: seq<Value>, clock: nat -> Tick, t: nat)
    requires forall i :: 0 <= i < |updates| ==> clock(i).key == t
    ensures LastTextAt(updates, clock, t) == LastText(updates)
  {
    if updates != [] {
      SameSecondLastText(updates[..|updates| - 1], clock, t);
    }
  }

  /** Texts handled in the same second share one key, so only the last of them survives. */
  lemma BatchKeepsLastText(opts: map<string, Value>, updates: seq<Value>, clock: nat -> Tick, t: nat)
    requires LastText(updates).Some?
    requires forall i :: 0 <= i < |updates| ==> clock(i).key == t
    ensures var r, key, j := ApplyUpdates(opts, updates, clock), TransientOption(ResponseKey(t)), LastText(updates).value;
            key in r && r[key] == ResponseRecord(Field(Field(updates[j], "message"), "text"), clock(j).stamp)
  {
    SameSecondLastText(updates, clock, t);
    BatchStoresLastTextPerSecond(opts, updates, clock, t);
  }

  /** Two texts handled either side of a second boundary are both kept. */
  lemma TextsInTwoSecondsBothKept(opts: map<string, Value>, first: Value, second: Value, clock: nat -> Tick)
    requires HasText(first) && HasText(second)
    requires clock(1).key == clock(0).key + 1
    ensures var r := ApplyUpdates(opts, [first, second], clock);
            && TransientOption(ResponseKey(clock(0).key)) in r
            && TransientOption(ResponseKey(clock(1).key)) in r
            && r[TransientOption(ResponseKey(clock(0).key))]
               == ResponseRecord(Field(Field(first, "message"), "text"), clock(0).stamp)
            && r[TransientOption(ResponseKey(clock(1).key))]
               == ResponseRecord(Field(Field(second, "message"), "text"), clock(1).stamp)
  {
    var us := [first, second];
    assert us[..1] == [first] && us[..1][..0] == [];
    assert LastTextAt(us, clock, clock(0).key) == Some(0);
    assert LastTextAt(us, clock, clock(1).key) == Some(1);
    BatchStoresLastTextPerSecond(opts, us, clock, clock(0).key);
    BatchStoresLastTextPerSecond(opts, us, clock, clock(1).key);
  }

  // Names that can never clash.

  lemma OffsetIsNotTransient(key: string)
    ensures OffsetOption != TransientOption(key) && OffsetOption != TimeoutOption(key)
    ensures MessagesOption != TransientOption(key) && MessagesOption != TimeoutOption(key)
  {
    assert TransientOption(key)[0] == '_' && TimeoutOption(key)[0] == '_';
  }

  lemma TransientIsNotTimeout(key: string)
    ensures TransientOption(key) != TimeoutOption(key)
  {
    assert |TransientOption(key)| != |TimeoutOption(key)|;
  }

  // ---------------------------------------------------------------------------
  // Collecting pending responses

  const PendingStem := "_transient_echo5_telegram_response_"

  /** `$wpdb->esc_like('_transient_echo5_telegram_response_') . '%'`. */
  function PendingPattern(): string {
    EscLike(PendingStem) + "%"
  }

  /** The escaped pattern matches the option names that start with the stem, up to case. */
  lemma PendingPatternMatches(s: string)
    ensures Like(s, PendingPattern()) <==> FoldedPrefix(PendingStem, s)
  {
    EscapedPrefixLike(PendingStem, s);
  }

  /** `str_replace('_transient_', '', $option_name)`: the transient name `delete_transient` is given. */
  function PendingName(optionName: string): string {
    RemoveAll(optionName, "_transient_")
  }

  /** The option `delete_transient` is asked to remove for a row. */
  function Target(row: string): string {
    TransientOption(PendingName(row))
  }

  /** The rows the `SELECT ... LIKE` returns. */
  function Matched(opts: map<string, Value>): set<string> {
    set k | k in opts && Like(k, PendingPattern())
  }

  /** The rows whose value is truthy: the ones returned and deleted. */
  function Returned(opts: map<string, Value>): set<string> {
    set k | k in Matched(opts) && Truthy(opts[k])
  }

  /** The options `delete_transient` removes for the given rows of `snapshot`: each row's
      target, and the target's expiry when the target was there to remove. */
  function Removed(snapshot: map<string, Value>, rows: set<string>): set<string> {
    (set k | k in rows :: Target(k))
    + (set k | k in rows && Target(k) in snapshot :: TimeoutOption(PendingName(k)))
  }

  /** The options once the truthy pending responses are collected. */
  function Drained(opts: map<string, Value>): map<string, Value> {
    opts - Removed(opts, Returned(opts))
  }

  /** Every pending row names its own transient, so deleting by its name removes it. */
  predicate WellFormedPending(opts: map<string, Value>) {
    forall k :: k in Matched(opts) ==> Target(k) == k
  }

  /** The transients this class writes are well-formed pending rows. */
  lemma ResponseKeyName(now: nat)
    ensures PendingName(TransientOption(ResponseKey(now))) == ResponseKey(now)
  {
    var p := "_transient_";
    var r := ResponseKey(now);
    var s := TransientOption(r);
    assert HasPrefix(s, p) && s[|p|..] == r;
    forall i: nat ensures !OccursAt(r, p, i) {
      NoTransientAt(now, i);
    }
    RemoveAllAbsent(r, p);
  }

  /** `_transient_` occurs nowhere in a response key: its `_t` would have to be the
      prefix's `_telegram`, and that goes on with `e`, not `r`. */
  lemma NoTransientAt(now: nat, i: nat)
    ensures !OccursAt(ResponseKey(now), "_transient_", i)
  {
    var p := "_transient_";
    var r := ResponseKey(now);
    var ds := NatToString(now);
    PrefixLetters();
    if i + |p| <= |r| {
      var w := r[i..i + |p|];
      assert w[1] == r[i + 1] && w[2] == r[i + 2];
      if i + 1 < |ResponsePrefix| {
        assert r[i + 1] == ResponsePrefix[i + 1];
        if i + 1 == 6 {
          assert r[7] == ResponsePrefix[7];
        }
      } else {
        assert r[i + 1] == ds[i + 1 - |ResponsePrefix|];
      }
    }
  }

  /** The only `t` of the response prefix is followed by an `e`. */
  lemma PrefixLetters()
    ensures forall i :: 0 <= i < |ResponsePrefix| && i != 6 ==> ResponsePrefix[i] != 't'
    ensures ResponsePrefix[7] == 'e'
  {
  }

  /** The transient name of a pending row starts with `e`, `E` or `_`: the stem's `e`
      after a removed `_transient_`, or the row's own first character. */
  lemma PendingNameHead(k: string)
    requires FoldedPrefix(PendingStem, k)
    ensures PendingName(k) != [] && PendingName(k)[0] != 't'
  {
    var p := "_transient_";
    StemFolds(k);
    if HasPrefix(k, p) {
      var rest := k[|p|..];
      assert rest[0] == k[11];
      assert !HasPrefix(rest, p) by { assert rest[..|p|][0] == rest[0]; }
      RemoveAllHead(rest, p);
      assert PendingName(k) == RemoveAll(rest, p);
    } else {
      RemoveAllHead(k, p);
    }
  }

  /** The characters of a pending row at the stem's `_` and its first `e`. */
  lemma StemFolds(k: string)
    requires FoldedPrefix(PendingStem, k)
    ensures |k| > 11 && k[0] == '_' && (k[11] == 'e' || k[11] == 'E')
  {
    assert PendingStem[0] == '_' && PendingStem[11] == 'e';
    assert Fold(k[0]) == '_' && Fold(k[11]) == 'e';
  }

  /** No pending row's transient name begins with `timeout_`, so no row's target is the
      expiry of another's. */
  lemma MatchedNotTimeout(opts: map<string, Value>)
    ensures forall k :: k in Matched(opts) ==> !HasPrefix(PendingName(k), "timeout_")
  {
    forall k | k in Matched(opts) ensures !HasPrefix(PendingName(k), "timeout_") {
      PendingPatternMatches(k);
      PendingNameHead(k);
      NotTimeoutName(PendingName(k));
    }
  }

  lemma NotTimeoutName(n: string)
    requires n != [] && n[0] != 't'
    ensures !HasPrefix(n, "timeout_")
  {
  }

  /** The class's own option names are not pending rows. */
  lemma NotPending(key: string)
    ensures !Like(MessagesOption, PendingPattern())
    ensures !Like(OffsetOption, PendingPattern())
    ensures !Like(TimeoutOption(key), PendingPattern())
  {
    assert PendingStem[0] == '_' && PendingStem[11] == 'e';
    NotPendingAt(MessagesOption, 0);
    NotPendingAt(OffsetOption, 0);
    TimeoutLetter(key);
    NotPendingAt(TimeoutOption(key), 11);
  }

  lemma TimeoutLetter(key: string)
    ensures |TimeoutOption(key)| > 11 && TimeoutOption(key)[11] == 't'
  {
  }

  /** A name that differs from the stem, up to case, at some position within it is not a
      pending row. */
  lemma NotPendingAt(name: string, i: nat)
    requires i < |PendingStem| && i < |name| && Fold(name[i]) != Fold(PendingStem[i])
    ensures !Like(name, PendingPattern())
  {
    PendingPatternMatches(name);
  }

  /** Collecting deletes a returned row exactly when some returned row names it, so a
      well-formed row is always deleted; every option not deleted keeps its value. */
  lemma DrainedRemovesReturned(opts: map<string, Value>)
    ensures forall k :: k in Returned(opts) ==>
              (k in Drained(opts) <==> forall k2 :: k2 in Returned(opts) ==> Target(k2) != k)
    ensures forall k :: k in Returned(opts) && Target(k) == k ==> k !in Drained(opts)
    ensures forall k :: k in opts && k !in Removed(opts, Returned(opts)) ==> k in Drained(opts) && Drained(opts)[k] == opts[k]
  {
    var rows := Returned(opts);
    forall k | k in rows
      ensures k in Drained(opts) <==> forall k2 :: k2 in rows ==> Target(k2) != k
    {
      if k2 :| k2 in rows && TimeoutOption(PendingName(k2)) == k {
        NotPending(PendingName(k2));
      }
    }
  }

  /** What a second collection with no new responses returns: the returned rows that no
      returned row names, and nothing at all when every pending row is well-formed. */
  lemma DrainedHasNothingPending(opts: map<string, Value>)
    ensures forall k :: k in Returned(Drained(opts)) <==>
              k in Returned(opts) && forall k2 :: k2 in Returned(opts) ==> Target(k2) != k
    ensures WellFormedPending(opts) ==> Returned(Drained(opts)) == {}
  {
    DrainedRemovesReturned(opts);
    assert forall k :: k in Matched(Drained(opts)) <==> k in Matched(opts) && k in Drained(opts);
  }

  /** The upper-case spelling of a text. */
  function Shout(s: string): (r: string)
    ensures |r| == |s|
    ensures forall i :: 0 <= i < |s| ==> Fold(r[i]) == Fold(s[i]) && !('a' <= r[i] <= 'z')
  {
    if s == [] then []
    else [if 'a' <= s[0] <= 'z' then (s[0] as int - 32) as char else s[0]] + Shout(s[1..])
  }

  /** A name without lower-case letters has no `_transient_` in it to strip. */
  lemma UnstrippedName(s: string)
    requires forall i :: 0 <= i < |s| ==> !('a' <= s[i] <= 'z')
    ensures PendingName(s) == s
  {
    var p := "_transient_";
    forall i: nat ensures !OccursAt(s, p, i) {
      if i + |p| <= |s| {
        assert s[i..i + |p|][1] == s[i + 1];
      }
    }
    RemoveAllAbsent(s, p);
  }

  /** A response row written in capitals, as another program could store it. */
  const ShoutedRow := Shout(PendingStem) + "1"

  /** A capitalised name followed by a digit matches what the name matches, up to case,
      yet has no `_transient_` to strip. */
  lemma ShoutedShape(s: string)
    ensures FoldedPrefix(s, Shout(s) + "1")
    ensures Target(Shout(s) + "1") != Shout(s) + "1"
  {
    var row := Shout(s) + "1";
    forall i | 0 <= i < |row| ensures !('a' <= row[i] <= 'z') {
      if i < |s| {
        assert row[i] == Shout(s)[i];
      }
    }
    UnstrippedName(row);
    assert |Target(row)| == 11 + |row|;
  }

  /** A truthy pending row that does not name its own transient is returned by every
      collection. */
  lemma MisnamedRowCollectedForever(row: string, v: Value)
    requires Like(row, PendingPattern()) && Target(row) != row && Truthy(v)
    ensures Returned(map[row := v]) == {row} && Returned(Drained(map[row := v])) == {row}
  {
    SingleRowReturned(row, v);
    SingleRowRemoved(row, v);
    assert Drained(map[row := v]) == map[row := v];
  }

  lemma SingleRowReturned(row: string, v: Value)
    requires Like(row, PendingPattern()) && Truthy(v)
    ensures Returned(map[row := v]) == {row}
  {
    assert Matched(map[row := v]) == {row};
  }

  lemma SingleRowRemoved(row: string, v: Value)
    requires Target(row) != row
    ensures Removed(map[row := v], {row}) == {Target(row)}
  {
    assert (set k | k in {row} :: Target(k)) == {Target(row)};
    assert (set k | k in {row} && Target(k) in map[row := v] :: TimeoutOption(PendingName(k))) == {};
  }

  /** The `LIKE` matches such a row but `str_replace` does not strip it, so
      `delete_transient` misses it and every later collection returns it again. */
  lemma ShoutedRowCollectedForever()
    ensures var opts := map[ShoutedRow := Str("hi")];
            Returned(opts) == {ShoutedRow} && Returned(Drained(opts)) == {ShoutedRow}
  {
    ShoutedShape(PendingStem);
    PendingPatternMatches(ShoutedRow);
    MisnamedRowCollectedForever(ShoutedRow, Str("hi"));
  }

  /** The session map, when stored, is an array. */
  predicate ValidOptions(opts: map<string, Value>) {
    MessagesOption in opts ==> opts[MessagesOption].Arr?
  }

  /** Writing a name that is not a pending row, or a well-formed one, keeps pending rows
      well-formed. */
  lemma WellFormedWrite(opts: map<string, Value>, name: string, v: Value)
    requires Like(name, PendingPattern()) ==> Target(name) == name
    ensures WellFormedPending(opts) ==> WellFormedPending(opts[name := v])
  {
    assert forall k :: k in Matched(opts[name := v]) ==> k == name || k in Matched(opts);
  }

  /** Recording a send keeps the session map an array. */
  lemma RecordSentValid(opts: map<string, Value>, sessionId: string, messageId: Value, now: nat)
    ensures ValidOptions(RecordSent(opts, sessionId, messageId, now))
  {
  }

  lemma RecordSentKeepsWellFormed(opts: map<string, Value>, sessionId: string, messageId: Value, now: nat)
    requires WellFormedPending(opts)
    ensures WellFormedPending(RecordSent(opts, sessionId, messageId, now))
  {
    NotPending("");
    WellFormedWrite(opts, MessagesOption, Arr(Put(Messages(opts), StrKey(sessionId), SentRecord(messageId, now))));
  }

  /** Storing a response leaves the session map alone. */
  lemma StoreResponseValid(opts: map<string, Value>, message: Value, tick: Tick)
    requires ValidOptions(opts)
    ensures ValidOptions(StoreResponse(opts, message, tick))
  {
    OffsetIsNotTransient(ResponseKey(tick.key));
  }

  /** The row a response is stored under names its own transient, and its expiry is not
      a pending row. */
  lemma StoreResponseKeepsWellFormed(opts: map<string, Value>, message: Value, tick: Tick)
    requires WellFormedPending(opts)
    ensures WellFormedPending(StoreResponse(opts, message, tick))
  {
    var key := ResponseKey(tick.key);
    var first := opts[TransientOption(key) := ResponseRecord(Field(message, "text"), tick.stamp)];
    ResponseKeyName(tick.key);
    WellFormedWrite(opts, TransientOption(key), ResponseRecord(Field(message, "text"), tick.stamp));
    NotPending(key);
    WellFormedWrite(first, TimeoutOption(key), Int(tick.expiry + ResponseTtl));
  }

  lemma ApplyUpdateValid(opts: map<string, Value>, update: Value, tick: Tick)
    requires ValidOptions(opts)
    ensures ValidOptions(ApplyUpdate(opts, update, tick))
  {
    if HasText(update) {
      StoreResponseValid(opts, Field(update, "message"), tick);
    }
  }

  lemma ApplyUpdateKeepsWellFormed(opts: map<string, Value>, update: Value, tick: Tick)
    requires WellFormedPending(opts)
    ensures WellFormedPending(ApplyUpdate(opts, update, tick))
  {
    var stored := if HasText(update) then StoreResponse(opts, Field(update, "message"), tick) else opts;
    if HasText(update) {
      StoreResponseKeepsWellFormed(opts, Field(update, "message"), tick);
    }
    NotPending("");
    WellFormedWrite(stored, OffsetOption, Int(IntVal(Field(update, "update_id")) + 1));
  }

  lemma DrainedValid(opts: map<string, Value>)
    requires ValidOptions(opts)
    ensures ValidOptions(Drained(opts))
  {
  }

  lemma DrainedKeepsWellFormed(opts: map<string, Value>)
    requires WellFormedPending(opts)
    ensures WellFormedPending(Drained(opts))
  {
    assert forall k :: k in Matched(Drained(opts)) ==> k in Matched(opts);
  }

  // ---------------------------------------------------------------------------
  // The class

  class TelegramIntegration {
    const store: OptionStore
    const botToken: Value
    const chatId: Value

    /** Reads the bot token and chat id once; later changes to the options are not seen. */
    constructor (store: OptionStore)
      ensures this.store == store
      ensures botToken == store.GetOption(TokenOption, Str(""))
      ensures chatId == store.GetOption(ChatIdOption, Str(""))
    {
      this.store := store;
      botToken := store.GetOption(TokenOption, Str(""));
      chatId := store.GetOption(ChatIdOption, Str(""));
    }

    predicate Valid()
      reads store
    {
      ValidOptions(store.options)
    }

    /** `store_telegram_message_id`. */
    method StoreTelegramMessageId(sessionId: string, messageId: Value, now: nat)
      requires Valid()
      modifies store
      ensures Valid()
      ensures store.options == RecordSent(old(store.options), sessionId, messageId, now)
    {
      var messages := store.GetOption(MessagesOption, Arr([]));
      assert messages.entries == Messages(store.options);
      RecordSentValid(store.options, sessionId, messageId, now);
      store.UpdateOption(MessagesOption, Arr(Put(messages.entries, StrKey(sessionId), SentRecord(messageId, now))));
    }

    /** `send_to_telegram`. `response` is Telegram's answer to the post, if one is made. */
    method SendToTelegram(userName: string, message: string, sessionId: string, response: HttpResult, now: nat)
      returns (result: Result<bool, WpError>, sent: Option<TelegramPost>)
      requires Valid()
      modifies store
      ensures Valid()
      ensures Empty(botToken) || Empty(chatId) ==>
                && result == Err(WpError("telegram_config", "Telegram bot not configured"))
                && sent == None && store.options == old(store.options)
      ensures !Empty(botToken) && !Empty(chatId) ==>
                sent == Some(TelegramPost(ApiBase + ToStr(botToken) + "/sendMessage", chatId,
                                          NotificationText(userName, message, sessionId), "HTML"))
      ensures sent.Some? && response.TransportError? ==>
                result == Err(response.error) && store.options == old(store.options)
      ensures sent.Some? && response.Response? && !Acknowledged(response.body) ==>
                && result == Err(WpError("telegram_error", Description(response.body)))
                && store.options == old(store.options)
      ensures sent.Some? && response.Response? && Acknowledged(response.body) ==>
                && result == Ok(true)
                && store.options == RecordSent(old(store.options), sessionId,
                                               Field(Field(response.body, "result"), "message_id"), now)
    {
      if Empty(botToken) || Empty(chatId) {
        return Err(WpError("telegram_config", "Telegram bot not configured")), None;
      }
      var text := NotificationText(userName, message, sessionId);
      sent := Some(TelegramPost(ApiBase + ToStr(botToken) + "/sendMessage", chatId, text, "HTML"));
      match response
      case TransportError(e) =>
        result := Err(e);
      case Response(_, body) =>
        if !Acknowledged(body) {
          result := Err(WpError("telegram_error", Description(body)));
        } else {
          StoreTelegramMessageId(sessionId, Field(Field(body, "result"), "message_id"), now);
          result := Ok(true);
        }
    }

    /** `process_telegram_response`, with the readings of `time()` it takes. */
    method ProcessTelegramResponse(message: Value, tick: Tick)
      requires Valid()
      modifies store
      ensures Valid()
      ensures store.options == StoreResponse(old(store.options), message, tick)
    {
      var key := ResponseKey(tick.key);
      var record := ResponseRecord(Field(message, "text"), tick.stamp);
      StoreResponseWrites(store.options, message, tick, key, record);
      store.SetTransient(key, record, ResponseTtl, tick.expiry);
    }

    /** One turn of the loop over updates in `check_telegram_updates`. */
    method HandleUpdate(update: Value, tick: Tick)
      requires Valid()
      modifies store
      ensures Valid()
      ensures store.options == ApplyUpdate(old(store.options), update, tick)
    {
      ApplyUpdateValid(store.options, update, tick);
      if HasText(update) {
        ProcessTelegramResponse(Field(update, "message"), tick);
      }
      store.UpdateOption(OffsetOption, Int(IntVal(Field(update, "update_id")) + 1));
    }

    /** `check_telegram_updates`. `response` is Telegram's answer to the `getUpdates` call
        and `clock(i)` the readings of `time()` taken while update `i` is handled. */
    method CheckTelegramUpdates(response: HttpResult, clock: nat -> Tick) returns (ok: bool, request: Option<string>)
      requires Valid()
      modifies store
      ensures Valid()
      ensures Empty(botToken) ==> !ok && request == None && store.options == old(store.options)
      ensures !Empty(botToken) ==>
                request == Some(ApiBase + ToStr(botToken) + "/getUpdates?offset="
                                + ToStr(old(store.GetOption(OffsetOption, Int(0)))))
      ensures request.Some? && !(response.Response? && Acknowledged(response.body)) ==>
                !ok && store.options == old(store.options)
      ensures request.Some? && response.Response? && Acknowledged(response.body) ==>
                ok && store.options == ApplyUpdates(old(store.options), Items(Field(response.body, "result")), clock)
    {
      if Empty(botToken) {
        return false, None;
      }
      var offset := store.GetOption(OffsetOption, Int(0));
      request := Some(ApiBase + ToStr(botToken) + "/getUpdates?offset=" + ToStr(offset));
      if response.TransportError? || !Acknowledged(response.body) {
        return false, request;
      }
      var updates := Items(Field(response.body, "result"));
      var i := 0;
      while i < |updates|
        invariant 0 <= i <= |updates|
        invariant Valid()
        invariant store.options == ApplyUpdates(old(store.options), updates[..i], clock)
      {
        assert updates[..i + 1][..i] == updates[..i];
        HandleUpdate(updates[i], clock(i));
        i := i + 1;
      }
      assert updates[..i] == updates;
      ok := true;
    }

    /** `get_pending_responses`: the truthy pending values, in the order the query
        returned their rows (`order`), each row's transient deleted once it is read. */
    method GetPendingResponses() returns (responses: seq<Value>, ghost order: seq<string>)
      modifies store
      ensures store.options == Drained(old(store.options))
      ensures Elems(order) == Returned(old(store.options))
      ensures forall i, j :: 0 <= i < j < |order| ==> order[i] != order[j]
      ensures |responses| == |order|
      ensures forall i :: 0 <= i < |order| ==> order[i] in old(store.options) && responses[i] == old(store.options)[order[i]]
    {
      var snapshot := store.options;
      MatchedNotTimeout(snapshot);
      responses, order := ReadRows(snapshot, Matched(snapshot));
      ReturnedAreTruthyRows(snapshot);
    }

    /** The `foreach` over the rows the query returned: `snapshot` holds their values as
        read, so deleting a transient does not change what later rows yield. */
    method ReadRows(snapshot: map<string, Value>, rows: set<string>) returns (responses: seq<Value>, ghost order: seq<string>)
      requires rows <= snapshot.Keys && store.options == snapshot
      requires forall k :: k in rows ==> !HasPrefix(PendingName(k), "timeout_")
      modifies store
      ensures store.options == snapshot - Removed(snapshot, TruthyRows(snapshot, rows))
      ensures Elems(order) == TruthyRows(snapshot, rows)
      ensures forall i, j :: 0 <= i < j < |order| ==> order[i] != order[j]
      ensures |responses| == |order|
      ensures forall i :: 0 <= i < |order| ==> order[i] in snapshot && responses[i] == snapshot[order[i]]
    {
      var left := rows;
      ghost var visited: set<string> := {};
      responses := [];
      order := [];
      while left != {}
        invariant left + visited == rows && left !! visited
        invariant Elems(order) == TruthyRows(snapshot, visited)
        invariant store.options == snapshot - Removed(snapshot, TruthyRows(snapshot, visited))
        invariant forall i, j :: 0 <= i < j < |order| ==> order[i] != order[j]
        invariant |responses| == |order|
        invariant forall i :: 0 <= i < |order| ==> order[i] in snapshot && responses[i] == snapshot[order[i]]
        decreases left
      {
        var k :| k in left;
        DrainStep(snapshot, visited, k);
        if Truthy(snapshot[k]) {
          ElemsAppend(order, k);
          AppendRow(snapshot, order, responses, k);
          responses := responses + [snapshot[k]];
          order := order + [k];
          var deleted := store.DeleteTransient(PendingName(k));
        }
        left := left - {k};
        visited := visited + {k};
      }
    }
  }

  lemma ReturnedAreTruthyRows(opts: map<string, Value>)
    ensures Matched(opts) <= opts.Keys
    ensures TruthyRows(opts, Matched(opts)) == Returned(opts)
  {
  }

  /** The elements of a sequence. */
  function Elems(xs: seq<string>): set<string> {
    set x | x in xs
  }

  lemma ElemsAppend(xs: seq<string>, x: string)
    ensures Elems(xs + [x]) == Elems(xs) + {x}
  {
  }

  /** Reading one more row keeps the rows distinct and each response its row's value. */
  lemma AppendRow(snapshot: map<string, Value>, order: seq<string>, responses: seq<Value>, k: string)
    requires k in snapshot && k !in Elems(order) && |responses| == |order|
    requires forall i, j :: 0 <= i < j < |order| ==> order[i] != order[j]
    requires forall i :: 0 <= i < |order| ==> order[i] in snapshot && responses[i] == snapshot[order[i]]
    ensures forall i, j :: 0 <= i < j < |order| + 1 ==> (order + [k])[i] != (order + [k])[j]
    ensures forall i :: 0 <= i < |order| + 1 ==>
              (order + [k])[i] in snapshot && (responses + [snapshot[k]])[i] == snapshot[(order + [k])[i]]
  {
  }

  /** The rows among `visited` whose snapshot value is truthy. */
  function TruthyRows(snapshot: map<string, Value>, visited: set<string>): set<string>
    requires visited <= snapshot.Keys
  {
    set k | k in visited && Truthy(snapshot[k])
  }

  /** A transient's option names another transient's only when the names agree, and its
      expiry only when the name begins with `timeout_`. */
  lemma OptionNamesClash(a: string, b: string)
    ensures TransientOption(a) == TransientOption(b) ==> a == b
    ensures TransientOption(a) == TimeoutOption(b) ==> HasPrefix(a, "timeout_")
  {
    assert TransientOption(a)[11..] == a && TransientOption(b)[11..] == b;
    assert TimeoutOption(b)[11..] == "timeout_" + b;
  }

  /** Visiting one more row: it joins the truthy rows when its value is truthy, and
      `delete_transient` on its name, which removes the expiry only when the value was
      still there, leaves the options the larger set of rows removes. */
  lemma DrainStep(snapshot: map<string, Value>, visited: set<string>, k: string)
    requires visited <= snapshot.Keys && k in snapshot
    requires forall r :: r in visited + {k} ==> !HasPrefix(PendingName(r), "timeout_")
    ensures TruthyRows(snapshot, visited + {k})
         == if Truthy(snapshot[k]) then TruthyRows(snapshot, visited) + {k} else TruthyRows(snapshot, visited)
    ensures var rows, n := TruthyRows(snapshot, visited), PendingName(k);
            var current, next := snapshot - Removed(snapshot, rows), snapshot - Removed(snapshot, rows + {k});
            && (TransientOption(n) in current ==> current - {TransientOption(n), TimeoutOption(n)} == next)
            && (TransientOption(n) !in current ==> current == next)
  {
    RemoveStep(snapshot, TruthyRows(snapshot, visited), k);
  }

  lemma RemoveStep(snapshot: map<string, Value>, rows: set<string>, k: string)
    requires forall r :: r in rows + {k} ==> !HasPrefix(PendingName(r), "timeout_")
    ensures var n := PendingName(k);
            var current, next := snapshot - Removed(snapshot, rows), snapshot - Removed(snapshot, rows + {k});
            && (TransientOption(n) in current ==> current - {TransientOption(n), TimeoutOption(n)} == next)
            && (TransientOption(n) !in current ==> current == next)
  {
    var n := PendingName(k);
    RemovedAdd(snapshot, rows, k);
    if TransientOption(n) in snapshot && TransientOption(n) in Removed(snapshot, rows) {
      EarlierTarget(snapshot, rows, n);
    }
  }

  /** A transient already removed by an earlier row was that row's target, so its expiry
      went with it. */
  lemma EarlierTarget(snapshot: map<string, Value>, rows: set<string>, n: string)
    requires forall r :: r in rows ==> !HasPrefix(PendingName(r), "timeout_")
    requires !HasPrefix(n, "timeout_")
    requires TransientOption(n) in snapshot && TransientOption(n) in Removed(snapshot, rows)
    ensures TimeoutOption(n) in Removed(snapshot, rows)
  {
    var r :| r in rows && (Target(r) == TransientOption(n)
                           || (Target(r) in snapshot && TimeoutOption(PendingName(r)) == TransientOption(n)));
    OptionNamesClash(n, PendingName(r));
    OptionNamesClash(PendingName(r), n);
  }

  lemma RemovedAdd(snapshot: map<string, Value>, rows: set<string>, k: string)
    ensures Removed(snapshot, rows + {k})
         == Removed(snapshot, rows) + {Target(k)}
            + (if Target(k) in snapshot then {TimeoutOption(PendingName(k))} else {})
  {
  }
}
