/** The session store of src/memory.py: a `chats` table, a `chat_history` table and the
    process-local `current_id`. The SQLite tables are sequences of rows in insertion
    (rowid) order; `datetime.now()` is a timestamp the caller passes in, later than every
    timestamp written before (`clock`). Because every row is written at a later time than
    the rows before it, each table is kept in ascending `created` order, so
    `ORDER BY created ASC` is the table order and `ORDER BY created DESC` its reverse. */
module ChatMemory {
  import opened Wrappers
  import opened Seqs
  import opened Text
  import opened Models

  // ------------------------------------------------------------ table invariants

  /** Chats appear in ascending id and ascending creation time. */
  predicate ChatOrder(a: ChatHeader, b: ChatHeader) {
    a.id < b.id && Before(a.created, b.created)
  }

  /** History rows appear in ascending creation time. */
  predicate RowOrder(a: ChatItem, b: ChatItem) {
    Before(a.created, b.created)
  }

  /** What every sequence of store operations keeps true of the two tables, given the
      latest timestamp written: rows are ordered, chat ids are positive rowids, and no row
      is dated after `clock`. */
  ghost predicate TablesValid(chats: seq<ChatHeader>, history: seq<ChatItem>, clock: string) {
    && Pairwise(chats, ChatOrder)
    && Pairwise(history, RowOrder)
    && (forall k :: 0 <= k < |chats| ==> chats[k].id >= 1 && AtOrBefore(chats[k].created, clock))
    && (forall k :: 0 <= k < |history| ==> AtOrBefore(history[k].created, clock))
  }

  /** The largest chat id, or 0 for an empty table. */
  function MaxId(chats: seq<ChatHeader>): (m: int)
    ensures m >= 0
    ensures forall k :: 0 <= k < |chats| ==> chats[k].id <= m
  {
    if chats == [] then 0
    else
      var rest := MaxId(chats[1..]);
      if chats[0].id > rest then chats[0].id else rest
  }

  /** The rowid SQLite gives the next inserted chat: one more than the largest id. */
  function NewChatId(chats: seq<ChatHeader>): (id: int)
    ensures id >= 1
    ensures forall k :: 0 <= k < |chats| ==> chats[k].id != id
  {
    MaxId(chats) + 1
  }

  /** The `chat_history` row `add_to_conversation` inserts. */
  function NewHistoryRow(current: Option<int>, now: string, role: string, content: string, visible: int): ChatItem {
    ChatItem(current, now, role, content, visible)
  }

  /** Appending a row dated strictly after `clock` keeps the history invariant. */
  lemma AppendRowValid(chats: seq<ChatHeader>, history: seq<ChatItem>, clock: string, row: ChatItem)
    requires TablesValid(chats, history, clock)
    requires Before(clock, row.created)
    ensures TablesValid(chats, history + [row], row.created)
  {
    var h := history + [row];
    forall i, j | 0 <= i < j < |h| ensures RowOrder(h[i], h[j]) {
      if j == |history| {
        AtOrBeforeThenBefore(history[i].created, clock, row.created);
      }
    }
    forall k | 0 <= k < |chats| ensures AtOrBefore(chats[k].created, row.created) {
      AtOrBeforeThenBefore(chats[k].created, clock, row.created);
    }
    forall k | 0 <= k < |history| ensures AtOrBefore(history[k].created, row.created) {
      AtOrBeforeThenBefore(history[k].created, clock, row.created);
    }
  }

  /** Appending a chat with a fresh, larger id dated strictly after `clock` keeps the invariant. */
  lemma AppendChatValid(chats: seq<ChatHeader>, history: seq<ChatItem>, clock: string, title: string, now: string)
    requires TablesValid(chats, history, clock)
    requires Before(clock, now)
    ensures TablesValid(chats + [ChatHeader(NewChatId(chats), now, title)], history, now)
  {
    var c := ChatHeader(NewChatId(chats), now, title);
    var cs := chats + [c];
    forall i, j | 0 <= i < j < |cs| ensures ChatOrder(cs[i], cs[j]) {
      if j == |chats| {
        AtOrBeforeThenBefore(chats[i].created, clock, now);
      }
    }
    forall k | 0 <= k < |chats| ensures AtOrBefore(chats[k].created, now) {
      AtOrBeforeThenBefore(chats[k].created, clock, now);
    }
    forall k | 0 <= k < |history| ensures AtOrBefore(history[k].created, now) {
      AtOrBeforeThenBefore(history[k].created, clock, now);
    }
  }

  // ------------------------------------------------------------ delete

  datatype Tables = Tables(chats: seq<ChatHeader>, history: seq<ChatItem>)

  /** What `delete` leaves behind and the ids it reports. */
  datatype Deletion = Deletion(tables: Tables, deleted: seq<int>)

  /** Python's `str()` of `current_id`. */
  function PyStr(v: Option<int>): string {
    match v
    case None => "None"
    case Some(n) => IntToStr(n)
  }

  /** Python truthiness of `current_id` (`if self.current_id:`). */
  predicate Truthy(v: Option<int>) {
    v.Some? && v.value != 0
  }

  /** The WHERE clause of `delete` on `chats`. SQLite converts a text parameter compared
      with the INTEGER `id` column to a number when it is a well-formed integer or real
      literal (`SqlInteger`), so `"04"`, `"4.0"` and `" 4 "` all select chat 4. */
  predicate ChatSelected(c: ChatHeader, current: Option<int>, sel: string) {
    if sel == "*" then
      if Truthy(current) then c.id != current.value else true
    else SqlInteger(sel) == Some(c.id)
  }

  /** The same WHERE clause on `chat_history`. A NULL id satisfies neither `id = ?` nor
      `id != ?`, so only the unconditional DELETE removes such rows. */
  predicate RowSelected(r: ChatItem, current: Option<int>, sel: string) {
    if sel == "*" then
      if Truthy(current) then r.id.Some? && r.id.value != current.value else true
    else r.id.Some? && SqlInteger(sel) == Some(r.id.value)
  }

  function Ids(chats: seq<ChatHeader>): (ids: seq<int>)
    ensures |ids| == |chats|
    ensures forall k :: 0 <= k < |chats| ==> ids[k] == chats[k].id
  {
    seq(|chats|, k requires 0 <= k < |chats| => chats[k].id)
  }

  function KeptChats(chats: seq<ChatHeader>, current: Option<int>, sel: string): seq<ChatHeader> {
    Filter(chats, (c: ChatHeader) => !ChatSelected(c, current, sel))
  }

  function RemovedChats(chats: seq<ChatHeader>, current: Option<int>, sel: string): seq<ChatHeader> {
    Filter(chats, (c: ChatHeader) => ChatSelected(c, current, sel))
  }

  function KeptRows(history: seq<ChatItem>, current: Option<int>, sel: string): seq<ChatItem> {
    Filter(history, (r: ChatItem) => !RowSelected(r, current, sel))
  }

  /** The surviving chats are the unselected ones, the removed chats the selected ones,
      the surviving rows the unselected ones. */
  lemma PurgeMembers(chats: seq<ChatHeader>, history: seq<ChatItem>, current: Option<int>, sel: string)
    ensures var kept := KeptChats(chats, current, sel);
            && (forall k :: 0 <= k < |kept| ==> kept[k] in chats && !ChatSelected(kept[k], current, sel))
            && (forall k :: 0 <= k < |chats| && !ChatSelected(chats[k], current, sel) ==> chats[k] in kept)
    ensures var removed := RemovedChats(chats, current, sel);
            && (forall k :: 0 <= k < |removed| ==> removed[k] in chats && ChatSelected(removed[k], current, sel))
            && (forall k :: 0 <= k < |chats| && ChatSelected(chats[k], current, sel) ==> chats[k] in removed)
    ensures var rows := KeptRows(history, current, sel);
            && (forall k :: 0 <= k < |rows| ==> rows[k] in history && !RowSelected(rows[k], current, sel))
            && (forall k :: 0 <= k < |history| && !RowSelected(history[k], current, sel) ==> history[k] in rows)
  {
    FilterMembers(chats, (c: ChatHeader) => !ChatSelected(c, current, sel));
    FilterMembers(chats, (c: ChatHeader) => ChatSelected(c, current, sel));
    FilterMembers(history, (r: ChatItem) => !RowSelected(r, current, sel));
  }

  /** SELECT the ids, then DELETE from both tables with the same WHERE clause. */
  function Purge(t: Tables, current: Option<int>, sel: string): Deletion {
    Deletion(Tables(KeptChats(t.chats, current, sel), KeptRows(t.history, current, sel)),
             Ids(RemovedChats(t.chats, current, sel)))
  }

  /** `delete` exactly as written: the guard compares `str(id)` with `str(current_id)`. */
  function DeleteAsWritten(t: Tables, current: Option<int>, sel: string): Deletion {
    if sel == PyStr(current) then Deletion(t, []) else Purge(t, current, sel)
  }

  /** The guard `delete` evidently intends: a selector that names the current chat, as
      text or as the number SQLite reads it as, deletes nothing. */
  predicate ProtectsCurrent(current: Option<int>, sel: string) {
    sel == PyStr(current) || (current.Some? && SqlInteger(sel) == Some(current.value))
  }

  /** `delete` with the intended guard; this is what `Memory.Delete` does. */
  function DeleteChats(t: Tables, current: Option<int>, sel: string): Deletion {
    if ProtectsCurrent(current, sel) then Deletion(t, []) else Purge(t, current, sel)
  }

  /** Counterexample to the docstring of the code as written: with chat 4 current,
      `delete("04")` passes the string guard, and SQLite reads "04" as 4, so the current
      chat and its history go. */
  lemma DeleteAsWrittenRemovesCurrent()
    ensures var t := Tables([ChatHeader(4, "2026-01-11 11:47:19", "hello")],
                            [ChatItem(Some(4), "2026-01-11 11:47:20", "user", "hi", 1)]);
            var d := DeleteAsWritten(t, Some(4), "04");
            d.tables == Tables([], []) && d.deleted == [4]
  {
    SqlIntegerZeroPadded();
    assert IntToStr(4) == "4";
    var c := ChatHeader(4, "2026-01-11 11:47:19", "hello");
    var r := ChatItem(Some(4), "2026-01-11 11:47:20", "user", "hi", 1);
    assert ChatSelected(c, Some(4), "04") && RowSelected(r, Some(4), "04");
    assert [c][1..] == [] && [r][1..] == [];
  }

  /** The general form: any selector SQLite reads as the current id `n` other than
      `str(n)` itself (`"4.0"`, `"+4"`, `" 4"` for chat 4) makes the code as written remove
      the current chat and every history row tagged with it. */
  lemma DeleteAsWrittenRemovesCurrentById(t: Tables, n: int, sel: string)
    requires SqlInteger(sel) == Some(n) && sel != IntToStr(n)
    ensures var d := DeleteAsWritten(t, Some(n), sel);
            && (forall k :: 0 <= k < |t.chats| && t.chats[k].id == n ==> t.chats[k] !in d.tables.chats)
            && (forall j :: 0 <= j < |t.history| && t.history[j].id == Some(n) ==> t.history[j] !in d.tables.history)
  {
    SqlIntegerRejects();
    PurgeMembers(t.chats, t.history, Some(n), sel);
    var d := DeleteAsWritten(t, Some(n), sel);
    forall k | 0 <= k < |t.chats| && t.chats[k].id == n ensures t.chats[k] !in d.tables.chats {
      forall i | 0 <= i < |d.tables.chats| ensures d.tables.chats[i] != t.chats[k] {
        assert !ChatSelected(d.tables.chats[i], Some(n), sel);
      }
    }
    forall j | 0 <= j < |t.history| && t.history[j].id == Some(n) ensures t.history[j] !in d.tables.history {
      forall i | 0 <= i < |d.tables.history| ensures d.tables.history[i] != t.history[j] {
        assert !RowSelected(d.tables.history[i], Some(n), sel);
      }
    }
  }

  /** The intended property: whatever the selector, the current chat and the history rows
      tagged with a (truthy) current id survive `Delete`. */
  lemma {:induction false} DeleteKeepsCurrent(t: Tables, current: Option<int>, sel: string, clock: string)
    requires TablesValid(t.chats, t.history, clock)
    ensures forall k :: 0 <= k < |t.chats| && current == Some(t.chats[k].id) ==>
              t.chats[k] in DeleteChats(t, current, sel).tables.chats
    ensures forall j :: 0 <= j < |t.history| && Truthy(current) && t.history[j].id == current ==>
              t.history[j] in DeleteChats(t, current, sel).tables.history
  {
    PurgeMembers(t.chats, t.history, current, sel);
    forall k | 0 <= k < |t.chats| && current == Some(t.chats[k].id)
      ensures t.chats[k] in DeleteChats(t, current, sel).tables.chats
    {
      if !ProtectsCurrent(current, sel) {
        assert t.chats[k].id >= 1;
        assert !ChatSelected(t.chats[k], current, sel);
      }
    }
    forall j | 0 <= j < |t.history| && Truthy(current) && t.history[j].id == current
      ensures t.history[j] in DeleteChats(t, current, sel).tables.history
    {
      if !ProtectsCurrent(current, sel) {
        assert !RowSelected(t.history[j], current, sel);
      }
    }
  }

  /** The two guards agree except on a selector SQLite reads as the current id without
      being `str(current_id)` (`"04"`, `"+4"`, `"4.0"`, `"4e0"`, `" 4"`): there the intended
      guard deletes nothing and the code as written purges. */
  lemma GuardsAgree(t: Tables, current: Option<int>, sel: string)
    ensures !ProtectsCurrent(current, sel) ==>
              DeleteAsWritten(t, current, sel) == DeleteChats(t, current, sel) == Purge(t, current, sel)
    ensures sel == PyStr(current) ==>
              DeleteAsWritten(t, current, sel) == DeleteChats(t, current, sel) == Deletion(t, [])
    ensures ProtectsCurrent(current, sel) && sel != PyStr(current) ==>
              DeleteChats(t, current, sel) == Deletion(t, []) && DeleteAsWritten(t, current, sel) == Purge(t, current, sel)
  {
  }

  /** Deleting the current chat by its own id is a no-op that reports nothing. */
  lemma DeleteCurrentIsNoop(t: Tables, current: Option<int>)
    ensures DeleteChats(t, current, PyStr(current)) == Deletion(t, [])
    ensures DeleteAsWritten(t, current, PyStr(current)) == Deletion(t, [])
  {
  }

  /** `"*"` with a current chat keeps only that chat, and keeps the history rows that
      belong to it or to no chat at all. */
  lemma {:induction false} DeleteAllButCurrent(t: Tables, current: Option<int>)
    requires Truthy(current)
    ensures var d := DeleteChats(t, current, "*");
            && (forall k :: 0 <= k < |t.chats| ==> (t.chats[k] in d.tables.chats <==> t.chats[k].id == current.value))
            && (forall k :: 0 <= k < |d.tables.chats| ==> d.tables.chats[k].id == current.value)
            && (forall k :: 0 <= k < |t.history| ==>
                  (t.history[k] in d.tables.history <==> t.history[k].id.None? || t.history[k].id == current))
            && (forall k :: 0 <= k < |d.tables.history| ==>
                  d.tables.history[k].id.None? || d.tables.history[k].id == current)
  {
    PurgeMembers(t.chats, t.history, current, "*");
    ParseIntToStr(current.value);
    SqlIntegerRejects();
    assert !ProtectsCurrent(current, "*");
    var d := DeleteChats(t, current, "*");
    forall k | 0 <= k < |t.chats| && t.chats[k] in d.tables.chats
      ensures t.chats[k].id == current.value
    {
      var j :| 0 <= j < |d.tables.chats| && d.tables.chats[j] == t.chats[k];
      assert !ChatSelected(d.tables.chats[j], current, "*");
    }
    forall k | 0 <= k < |t.history| && t.history[k] in d.tables.history
      ensures t.history[k].id.None? || t.history[k].id == current
    {
      var j :| 0 <= j < |d.tables.history| && d.tables.history[j] == t.history[k];
      assert !RowSelected(d.tables.history[j], current, "*");
    }
  }

  /** `"*"` with no (truthy) current chat empties both tables and reports every chat. */
  lemma DeleteAllWithoutCurrent(t: Tables, current: Option<int>)
    requires !Truthy(current)
    ensures var d := DeleteChats(t, current, "*");
            d.tables == Tables([], []) && d.deleted == Ids(t.chats)
  {
    PurgeMembers(t.chats, t.history, current, "*");
    assert PyStr(current) != "*" by {
      if current.Some? { ParseIntToStr(current.value); }
    }
    SqlIntegerRejects();
    var d := DeleteChats(t, current, "*");
    assert |d.tables.chats| > 0 ==> !ChatSelected(d.tables.chats[0], current, "*");
    assert |d.tables.history| > 0 ==> !RowSelected(d.tables.history[0], current, "*");
    AllSelected(t.chats, current);
  }

  lemma {:induction false} AllSelected(chats: seq<ChatHeader>, current: Option<int>)
    requires !Truthy(current)
    ensures RemovedChats(chats, current, "*") == chats
  {
    if chats != [] {
      AllSelected(chats[1..], current);
      assert chats == [chats[0]] + chats[1..];
    }
  }

  /** At most one chat carries a given id, because ids ascend strictly. */
  lemma {:induction false} UniqueIdSelected(chats: seq<ChatHeader>, current: Option<int>, sel: string)
    requires Pairwise(chats, ChatOrder)
    requires sel != "*"
    ensures var removed := RemovedChats(chats, current, sel);
            && |removed| <= 1
            && (|removed| == 1 <==> exists k :: 0 <= k < |chats| && SqlInteger(sel) == Some(chats[k].id))
  {
    PurgeMembers(chats, [], current, sel);
    var removed := RemovedChats(chats, current, sel);
    AtMostOneSelected(chats, current, sel);
    if |removed| == 1 {
      assert removed[0] in chats;
      var k :| 0 <= k < |chats| && chats[k] == removed[0];
      assert SqlInteger(sel) == Some(chats[k].id);
    }
    if exists k :: 0 <= k < |chats| && SqlInteger(sel) == Some(chats[k].id) {
      var k :| 0 <= k < |chats| && SqlInteger(sel) == Some(chats[k].id);
      assert ChatSelected(chats[k], current, sel);
      assert chats[k] in removed;
    }
  }

  lemma {:induction false} AtMostOneSelected(chats: seq<ChatHeader>, current: Option<int>, sel: string)
    requires Pairwise(chats, ChatOrder)
    requires sel != "*"
    ensures |RemovedChats(chats, current, sel)| <= 1
  {
    PurgeMembers(chats, [], current, sel);
    var removed := RemovedChats(chats, current, sel);
    FilterPairwise(chats, (c: ChatHeader) => ChatSelected(c, current, sel), ChatOrder);
    assert Pairwise(removed, ChatOrder);
    assert |removed| >= 2 ==> removed[0].id == removed[1].id by {
      if |removed| >= 2 {
        assert ChatSelected(removed[0], current, sel) && ChatSelected(removed[1], current, sel);
      }
    }
    assert |removed| >= 2 ==> ChatOrder(removed[0], removed[1]);
  }

  /** Deleting one chat by id reports `[id]` when that chat exists and `[]` when it does not. */
  lemma DeleteByIdReports(t: Tables, current: Option<int>, sel: string, n: int, clock: string)
    requires TablesValid(t.chats, t.history, clock)
    requires sel != "*" && SqlInteger(sel) == Some(n) && !ProtectsCurrent(current, sel)
    ensures DeleteChats(t, current, sel).deleted
            == (if exists k :: 0 <= k < |t.chats| && t.chats[k].id == n then [n] else [])
  {
    PurgeMembers(t.chats, t.history, current, sel);
    UniqueIdSelected(t.chats, current, sel);
    var removed := RemovedChats(t.chats, current, sel);
    if |removed| == 1 {
      assert ChatSelected(removed[0], current, sel);
      assert Ids(removed) == [n];
    } else {
      assert Ids(removed) == [];
    }
  }

  /** Deleting one chat by id removes exactly that chat and exactly its history rows. */
  lemma DeleteByIdRemoves(t: Tables, current: Option<int>, sel: string, n: int)
    requires sel != "*" && SqlInteger(sel) == Some(n) && !ProtectsCurrent(current, sel)
    ensures var d := DeleteChats(t, current, sel);
            && (forall k :: 0 <= k < |t.chats| ==> (t.chats[k] in d.tables.chats <==> t.chats[k].id != n))
            && (forall k :: 0 <= k < |t.history| ==> (t.history[k] in d.tables.history <==> t.history[k].id != Some(n)))
  {
    PurgeMembers(t.chats, t.history, current, sel);
    var d := DeleteChats(t, current, sel);
    forall k | 0 <= k < |t.chats| && t.chats[k].id == n ensures t.chats[k] !in d.tables.chats {
      forall j | 0 <= j < |d.tables.chats| ensures d.tables.chats[j] != t.chats[k] {
        assert !ChatSelected(d.tables.chats[j], current, sel);
      }
    }
    forall k | 0 <= k < |t.history| && t.history[k].id == Some(n) ensures t.history[k] !in d.tables.history {
      forall j | 0 <= j < |d.tables.history| ensures d.tables.history[j] != t.history[k] {
        assert !RowSelected(d.tables.history[j], current, sel);
      }
    }
  }

  /** The reported ids are exactly the chats that existed and are gone. */
  predicate ReportsRemoved(t: Tables, d: Deletion) {
    && (forall k :: 0 <= k < |t.chats| ==> (t.chats[k] !in d.tables.chats <==> t.chats[k].id in d.deleted))
    && (forall i :: i in d.deleted ==> exists k :: 0 <= k < |t.chats| && t.chats[k].id == i)
  }

  /** For any selector, with either guard, `delete` reports exactly the chats it removed. */
  lemma ReportedIdsAreRemovedChats(t: Tables, current: Option<int>, sel: string, clock: string)
    requires TablesValid(t.chats, t.history, clock)
    ensures ReportsRemoved(t, DeleteChats(t, current, sel))
    ensures ReportsRemoved(t, DeleteAsWritten(t, current, sel))
  {
    PurgeMembers(t.chats, t.history, current, sel);
    var d := Purge(t, current, sel);
    {
      var removed := RemovedChats(t.chats, current, sel);
      var kept := d.tables.chats;
      forall k | 0 <= k < |t.chats| ensures t.chats[k] !in kept <==> t.chats[k].id in d.deleted {
        var c := t.chats[k];
        if ChatSelected(c, current, sel) {
          forall j | 0 <= j < |kept| ensures kept[j] != c {
            assert !ChatSelected(kept[j], current, sel);
          }
          assert c in removed;
          var j :| 0 <= j < |removed| && removed[j] == c;
          assert d.deleted[j] == c.id;
        } else {
          assert c in kept;
          forall j | 0 <= j < |d.deleted| ensures d.deleted[j] != c.id {
            var c' := removed[j];
            assert c' in t.chats && ChatSelected(c', current, sel);
            var k' :| 0 <= k' < |t.chats| && t.chats[k'] == c';
            assert k' < k ==> ChatOrder(t.chats[k'], t.chats[k]);
            assert k < k' ==> ChatOrder(t.chats[k], t.chats[k']);
          }
        }
      }
      forall i | i in d.deleted ensures exists k :: 0 <= k < |t.chats| && t.chats[k].id == i {
        var j :| 0 <= j < |d.deleted| && d.deleted[j] == i;
        assert removed[j] in t.chats;
      }
    }
  }

  /** Deleting, with either guard, never breaks the table invariant. */
  lemma DeleteValid(t: Tables, current: Option<int>, sel: string, clock: string)
    requires TablesValid(t.chats, t.history, clock)
    ensures var d := DeleteChats(t, current, sel);
            TablesValid(d.tables.chats, d.tables.history, clock)
    ensures var d := DeleteAsWritten(t, current, sel);
            TablesValid(d.tables.chats, d.tables.history, clock)
  {
    PurgeMembers(t.chats, t.history, current, sel);
    {
      FilterPairwise(t.chats, (c: ChatHeader) => !ChatSelected(c, current, sel), ChatOrder);
      FilterPairwise(t.history, (r: ChatItem) => !RowSelected(r, current, sel), RowOrder);
      var d := Purge(t, current, sel);
      forall k | 0 <= k < |d.tables.chats|
        ensures d.tables.chats[k].id >= 1 && AtOrBefore(d.tables.chats[k].created, clock)
      {
        assert d.tables.chats[k] in t.chats;
      }
      forall k | 0 <= k < |d.tables.history| ensures AtOrBefore(d.tables.history[k].created, clock) {
        assert d.tables.history[k] in t.history;
      }
    }
  }

  // ------------------------------------------------------------ get_chat_list

  /** The `limit` argument: an int, or a str that `int()` converts. */
  datatype Limit = LimitInt(n: int) | LimitStr(s: string)

  /** `int(limit)` raising ValueError on a string that is not an integer literal. */
  datatype StoreError = ValueError(literal: string)

  /** `LIMIT n` in SQLite: a negative limit means no limit. */
  function Take<T>(s: seq<T>, n: int): (r: seq<T>)
    ensures r <= s
    ensures |r| == if 0 <= n < |s| then n else |s|
  {
    if 0 <= n < |s| then s[..n] else s
  }

  /** The rows `get_chat_list` selects for an integer limit: for a non-zero limit,
      `ORDER BY created DESC LIMIT n`, then reversed; for zero, `ORDER BY created ASC`. */
  function ChatListRows(chats: seq<ChatHeader>, n: int): seq<ChatHeader> {
    if n != 0 then Reverse(Take(Reverse(chats), n)) else chats
  }

  /** The whole of `get_chat_list`, including the `int()` conversion of a string limit. */
  function ChatList(chats: seq<ChatHeader>, limit: Limit): Result<seq<ChatHeader>, StoreError> {
    match limit
    case LimitInt(n) => Success(ChatListRows(chats, n))
    case LimitStr(s) =>
      match PyInt(s)
      case None => Failure(ValueError(s))
      case Some(n) => Success(ChatListRows(chats, n))
  }

  /** How many chats a limit lets through: `n` most recent for positive `n`, all otherwise. */
  function ListedCount(total: nat, n: int): (k: nat)
    ensures k <= total
  {
    if 0 < n < total then n else total
  }

  /** `get_chat_list(n)` is the last `ListedCount` chats of the table, in table order. */
  lemma ChatListIsSuffix(chats: seq<ChatHeader>, n: int)
    ensures ChatListRows(chats, n) == chats[|chats| - ListedCount(|chats|, n)..]
  {
    if n != 0 {
      var k := ListedCount(|chats|, n);
      assert Take(Reverse(chats), n) == Reverse(chats)[..k];
      ReverseTakeIsSuffix(chats, k);
    }
  }

  /** The listed chats are in ascending `created` order, and every chat left out was
      created before every chat listed: they are the most recent ones. */
  lemma ChatListMostRecentAscending(chats: seq<ChatHeader>, n: int)
    requires Pairwise(chats, ChatOrder)
    ensures var r := ChatListRows(chats, n);
            && |r| == ListedCount(|chats|, n)
            && (forall i, j :: 0 <= i < j < |r| ==> Before(r[i].created, r[j].created))
            && (forall i, j :: 0 <= i < |chats| - |r| && 0 <= j < |r| ==> Before(chats[i].created, r[j].created))
  {
    ChatListIsSuffix(chats, n);
    var r := ChatListRows(chats, n);
    var off := |chats| - |r|;
    forall i, j | 0 <= i < j < |r| ensures Before(r[i].created, r[j].created) {
      assert r[i] == chats[off + i] && r[j] == chats[off + j];
    }
    forall i, j | 0 <= i < off && 0 <= j < |r| ensures Before(chats[i].created, r[j].created) {
      assert r[j] == chats[off + j];
    }
  }

  // ------------------------------------------------------------ get_chat_records

  /** `SELECT * FROM chat_history WHERE id=... ORDER BY created ASC`. */
  function ChatRecords(history: seq<ChatItem>, id: int): seq<ChatItem> {
    Filter(history, (r: ChatItem) => r.id == Some(id))
  }

  /** The records are exactly the rows of that chat, in ascending `created` order. */
  lemma ChatRecordsExact(history: seq<ChatItem>, id: int, clock: string, chats: seq<ChatHeader>)
    requires TablesValid(chats, history, clock)
    ensures var r := ChatRecords(history, id);
            && (forall k :: 0 <= k < |history| ==> (history[k] in r <==> history[k].id == Some(id)))
            && (forall k :: 0 <= k < |r| ==> r[k].id == Some(id) && r[k] in history)
            && (forall i, j :: 0 <= i < j < |r| ==> Before(r[i].created, r[j].created))
  {
    FilterMembers(history, (r: ChatItem) => r.id == Some(id));
    FilterPairwise(history, (r: ChatItem) => r.id == Some(id), RowOrder);
    var r := ChatRecords(history, id);
    forall i, j | 0 <= i < j < |r| ensures Before(r[i].created, r[j].created) {
      assert RowOrder(r[i], r[j]);
    }
  }

  /** Appending a row adds it at the end of its own chat's records and leaves every other
      chat's records as they were: records read back in the order they were added. */
  lemma ChatRecordsAfterAppend(history: seq<ChatItem>, row: ChatItem, id: int)
    ensures ChatRecords(history + [row], id)
            == ChatRecords(history, id) + (if row.id == Some(id) then [row] else [])
  {
    FilterConcat(history, [row], (r: ChatItem) => r.id == Some(id));
    assert [row][1..] == [];
  }

  /** `_convert_to_chat_data_format`: the model-facing message and the visibility flag. */
  datatype ChatData = ChatData(message: Message, visible: int)

  function ConvertToChatData(item: ChatItem): ChatData {
    ChatData(Message(item.role, item.message), item.visible)
  }

  /** A row written by `add_to_conversation` converts back to exactly the role, content
      and visibility it was written with. */
  lemma ChatDataRoundTrip(current: Option<int>, now: string, role: string, content: string, visible: int)
    ensures ConvertToChatData(NewHistoryRow(current, now, role, content, visible))
            == ChatData(Message(role, content), visible)
  {
  }

  // ------------------------------------------------------------ the store object

  class Memory {
    var currentId: Option<int>
    var chats: seq<ChatHeader>
    var history: seq<ChatItem>
    /** The latest timestamp written to either table. */
    var clock: string

    ghost predicate Valid()
      reads this
    {
      TablesValid(chats, history, clock)
    }

    /** Opens the store over the tables already on disk (empty for a new database):
        no conversation is current. */
    constructor (chats0: seq<ChatHeader>, history0: seq<ChatItem>, clock0: string)
      requires TablesValid(chats0, history0, clock0)
      ensures Valid()
      ensures currentId == None
      ensures chats == chats0 && history == history0 && clock == clock0
    {
      currentId := None;
      chats, history, clock := chats0, history0, clock0;
    }

    /** Inserts one chat with a fresh id and makes it current; history is untouched. */
    method CreateConversation(title: string, now: string)
      requires Valid() && Before(clock, now)
      modifies this
      ensures Valid()
      ensures chats == old(chats) + [ChatHeader(NewChatId(old(chats)), now, title)]
      ensures currentId == Some(NewChatId(old(chats)))
      ensures forall k :: 0 <= k < |old(chats)| ==> old(chats)[k].id != currentId.value
      ensures history == old(history) && clock == now
    {
      AppendChatValid(chats, history, clock, title, now);
      var generatedId := NewChatId(chats);
      chats := chats + [ChatHeader(generatedId, now, title)];
      clock := now;
      currentId := Some(generatedId);
    }

    /** Appends exactly one history row tagged with `current_id`, even when that is None. */
    method AddToConversation(role: string, content: string, visible: int, now: string)
      requires Valid() && Before(clock, now)
      modifies this
      ensures Valid()
      ensures history == old(history) + [NewHistoryRow(old(currentId), now, role, content, visible)]
      ensures chats == old(chats) && currentId == old(currentId) && clock == now
    {
      var row := NewHistoryRow(currentId, now, role, content, visible);
      AppendRowValid(chats, history, clock, row);
      history := history + [row];
      clock := now;
    }

    /** Deletes the chats `sel` selects and their history, returning the removed ids. */
    method Delete(sel: string) returns (idsDeleted: seq<int>)
      requires Valid()
      modifies this
      ensures Valid()
      ensures var d := DeleteChats(Tables(old(chats), old(history)), old(currentId), sel);
              chats == d.tables.chats && history == d.tables.history && idsDeleted == d.deleted
      ensures currentId == old(currentId) && clock == old(clock)
    {
      DeleteValid(Tables(chats, history), currentId, sel, clock);
      if ProtectsCurrent(currentId, sel) {
        return [];
      }
      idsDeleted := Ids(RemovedChats(chats, currentId, sel));
      chats := KeptChats(chats, currentId, sel);
      history := KeptRows(history, currentId, sel);
    }

    /** Lists chat headers; changes nothing. */
    method GetChatList(limit: Limit) returns (r: Result<seq<ChatHeader>, StoreError>)
      requires Valid()
      ensures r == ChatList(chats, limit)
    {
      var n: int;
      match limit {
        case LimitInt(v) =>
          n := v;
        case LimitStr(s) =>
          var parsed := PyInt(s);
          if parsed.None? {
            return Failure(ValueError(s));
          }
          n := parsed.value;
      }
      var chatHeaders := ChatListRows(chats, n);
      var chatList: seq<ChatHeader> := [];
      var i := 0;
      while i < |chatHeaders|
        invariant 0 <= i <= |chatHeaders|
        invariant chatList == chatHeaders[..i]
      {
        chatList := chatList + [chatHeaders[i]];
        i := i + 1;
      }
      assert chatHeaders[..i] == chatHeaders;
      r := Success(chatList);
    }

    /** Returns one chat's records; `current_id` becomes the cursor's `lastrowid`. */
    method GetChatRecords(id: int, lastRowId: Option<int>) returns (records: seq<ChatItem>)
      requires Valid()
      modifies this
      ensures Valid()
      ensures records == ChatRecords(history, id)
      ensures currentId == lastRowId
      ensures chats == old(chats) && history == old(history) && clock == old(clock)
    {
      records := ChatRecords(history, id);
      currentId := lastRowId;
    }
  }
}
