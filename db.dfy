/**
 * The bot's SQLite store (src/db.js) as in-memory tables: sessions, the client to
 * forum-topic bindings with their unique thread index, the bot_meta key/value table
 * and the message log. Each exported operation is one method that updates the tables
 * the way its SQL statement does.
 */
module Store {
  import opened Wrappers
  import opened Text

  /** An SQLite value as the bot stores it. */
  datatype Cell = Null | Num(n: int) | Str(s: string)

  /** `qIdent(name)`: the name with every double quote doubled, fit to stand between double quotes in SQL. */
  function QIdent(name: string): (r: string)
    ensures |r| >= |name|
    ensures '"' !in name ==> r == name
  {
    if name == [] then []
    else (if name[0] == '"' then "\"\"" else [name[0]]) + QIdent(name[1..])
  }

  /** How SQL reads a quoted identifier's body back: a doubled quote is one quote, and a lone quote would end the identifier. */
  function Unquote(r: string): Option<string>
    decreases |r|
  {
    if r == [] then Some([])
    else if r[0] != '"' then
      match Unquote(r[1..]) case Some(t) => Some([r[0]] + t) case None => None
    else if |r| >= 2 && r[1] == '"' then
      match Unquote(r[2..]) case Some(t) => Some(['"'] + t) case None => None
    else None
  }

  /** A quoted name reads back as the name: quoting never lets a name end the identifier early. */
  lemma {:induction false} QIdentRoundTrip(name: string)
    ensures Unquote(QIdent(name)) == Some(name)
  {
    if name != [] {
      QIdentRoundTrip(name[1..]);
      var rest := QIdent(name[1..]);
      if name[0] == '"' {
        assert QIdent(name) == "\"\"" + rest;
        assert (("\"\"" + rest)[2..]) == rest;
      } else {
        assert QIdent(name) == [name[0]] + rest;
        assert ([name[0]] + rest)[1..] == rest;
      }
      assert [name[0]] + name[1..] == name;
    }
  }

  /** Distinct names are quoted differently. */
  lemma QIdentInjective(a: string, b: string)
    requires QIdent(a) == QIdent(b)
    ensures a == b
  {
    QIdentRoundTrip(a);
    QIdentRoundTrip(b);
  }

  /** A row of `sessions`; its `session_id` is its position in the table plus one. Columns not in `cols` are NULL. */
  datatype SessionRow = SessionRow(clientId: int, cols: map<string, Cell>)

  function Col(cols: map<string, Cell>, k: string): Cell {
    if k in cols then cols[k] else Null
  }

  /** `is_active = 1`. */
  predicate Active(row: SessionRow) {
    Col(row.cols, "is_active") == Num(1)
  }

  /** The text of the `state` column; NULL or a number reads as "", which equals no state name. */
  function StateOf(row: SessionRow): string {
    match Col(row.cols, "state") case Str(s) => s case _ => ""
  }

  /** The row `startSession` inserts: active, in state CATEGORY, created and updated now, not closed. */
  function NewSession(clientId: int, now: int): SessionRow {
    SessionRow(clientId, map["is_active" := Num(1), "state" := Str("CATEGORY"), "created_at_ms" := Num(now),
                              "updated_at_ms" := Num(now), "closed_at_ms" := Num(0)])
  }

  /** What the closing UPDATE of `startSession` does to one active row: inactive, closed now unless already closed, updated now. */
  function Closed(row: SessionRow, now: int): SessionRow {
    var closedAt := if Col(row.cols, "closed_at_ms") == Num(0) then Num(now) else Col(row.cols, "closed_at_ms");
    SessionRow(row.clientId, row.cols["is_active" := Num(0)]["closed_at_ms" := closedAt]["updated_at_ms" := Num(now)])
  }

  /** `UPDATE sessions SET ... WHERE client_id = ? AND is_active = 1`. */
  function Deactivate(rows: seq<SessionRow>, clientId: int, now: int): seq<SessionRow> {
    seq(|rows|, i requires 0 <= i < |rows| =>
      if rows[i].clientId == clientId && Active(rows[i]) then Closed(rows[i], now) else rows[i])
  }

  /** The position of the last active row of the client: the one `ORDER BY session_id DESC LIMIT 1` returns. */
  function LatestActive(rows: seq<SessionRow>, clientId: int): (r: Option<nat>)
    ensures r.Some? ==> r.value < |rows| && rows[r.value].clientId == clientId && Active(rows[r.value])
    ensures r.Some? ==> forall j :: r.value < j < |rows| ==> !(rows[j].clientId == clientId && Active(rows[j]))
    ensures r.None? ==> forall j :: 0 <= j < |rows| ==> !(rows[j].clientId == clientId && Active(rows[j]))
    decreases |rows|
  {
    if rows == [] then None
    else if rows[|rows| - 1].clientId == clientId && Active(rows[|rows| - 1]) then Some(|rows| - 1)
    else LatestActive(rows[..|rows| - 1], clientId)
  }

  /**
   * After `startSession(c)` the client has exactly one active session, the new one, in
   * state CATEGORY; its earlier sessions are inactive and keep a closing time they
   * already had; other clients' sessions are untouched.
   */
  lemma StartSessionLeavesOneActive(rows: seq<SessionRow>, clientId: int, now: int)
    ensures var after := Deactivate(rows, clientId, now) + [NewSession(clientId, now)];
      && LatestActive(after, clientId) == Some(|rows|)
      && StateOf(after[|rows|]) == "CATEGORY"
      && (forall i :: 0 <= i < |rows| && after[i].clientId == clientId ==> !Active(after[i]))
      && (forall i :: 0 <= i < |rows| && rows[i].clientId != clientId ==> after[i] == rows[i])
      && (forall i :: 0 <= i < |rows| && Col(rows[i].cols, "closed_at_ms") != Num(0) ==>
            Col(after[i].cols, "closed_at_ms") == Col(rows[i].cols, "closed_at_ms"))
  {
    var after := Deactivate(rows, clientId, now) + [NewSession(clientId, now)];
    assert Active(after[|rows|]);
  }

  /** The columns `updateSession` lets a patch change. */
  const Allowed: seq<string> := ["state", "category_key", "category_label", "display_name", "mood_key", "mood_label",
                                 "mood_q1", "mood_q2", "mood_q3", "is_active", "closed_at_ms"]

  /** The `col = ?` assignments for the keys of `keys` the patch holds, in the order of `keys`. */
  function Filtered(keys: seq<string>, patch: map<string, Cell>): seq<(string, Cell)>
    decreases |keys|
  {
    if keys == [] then []
    else
      var last := keys[|keys| - 1];
      Filtered(keys[..|keys| - 1], patch) + (if last in patch then [(last, patch[last])] else [])
  }

  /** Running the assignments of a SET clause left to right. */
  function Assign(cols: map<string, Cell>, sets: seq<(string, Cell)>): map<string, Cell>
    decreases |sets|
  {
    if sets == [] then cols
    else Assign(cols, sets[..|sets| - 1])[sets[|sets| - 1].0 := sets[|sets| - 1].1]
  }

  /** The columns after the patch's values for the listed keys it holds are laid over `cols`. */
  function Overlay(cols: map<string, Cell>, keys: seq<string>, patch: map<string, Cell>): map<string, Cell> {
    cols + map k | k in patch && k in keys :: patch[k]
  }

  /** Listing one more key lays its patched value over the rest, or changes nothing when the patch lacks it. */
  lemma OverlayNext(cols: map<string, Cell>, init: seq<string>, last: string, patch: map<string, Cell>)
    ensures last in patch ==> Overlay(cols, init + [last], patch) == Overlay(cols, init, patch)[last := patch[last]]
    ensures last !in patch ==> Overlay(cols, init + [last], patch) == Overlay(cols, init, patch)
  {
    var a, b := Overlay(cols, init + [last], patch), Overlay(cols, init, patch);
    assert forall k :: k in init + [last] <==> k in init || k == last;
    if last in patch {
      assert a.Keys == b[last := patch[last]].Keys;
    } else {
      assert a.Keys == b.Keys;
    }
  }

  /** The assignments drawn from a patch set exactly the listed keys the patch holds, to the patch's values. */
  lemma {:induction false} AssignFiltered(cols: map<string, Cell>, keys: seq<string>, patch: map<string, Cell>)
    ensures Assign(cols, Filtered(keys, patch)) == Overlay(cols, keys, patch)
    decreases |keys|
  {
    if keys == [] {
      assert Overlay(cols, keys, patch).Keys == cols.Keys;
    } else {
      var init, last := keys[..|keys| - 1], keys[|keys| - 1];
      assert keys == init + [last];
      AssignFiltered(cols, init, patch);
      OverlayNext(cols, init, last, patch);
      var f := Filtered(init, patch);
      if last in patch {
        assert Filtered(keys, patch) == f + [(last, patch[last])];
        assert (f + [(last, patch[last])])[..|f|] == f;
      } else {
        assert Filtered(keys, patch) == f;
      }
    }
  }

  /** The columns of a session row after `updateSession(c, s, patch)` at time `now`. */
  function Patched(cols: map<string, Cell>, patch: map<string, Cell>, now: int): map<string, Cell> {
    Overlay(cols, Allowed, patch)["updated_at_ms" := Num(now)]
  }

  /** A patch of two allow-listed columns sets exactly those two. */
  lemma OverlayPair(cols: map<string, Cell>, a: string, va: Cell, b: string, vb: Cell)
    requires a in Allowed && b in Allowed && a != b
    ensures Overlay(cols, Allowed, map[a := va, b := vb]) == cols[a := va][b := vb]
  {
    var patch := map[a := va, b := vb];
    var m := map k | k in patch && k in Allowed :: patch[k];
    assert m.Keys == patch.Keys;
    assert m == patch;
    assert cols + patch == cols[a := va][b := vb];
  }

  /** A patch changes the allow-listed columns it names and `updated_at_ms`, and no other column. */
  lemma PatchedColumns(cols: map<string, Cell>, patch: map<string, Cell>, now: int, k: string)
    ensures k == "updated_at_ms" ==> Col(Patched(cols, patch, now), k) == Num(now)
    ensures k != "updated_at_ms" && k in patch && k in Allowed ==> Col(Patched(cols, patch, now), k) == patch[k]
    ensures k != "updated_at_ms" && !(k in patch && k in Allowed) ==> Col(Patched(cols, patch, now), k) == Col(cols, k)
  {
  }

  /** A row of `client_topics`, keyed by client. */
  datatype TopicRow = TopicRow(threadId: int, title: string, createdAt: int, updatedAt: int)

  /** A row of `bot_meta`. */
  datatype MetaRow = MetaRow(value: string, updatedAt: int)

  /**
   * The values `logMessage` would insert, column by column in the order it builds them:
   * absent fields are NULL, an empty role, direction or kind is NULL, and the payload is
   * its JSON text or NULL when there is none.
   */
  datatype LogData = LogData(
    role: string, direction: string, msgType: string, text: Option<string>,
    srcChatId: Option<int>, srcThreadId: Option<int>, srcMessageId: Option<int>,
    dstChatId: Option<int>, dstMessageId: Option<int>, payload: Option<string>)

  function OrNull(s: string): Cell {
    if s == "" then Null else Str(s)
  }

  function IntOrNull(v: Option<int>): Cell {
    match v case Some(n) => Num(n) case None => Null
  }

  function TextOrNull(v: Option<string>): Cell {
    match v case Some(s) => Str(s) case None => Null
  }

  function MessageRow(clientId: int, sessionId: Option<int>, d: LogData, now: int): (row: seq<(string, Cell)>)
    ensures |row| == 14 && row[13] == ("payload_json", TextOrNull(d.payload))
  {
    [("client_id", Num(clientId)), ("session_id", IntOrNull(sessionId)), ("role", OrNull(d.role)),
     ("direction", OrNull(d.direction)), ("msg_type", OrNull(d.msgType)), ("text", TextOrNull(d.text)),
     ("src_chat_id", IntOrNull(d.srcChatId)), ("src_thread_id", IntOrNull(d.srcThreadId)),
     ("src_message_id", IntOrNull(d.srcMessageId)), ("dst_chat_id", IntOrNull(d.dstChatId)),
     ("dst_message_id", IntOrNull(d.dstMessageId)), ("ts_ms", Num(now)), ("created_at_ms", Num(now)),
     ("payload_json", TextOrNull(d.payload))]
  }

  /** The entries of `row` whose column the table has, in order. */
  function Keep(row: seq<(string, Cell)>, cols: seq<string>): (r: seq<(string, Cell)>)
    ensures |r| <= |row|
    decreases |row|
  {
    if row == [] then []
    else Keep(row[..|row| - 1], cols) + (if row[|row| - 1].0 in cols then [row[|row| - 1]] else [])
  }

  /** `Keep` holds exactly the entries of the row whose column the table has. */
  lemma {:induction false} KeepMembers(row: seq<(string, Cell)>, cols: seq<string>)
    ensures forall p :: p in Keep(row, cols) <==> p in row && p.0 in cols
    decreases |row|
  {
    if row != [] {
      var init := row[..|row| - 1];
      KeepMembers(init, cols);
      assert row == init + [row[|row| - 1]];
    }
  }

  /** The stored row: each inserted column with its value. */
  function ToMap(pairs: seq<(string, Cell)>): (m: map<string, Cell>)
    decreases |pairs|
  {
    if pairs == [] then map[]
    else ToMap(pairs[..|pairs| - 1])[pairs[|pairs| - 1].0 := pairs[|pairs| - 1].1]
  }

  /** The stored row has a key for every inserted column and no other. */
  lemma {:induction false} ToMapKeys(pairs: seq<(string, Cell)>)
    ensures forall k :: k in ToMap(pairs) <==> exists p :: p in pairs && p.0 == k
    decreases |pairs|
  {
    if pairs != [] {
      var init := pairs[..|pairs| - 1];
      ToMapKeys(init);
      assert pairs == init + [pairs[|pairs| - 1]];
    }
  }

  class Store {
    /** `sessions`, in insertion order: `session_id` is position + 1 (AUTOINCREMENT, rows are never deleted). */
    var sessions: seq<SessionRow>
    /** `client_topics`, by `client_id`. */
    var topics: map<int, TopicRow>
    /** The unique index on `client_topics.thread_id`: which client holds each thread. */
    var threadIndex: map<int, int>
    /** `bot_meta`, by key. */
    var meta: map<string, MetaRow>
    /** `messages`, in insertion order. */
    var messages: seq<map<string, Cell>>
    /** The columns the `messages` table has. */
    const messageColumns: seq<string>

    /** The thread index is exactly the inverse of the bindings: no two clients share a thread. */
    ghost predicate Valid()
      reads this`topics, this`threadIndex
    {
      && (forall c :: c in topics ==> topics[c].threadId in threadIndex && threadIndex[topics[c].threadId] == c)
      && (forall t :: t in threadIndex ==> threadIndex[t] in topics && topics[threadIndex[t]].threadId == t)
    }

    constructor (columns: seq<string>)
      ensures Valid()
      ensures sessions == [] && topics == map[] && meta == map[] && messages == [] && messageColumns == columns
    {
      sessions := [];
      topics := map[];
      threadIndex := map[];
      meta := map[];
      messages := [];
      messageColumns := columns;
    }

    /** `startSession(clientId)`: close the client's active sessions and open a new one; answers its id. */
    method StartSession(clientId: int, now: int) returns (sessionId: int)
      modifies this`sessions
      ensures sessions == Deactivate(old(sessions), clientId, now) + [NewSession(clientId, now)]
      ensures sessionId == |sessions| && ActiveSession(clientId) == Some(sessionId)
    {
      sessions := Deactivate(sessions, clientId, now) + [NewSession(clientId, now)];
      sessionId := |sessions|;
      StartSessionLeavesOneActive(old(sessions), clientId, now);
    }

    /** `getActiveSession(clientId)`: the id of the client's newest active session, if any. */
    function ActiveSession(clientId: int): (r: Option<int>)
      reads this`sessions
      ensures r.Some? ==> 1 <= r.value <= |sessions| && sessions[r.value - 1].clientId == clientId && Active(sessions[r.value - 1])
      ensures r.Some? ==> forall j :: r.value <= j < |sessions| ==> !(sessions[j].clientId == clientId && Active(sessions[j]))
      ensures r.None? ==> forall j :: 0 <= j < |sessions| ==> !(sessions[j].clientId == clientId && Active(sessions[j]))
    {
      match LatestActive(sessions, clientId) case Some(i) => Some(i + 1) case None => None
    }

    /** The row `WHERE client_id = ? AND session_id = ?` selects, if there is one. */
    predicate Owns(clientId: int, sessionId: int)
      reads this`sessions
    {
      1 <= sessionId <= |sessions| && sessions[sessionId - 1].clientId == clientId
    }

    /** The SET clause of `updateSession`, built by walking the allow-list as the source does. */
    method SetClause(patch: map<string, Cell>, now: int) returns (sets: seq<(string, Cell)>)
      ensures sets == Filtered(Allowed, patch) + [("updated_at_ms", Num(now))]
    {
      sets := [];
      for j := 0 to |Allowed|
        invariant sets == Filtered(Allowed[..j], patch)
      {
        assert Allowed[..j + 1][..j] == Allowed[..j];
        if Allowed[j] in patch {
          sets := sets + [(Allowed[j], patch[Allowed[j]])];
        }
      }
      assert Allowed[..|Allowed|] == Allowed;
      sets := sets + [("updated_at_ms", Num(now))];
    }

    /** `updateSession(c, s, patch)`: the allow-listed columns in the patch and `updated_at_ms` change on the row (c, s) only. */
    method UpdateSession(clientId: int, sessionId: int, patch: map<string, Cell>, now: int)
      modifies this`sessions
      ensures old(Owns(clientId, sessionId)) ==>
        sessions == old(sessions)[sessionId - 1 := SessionRow(clientId, Patched(old(sessions)[sessionId - 1].cols, patch, now))]
      ensures !old(Owns(clientId, sessionId)) ==> sessions == old(sessions)
    {
      var sets := SetClause(patch, now);
      if 1 <= sessionId <= |sessions| && sessions[sessionId - 1].clientId == clientId {
        var cols := sessions[sessionId - 1].cols;
        AssignFiltered(cols, Allowed, patch);
        var f := Filtered(Allowed, patch);
        assert (f + [("updated_at_ms", Num(now))])[..|f|] == f;
        sessions := sessions[sessionId - 1 := SessionRow(clientId, Assign(cols, sets))];
      }
    }

    /** `setSessionState(c, s, state)`: only `state` and `updated_at_ms` change. */
    method SetSessionState(clientId: int, sessionId: int, state: string, now: int)
      modifies this`sessions
      ensures old(Owns(clientId, sessionId)) ==>
        sessions == old(sessions)[sessionId - 1 := SessionRow(clientId, old(sessions)[sessionId - 1].cols["state" := Str(state)]["updated_at_ms" := Num(now)])]
      ensures !old(Owns(clientId, sessionId)) ==> sessions == old(sessions)
    {
      var patch := map["state" := Str(state)];
      UpdateSession(clientId, sessionId, patch, now);
      if old(Owns(clientId, sessionId)) {
        var cols := old(sessions)[sessionId - 1].cols;
        assert Patched(cols, patch, now) == cols["state" := Str(state)]["updated_at_ms" := Num(now)];
      }
    }

    /** `finishSession(c, s)`: the session becomes inactive and closed now. */
    method FinishSession(clientId: int, sessionId: int, now: int)
      modifies this`sessions
      ensures old(Owns(clientId, sessionId)) ==>
        sessions == old(sessions)[sessionId - 1 := SessionRow(clientId,
          old(sessions)[sessionId - 1].cols["is_active" := Num(0)]["closed_at_ms" := Num(now)]["updated_at_ms" := Num(now)])]
      ensures !old(Owns(clientId, sessionId)) ==> sessions == old(sessions)
      ensures Owns(clientId, sessionId) ==> !Active(sessions[sessionId - 1])
    {
      var patch := map["is_active" := Num(0), "closed_at_ms" := Num(now)];
      UpdateSession(clientId, sessionId, patch, now);
      if old(Owns(clientId, sessionId)) {
        var cols := old(sessions)[sessionId - 1].cols;
        OverlayPair(cols, "is_active", Num(0), "closed_at_ms", Num(now));
        assert Patched(cols, patch, now) == cols["is_active" := Num(0)]["closed_at_ms" := Num(now)]["updated_at_ms" := Num(now)];
      }
    }

    /** `getClientTopic(clientId)`. */
    function ClientTopic(clientId: int): (r: Option<TopicRow>)
      reads this`topics
      ensures r.Some? <==> clientId in topics
      ensures r.Some? ==> r.value == topics[clientId]
    {
      if clientId in topics then Some(topics[clientId]) else None
    }

    /** `getClientIdByThread(threadId)`: the client bound to the thread, if any. */
    function ClientByThread(threadId: int): (r: Option<int>)
      reads this`topics, this`threadIndex
      requires Valid()
      ensures r.Some? ==> r.value in topics && topics[r.value].threadId == threadId
      ensures r.None? ==> forall c :: c in topics ==> topics[c].threadId != threadId
    {
      if threadId in threadIndex then Some(threadIndex[threadId]) else None
    }

    /**
     * `setClientTopic(c, t, title)`: insert or update the client's binding, keeping its
     * creation time. Fails (the unique index rejects it) when another client holds the thread.
     */
    method SetClientTopic(clientId: int, threadId: int, title: string, now: int) returns (ok: bool)
      requires Valid()
      modifies this`topics, this`threadIndex
      ensures Valid()
      ensures ok <==> !(threadId in old(threadIndex) && old(threadIndex)[threadId] != clientId)
      ensures ok ==> topics == old(topics)[clientId := TopicRow(threadId, title,
        if clientId in old(topics) then old(topics)[clientId].createdAt else now, now)]
      ensures !ok ==> topics == old(topics) && threadIndex == old(threadIndex)
    {
      if threadId in threadIndex && threadIndex[threadId] != clientId {
        return false;
      }
      var created := if clientId in topics then topics[clientId].createdAt else now;
      var index := threadIndex;
      if clientId in topics {
        index := index - {topics[clientId].threadId};
      }
      topics := topics[clientId := TopicRow(threadId, title, created, now)];
      threadIndex := index[threadId := clientId];
      ok := true;
    }

    /** `getBotOffset()`: the stored offset, or nothing when it is missing or not a number. */
    function BotOffset(): (r: Option<int>)
      reads this`meta
      ensures "bot_offset" !in meta ==> r.None?
      ensures "bot_offset" in meta ==> r == ToNumber(meta["bot_offset"].value)
    {
      if "bot_offset" in meta then ToNumber(meta["bot_offset"].value) else None
    }

    /** `setBotOffset(offset)`: stores the offset as its numeral; reading it back gives the offset. */
    method SetBotOffset(offset: int, now: int)
      modifies this`meta
      ensures meta == old(meta)["bot_offset" := MetaRow(IntToString(offset), now)]
      ensures BotOffset() == Some(offset)
    {
      meta := meta["bot_offset" := MetaRow(IntToString(offset), now)];
      ToNumberOfIntToString(offset);
    }

    /** The insert column list of `logMessage`: the row's entries whose column exists, walked in order. */
    method InsertColumns(row: seq<(string, Cell)>) returns (insCols: seq<string>, insVals: seq<Cell>)
      ensures |insCols| == |insVals| == |Keep(row, messageColumns)|
      ensures forall i :: 0 <= i < |insCols| ==> Keep(row, messageColumns)[i] == (insCols[i], insVals[i])
    {
      insCols, insVals := [], [];
      for j := 0 to |row|
        invariant |insCols| == |insVals| == |Keep(row[..j], messageColumns)|
        invariant forall i :: 0 <= i < |insCols| ==> Keep(row[..j], messageColumns)[i] == (insCols[i], insVals[i])
      {
        assert row[..j + 1][..j] == row[..j];
        if row[j].0 in messageColumns {
          insCols, insVals := insCols + [row[j].0], insVals + [row[j].1];
        }
      }
      assert row[..|row|] == row;
    }

    /** `logMessage(clientId, sessionId, data)`: appends the message with the columns the table has; nothing when it has none of them. */
    method LogMessage(clientId: int, sessionId: Option<int>, d: LogData, now: int)
      modifies this`messages
      ensures messages == old(messages) + Logged(messageColumns, clientId, sessionId, d, now)
    {
      var row := MessageRow(clientId, sessionId, d, now);
      var insCols, insVals := InsertColumns(row);
      if |insCols| == 0 {
        return;
      }
      var stored := map[];
      for i := 0 to |insCols|
        invariant stored == ToMap(Keep(row, messageColumns)[..i])
      {
        assert Keep(row, messageColumns)[..i + 1][..i] == Keep(row, messageColumns)[..i];
        stored := stored[insCols[i] := insVals[i]];
      }
      assert Keep(row, messageColumns)[..|insCols|] == Keep(row, messageColumns);
      messages := messages + [stored];
    }
  }

  /** The rows `logMessage` adds to a table with these columns: the message's columns the table has, or no row when it has none of them. */
  function Logged(columns: seq<string>, clientId: int, sessionId: Option<int>, d: LogData, now: int): seq<map<string, Cell>> {
    var kept := Keep(MessageRow(clientId, sessionId, d, now), columns);
    if kept == [] then [] else [ToMap(kept)]
  }

  /** A logged message holds only columns the table has, and a message without payload stores NULL as its payload. */
  lemma LoggedColumns(clientId: int, sessionId: Option<int>, d: LogData, now: int, columns: seq<string>)
    ensures forall k :: k in ToMap(Keep(MessageRow(clientId, sessionId, d, now), columns)) ==> k in columns
    ensures "payload_json" in columns ==>
      var m := ToMap(Keep(MessageRow(clientId, sessionId, d, now), columns));
      "payload_json" in m && (d.payload.None? ==> m["payload_json"] == Null)
  {
    var row := MessageRow(clientId, sessionId, d, now);
    KeptKeys(row, columns);
    if "payload_json" in columns {
      forall p | p in row && p.0 == "payload_json" ensures p.1 == TextOrNull(d.payload) {
        var i :| 0 <= i < |row| && row[i] == p;
      }
      KeptValue(row, columns, "payload_json", TextOrNull(d.payload));
    }
  }

  /** The stored row holds only columns the table has. */
  lemma KeptKeys(row: seq<(string, Cell)>, cols: seq<string>)
    ensures forall k :: k in ToMap(Keep(row, cols)) ==> k in cols
  {
    var kept := Keep(row, cols);
    forall k | k in ToMap(kept) ensures k in cols {
      ToMapKeys(kept);
      var p :| p in kept && p.0 == k;
      KeepMembers(row, cols);
    }
  }

  /** A column the table has, named by one value only in the row, is stored with that value. */
  lemma KeptValue(row: seq<(string, Cell)>, cols: seq<string>, k: string, v: Cell)
    requires k in cols && (k, v) in row
    requires forall p :: p in row && p.0 == k ==> p.1 == v
    ensures k in ToMap(Keep(row, cols)) && ToMap(Keep(row, cols))[k] == v
  {
    var kept := Keep(row, cols);
    KeepMembers(row, cols);
    ToMapLast(kept, k, v);
  }

  /** Only one entry of a message row names `payload_json`, so the stored map holds that entry's value. */
  lemma {:induction false} ToMapLast(pairs: seq<(string, Cell)>, k: string, v: Cell)
    requires (k, v) in pairs
    requires forall p :: p in pairs && p.0 == k ==> p.1 == v
    ensures k in ToMap(pairs) && ToMap(pairs)[k] == v
    decreases |pairs|
  {
    var init := pairs[..|pairs| - 1];
    if pairs[|pairs| - 1].0 != k {
      assert (k, v) in init by {
        var i :| 0 <= i < |pairs| && pairs[i] == (k, v);
        assert i < |pairs| - 1 && init[i] == (k, v);
      }
      forall p | p in init && p.0 == k ensures p.1 == v {
        assert p in pairs;
      }
      ToMapLast(init, k, v);
    }
  }
}
