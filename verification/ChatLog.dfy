/** The messages of one chat: rewinds for edit and regenerate, and the history each model
    is sent (app/services/chat_service.py, step 2 of run_turn in
    app/api/v1/endpoints/chat.py). */
module ChatLog {
  import opened Wrappers
  import opened ChatMessages

  datatype Role = User | Assistant

  /** A row of the messages table. `attachments` keeps names only, never staged ids. */
  datatype Row = Row(id: nat, role: Role, content: string, model: Option<string>, parent: Option<nat>,
                     attachments: seq<string>, at: int)

  // --- the table --------------------------------------------------------

  ghost predicate InOrder(rows: seq<Row>) {
    forall i, j :: 0 <= i < j < |rows| ==> rows[i].at < rows[j].at && rows[i].id != rows[j].id
  }

  /** Row k is the earlier user message that the reply in row i answers. */
  ghost predicate Answers(rows: seq<Row>, i: nat, k: nat)
    requires k < i < |rows|
  {
    rows[i].parent == Some(rows[k].id) && rows[k].role == User
  }

  ghost predicate ParentsOk(rows: seq<Row>) {
    forall i :: 0 <= i < |rows| ==>
      if rows[i].role == User then rows[i].parent.None? else exists k :: 0 <= k < i && Answers(rows, i, k)
  }

  ghost predicate ValidLog(rows: seq<Row>) {
    InOrder(rows) && ParentsOk(rows)
  }

  lemma {:induction false} PrefixIsValid(rows: seq<Row>, n: nat)
    requires ValidLog(rows) && n <= |rows|
    ensures ValidLog(rows[..n])
  {
    forall i | 0 <= i < n && rows[..n][i].role == Assistant
      ensures exists k :: 0 <= k < i && Answers(rows[..n], i, k)
    {
      var k :| 0 <= k < i && Answers(rows, i, k);
      assert Answers(rows[..n], i, k);
    }
  }

  lemma {:induction false} AppendIsValid(rows: seq<Row>, r: Row)
    requires ValidLog(rows) && (forall x :: x in rows ==> x.at < r.at && x.id != r.id)
    requires if r.role == User then r.parent.None? else exists k :: 0 <= k < |rows| && r.parent == Some(rows[k].id) && rows[k].role == User
    ensures ValidLog(rows + [r])
  {
    var rows' := rows + [r];
    forall i | 0 <= i < |rows'| && rows'[i].role == Assistant
      ensures exists k :: 0 <= k < i && Answers(rows', i, k)
    {
      if i < |rows| {
        var k :| 0 <= k < i && Answers(rows, i, k);
        assert Answers(rows', i, k);
      } else {
        var k :| 0 <= k < |rows| && r.parent == Some(rows[k].id) && rows[k].role == User;
        assert Answers(rows', i, k);
      }
    }
  }

  // --- statements -------------------------------------------------------

  /** SELECT id ... WHERE created_at >= at, all roles or assistants only. */
  function Victims(rows: seq<Row>, at: int, repliesOnly: bool): set<nat> {
    set r | r in rows && r.at >= at && (repliesOnly ==> r.role == Assistant) :: r.id
  }

  function Orphaned(r: Row, ids: set<nat>): Row {
    if r.parent.Some? && r.parent.value in ids then r.(parent := None) else r
  }

  /** DELETE ... WHERE id IN ids; the foreign key sets orphaned parents to NULL. */
  function DeleteIds(rows: seq<Row>, ids: set<nat>): seq<Row> {
    if rows == [] then []
    else
      var last := rows[|rows| - 1];
      DeleteIds(rows[..|rows| - 1], ids)
      + if last.id in ids then [] else [Orphaned(last, ids)]
  }

  lemma {:induction false} DeleteKeepsPrefix(rows: seq<Row>, ids: set<nat>, k: nat)
    requires k <= |rows|
    requires forall i :: 0 <= i < k ==> rows[i].id !in ids && (rows[i].parent.Some? ==> rows[i].parent.value !in ids)
    requires forall i :: k <= i < |rows| ==> rows[i].id in ids
    ensures DeleteIds(rows, ids) == rows[..k]
  {
    if rows != [] {
      var n := |rows| - 1;
      if k <= n {
        DeleteKeepsPrefix(rows[..n], ids, k);
        assert rows[..n][..k] == rows[..k];
      } else {
        DeleteKeepsPrefix(rows[..n], ids, n);
        assert rows[..n] + [rows[n]] == rows[..k];
      }
    }
  }

  /** The rows from the target on are exactly the victims, and no earlier row answers one
      of them. */
  lemma {:induction false} TruncationIsPrefix(rows: seq<Row>, k: nat)
    requires ValidLog(rows) && k < |rows|
    ensures DeleteIds(rows, Victims(rows, rows[k].at, false)) == rows[..k]
  {
    var ids := Victims(rows, rows[k].at, false);
    forall i | 0 <= i < k
      ensures rows[i].id !in ids && (rows[i].parent.Some? ==> rows[i].parent.value !in ids)
    {
      if rows[i].role == Assistant {
        var p :| 0 <= p < i && Answers(rows, i, p);
      }
    }
    DeleteKeepsPrefix(rows, ids, k);
  }

  predicate IsLastUser(rows: seq<Row>, k: nat) {
    k < |rows| && rows[k].role == User && forall i :: k < i < |rows| ==> rows[i].role == Assistant
  }

  predicate IsUserMessage(rows: seq<Row>, k: nat, id: nat) {
    k < |rows| && rows[k].id == id && rows[k].role == User
  }

  /** Everything after the last user message is a reply to it, and no earlier row goes. */
  lemma {:induction false} RegenerateIsPrefix(rows: seq<Row>, k: nat)
    requires ValidLog(rows) && IsLastUser(rows, k)
    ensures DeleteIds(rows, Victims(rows, rows[k].at, true)) == rows[..k + 1]
  {
    var ids := Victims(rows, rows[k].at, true);
    forall i | 0 <= i <= k
      ensures rows[i].id !in ids && (rows[i].parent.Some? ==> rows[i].parent.value !in ids)
    {
      if rows[i].role == Assistant {
        var p :| 0 <= p < i && Answers(rows, i, p);
      }
    }
    DeleteKeepsPrefix(rows, ids, k + 1);
  }

  // --- the SELECT and the DELETE are two statements ---------------------

  lemma {:induction false} DeleteDistributes(a: seq<Row>, b: seq<Row>, ids: set<nat>)
    ensures DeleteIds(a + b, ids) == DeleteIds(a, ids) + DeleteIds(b, ids)
  {
    if b == [] {
      assert a + b == a;
    } else {
      var n := |b| - 1;
      assert (a + b)[..|a| + n] == a + b[..n];
      DeleteDistributes(a, b[..n], ids);
    }
  }

  lemma {:induction false} DeleteKeepsStrangers(rows: seq<Row>, ids: set<nat>)
    requires forall r :: r in rows ==> r.id !in ids
    ensures |DeleteIds(rows, ids)| == |rows|
    ensures forall i :: 0 <= i < |rows| ==>
      DeleteIds(rows, ids)[i] == Orphaned(rows[i], ids)
  {
    if rows != [] {
      DeleteKeepsStrangers(rows[..|rows| - 1], ids);
    }
  }

  /** What a DELETE of ids read earlier leaves of a log that has grown meanwhile: the rows
      it would have left, and all the late ones, those that answer a deleted row without
      their parent. */
  lemma {:induction false} LateRowsSurvive(rows: seq<Row>, late: seq<Row>, ids: set<nat>, k: nat)
    requires k <= |rows| && DeleteIds(rows, ids) == rows[..k]
    requires forall r :: r in late ==> r.id !in ids
    ensures var left := DeleteIds(rows + late, ids);
            && |left| == k + |late| && left[..k] == rows[..k]
            && (forall i :: 0 <= i < |late| ==> left[k + i] == Orphaned(late[i], ids))
            && (left == rows[..k] <==> late == [])
  {
    LateRowsFollow(rows, late, ids, rows[..k]);
    assert |rows[..k]| == k;
  }

  lemma {:induction false} LateRowsFollow(rows: seq<Row>, late: seq<Row>, ids: set<nat>, kept: seq<Row>)
    requires DeleteIds(rows, ids) == kept
    requires forall r :: r in late ==> r.id !in ids
    ensures var left := DeleteIds(rows + late, ids);
            && |left| == |kept| + |late| && left[..|kept|] == kept
            && (forall i :: 0 <= i < |late| ==> left[|kept| + i] == Orphaned(late[i], ids))
            && (left == kept <==> late == [])
  {
    DeleteDistributes(rows, late, ids);
    DeleteKeepsStrangers(late, ids);
    OrphansFollow(kept, DeleteIds(late, ids), DeleteIds(rows + late, ids), late, ids);
  }

  lemma {:induction false} OrphansFollow(kept: seq<Row>, fresher: seq<Row>, left: seq<Row>, late: seq<Row>, ids: set<nat>)
    requires left == kept + fresher && |fresher| == |late|
    requires forall i :: 0 <= i < |late| ==> fresher[i] == Orphaned(late[i], ids)
    ensures |left| == |kept| + |late| && left[..|kept|] == kept
    ensures forall i :: 0 <= i < |late| ==> left[|kept| + i] == Orphaned(late[i], ids)
    ensures left == kept <==> late == []
  {
    Joined(kept, fresher);
    forall i | 0 <= i < |late|
      ensures left[|kept| + i] == Orphaned(late[i], ids)
    {
      assert left[|kept| + i] == fresher[i];
    }
  }

  lemma {:induction false} Joined(a: seq<Row>, b: seq<Row>)
    ensures (a + b)[..|a|] == a && (a + b == a <==> b == [])
    ensures forall i :: 0 <= i < |b| ==> (a + b)[|a| + i] == b[i]
  {
    if a + b == a {
      assert |a + b| == |a| + |b|;
    }
  }

  /** Rows that another session commits between the two statements of truncate_from survive
      it, and every reply among them to a truncated message loses its parent: the log is the
      plain prefix exactly when nothing was committed in between. */
  lemma {:induction false} LateRowsSurviveTruncation(rows: seq<Row>, late: seq<Row>, k: nat)
    requires ValidLog(rows) && k < |rows|
    requires forall r :: r in late ==> forall x :: x in rows ==> r.id != x.id
    ensures var ids := Victims(rows, rows[k].at, false);
            var left := DeleteIds(rows + late, ids);
            && (forall x :: x in rows[k..] ==> x.id in ids)
            && |left| == k + |late| && left[..k] == rows[..k]
            && (forall i :: 0 <= i < |late| ==> left[k + i] == Orphaned(late[i], ids))
            && (left == rows[..k] <==> late == [])
  {
    TruncationIsPrefix(rows, k);
    LateRowsSurvive(rows, late, Victims(rows, rows[k].at, false), k);
  }

  /** The same of delete_replies_after: the late rows follow the last user message, and as
      only replies are deleted a late reply keeps its parent. */
  lemma {:induction false} LateRowsSurviveRegenerate(rows: seq<Row>, late: seq<Row>, k: nat)
    requires ValidLog(rows) && IsLastUser(rows, k)
    requires forall r :: r in late ==> forall x :: x in rows ==> r.id != x.id
    ensures var ids := Victims(rows, rows[k].at, true);
            var left := DeleteIds(rows + late, ids);
            && |left| == k + 1 + |late| && left[..k + 1] == rows[..k + 1]
            && (forall i :: 0 <= i < |late| ==> left[k + 1 + i] == Orphaned(late[i], ids))
            && (forall i, x :: 0 <= i < |late| && x in rows && x.role == User && late[i].parent == Some(x.id) ==> left[k + 1 + i] == late[i])
            && (left == rows[..k + 1] <==> late == [])
  {
    var ids := Victims(rows, rows[k].at, true);
    RegenerateIsPrefix(rows, k);
    LateRowsSurvive(rows, late, ids, k + 1);
    UserRowsAreNotVictims(rows, rows[k].at);
  }

  lemma {:induction false} UserRowsAreNotVictims(rows: seq<Row>, at: int)
    requires InOrder(rows)
    ensures forall x :: x in rows && x.role == User ==> x.id !in Victims(rows, at, true)
  {
    forall x | x in rows && x.role == User
      ensures x.id !in Victims(rows, at, true)
    {
      var i :| 0 <= i < |rows| && rows[i] == x;
    }
  }

  // --- history ----------------------------------------------------------

  predicate Visible(r: Row, model: Option<string>) {
    model.None? || r.role == User || r.model == model
  }

  function VisibleRows(rows: seq<Row>, model: Option<string>): seq<Row> {
    if rows == [] then []
    else VisibleRows(rows[..|rows| - 1], model) + if Visible(rows[|rows| - 1], model) then [rows[|rows| - 1]] else []
  }

  /** ORDER BY created_at DESC LIMIT n, turned round. */
  function Newest(rows: seq<Row>, n: nat): seq<Row> {
    if |rows| <= n then rows else rows[|rows| - n..]
  }

  function RoleName(role: Role): string {
    if role == User then USER else ASSISTANT
  }

  /** The comprehension at the end of load_history. */
  function Messages(rows: seq<Row>): seq<ChatMessage> {
    if rows == [] then []
    else
      var last := rows[|rows| - 1];
      Messages(rows[..|rows| - 1]) + if last.content != "" then [FromText(RoleName(last.role), last.content)] else []
  }

  /** The rows a model's history query returns. */
  function Window(rows: seq<Row>, limit: nat, model: Option<string>): seq<Row> {
    Newest(VisibleRows(rows, model), limit)
  }

  function LoadHistory(rows: seq<Row>, limit: nat, model: Option<string>): seq<ChatMessage> {
    Messages(Window(rows, limit, model))
  }

  /** The stored copy of the current message is replaced by the one with attachments. */
  function WithLatest(history: seq<ChatMessage>, latest: ChatMessage): seq<ChatMessage> {
    var n := |history|;
    if n > 0 && history[n - 1].role == USER && history[n - 1].text == latest.text
    then history[n - 1 := latest] else history + [latest]
  }

  // --- which rows a prompt is made of -----------------------------------

  function NonEmpty(rows: seq<Row>): seq<Row> {
    if rows == [] then []
    else NonEmpty(rows[..|rows| - 1]) + if rows[|rows| - 1].content != "" then [rows[|rows| - 1]] else []
  }

  lemma {:induction false} NonEmptyRows(rows: seq<Row>)
    ensures forall r :: r in NonEmpty(rows) <==> r in rows && r.content != ""
  {
    if rows != [] {
      NonEmptyRows(rows[..|rows| - 1]);
      assert rows == rows[..|rows| - 1] + [rows[|rows| - 1]];
    }
  }

  lemma {:induction false} NonEmptyDistributes(a: seq<Row>, b: seq<Row>)
    ensures NonEmpty(a + b) == NonEmpty(a) + NonEmpty(b)
  {
    if b == [] {
      assert a + b == a;
    } else {
      var n := |b| - 1;
      assert (a + b)[..|a| + n] == a + b[..n];
      NonEmptyDistributes(a, b[..n]);
    }
  }

  lemma {:induction false} VisibleDistributes(a: seq<Row>, b: seq<Row>, model: Option<string>)
    ensures VisibleRows(a + b, model) == VisibleRows(a, model) + VisibleRows(b, model)
  {
    if b == [] {
      assert a + b == a;
    } else {
      var n := |b| - 1;
      assert (a + b)[..|a| + n] == a + b[..n];
      VisibleDistributes(a, b[..n], model);
    }
  }

  lemma {:induction false} VisibleAreRows(rows: seq<Row>, model: Option<string>)
    ensures forall r :: r in VisibleRows(rows, model) ==> r in rows
  {
    if rows != [] {
      VisibleAreRows(rows[..|rows| - 1], model);
      assert rows == rows[..|rows| - 1] + [rows[|rows| - 1]];
    }
  }

  /** Messages are the non-empty rows, one for one. */
  lemma {:induction false} MessagesAreNonEmptyRows(rows: seq<Row>)
    ensures Messages(rows) == Messages(NonEmpty(rows))
  {
    if rows != [] {
      var n := |rows| - 1;
      MessagesAreNonEmptyRows(rows[..n]);
      var sent := NonEmpty(rows[..n]);
      if rows[n].content != "" {
        assert (sent + [rows[n]])[..|sent|] == sent;
      } else {
        assert sent + [] == sent && Messages(sent) + [] == Messages(sent);
      }
    }
  }

  /** Without the last row when it is a user row with the text of the current message. */
  function Trim(rows: seq<Row>, text: string): seq<Row> {
    var n := |rows|;
    if n > 0 && rows[n - 1].role == User && rows[n - 1].content == text then rows[..n - 1] else rows
  }

  /** The rows a prompt is made of: the non-empty rows of the window, trimmed. */
  function SentRows(window: seq<Row>, text: string): seq<Row> {
    Trim(NonEmpty(window), text)
  }

  lemma {:induction false} MessagesOfPrefix(rows: seq<Row>)
    requires rows != [] && rows[|rows| - 1].content != ""
    ensures Messages(rows) == Messages(rows[..|rows| - 1]) + [FromText(RoleName(rows[|rows| - 1].role), rows[|rows| - 1].content)]
  {
  }

  /** The replacement of the stored copy, row by row. */
  lemma {:induction false} LatestReplacesTheRow(rows: seq<Row>, latest: ChatMessage)
    requires forall i :: 0 <= i < |rows| ==> rows[i].content != ""
    ensures WithLatest(Messages(rows), latest) == Messages(Trim(rows, latest.text)) + [latest]
  {
    if rows != [] {
      var n := |rows| - 1;
      MessagesOfPrefix(rows);
      var before := Messages(rows[..n]);
      assert (before + [FromText(RoleName(rows[n].role), rows[n].content)])[|before| := latest] == before + [latest];
    }
  }

  /** Every prompt, whatever is in the log: it ends with the current message, and before it
      come the sent rows. */
  lemma {:induction false} PromptIsMadeOfRows(rows: seq<Row>, limit: nat, model: Option<string>, latest: ChatMessage)
    ensures WithLatest(LoadHistory(rows, limit, model), latest)
         == Messages(SentRows(Window(rows, limit, model), latest.text)) + [latest]
  {
    var window := Window(rows, limit, model);
    var sent := NonEmpty(window);
    MessagesAreNonEmptyRows(window);
    NonEmptyRows(window);
    assert forall i :: 0 <= i < |sent| ==> sent[i] in sent;
    LatestReplacesTheRow(sent, latest);
  }

  /** The prompt a model should get: the non-empty rows among the last `limit - 1` rows of
      its thread before the current message, in order, then the current message. */
  function RightRows(before: seq<Row>, limit: nat, model: Option<string>): seq<Row>
    requires limit > 0
  {
    NonEmpty(Window(before, limit - 1, model))
  }

  function Prompt(before: seq<Row>, limit: nat, model: Option<string>, latest: ChatMessage): seq<ChatMessage>
    requires limit > 0
  {
    Messages(RightRows(before, limit, model)) + [latest]
  }

  predicate AllEmpty(rows: seq<Row>) {
    forall r :: r in rows ==> r.content == ""
  }

  /** The rows of the last window of a thread that lose their place in it, the current message
      keeping one, when n rows follow. */
  function PushedOut(thread: seq<Row>, limit: nat, n: nat): seq<Row>
    requires limit > 0
  {
    var window := Newest(thread, limit - 1);
    if n >= limit then window else window[..|window| - |Newest(thread, limit - 1 - n)|]
  }

  /** What the rows that other sessions commit after the current message may be without
      spoiling the prompt of this model. The rows they push out of the window must be empty.
      If they leave the current message in it, they must be empty themselves; if they fill it,
      what is seen of them must come down to nothing or to one user row that repeats the
      current message. */
  predicate Undisturbed(before: seq<Row>, late: seq<Row>, limit: nat, model: Option<string>, text: string)
    requires limit > 0
  {
    var newer := VisibleRows(late, model);
    && AllEmpty(PushedOut(VisibleRows(before, model), limit, |newer|))
    && if |newer| < limit then AllEmpty(newer)
       else
         var seen := NonEmpty(Newest(newer, limit));
         seen == [] || (|seen| == 1 && seen[0].role == User && seen[0].content == text)
  }

  lemma {:induction false} AllEmptyExactly(rows: seq<Row>)
    ensures AllEmpty(rows) <==> NonEmpty(rows) == []
  {
    NonEmptyRows(rows);
    if NonEmpty(rows) != [] {
      assert NonEmpty(rows)[0] in NonEmpty(rows);
    }
  }

  /** Rows pushed out of the window are missed exactly when they are not empty. */
  lemma {:induction false} PushedOutExactly(thread: seq<Row>, limit: nat, n: nat)
    requires limit > 0
    ensures AllEmpty(PushedOut(thread, limit, n))
       <==> (if n >= limit then [] else NonEmpty(Newest(thread, limit - 1 - n))) == NonEmpty(Newest(thread, limit - 1))
  {
    AllEmptyExactly(PushedOut(thread, limit, n));
    if n < limit {
      var kept := Newest(thread, limit - 1 - n);
      assert Newest(thread, limit - 1) == PushedOut(thread, limit, n) + kept;
      SameWithout(PushedOut(thread, limit, n), kept);
    }
  }

  lemma {:induction false} SameWithout(pushed: seq<Row>, kept: seq<Row>)
    ensures NonEmpty(pushed) == [] <==> NonEmpty(kept) == NonEmpty(pushed + kept)
  {
    NonEmptyDistributes(pushed, kept);
    assert |NonEmpty(pushed + kept)| == |NonEmpty(pushed)| + |NonEmpty(kept)|;
  }

  lemma {:induction false} WindowOf(before: seq<Row>, current: Row, late: seq<Row>, limit: nat, model: Option<string>)
    requires limit > 0 && current.role == User
    ensures var thread, newer := VisibleRows(before, model), VisibleRows(late, model);
            Window(before + [current] + late, limit, model)
            == if |newer| < limit then Newest(thread, limit - 1 - |newer|) + [current] + newer else Newest(newer, limit)
  {
    var thread, newer := VisibleRows(before, model), VisibleRows(late, model);
    VisibleDistributes(before + [current], late, model);
    assert (before + [current])[..|before|] == before;
    assert VisibleRows(before + [current], model) == thread + [current];
    NewestOfThread(thread, current, newer, limit);
  }

  lemma {:induction false} NewestOfThread(thread: seq<Row>, current: Row, newer: seq<Row>, limit: nat)
    requires limit > 0
    ensures Newest(thread + [current] + newer, limit)
         == if |newer| < limit then Newest(thread, limit - 1 - |newer|) + [current] + newer else Newest(newer, limit)
  {
    NewestOfTwo(thread + [current], newer, limit);
    if |newer| < limit {
      NewestWithLast(thread, current, limit - |newer|);
    }
  }

  lemma {:induction false} NewestOfTwo(a: seq<Row>, b: seq<Row>, n: nat)
    ensures Newest(a + b, n) == if |b| < n then Newest(a, n - |b|) + b else Newest(b, n)
  {
    if |b| < n && |a| + |b| > n {
      assert (a + b)[|a| + |b| - n..] == a[|a| - (n - |b|)..] + b;
    } else if |b| >= n && |a| + |b| > n {
      assert (a + b)[|a| + |b| - n..] == b[|b| - n..];
    }
  }

  lemma {:induction false} NewestWithLast(a: seq<Row>, x: Row, n: nat)
    requires n > 0
    ensures Newest(a + [x], n) == Newest(a, n - 1) + [x]
  {
  }

  lemma {:induction false} NewestAreRows(rows: seq<Row>, n: nat)
    ensures forall r :: r in Newest(rows, n) ==> r in rows
  {
  }

  /** A list that has a row from after the current message, or the message itself, is not
      made of earlier rows. */
  lemma {:induction false} StrangersSpoil(before: seq<Row>, others: seq<Row>, limit: nat, model: Option<string>, sent: seq<Row>, r: Row)
    requires limit > 0 && r in sent && r in others && forall x, y :: x in before && y in others ==> x.id != y.id
    ensures sent != RightRows(before, limit, model)
  {
    var thread := VisibleRows(before, model);
    NonEmptyRows(Newest(thread, limit - 1));
    NewestAreRows(thread, limit - 1);
    VisibleAreRows(before, model);
    assert r !in before;
  }

  lemma {:induction false} EmptyTail(kept: seq<Row>, current: Row, newer: seq<Row>)
    requires current.role == User && NonEmpty(newer) == []
    ensures SentRows(kept + [current] + newer, current.content) == NonEmpty(kept)
  {
    NonEmptyDistributes(kept + [current], newer);
    NonEmptyDistributes(kept, [current]);
    assert [current][..0] == [];
    NonEmptyRows(kept);
    var all := NonEmpty(kept) + NonEmpty([current]) + [];
    if current.content != "" {
      assert NonEmpty([current]) == [current];
      assert all == NonEmpty(kept) + [current];
    } else {
      assert NonEmpty([current]) == [];
      assert all == NonEmpty(kept);
      assert forall i :: 0 <= i < |all| ==> all[i] in NonEmpty(kept);
    }
  }

  /** With a non-empty row after it, the current message or that row is among the sent. */
  lemma {:induction false} FullTail(kept: seq<Row>, current: Row, newer: seq<Row>)
    requires current.role == User && NonEmpty(newer) != []
    ensures var last := NonEmpty(newer)[|NonEmpty(newer)| - 1];
            && last in newer
            && (if last.role == User && last.content == current.content then current else last)
               in SentRows(kept + [current] + newer, current.content)
  {
    var n := |NonEmpty(newer)| - 1;
    var last, all := NonEmpty(newer)[n], NonEmpty(kept + [current] + newer);
    NonEmptyDistributes(kept + [current], newer);
    NonEmptyRows(newer);
    assert last in NonEmpty(newer) && last.content != "";
    assert all[|all| - 1] == last;
    if last.role == User && last.content == current.content {
      CurrentIsKept(kept, current);
      var k :| 0 <= k < |NonEmpty(kept + [current])| && NonEmpty(kept + [current])[k] == current;
      assert all[..|all| - 1][k] == current;
    }
  }

  lemma {:induction false} CurrentIsKept(kept: seq<Row>, current: Row)
    requires current.content != ""
    ensures current in NonEmpty(kept + [current])
  {
    assert (kept + [current])[..|kept|] == kept;
  }

  /** The prompt of this model is made of the right rows. */
  predicate IsRight(before: seq<Row>, current: Row, late: seq<Row>, limit: nat, model: Option<string>)
    requires limit > 0
  {
    SentRows(Window(before + [current] + late, limit, model), current.content) == RightRows(before, limit, model)
  }

  lemma {:induction false} ShortEmptyTail(before: seq<Row>, current: Row, late: seq<Row>, limit: nat, model: Option<string>)
    requires limit > 0 && current.role == User && |VisibleRows(late, model)| < limit && NonEmpty(VisibleRows(late, model)) == []
    ensures SentRows(Window(before + [current] + late, limit, model), current.content)
         == NonEmpty(Newest(VisibleRows(before, model), limit - 1 - |VisibleRows(late, model)|))
  {
    WindowOf(before, current, late, limit, model);
    EmptyTail(Newest(VisibleRows(before, model), limit - 1 - |VisibleRows(late, model)|), current, VisibleRows(late, model));
  }

  lemma {:induction false} ShortFullTail(before: seq<Row>, current: Row, late: seq<Row>, limit: nat, model: Option<string>)
    requires limit > 0 && current.role == User && |VisibleRows(late, model)| < limit && NonEmpty(VisibleRows(late, model)) != []
    requires forall x, y :: x in before && y in [current] + late ==> x.id != y.id
    ensures !IsRight(before, current, late, limit, model)
  {
    var window := Window(before + [current] + late, limit, model);
    ShortWindow(before, current, late, limit, model, window);
    FullTailIsWrong(before, current, late, limit, model, Newest(VisibleRows(before, model), limit - 1 - |VisibleRows(late, model)|), window);
  }

  lemma {:induction false} ShortWindow(before: seq<Row>, current: Row, late: seq<Row>, limit: nat, model: Option<string>, window: seq<Row>)
    requires limit > 0 && current.role == User && |VisibleRows(late, model)| < limit
    requires window == Window(before + [current] + late, limit, model)
    ensures window == Newest(VisibleRows(before, model), limit - 1 - |VisibleRows(late, model)|) + [current] + VisibleRows(late, model)
  {
    WindowOf(before, current, late, limit, model);
  }

  lemma {:induction false} FullTailIsWrong(before: seq<Row>, current: Row, late: seq<Row>, limit: nat, model: Option<string>, kept: seq<Row>, window: seq<Row>)
    requires limit > 0 && current.role == User && NonEmpty(VisibleRows(late, model)) != []
    requires window == kept + [current] + VisibleRows(late, model)
    requires forall x, y :: x in before && y in [current] + late ==> x.id != y.id
    ensures SentRows(window, current.content) != RightRows(before, limit, model)
  {
    var newer := VisibleRows(late, model);
    FullTail(kept, current, newer);
    VisibleAreRows(late, model);
    var last := NonEmpty(newer)[|NonEmpty(newer)| - 1];
    StrangersSpoil(before, [current] + late, limit, model, SentRows(window, current.content),
                   if last.role == User && last.content == current.content then current else last);
  }

  lemma {:induction false} LongEmptyTail(before: seq<Row>, current: Row, late: seq<Row>, limit: nat, model: Option<string>)
    requires limit > 0 && current.role == User && |VisibleRows(late, model)| >= limit
    requires SentRows(Newest(VisibleRows(late, model), limit), current.content) == []
    ensures IsRight(before, current, late, limit, model) <==> RightRows(before, limit, model) == []
  {
    WindowOf(before, current, late, limit, model);
  }

  lemma {:induction false} LongFullTail(before: seq<Row>, current: Row, late: seq<Row>, limit: nat, model: Option<string>)
    requires limit > 0 && current.role == User && |VisibleRows(late, model)| >= limit
    requires SentRows(Newest(VisibleRows(late, model), limit), current.content) != []
    requires forall x, y :: x in before && y in [current] + late ==> x.id != y.id
    ensures !IsRight(before, current, late, limit, model)
  {
    var newer := VisibleRows(late, model);
    var sent, seen := SentRows(Newest(newer, limit), current.content), NonEmpty(Newest(newer, limit));
    WindowOf(before, current, late, limit, model);
    NonEmptyRows(Newest(newer, limit));
    NewestAreRows(newer, limit);
    VisibleAreRows(late, model);
    assert sent[0] == seen[0] && seen[0] in seen && sent[0] in [current] + late;
    StrangersSpoil(before, [current] + late, limit, model, sent, sent[0]);
  }

  lemma {:induction false} TrimmedToNothing(rows: seq<Row>, text: string)
    ensures Trim(rows, text) == [] <==> rows == [] || (|rows| == 1 && rows[0].role == User && rows[0].content == text)
  {
  }

  /** Exactly when a model's prompt is right, for every log: `before` are the rows before the
      current one and `late` the rows that other sessions have committed after it by the time
      the history is read. */
  lemma {:induction false} PromptIsRightExactly(before: seq<Row>, current: Row, late: seq<Row>, limit: nat, model: Option<string>)
    requires limit > 0 && current.role == User
    requires forall x, y :: x in before && y in [current] + late ==> x.id != y.id
    ensures IsRight(before, current, late, limit, model) <==> Undisturbed(before, late, limit, model, current.content)
  {
    if |VisibleRows(late, model)| < limit {
      FewLateRows(before, current, late, limit, model);
    } else {
      ManyLateRows(before, current, late, limit, model);
    }
  }

  lemma {:induction false} FewLateRows(before: seq<Row>, current: Row, late: seq<Row>, limit: nat, model: Option<string>)
    requires limit > 0 && current.role == User && |VisibleRows(late, model)| < limit
    requires forall x, y :: x in before && y in [current] + late ==> x.id != y.id
    ensures IsRight(before, current, late, limit, model) <==> Undisturbed(before, late, limit, model, current.content)
  {
    var newer := VisibleRows(late, model);
    AllEmptyExactly(newer);
    if NonEmpty(newer) == [] {
      FewEmptyRows(before, current, late, limit, model);
    } else {
      ShortFullTail(before, current, late, limit, model);
    }
  }

  lemma {:induction false} FewEmptyRows(before: seq<Row>, current: Row, late: seq<Row>, limit: nat, model: Option<string>)
    requires limit > 0 && current.role == User && |VisibleRows(late, model)| < limit && NonEmpty(VisibleRows(late, model)) == []
    ensures IsRight(before, current, late, limit, model) <==> AllEmpty(PushedOut(VisibleRows(before, model), limit, |VisibleRows(late, model)|))
  {
    PushedOutExactly(VisibleRows(before, model), limit, |VisibleRows(late, model)|);
    ShortEmptyTail(before, current, late, limit, model);
  }

  lemma {:induction false} ManyLateRows(before: seq<Row>, current: Row, late: seq<Row>, limit: nat, model: Option<string>)
    requires limit > 0 && current.role == User && |VisibleRows(late, model)| >= limit
    requires forall x, y :: x in before && y in [current] + late ==> x.id != y.id
    ensures IsRight(before, current, late, limit, model) <==> Undisturbed(before, late, limit, model, current.content)
  {
    var newer := VisibleRows(late, model);
    PushedOutExactly(VisibleRows(before, model), limit, |newer|);
    TrimmedToNothing(NonEmpty(Newest(newer, limit)), current.content);
    if SentRows(Newest(newer, limit), current.content) == [] {
      LongEmptyTail(before, current, late, limit, model);
    } else {
      LongFullTail(before, current, late, limit, model);
    }
  }

  /** In particular it is right when nothing of this thread came late, and wrong when a
      non-empty row did and the window had room for the current message. */
  lemma {:induction false} LateRowsSpoilThePrompt(before: seq<Row>, current: Row, late: seq<Row>, limit: nat, model: Option<string>)
    requires limit > 0 && current.role == User
    requires forall x, y :: x in before && y in [current] + late ==> x.id != y.id
    ensures VisibleRows(late, model) == [] ==> IsRight(before, current, late, limit, model)
    ensures |VisibleRows(late, model)| < limit && NonEmpty(VisibleRows(late, model)) != [] ==> !IsRight(before, current, late, limit, model)
  {
    PromptIsRightExactly(before, current, late, limit, model);
    AllEmptyExactly(VisibleRows(late, model));
    assert VisibleRows(late, model) == [] ==> PushedOut(VisibleRows(before, model), limit, 0) == [];
  }

  /** A prompt made of the right rows is the prompt the model should get. */
  lemma {:induction false} RightRowsMakeThePrompt(before: seq<Row>, current: Row, late: seq<Row>, limit: nat, model: Option<string>, latest: ChatMessage)
    requires limit > 0 && latest.text == current.content && IsRight(before, current, late, limit, model)
    ensures WithLatest(LoadHistory(before + [current] + late, limit, model), latest) == Prompt(before, limit, model, latest)
  {
    PromptIsMadeOfRows(before + [current] + late, limit, model, latest);
  }

  /** The instance: a reply of another socket that lands between the flush and the history
      query makes the current message appear twice. */
  lemma {:induction false} LateReplyRepeatsTheMessage(current: Row, reply: Row, limit: nat, latest: ChatMessage)
    requires limit >= 2 && current.role == User && reply.role == Assistant && current.content != "" && reply.content != ""
    requires latest.role == USER && latest.text == current.content
    ensures WithLatest(LoadHistory([current, reply], limit, None), latest)
         == [FromText(USER, current.content), FromText(ASSISTANT, reply.content), latest]
  {
    assert [current, reply][..1] == [current] && [current][..0] == [];
    assert VisibleRows([current], None) == [current];
    assert VisibleRows([current, reply], None) == [current, reply];
    assert Messages([current]) == [FromText(USER, current.content)];
  }

  // --- one turn ---------------------------------------------------------

  /** An uploaded file named in a message; `id` refers to the staging area. */
  datatype Upload = Upload(id: string, name: string)

  datatype Request =
    | NewMessage(text: string, uploads: seq<Upload>)
    | EditMessage(target: nat, text: string, uploads: seq<Upload>)
    | RegenerateReply

  datatype TurnError = NothingToRegenerate | BadEdit

  function Names(uploads: seq<Upload>): (names: seq<string>)
    ensures |names| == |uploads|
  {
    seq(|uploads|, i requires 0 <= i < |uploads| => uploads[i].name)
  }

  predicate IsStaged(staged: map<string, Attachment>, upload: Upload) {
    upload.id != "" && upload.id in staged
  }

  /** _resolve_attachments: ids that are empty or whose staged file has expired are
      skipped. */
  function Resolve(staged: map<string, Attachment>, uploads: seq<Upload>): (files: seq<Attachment>)
    ensures |files| <= |uploads|
  {
    if uploads == [] then []
    else
      var last := uploads[|uploads| - 1];
      Resolve(staged, uploads[..|uploads| - 1]) + if IsStaged(staged, last) then [staged[last.id]] else []
  }

  method ResolveAttachments(staged: map<string, Attachment>, uploads: seq<Upload>) returns (files: seq<Attachment>)
    ensures files == Resolve(staged, uploads)
  {
    files := [];
    for i := 0 to |uploads|
      invariant files == Resolve(staged, uploads[..i])
    {
      assert uploads[..i + 1][..i] == uploads[..i];
      if uploads[i].id != "" && uploads[i].id in staged {
        files := files + [staged[uploads[i].id]];
      }
    }
    assert uploads[..|uploads|] == uploads;
  }

  /** The staged contents of all the uploads, in order. */
  predicate AllContents(staged: map<string, Attachment>, uploads: seq<Upload>, files: seq<Attachment>) {
    && |files| == |uploads|
    && forall i :: 0 <= i < |uploads| ==> IsStaged(staged, uploads[i]) && files[i] == staged[uploads[i].id]
  }

  lemma {:induction false} ResolvedExactly(staged: map<string, Attachment>, uploads: seq<Upload>)
    ensures AllContents(staged, uploads, Resolve(staged, uploads)) <==> forall u :: u in uploads ==> IsStaged(staged, u)
  {
    if uploads != [] {
      var n := |uploads| - 1;
      ResolvedExactly(staged, uploads[..n]);
      assert uploads == uploads[..n] + [uploads[n]];
      if forall u :: u in uploads ==> IsStaged(staged, u) {
        assert AllContents(staged, uploads[..n], Resolve(staged, uploads[..n]));
      }
    }
  }

  /** The files sent with the current message: those of the request, none on regenerate. */
  function SentFiles(request: Request, staged: map<string, Attachment>): seq<Attachment> {
    match request
    case NewMessage(_, uploads) => Resolve(staged, uploads)
    case EditMessage(_, _, uploads) => Resolve(staged, uploads)
    case RegenerateReply => []
  }

  function LastUser(rows: seq<Row>): (k: Option<nat>)
    ensures k.Some? ==> k.value < |rows|
  {
    if rows == [] then None
    else if rows[|rows| - 1].role == User then Some(|rows| - 1)
    else LastUser(rows[..|rows| - 1])
  }

  lemma {:induction false} LastUserIs(rows: seq<Row>)
    ensures match LastUser(rows)
            case Some(k) => IsLastUser(rows, k)
            case None => forall i :: 0 <= i < |rows| ==> rows[i].role == Assistant
  {
    if rows != [] && rows[|rows| - 1].role != User {
      var before := rows[..|rows| - 1];
      LastUserIs(before);
      assert forall i :: 0 <= i < |before| ==> rows[i] == before[i];
    }
  }

  function FindUser(rows: seq<Row>, id: nat): (k: Option<nat>)
    ensures k.Some? ==> IsUserMessage(rows, k.value, id)
  {
    if rows == [] then None
    else if rows[|rows| - 1].id == id && rows[|rows| - 1].role == User then Some(|rows| - 1)
    else FindUser(rows[..|rows| - 1], id)
  }

  lemma {:induction false} FindUserFinds(rows: seq<Row>, id: nat)
    requires FindUser(rows, id).None?
    ensures forall i :: 0 <= i < |rows| && rows[i].id == id ==> rows[i].role == Assistant
  {
    if rows != [] {
      var before := rows[..|rows| - 1];
      FindUserFinds(before, id);
      assert forall i :: 0 <= i < |before| ==> rows[i] == before[i];
    }
  }

  /** The log that step 2 of run_turn leaves: an edit keeps the rows before its target and
      adds the new message, a regenerate keeps the rows up to the last user message. */
  function Step2(rows: seq<Row>, request: Request, id: nat, now: int): Result<seq<Row>, TurnError> {
    match request
    case NewMessage(text, uploads) => Ok(rows + [Row(id, User, text, None, None, Names(uploads), now)])
    case EditMessage(target, text, uploads) =>
      var k := FindUser(rows, target);
      if k.None? then Err(BadEdit) else Ok(rows[..k.value] + [Row(id, User, text, None, None, Names(uploads), now)])
    case RegenerateReply =>
      var k := LastUser(rows);
      if k.None? then Err(NothingToRegenerate) else Ok(rows[..k.value + 1])
  }

  lemma {:induction false} Step2EndsWithTheMessage(rows: seq<Row>, request: Request, id: nat, now: int)
    requires Step2(rows, request, id, now).Ok?
    ensures var log := Step2(rows, request, id, now).value;
            && log != [] && log[|log| - 1].role == User
            && (!request.RegenerateReply? ==>
                  log[|log| - 1] == Row(id, User, request.text, None, None, Names(request.uploads), now))
  {
    LastUserIs(rows);
  }

  /** model_filter: the model itself in arena, nothing in a plain chat. */
  function ThreadOf(models: seq<string>, i: nat): Option<string>
    requires i < |models|
  {
    if |models| > 1 then Some(models[i]) else None
  }

  // --- the rows of a thread, in the terms of the log --------------------

  /** What model i of a turn should read: everything in a plain chat; in an arena what the user
      wrote and what the model itself answered. */
  predicate InThread(r: Row, models: seq<string>, i: nat)
    requires i < |models|
  {
    |models| > 1 && r.role == Assistant ==> r.model == Some(models[i])
  }

  function ThreadLength(rows: seq<Row>, models: seq<string>, i: nat): nat
    requires i < |models|
  {
    if rows == [] then 0
    else ThreadLength(rows[..|rows| - 1], models, i) + if InThread(rows[|rows| - 1], models, i) then 1 else 0
  }

  predicate Increasing(at: seq<nat>) {
    forall a, b :: 0 <= a < b < |at| ==> at[a] < at[b]
  }

  /** Row j is one of the last n of the thread, and not empty. */
  predicate Picked(rows: seq<Row>, models: seq<string>, i: nat, n: nat, j: nat)
    requires i < |models|
  {
    j < |rows| && InThread(rows[j], models, i) && rows[j].content != "" && ThreadLength(rows[j + 1..], models, i) < n
  }

  /** The places of those rows, all of them, in order. */
  ghost predicate Picks(at: seq<nat>, rows: seq<Row>, models: seq<string>, i: nat, n: nat)
    requires i < |models|
  {
    Increasing(at) && forall j: nat :: j in at <==> Picked(rows, models, i, n, j)
  }

  /** These rows are the ones at those places. */
  predicate AreAt(sent: seq<Row>, rows: seq<Row>, at: seq<nat>) {
    |sent| == |at| && forall k :: 0 <= k < |at| ==> at[k] < |rows| && sent[k] == rows[at[k]]
  }

  lemma {:induction false} VisibleIsInThread(r: Row, models: seq<string>, i: nat)
    requires i < |models|
    ensures Visible(r, ThreadOf(models, i)) <==> InThread(r, models, i)
  {
  }

  lemma {:induction false} WindowGrows(before: seq<Row>, r: Row, n: nat, model: Option<string>)
    ensures Window(before + [r], n, model)
         == if !Visible(r, model) then Window(before, n, model) else if n == 0 then [] else Window(before, n - 1, model) + [r]
  {
    assert (before + [r])[..|before|] == before;
  }

  lemma {:induction false} ThreadGrows(rows: seq<Row>, r: Row, models: seq<string>, i: nat)
    requires i < |models|
    ensures ThreadLength(rows + [r], models, i) == ThreadLength(rows, models, i) + if InThread(r, models, i) then 1 else 0
  {
    assert (rows + [r])[..|rows|] == rows;
  }

  /** What one more row does to what is picked. */
  lemma {:induction false} PickedGrows(before: seq<Row>, r: Row, models: seq<string>, i: nat, n: nat, j: nat)
    requires i < |models|
    ensures var rest := if InThread(r, models, i) then n - 1 else n;
            Picked(before + [r], models, i, n, j)
            <==> n > 0 && ((rest >= 0 && Picked(before, models, i, rest, j)) || (j == |before| && InThread(r, models, i) && r.content != ""))
  {
    var rows := before + [r];
    if j < |before| {
      assert rows[j + 1..] == before[j + 1..] + [r];
      ThreadGrows(before[j + 1..], r, models, i);
    } else if j == |before| {
      assert rows[j + 1..] == [];
    }
  }

  lemma {:induction false} PicksGrow(at: seq<nat>, before: seq<Row>, r: Row, models: seq<string>, i: nat, n: nat)
    requires i < |models| && n > 0
    requires Picks(at, before, models, i, if InThread(r, models, i) then n - 1 else n)
    ensures Picks(at + if InThread(r, models, i) && r.content != "" then [|before|] else [], before + [r], models, i, n)
  {
    var at' := at + if InThread(r, models, i) && r.content != "" then [|before|] else [];
    forall j: nat
      ensures j in at' <==> Picked(before + [r], models, i, n, j)
    {
      PickedGrows(before, r, models, i, n, j);
      assert j in at <==> Picked(before, models, i, if InThread(r, models, i) then n - 1 else n, j);
    }
    forall k | 0 <= k < |at|
      ensures at[k] < |before|
    {
      assert at[k] in at;
    }
  }

  lemma {:induction false} NothingIsPicked(rows: seq<Row>, models: seq<string>, i: nat)
    requires i < |models|
    ensures Picks([], rows, models, i, 0) && Window(rows, 0, ThreadOf(models, i)) == []
  {
  }

  /** The history query and the comprehension behind it, for every log and every limit: the
      rows it leaves are exactly the non-empty rows among the last n of the model's thread. */
  lemma {:induction false} HistoryIsPicked(rows: seq<Row>, models: seq<string>, i: nat, n: nat) returns (at: seq<nat>)
    requires i < |models|
    ensures Picks(at, rows, models, i, n) && AreAt(NonEmpty(Window(rows, n, ThreadOf(models, i))), rows, at)
  {
    var model := ThreadOf(models, i);
    if rows == [] || n == 0 {
      at := [];
      NothingIsPicked(rows, models, i);
      assert Picks([], [], models, i, n);
    } else {
      var before, r := rows[..|rows| - 1], rows[|rows| - 1];
      assert rows == before + [r];
      var seen := InThread(r, models, i);
      at := HistoryIsPicked(before, models, i, if seen then n - 1 else n);
      PicksGrow(at, before, r, models, i, n);
      OneMoreIsPicked(at, before, r, models, i, n);
      at := at + if seen && r.content != "" then [|before|] else [];
    }
  }

  lemma {:induction false} OneMoreIsPicked(at: seq<nat>, before: seq<Row>, r: Row, models: seq<string>, i: nat, n: nat)
    requires i < |models| && n > 0
    requires AreAt(NonEmpty(Window(before, if InThread(r, models, i) then n - 1 else n, ThreadOf(models, i))), before, at)
    ensures AreAt(NonEmpty(Window(before + [r], n, ThreadOf(models, i))), before + [r],
                  at + if InThread(r, models, i) && r.content != "" then [|before|] else [])
  {
    HistoryGrows(before, r, models, i, n);
    AreAtGrows(NonEmpty(Window(before, if InThread(r, models, i) then n - 1 else n, ThreadOf(models, i))), before, at, r,
               InThread(r, models, i) && r.content != "");
  }

  lemma {:induction false} HistoryGrows(before: seq<Row>, r: Row, models: seq<string>, i: nat, n: nat)
    requires i < |models| && n > 0
    ensures NonEmpty(Window(before + [r], n, ThreadOf(models, i)))
         == NonEmpty(Window(before, if InThread(r, models, i) then n - 1 else n, ThreadOf(models, i)))
            + if InThread(r, models, i) && r.content != "" then [r] else []
  {
    var model := ThreadOf(models, i);
    VisibleIsInThread(r, models, i);
    WindowGrows(before, r, n, model);
    if InThread(r, models, i) {
      NonEmptyGrows(Window(before, n - 1, model), r);
    }
  }

  lemma {:induction false} NonEmptyGrows(rows: seq<Row>, r: Row)
    ensures NonEmpty(rows + [r]) == NonEmpty(rows) + if r.content != "" then [r] else []
  {
    assert (rows + [r])[..|rows|] == rows;
  }

  lemma {:induction false} AreAtGrows(sent: seq<Row>, before: seq<Row>, at: seq<nat>, r: Row, more: bool)
    requires AreAt(sent, before, at)
    ensures AreAt(sent + if more then [r] else [], before + [r], at + if more then [|before|] else [])
  {
  }

  /** The rows at those places, as messages. */
  function Spoken(rows: seq<Row>, at: seq<nat>): (messages: seq<ChatMessage>)
    requires forall k :: 0 <= k < |at| ==> at[k] < |rows|
    ensures |messages| == |at|
    ensures forall k :: 0 <= k < |at| ==>
      messages[k] == ChatMessage(if rows[at[k]].role == User then "user" else "assistant", rows[at[k]].content, [])
  {
    seq(|at|, k requires 0 <= k < |at| => ChatMessage(if rows[at[k]].role == User then "user" else "assistant", rows[at[k]].content, []))
  }

  /** Without the last place when a user row with the text of the current message is there. */
  function Before(rows: seq<Row>, at: seq<nat>, text: string): (cut: seq<nat>)
    requires forall k :: 0 <= k < |at| ==> at[k] < |rows|
    ensures cut <= at
  {
    var n := |at|;
    if n > 0 && rows[at[n - 1]].role == User && rows[at[n - 1]].content == text then at[..n - 1] else at
  }

  /** The prompt says exactly what this model of the turn should read, and then the current
      message: the non-empty rows among the last `limit` of its thread, in order, the stored
      copy of the current message set apart. */
  ghost predicate Says(prompt: seq<ChatMessage>, at: seq<nat>, rows: seq<Row>, models: seq<string>, i: nat, limit: nat, latest: ChatMessage)
    requires i < |models|
  {
    && Picks(at, rows, models, i, limit)
    && (forall k :: 0 <= k < |at| ==> at[k] < |rows|)
    && prompt == Spoken(rows, Before(rows, at, latest.text)) + [latest]
  }

  ghost predicate ReadsItsThread(prompt: seq<ChatMessage>, rows: seq<Row>, models: seq<string>, i: nat, limit: nat, latest: ChatMessage)
    requires i < |models|
  {
    exists at :: Says(prompt, at, rows, models, i, limit, latest)
  }

  lemma {:induction false} MessagesAreSpoken(sent: seq<Row>, rows: seq<Row>, at: seq<nat>)
    requires AreAt(sent, rows, at) && forall r :: r in sent ==> r.content != ""
    ensures Messages(sent) == Spoken(rows, at)
  {
    if sent != [] {
      var n := |sent| - 1;
      var last := sent[n];
      assert last in sent && forall r :: r in sent[..n] ==> r in sent;
      MessagesAreSpoken(sent[..n], rows, at[..n]);
      MessagesOfPrefix(sent);
      SpokenGrows(rows, at);
    }
  }

  lemma {:induction false} SpokenGrows(rows: seq<Row>, at: seq<nat>)
    requires at != [] && forall k :: 0 <= k < |at| ==> at[k] < |rows|
    ensures var n, r := |at| - 1, rows[at[|at| - 1]];
            Spoken(rows, at) == Spoken(rows, at[..n]) + [ChatMessage(if r.role == User then "user" else "assistant", r.content, [])]
  {
  }

  /** Over every log, from the list of the turn's models: the prompt of model i. */
  lemma {:induction false} PromptIsTheThread(rows: seq<Row>, models: seq<string>, i: nat, limit: nat, latest: ChatMessage)
    requires i < |models|
    ensures ReadsItsThread(WithLatest(LoadHistory(rows, limit, ThreadOf(models, i)), latest), rows, models, i, limit, latest)
  {
    var window := Window(rows, limit, ThreadOf(models, i));
    var sent := NonEmpty(window);
    var at := HistoryIsPicked(rows, models, i, limit);
    NonEmptyRows(window);
    PromptIsMadeOfRows(rows, limit, ThreadOf(models, i), latest);
    TrimmedAreAt(sent, rows, at, latest.text);
    MessagesAreSpoken(Trim(sent, latest.text), rows, Before(rows, at, latest.text));
    assert Says(WithLatest(LoadHistory(rows, limit, ThreadOf(models, i)), latest), at, rows, models, i, limit, latest);
  }

  lemma {:induction false} TrimmedAreAt(sent: seq<Row>, rows: seq<Row>, at: seq<nat>, text: string)
    requires AreAt(sent, rows, at)
    ensures AreAt(Trim(sent, text), rows, Before(rows, at, text))
    ensures forall r :: r in Trim(sent, text) ==> r in sent
  {
    var n := |sent|;
    assert forall r :: r in sent[..if n > 0 then n - 1 else 0] ==> r in sent;
  }

  /** The rows a prompt should be made of are picked in the same way, from the log before the
      current message. */
  lemma {:induction false} RightRowsArePicked(before: seq<Row>, models: seq<string>, i: nat, limit: nat)
    requires i < |models| && limit > 0
    ensures exists at :: Picks(at, before, models, i, limit - 1) && AreAt(RightRows(before, limit, ThreadOf(models, i)), before, at)
  {
    var at := HistoryIsPicked(before, models, i, limit - 1);
    assert Picks(at, before, models, i, limit - 1) && AreAt(RightRows(before, limit, ThreadOf(models, i)), before, at);
  }

  /** The rows that have come in by the time of the first n queries. */
  function Arrived(late: seq<seq<Row>>, n: nat): seq<Row>
    requires n <= |late|
  {
    if n == 0 then [] else Arrived(late, n - 1) + late[n - 1]
  }

  /** What the models are sent. */
  function PromptsOf(rows: seq<Row>, late: seq<seq<Row>>, models: seq<string>, limit: nat, latest: ChatMessage): (prompts: seq<seq<ChatMessage>>)
    requires |late| == |models|
    ensures |prompts| == |models|
    ensures forall i :: 0 <= i < |models| ==> prompts[i] == PromptAt(rows, late, models, limit, latest, i)
  {
    seq(|models|, i requires 0 <= i < |models| => PromptAt(rows, late, models, limit, latest, i))
  }

  function PromptAt(rows: seq<Row>, late: seq<seq<Row>>, models: seq<string>, limit: nat, latest: ChatMessage, i: nat): seq<ChatMessage>
    requires i < |late| == |models|
  {
    WithLatest(LoadHistory(rows + Arrived(late, i + 1), limit, ThreadOf(models, i)), latest)
  }

  ghost predicate Prompted(prompts: seq<seq<ChatMessage>>, rows: seq<Row>, late: seq<seq<Row>>, models: seq<string>, limit: nat, latest: ChatMessage, n: nat)
    requires n <= |late| == |models|
  {
    |prompts| == n && forall j :: 0 <= j < n ==> prompts[j] == PromptAt(rows, late, models, limit, latest, j)
  }

  lemma {:induction false} OneMorePrompt(prompts: seq<seq<ChatMessage>>, rows: seq<Row>, late: seq<seq<Row>>, models: seq<string>, limit: nat, latest: ChatMessage,
                                         n: nat, history: seq<ChatMessage>)
    requires n < |late| == |models| && Prompted(prompts, rows, late, models, limit, latest, n)
    requires history == WithLatest(LoadHistory(rows + Arrived(late, n + 1), limit, ThreadOf(models, n)), latest)
    ensures Prompted(prompts + [history], rows, late, models, limit, latest, n + 1)
  {
    assert history == PromptAt(rows, late, models, limit, latest, n);
  }

  lemma {:induction false} AllPrompted(prompts: seq<seq<ChatMessage>>, rows: seq<Row>, late: seq<seq<Row>>, models: seq<string>, limit: nat, latest: ChatMessage)
    requires |late| == |models| && Prompted(prompts, rows, late, models, limit, latest, |models|)
    ensures prompts == PromptsOf(rows, late, models, limit, latest)
  {
  }

  class ChatTable {
    var rows: seq<Row>

    ghost predicate Valid()
      reads this
    {
      ValidLog(rows)
    }

    constructor ()
      ensures Valid() && rows == []
    {
      rows := [];
    }

    /** truncate_from */
    method TruncateFrom(target: Row, ghost k: nat) returns (removed: nat)
      requires Valid() && k < |rows| && rows[k] == target
      modifies this
      ensures Valid() && rows == old(rows)[..k] && removed == |old(rows)| - k
    {
      TruncationIsPrefix(rows, k);
      PrefixIsValid(rows, k);
      var before := |rows|;
      rows := DeleteIds(rows, Victims(rows, target.at, false));
      removed := before - |rows|;
    }

    /** last_user_message */
    method LastUserMessage() returns (message: Option<Row>, ghost k: nat)
      ensures message.Some? ==> IsLastUser(rows, k) && rows[k] == message.value
      ensures message.None? ==> forall r :: r in rows ==> r.role == Assistant
    {
      message, k := None, 0;
      var i := |rows|;
      while i > 0
        invariant 0 <= i <= |rows|
        invariant forall j :: i <= j < |rows| ==> rows[j].role == Assistant
      {
        i := i - 1;
        if rows[i].role == User {
          return Some(rows[i]), i;
        }
      }
    }

    /** delete_replies_after */
    method DeleteRepliesAfter(message: Row, ghost k: nat) returns (removed: nat)
      requires Valid() && IsLastUser(rows, k) && rows[k] == message
      modifies this
      ensures Valid() && rows == old(rows)[..k + 1] && removed == |old(rows)| - (k + 1)
    {
      RegenerateIsPrefix(rows, k);
      PrefixIsValid(rows, k + 1);
      var before := |rows|;
      rows := DeleteIds(rows, Victims(rows, message.at, true));
      removed := before - |rows|;
    }

    method FindUserMessage(id: nat) returns (message: Option<Row>, ghost k: nat)
      requires Valid()
      ensures message.Some? ==> IsUserMessage(rows, k, id) && rows[k] == message.value
      ensures message.None? ==> forall r :: r in rows && r.id == id ==> r.role == Assistant
    {
      message, k := None, 0;
      for i := 0 to |rows|
        invariant forall j :: 0 <= j < i ==> rows[j].id != id
      {
        if rows[i].id == id {
          if rows[i].role == User {
            return Some(rows[i]), i;
          }
          return None, i;
        }
      }
    }

    method Rewind() returns (r: Result<Row, TurnError>)
      requires Valid()
      modifies this
      ensures Valid()
      ensures match LastUser(old(rows))
              case None => r == Err(NothingToRegenerate) && rows == old(rows)
              case Some(k) => k < |old(rows)| && r == Ok(old(rows)[k]) && rows == old(rows)[..k + 1]
    {
      var message, k := LastUserMessage();
      LastUserIs(rows);
      if message.None? {
        return Err(NothingToRegenerate);
      }
      var _ := DeleteRepliesAfter(message.value, k);
      return Ok(message.value);
    }

    method CutFrom(target: nat) returns (r: Result<(), TurnError>)
      requires Valid()
      modifies this
      ensures Valid()
      ensures match FindUser(old(rows), target)
              case None => r == Err(BadEdit) && rows == old(rows)
              case Some(k) => k < |old(rows)| && r == Ok(()) && rows == old(rows)[..k]
    {
      var message, k := FindUserMessage(target);
      if FindUser(rows, target).None? {
        FindUserFinds(rows, target);
      }
      if message.None? {
        return Err(BadEdit);
      }
      var _ := TruncateFrom(message.value, k);
      return Ok(());
    }

    /** Step 2 of run_turn: the log becomes what Step2 says and stays ordered, with every
        reply under a surviving earlier message; a refusal leaves it as it was. */
    method BeginTurn(request: Request, id: nat, now: int) returns (r: Result<Row, TurnError>)
      requires Valid() && forall x :: x in rows ==> x.at < now && x.id != id
      modifies this
      ensures Valid()
      ensures r.Err? ==> rows == old(rows) && Step2(old(rows), request, id, now) == Err(r.error)
      ensures r.Ok? ==> rows != [] && r.value == rows[|rows| - 1] && Step2(old(rows), request, id, now) == Ok(rows)
    {
      if request.RegenerateReply? {
        r := Rewind();
        return;
      }
      if request.EditMessage? {
        var cut := CutFrom(request.target);
        if cut.Err? {
          return Err(cut.error);
        }
      }
      var message := Row(id, User, request.text, None, None, Names(request.uploads), now);
      assert forall x :: x in rows ==> x in old(rows);
      AppendIsValid(rows, message);
      rows := rows + [message];
      return Ok(message);
    }

    /** The history of one model, edited in place. */
    method PromptFor(limit: nat, model: Option<string>, latest: ChatMessage) returns (history: seq<ChatMessage>)
      ensures history == WithLatest(LoadHistory(rows, limit, model), latest)
    {
      history := LoadHistory(rows, limit, model);
      var n := |history|;
      if n > 0 && history[n - 1].role == USER && history[n - 1].text == latest.text {
        history := history[n - 1 := latest];
      } else {
        history := history + [latest];
      }
    }

    /** The prompt of every model of the turn, after BeginTurn: in arena each continues its
        own thread. late[i] are the rows other sessions commit before the query for model
        i. */
    method Prompts(models: seq<string>, late: seq<seq<Row>>, limit: nat, latest: ChatMessage) returns (prompts: seq<seq<ChatMessage>>)
      requires |late| == |models|
      modifies this
      ensures rows == old(rows) + Arrived(late, |late|)
      ensures prompts == PromptsOf(old(rows), late, models, limit, latest)
    {
      prompts := [];
      for i := 0 to |models|
        invariant rows == old(rows) + Arrived(late, i)
        invariant Prompted(prompts, old(rows), late, models, limit, latest, i)
      {
        rows := rows + late[i];
        assert rows == old(rows) + Arrived(late, i + 1);
        var history := PromptFor(limit, ThreadOf(models, i), latest);
        OneMorePrompt(prompts, old(rows), late, models, limit, latest, i, history);
        prompts := prompts + [history];
      }
      AllPrompted(prompts, old(rows), late, models, limit, latest);
    }

    /** The insert of _record_reply: the foreign key refuses a reply whose user message is
        gone, so a reply that is stored answers a surviving earlier message. */
    method AddReply(id: nat, parent: nat, model: string, content: string, now: int) returns (stored: bool)
      requires Valid() && forall x :: x in rows ==> x.at < now && x.id != id
      requires forall x :: x in rows && x.id == parent ==> x.role == User
      modifies this
      ensures Valid()
      ensures stored <==> exists x :: x in old(rows) && x.id == parent
      ensures rows == if stored then old(rows) + [Row(id, Assistant, content, Some(model), Some(parent), [], now)] else old(rows)
    {
      var reply := Row(id, Assistant, content, Some(model), Some(parent), [], now);
      for i := 0 to |rows|
        invariant forall j :: 0 <= j < i ==> rows[j].id != parent
        invariant rows == old(rows)
      {
        if rows[i].id == parent {
          AppendIsValid(rows, reply);
          rows := rows + [reply];
          return true;
        }
      }
      return false;
    }
  }
}
