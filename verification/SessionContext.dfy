/** The in-memory context of a session and its stored rows, updated step by step.

    A registration writes the durable row first and then the index, the child lists and
    the cached path. `Valid` says that all of these are what the stored rows say. */
module SessionContext {
  import opened Basics
  import opened Transcript
  import opened CallResults
  import opened ResolvedReturns
  import opened SessionRows
  import opened SessionTree

  datatype Registered = Registered(row: Row) | UnknownParent | NotAReplyTarget | DuplicateId

  /** `path` reversed. */
  function Reversed(path: seq<Row>): seq<Row> {
    if path == [] then [] else Reversed(path[1..]) + [path[0]]
  }

  lemma {:induction false} ReversedSnoc(path: seq<Row>, row: Row)
    ensures Reversed(path + [row]) == [row] + Reversed(path)
  {
    if path != [] {
      assert (path + [row])[1..] == path[1..] + [row];
      ReversedSnoc(path[1..], row);
    }
  }

  method Change(row: Row, content: Option<string>, segments: Option<seq<Segment>>, messages: Option<seq<Message>>)
    returns (record: Row)
    ensures record == Updated(row, content, segments, messages) && SamePlace(row, record)
  {
    record := row;
    if content.Some? {
      record := record.(content := content.value);
    }
    if segments.Some? {
      record := record.(segments := segments.value);
    }
    if messages.Some? {
      record := record.(messages := messages);
    }
  }

  /** One message of `repair_stale_tools_in_context`, and whether it changed. */
  method RepairRecord(record: Row, keep: set<CallId>) returns (updated: Row, found: bool)
    ensures updated == RepairRow(record, keep) && (found <==> NeedsRepair(record, keep))
  {
    updated, found := record, false;
    if record.role == Assistant && record.segments != [] {
      var segments, ids := RepairSegments(record.segments, keep);
      if ids != [] {
        updated := record.(segments := segments,
                           messages := if record.messages.None? then None
                                       else Some(WithResolvedReturns(record.messages.value, segments)));
        found := true;
      }
    }
  }

  class Context {
    /** The session's message rows in the database, in creation order. */
    var stored: seq<Row>
    var messageIndex: map<MessageId, Row>
    /** The keys of `messageIndex` in insertion order, as its iteration yields them. */
    var order: seq<MessageId>
    var childrenByParent: map<Parent, seq<MessageId>>
    var messageCount: nat
    var cachedPath: seq<Row>
    var activeLeaf: Parent

    ghost predicate Indexes(rows: seq<Row>)
      reads this
    {
      && Tree(rows)
      && messageIndex == IndexOf(rows) && order == OrderOf(rows) && messageCount == |order|
      && childrenByParent == ChildMap(rows)
    }

    /** Everything in memory is what the stored rows say. */
    ghost predicate Valid()
      reads this
    {
      && Indexes(stored)
      && activeLeaf == ActiveLeaf(stored)
      && cachedPath == Path(stored, activeLeaf)
    }

    constructor ()
      ensures Valid() && stored == []
    {
      stored, messageIndex, order, childrenByParent := [], map[], [], map[];
      messageCount, cachedPath, activeLeaf := 0, [], None;
    }

    /** `_context_from_loaded`: the rows added in creation order, then the newest leaf and its
        path. The context is the one the rows were saved from exactly when no earlier leaf
        has a stamp as new as the last message's. */
    constructor Load(rows: seq<Row>)
      requires Tree(rows)
      ensures stored == rows && Indexes(rows) && cachedPath == Path(rows, activeLeaf)
      ensures Valid() <==> LastIsNewest(rows)
    {
      stored, messageIndex, order, childrenByParent := rows, map[], [], map[];
      messageCount, cachedPath, activeLeaf := 0, [], None;
      new;
      for i := 0 to |rows|
        invariant stored == rows && Indexes(rows[..i])
      {
        TreePrefix(rows, i);
        AddMessage(rows[i], rows[..i]);
      }
      assert rows[..|rows|] == rows;
      ActivateNewest(rows);
    }

    method ActivateNewest(rows: seq<Row>)
      requires Indexes(rows)
      modifies `activeLeaf, `cachedPath
      ensures cachedPath == Path(rows, activeLeaf)
      ensures activeLeaf == ActiveLeaf(rows) <==> LastIsNewest(rows)
    {
      activeLeaf := LatestLeafId(rows);
      if activeLeaf.Some? {
        ghost var i: nat :| IsLatestLeaf(rows, i) && rows[i].id == activeLeaf.value;
        NewestLeafIsLast(rows, i);
        RowAt(rows, i);
      }
      var path := ResolvePath(activeLeaf, rows);
      cachedPath := path.value;
    }

    method AddMessage(record: Row, ghost rows: seq<Row>)
      requires Indexes(rows) && Placed(rows, record)
      modifies `messageIndex, `order, `childrenByParent, `messageCount
      ensures Indexes(rows + [record])
    {
      messageIndex := messageIndex[record.id := record];
      order := order + [record.id];
      var siblings := if record.parent in childrenByParent then childrenByParent[record.parent] else [];
      childrenByParent := childrenByParent[record.parent := siblings + [record.id]];
      if Some(record.id) !in childrenByParent {
        childrenByParent := childrenByParent[Some(record.id) := []];
      }
      messageCount := |order|;
      TreeAppend(rows, record);
      ContextAppend(rows, record);
    }

    /** The root-to-leaf rows for `leaf`, by walking the parent links; nothing when a
        message on the way is missing. */
    method ResolvePath(leaf: Parent, ghost rows: seq<Row>) returns (path: Option<seq<Row>>)
      requires Indexes(rows)
      ensures path == if leaf.Some? && !HasRow(rows, leaf.value) then None else Some(Path(rows, leaf))
    {
      ContextIsExact(rows);
      var walked: seq<Row> := [];
      var current := leaf;
      while current.Some?
        invariant Walked(rows, leaf, current, walked)
        decreases |Path(rows, current)|, current.Some?
      {
        if current.value !in messageIndex {
          return None;
        }
        var message := messageIndex[current.value];
        WalkStep(rows, leaf, current, walked, message);
        walked := walked + [message];
        current := message.parent;
      }
      WalkEnds(rows, leaf, walked);
      path := Some(Reversed(walked));
    }

    method RefreshCachedPathForNewLeaf(record: Row, ghost rows: seq<Row>)
      requires Indexes(rows + [record])
      requires activeLeaf == ActiveLeaf(rows) && cachedPath == Path(rows, activeLeaf)
      modifies `cachedPath, `activeLeaf
      ensures activeLeaf == ActiveLeaf(rows + [record]) && cachedPath == Path(rows + [record], activeLeaf)
    {
      TreeAppend(rows, record);
      PathAppend(rows, record, record.parent);
      if activeLeaf == record.parent || (activeLeaf.None? && record.parent.None?) {
        cachedPath := cachedPath + [record];
      } else {
        if record.parent.Some? {
          HasRowAppend(rows, record, record.parent.value);
        }
        var path := ResolvePath(record.parent, rows + [record]);
        cachedPath := path.value + [record];
      }
      activeLeaf := Some(record.id);
    }

    /** What every registration ends with: the durable row, then the cache. */
    method Publish(record: Row)
      requires Valid() && Placed(stored, record)
      modifies this
      ensures Valid() && stored == old(stored) + [record]
    {
      ghost var rows := stored;
      stored := stored + [record];
      TreeAppend(rows, record);
      AddMessage(record, rows);
      RefreshCachedPathForNewLeaf(record, rows);
    }

    /** The most recently created message without children. */
    method LatestLeafId(ghost rows: seq<Row>) returns (leaf: Parent)
      requires Indexes(rows)
      ensures leaf.None? <==> rows == []
      ensures leaf.Some? ==> exists i: nat :: IsLatestLeaf(rows, i) && rows[i].id == leaf.value
    {
      ContextIsExact(rows);
      var latest: Option<Row> := None;
      ghost var at: nat := 0;
      for i := 0 to |order|
        invariant if latest.Some? then NewestAmong(rows, i, at) && latest.value == rows[at] else NoLeafAmong(rows, i)
      {
        RowAt(rows, i);
        NewestNext(rows, i, at);
        var message := messageIndex[order[i]];
        if Some(message.id) in childrenByParent && childrenByParent[Some(message.id)] != [] {
          continue;
        }
        if latest.None? || message.createdAt > latest.value.createdAt {
          latest := Some(message);
          at := i;
        }
      }
      if rows != [] {
        LastIsLeaf(rows);
      }
      leaf := if latest.Some? then Some(latest.value.id) else None;
    }

    /** A user message: the root of an empty session, otherwise the continuation of the
        active leaf, or a branch from the message it names. */
    method RegisterUser(id: MessageId, parentId: Parent, content: string, prompt: seq<Message>, createdAt: nat)
      returns (r: Registered)
      requires Valid()
      modifies this
      ensures Valid()
      ensures r.UnknownParent? <==> parentId.Some? && !HasRow(old(stored), parentId.value)
      ensures r.DuplicateId? <==> !r.UnknownParent? && HasRow(old(stored), id)
      ensures r.Registered? <==> !r.UnknownParent? && !r.DuplicateId?
      ensures r.Registered? ==>
                && stored == old(stored) + [r.row]
                && r.row == Row(id, if parentId.Some? then parentId else ActiveLeaf(old(stored)), Role.User, content, [], Some(prompt), createdAt)
      ensures !r.Registered? ==> unchanged(this)
    {
      ContextIsExact(stored);
      var parent := parentId;
      if parentId.None? {
        if messageCount > 0 {
          parent := activeLeaf;
          if parent.None? {
            parent := LatestLeafId(stored);
          }
        }
      } else if parentId.value !in messageIndex {
        return UnknownParent;
      }
      if id in messageIndex {
        return DuplicateId;
      }
      var record := Row(id, parent, Role.User, content, [], Some(prompt), createdAt);
      LeafIsStored(stored);
      Publish(record);
      r := Registered(record);
    }

    /** A reply, which must answer a user or host message. */
    method RegisterAssistant(id: MessageId, parentId: MessageId, content: string, segments: seq<Segment>,
                             messages: Option<seq<Message>>, createdAt: nat) returns (r: Registered)
      requires Valid()
      modifies this
      ensures Valid()
      ensures r.UnknownParent? <==> !HasRow(old(stored), parentId)
      ensures r.NotAReplyTarget? <==> !r.UnknownParent? && RowOf(old(stored), parentId).value.role == Assistant
      ensures r.DuplicateId? <==> !r.UnknownParent? && !r.NotAReplyTarget? && HasRow(old(stored), id)
      ensures r.Registered? ==>
                && stored == old(stored) + [r.row]
                && r.row == Row(id, Some(parentId), Assistant, content, segments, messages, createdAt)
      ensures !r.Registered? ==> unchanged(this)
    {
      ContextIsExact(stored);
      if parentId !in messageIndex {
        return UnknownParent;
      }
      if messageIndex[parentId].role !in {Role.User, Role.Host} {
        return NotAReplyTarget;
      }
      if id in messageIndex {
        return DuplicateId;
      }
      var record := Row(id, Some(parentId), Assistant, content, segments, messages, createdAt);
      Publish(record);
      r := Registered(record);
    }

    /** A message the host wrote, appended at the active leaf. */
    method RegisterHost(id: MessageId, content: string, segments: seq<Segment>, createdAt: nat) returns (r: Registered)
      requires Valid()
      modifies this
      ensures Valid()
      ensures r.DuplicateId? <==> HasRow(old(stored), id)
      ensures r.Registered? <==> !r.DuplicateId?
      ensures r.Registered? ==>
                && stored == old(stored) + [r.row]
                && r.row == Row(id, ActiveLeaf(old(stored)), Role.Host, content, segments, None, createdAt)
      ensures !r.Registered? ==> unchanged(this)
    {
      ContextIsExact(stored);
      if id in messageIndex {
        return DuplicateId;
      }
      var parent: Parent := None;
      if messageCount > 0 {
        parent := activeLeaf;
        if parent.None? {
          parent := LatestLeafId(stored);
        }
      }
      var record := Row(id, parent, Role.Host, content, segments, None, createdAt);
      LeafIsStored(stored);
      Publish(record);
      r := Registered(record);
    }

    /** New content for a stored message, which keeps its place; nothing when it is unknown. */
    method UpdateMessage(id: MessageId, content: Option<string>, segments: Option<seq<Segment>>, messages: Option<seq<Message>>)
      returns (r: Option<Row>)
      requires Valid()
      modifies this
      ensures Valid()
      ensures r.None? <==> !HasRow(old(stored), id)
      ensures r.Some? ==> stored == Replace(old(stored), r.value) && r.value == Updated(RowOf(old(stored), id).value, content, segments, messages)
      ensures r.Some? ==>
                var row := RowOf(old(stored), id).value;
                && r.value.content == (if content.Some? then content.value else row.content)
                && r.value.segments == (if segments.Some? then segments.value else row.segments)
                && r.value.messages == (if messages.Some? then messages else row.messages)
      ensures r.None? ==> unchanged(this)
    {
      IndexHas(stored, id);
      if id !in messageIndex {
        return None;
      }
      var record := Change(messageIndex[id], content, segments, messages);
      StoreChanged(record);
      r := Some(record);
    }

    /** A changed message goes to the row, the index and the cached path. */
    method StoreChanged(record: Row)
      requires Valid() && record.id in messageIndex && SamePlace(messageIndex[record.id], record)
      modifies this
      ensures Valid() && stored == Replace(old(stored), record)
    {
      ghost var rows', path' := ReplaceInContext(stored, record, activeLeaf);
      Store(record, rows', path');
    }

    /** Every unanswered call outside `keep` marked unknown, in memory, then in the rows. */
    method RepairStaleTools(keep: set<CallId>) returns (repaired: seq<MessageId>)
      requires Valid()
      modifies this
      ensures Valid() && stored == RepairRows(old(stored), keep)
      ensures repaired == RepairedIds(old(stored), keep)
    {
      ghost var rows;
      repaired, rows := RepairIndex(keep, stored);
      RepairedAll(stored, keep);
      if repaired != [] {
        StoreRepaired(RepairRows(stored, keep));
      }
    }

    method RepairIndex(keep: set<CallId>, ghost rows: seq<Row>) returns (repaired: seq<MessageId>, ghost rows': seq<Row>)
      requires Indexes(rows)
      modifies `messageIndex
      ensures rows' == RepairedUpTo(rows, keep, |rows|) && Indexes(rows')
      ensures repaired == RepairedIds(rows, keep) && (repaired == [] ==> rows' == rows)
    {
      rows', repaired := rows, [];
      OrderLength(rows);
      assert rows[..|rows|] == rows;
      for i := 0 to |order|
        invariant rows' == RepairedUpTo(rows, keep, i) && Indexes(rows')
        invariant repaired == RepairedIds(rows[..i], keep) && (repaired == [] ==> rows' == rows)
      {
        var found;
        found, rows' := RepairMessage(i, keep, rows);
        RepairedIdsNext(rows, keep, i);
        repaired := repaired + found;
      }
    }

    method RepairMessage(i: nat, keep: set<CallId>, ghost rows: seq<Row>) returns (repaired: seq<MessageId>, ghost after: seq<Row>)
      requires Tree(rows) && i < |rows| && Indexes(RepairedUpTo(rows, keep, i))
      modifies `messageIndex
      ensures after == RepairedUpTo(rows, keep, i + 1) && Indexes(after)
      ensures repaired == if NeedsRepair(rows[i], keep) then [rows[i].id] else []
      ensures repaired == [] ==> after == RepairedUpTo(rows, keep, i)
    {
      RepairedIndexAt(rows, keep, i);
      var record, found := RepairRecord(messageIndex[order[i]], keep);
      ghost var before;
      before, after := RepairStep(rows, keep, i, record);
      repaired := [];
      if found {
        messageIndex := messageIndex[record.id := record];
        repaired := [record.id];
      }
    }

    /** The repaired rows are stored, and the path is resolved again. */
    method StoreRepaired(rows: seq<Row>)
      requires Indexes(rows) && activeLeaf == ActiveLeaf(rows)
      modifies `stored, `cachedPath
      ensures Valid() && stored == rows
    {
      stored := rows;
      LeafIsStored(rows);
      var path := ResolvePath(activeLeaf, rows);
      cachedPath := path.value;
    }

    /** The end of an update: the durable row, then the cache. */
    method Store(record: Row, ghost rows': seq<Row>, ghost path': seq<Row>)
      requires Indexes(stored) && rows' == Replace(stored, record) && path' == Replace(cachedPath, record)
      requires Tree(rows') && IndexOf(rows') == IndexOf(stored)[record.id := record]
      requires OrderOf(rows') == OrderOf(stored) && ChildMap(rows') == ChildMap(stored)
      modifies `stored, `messageIndex, `cachedPath
      ensures stored == rows' && Indexes(rows') && cachedPath == path'
    {
      stored := Replace(stored, record);
      messageIndex := messageIndex[record.id := record];
      cachedPath := Replace(cachedPath, record);
    }
  }

  /** How far a walk up the parent links has come, if it can start at all. */
  predicate Walked(rows: seq<Row>, leaf: Parent, current: Parent, walked: seq<Row>) {
    if leaf.Some? && !HasRow(rows, leaf.value) then current == leaf
    else (current.Some? ==> HasRow(rows, current.value)) && Path(rows, leaf) == Path(rows, current) + Reversed(walked)
  }

  lemma WalkStep(rows: seq<Row>, leaf: Parent, current: Parent, walked: seq<Row>, message: Row)
    requires Tree(rows) && Walked(rows, leaf, current, walked)
    requires current.Some? && RowOf(rows, current.value) == Some(message)
    ensures Walked(rows, leaf, message.parent, walked + [message])
    ensures |Path(rows, message.parent)| < |Path(rows, current)|
  {
    PathStep(rows, current.value);
    assert Path(rows, current) == Path(rows, message.parent) + [message];
    ReversedSnoc(walked, message);
    ConcatAssoc(Path(rows, message.parent), [message], Reversed(walked));
  }

  lemma WalkEnds(rows: seq<Row>, leaf: Parent, walked: seq<Row>)
    requires Walked(rows, leaf, None, walked)
    ensures leaf.Some? ==> HasRow(rows, leaf.value)
    ensures Path(rows, leaf) == Reversed(walked)
  {
    assert Path(rows, None) == [];
    assert [] + Reversed(walked) == Reversed(walked);
  }

  function Updated(row: Row, content: Option<string>, segments: Option<seq<Segment>>, messages: Option<seq<Message>>): Row {
    row.(content := if content.Some? then content.value else row.content,
         segments := if segments.Some? then segments.value else row.segments,
         messages := if messages.Some? then messages else row.messages)
  }
}
