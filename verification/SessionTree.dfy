/** The conversation tree of one session: its stored rows, and the in-memory context over them.

    Rows are kept in insertion order. The context indexes them by id and by parent and
    caches the path from the root to the active leaf; the specification functions read
    the same things off the rows alone. */
module SessionTree {
  import opened Basics
  import opened Transcript
  import opened SessionRows

  type Parent = Option<MessageId>

  // ---------------------------------------------------------------- the tree in the rows

  /** Where a row may go after `before`: the first one is the root, any other continues from
      a row already there, and a reply only from a user or host message. */
  predicate Placed(before: seq<Row>, row: Row) {
    && !HasRow(before, row.id)
    && (row.parent.None? <==> before == [])
    && (row.parent.Some? ==> HasRow(before, row.parent.value))
    && (row.role == Assistant ==> row.parent.Some? && RowOf(before, row.parent.value).value.role != Assistant)
  }

  predicate Tree(rows: seq<Row>) {
    rows == [] || (Tree(rows[..|rows| - 1]) && Placed(rows[..|rows| - 1], rows[|rows| - 1]))
  }

  /** The walk from the root to `p`. */
  function Path(rows: seq<Row>, p: Parent): seq<Row> {
    if p.None? || rows == [] then []
    else
      var row := rows[|rows| - 1];
      if row.id == p.value then Path(rows[..|rows| - 1], row.parent) + [row] else Path(rows[..|rows| - 1], p)
  }

  /** The ids of the rows that continue from `p`, in insertion order. */
  function Children(rows: seq<Row>, p: Parent): seq<MessageId> {
    if rows == [] then []
    else
      var row := rows[|rows| - 1];
      Children(rows[..|rows| - 1], p) + (if row.parent == p then [row.id] else [])
  }

  function ActiveLeaf(rows: seq<Row>): Parent {
    if rows == [] then None else Some(rows[|rows| - 1].id)
  }

  predicate IsLeaf(rows: seq<Row>, row: Row) { Children(rows, Some(row.id)) == [] }

  predicate NoLeafAmong(rows: seq<Row>, n: nat) {
    n <= |rows| && forall j :: 0 <= j < n ==> !IsLeaf(rows, rows[j])
  }

  /** The row at `i` is the newest childless one of the first `n`, the first of them when
      stamps are equal. */
  predicate NewestAmong(rows: seq<Row>, n: nat, i: nat) {
    && i < n <= |rows| && IsLeaf(rows, rows[i])
    && forall j :: 0 <= j < n && IsLeaf(rows, rows[j]) ==>
         if j < i then rows[j].createdAt < rows[i].createdAt else rows[j].createdAt <= rows[i].createdAt
  }

  predicate IsLatestLeaf(rows: seq<Row>, i: nat) { NewestAmong(rows, |rows|, i) }

  /** No earlier childless row has a stamp as new as the last row's. */
  predicate LastIsNewest(rows: seq<Row>) {
    forall j :: 0 <= j < |rows| - 1 && IsLeaf(rows, rows[j]) ==> rows[j].createdAt < rows[|rows| - 1].createdAt
  }

  // ---------------------------------------------------------------- facts about rows

  lemma HasRowAppend(rows: seq<Row>, row: Row, id: MessageId)
    ensures HasRow(rows + [row], id) <==> HasRow(rows, id) || row.id == id
    ensures row.id != id ==> RowOf(rows + [row], id) == RowOf(rows, id)
    ensures row.id == id ==> RowOf(rows + [row], id) == Some(row)
  {
    var r := rows + [row];
    assert r[..|r| - 1] == rows;
    if HasRow(rows, id) {
      var i :| 0 <= i < |rows| && rows[i].id == id;
      assert r[i].id == id;
    }
    if row.id == id {
      assert r[|rows|].id == id;
    }
    if HasRow(r, id) && row.id != id {
      var i :| 0 <= i < |r| && r[i].id == id;
      assert rows[i].id == id;
    }
  }

  lemma TreeAppend(rows: seq<Row>, row: Row)
    ensures Tree(rows + [row]) <==> Tree(rows) && Placed(rows, row)
  {
    assert (rows + [row])[..|rows + [row]| - 1] == rows;
  }

  lemma FrontRow(rows: seq<Row>, id: MessageId)
    requires rows != []
    ensures HasRow(rows, id) <==> HasRow(rows[..|rows| - 1], id) || rows[|rows| - 1].id == id
    ensures rows[|rows| - 1].id != id ==> RowOf(rows, id) == RowOf(rows[..|rows| - 1], id)
    ensures rows[|rows| - 1].id == id ==> RowOf(rows, id) == Some(rows[|rows| - 1])
  {
    var front := rows[..|rows| - 1];
    assert rows == front + [rows[|rows| - 1]];
    HasRowAppend(front, rows[|rows| - 1], id);
  }

  lemma {:induction false} TreeIds(rows: seq<Row>)
    requires Tree(rows)
    ensures forall i, j :: 0 <= i < j < |rows| ==> rows[i].id != rows[j].id
  {
    if rows != [] {
      var front := rows[..|rows| - 1];
      TreeIds(front);
      forall i, j | 0 <= i < j < |rows| ensures rows[i].id != rows[j].id {
        if j == |rows| - 1 {
          assert front[i].id == rows[i].id;
        } else {
          assert front[i].id != front[j].id;
        }
      }
    }
  }

  /** One step of a parent walk: a row's path is its parent's path and the row. */
  lemma {:induction false} PathStep(rows: seq<Row>, id: MessageId)
    requires Tree(rows) && HasRow(rows, id)
    ensures var row := RowOf(rows, id).value;
            && Path(rows, Some(id)) == Path(rows, row.parent) + [row]
            && (row.parent.Some? ==> HasRow(rows, row.parent.value))
  {
    var front, last := rows[..|rows| - 1], rows[|rows| - 1];
    FrontRow(rows, id);
    if last.id == id {
      if last.parent.Some? {
        FrontRow(rows, last.parent.value);
      }
    } else {
      PathStep(front, id);
      var row := RowOf(rows, id).value;
      if row.parent.Some? {
        FrontRow(rows, row.parent.value);
      }
    }
  }

  lemma PathAppend(rows: seq<Row>, row: Row, p: Parent)
    requires Tree(rows + [row]) && (p.Some? ==> HasRow(rows, p.value))
    ensures Path(rows + [row], p) == Path(rows, p)
    ensures Path(rows + [row], Some(row.id)) == Path(rows, row.parent) + [row]
  {
    TreeAppend(rows, row);
    assert (rows + [row])[..|rows + [row]| - 1] == rows;
  }

  /** `path` goes from the root `rows[0]` down to `id`, one parent link at a time. */
  ghost predicate IsWalk(rows: seq<Row>, path: seq<Row>, id: MessageId) {
    && path != [] && rows != [] && path[0] == rows[0] && path[0].parent.None? && path[|path| - 1].id == id
    && (forall i :: 0 <= i < |path| ==> path[i] in rows)
    && (forall i :: 0 < i < |path| ==>
          path[i].parent == Some(path[i - 1].id) && !(path[i].role == Assistant && path[i - 1].role == Assistant))
  }

  /** Every parent walk ends at the one root, within as many steps as there are messages, and
      never passes from a reply directly to a reply. */
  lemma {:induction false} PathIsWalk(rows: seq<Row>, id: MessageId)
    requires Tree(rows) && HasRow(rows, id)
    ensures IsWalk(rows, Path(rows, Some(id)), id) && |Path(rows, Some(id))| <= |rows|
    decreases |rows|
  {
    var front, last := rows[..|rows| - 1], rows[|rows| - 1];
    FrontRow(rows, id);
    if last.id != id {
      PathIsWalk(front, id);
    } else if last.parent.Some? {
      PathIsWalk(front, last.parent.value);
    }
    NextWalk(front, last, id);
    assert rows == front + [last];
  }

  lemma NextWalk(front: seq<Row>, last: Row, id: MessageId)
    requires Tree(front) && Placed(front, last)
    requires last.id != id ==> IsWalk(front, Path(front, Some(id)), id) && |Path(front, Some(id))| <= |front|
    requires last.id == id && last.parent.Some? ==> IsWalk(front, Path(front, last.parent), last.parent.value) && |Path(front, last.parent)| <= |front|
    ensures IsWalk(front + [last], Path(front + [last], Some(id)), id) && |Path(front + [last], Some(id))| <= |front| + 1
  {
    TreeAppend(front, last);
    PathAppend(front, last, None);
    if last.id != id {
      assert (front + [last])[..|front|] == front;
      WalkAppend(front, Path(front, Some(id)), last, id);
    } else {
      LastWalk(front, last);
    }
  }

  lemma LastWalk(front: seq<Row>, last: Row)
    requires Tree(front) && Placed(front, last)
    requires last.parent.Some? ==> IsWalk(front, Path(front, last.parent), last.parent.value)
    ensures IsWalk(front + [last], Path(front, last.parent) + [last], last.id)
  {
    if last.parent.Some? {
      WalkSnoc(front, Path(front, last.parent), last);
    } else {
      RootWalk(last);
      assert front + [last] == [last] && Path(front, last.parent) + [last] == [last];
    }
  }

  lemma RootWalk(root: Row)
    requires root.parent.None?
    ensures IsWalk([root], [root], root.id)
  {
    assert [root][0] in [root];
  }

  lemma WalkAppend(front: seq<Row>, path: seq<Row>, last: Row, id: MessageId)
    requires IsWalk(front, path, id)
    ensures IsWalk(front + [last], path, id)
  {
    assert (front + [last])[0] == front[0];
  }

  lemma WalkSnoc(front: seq<Row>, path: seq<Row>, last: Row)
    requires last.parent.Some? && IsWalk(front, path, last.parent.value) && HasRow(front, last.parent.value) && Tree(front)
    requires last.role == Assistant ==> RowOf(front, last.parent.value).value.role != Assistant
    ensures IsWalk(front + [last], path + [last], last.id)
  {
    var n := |path|;
    var walk := path + [last];
    var i :| 0 <= i < |front| && front[i] == path[n - 1];
    TreeIds(front);
    assert RowOf(front, last.parent.value).value == path[n - 1] by {
      var found := RowOf(front, last.parent.value).value;
      var j :| 0 <= j < |front| && front[j] == found;
      assert front[i].id == front[j].id;
    }
    forall k | 0 < k < |walk|
      ensures walk[k].parent == Some(walk[k - 1].id) && !(walk[k].role == Assistant && walk[k - 1].role == Assistant)
    {
      if k < n {
        assert walk[k] == path[k] && walk[k - 1] == path[k - 1];
      }
    }
  }

  lemma {:induction false} ChildrenMember(rows: seq<Row>, p: Parent, id: MessageId)
    requires Tree(rows)
    ensures id in Children(rows, p) <==> HasRow(rows, id) && RowOf(rows, id).value.parent == p
  {
    if rows != [] {
      var front := rows[..|rows| - 1];
      FrontRow(rows, id);
      ChildrenMember(front, p, id);
    }
  }

  lemma {:induction false} ChildrenDistinct(rows: seq<Row>, p: Parent)
    requires Tree(rows)
    ensures Distinct(Children(rows, p))
  {
    if rows != [] {
      var front, last := rows[..|rows| - 1], rows[|rows| - 1];
      ChildrenDistinct(front, p);
      ChildrenMember(front, p, last.id);
      DistinctSnoc(Children(front, p), last.id);
    }
  }

  lemma {:induction false} NoChildrenYet(rows: seq<Row>, id: MessageId)
    requires Tree(rows) && !HasRow(rows, id)
    ensures Children(rows, Some(id)) == []
  {
    if rows != [] {
      var front := rows[..|rows| - 1];
      FrontRow(rows, id);
      NoChildrenYet(front, id);
      assert rows[|rows| - 1].parent != Some(id);
    }
  }

  lemma {:induction false} OneRoot(rows: seq<Row>)
    requires Tree(rows) && rows != []
    ensures Children(rows, None) == [rows[0].id]
  {
    var front := rows[..|rows| - 1];
    if front != [] {
      OneRoot(front);
    } else {
      assert Children(front, None) == [];
    }
  }

  /** The child lists are the exact inverse of the parent links: every row is in its
      parent's list, once, and in no other; the only root is the first row. */
  lemma ChildrenInvertParents(rows: seq<Row>)
    requires Tree(rows)
    ensures forall p, id :: id in Children(rows, p) <==> HasRow(rows, id) && RowOf(rows, id).value.parent == p
    ensures forall p :: Distinct(Children(rows, p))
    ensures rows != [] ==> Children(rows, None) == [rows[0].id]
  {
    forall p, id ensures id in Children(rows, p) <==> HasRow(rows, id) && RowOf(rows, id).value.parent == p {
      ChildrenMember(rows, p, id);
    }
    forall p ensures Distinct(Children(rows, p)) {
      ChildrenDistinct(rows, p);
    }
    if rows != [] {
      OneRoot(rows);
    }
  }

  // ---------------------------------------------------------------- updates

  /** A replacement that stays where it is in the tree. */
  predicate SamePlace(row: Row, row': Row) {
    row'.id == row.id && row'.parent == row.parent && row'.role == row.role && row'.createdAt == row.createdAt
  }

  ghost predicate SamePlaces(rows: seq<Row>, rows': seq<Row>) {
    |rows'| == |rows| && forall i :: 0 <= i < |rows| ==> SamePlace(rows[i], rows'[i])
  }

  lemma SamePlacesFront(rows: seq<Row>, rows': seq<Row>)
    requires SamePlaces(rows, rows') && rows != []
    ensures SamePlaces(rows[..|rows| - 1], rows'[..|rows'| - 1])
  {
  }

  lemma {:induction false} SamePlacesRow(rows: seq<Row>, rows': seq<Row>, id: MessageId)
    requires SamePlaces(rows, rows')
    ensures HasRow(rows', id) <==> HasRow(rows, id)
    ensures HasRow(rows, id) ==> SamePlace(RowOf(rows, id).value, RowOf(rows', id).value)
  {
    if rows != [] {
      SamePlacesFront(rows, rows');
      SamePlacesRow(rows[..|rows| - 1], rows'[..|rows'| - 1], id);
      FrontRow(rows, id);
      FrontRow(rows', id);
    }
  }

  lemma {:induction false} SamePlacesTree(rows: seq<Row>, rows': seq<Row>)
    requires SamePlaces(rows, rows') && Tree(rows)
    ensures Tree(rows')
  {
    if rows != [] {
      var front, front' := rows[..|rows| - 1], rows'[..|rows'| - 1];
      SamePlacesFront(rows, rows');
      SamePlacesTree(front, front');
      var row' := rows'[|rows'| - 1];
      SamePlacesRow(front, front', row'.id);
      if row'.parent.Some? {
        SamePlacesRow(front, front', row'.parent.value);
      }
    }
  }

  lemma {:induction false} SamePlacesChildren(rows: seq<Row>, rows': seq<Row>, p: Parent)
    requires SamePlaces(rows, rows')
    ensures Children(rows', p) == Children(rows, p)
  {
    if rows != [] {
      SamePlacesFront(rows, rows');
      SamePlacesChildren(rows[..|rows| - 1], rows'[..|rows'| - 1], p);
    }
  }

  lemma {:induction false} PathReplace(rows: seq<Row>, row: Row, p: Parent)
    requires SamePlaces(rows, Replace(rows, row))
    ensures Path(Replace(rows, row), p) == Replace(Path(rows, p), row)
    decreases |rows|
  {
    if rows != [] && p.Some? {
      var front, last := rows[..|rows| - 1], rows[|rows| - 1];
      var r := Replace(rows, row);
      assert r[..|r| - 1] == Replace(front, row);
      SamePlacesFront(rows, r);
      if last.id == p.value {
        PathReplace(front, row, last.parent);
        ReplaceSnoc(Path(front, last.parent), last, row);
      } else {
        PathReplace(front, row, p);
      }
    }
  }

  lemma ReplaceSnoc(rows: seq<Row>, last: Row, row: Row)
    ensures Replace(rows + [last], row) == Replace(rows, row) + [if last.id == row.id then row else last]
  {
  }

  // ---------------------------------------------------------------- the newest leaf

  lemma LastIsLeaf(rows: seq<Row>)
    requires Tree(rows) && rows != []
    ensures IsLeaf(rows, rows[|rows| - 1])
  {
    var front, last := rows[..|rows| - 1], rows[|rows| - 1];
    NoChildrenYet(front, last.id);
    assert last.parent != Some(last.id);
  }

  lemma NewestNext(rows: seq<Row>, n: nat, i: nat)
    requires n < |rows|
    ensures !IsLeaf(rows, rows[n]) && NoLeafAmong(rows, n) ==> NoLeafAmong(rows, n + 1)
    ensures IsLeaf(rows, rows[n]) && NoLeafAmong(rows, n) ==> NewestAmong(rows, n + 1, n)
    ensures NewestAmong(rows, n, i) && IsLeaf(rows, rows[n]) && rows[n].createdAt > rows[i].createdAt ==> NewestAmong(rows, n + 1, n)
    ensures NewestAmong(rows, n, i) && (IsLeaf(rows, rows[n]) ==> rows[n].createdAt <= rows[i].createdAt) ==> NewestAmong(rows, n + 1, i)
  {
  }

  /** The newest leaf of a reload is the active leaf of the session it was saved from
      exactly when no earlier leaf has a stamp as new as the last message's. */
  lemma NewestLeafIsLast(rows: seq<Row>, i: nat)
    requires Tree(rows) && IsLatestLeaf(rows, i)
    ensures Some(rows[i].id) == ActiveLeaf(rows) <==> LastIsNewest(rows)
  {
    var n := |rows| - 1;
    LastIsLeaf(rows);
    TreeIds(rows);
    if Some(rows[i].id) == ActiveLeaf(rows) {
      assert rows[i].id == rows[n].id;
      assert i == n;
    }
  }

  /** Stamps that grow with insertion are enough. */
  lemma IncreasingStamps(rows: seq<Row>)
    requires forall i, j :: 0 <= i < j < |rows| ==> rows[i].createdAt < rows[j].createdAt
    ensures LastIsNewest(rows)
  {
  }

  // ---------------------------------------------------------------- a context over the rows

  lemma RowAt(rows: seq<Row>, i: nat)
    requires Tree(rows) && i < |rows|
    ensures HasRow(rows, rows[i].id) && RowOf(rows, rows[i].id) == Some(rows[i])
  {
    TreeIds(rows);
    assert HasRow(rows, rows[i].id);
    var row := RowOf(rows, rows[i].id).value;
    var j :| 0 <= j < |rows| && rows[j] == row;
    assert rows[j].id == rows[i].id;
  }

  /** The index, its insertion order and the child lists after every row was added in turn. */
  function IndexOf(rows: seq<Row>): map<MessageId, Row> {
    if rows == [] then map[]
    else IndexOf(rows[..|rows| - 1])[rows[|rows| - 1].id := rows[|rows| - 1]]
  }

  function OrderOf(rows: seq<Row>): seq<MessageId> {
    if rows == [] then [] else OrderOf(rows[..|rows| - 1]) + [rows[|rows| - 1].id]
  }

  function ChildMap(rows: seq<Row>): map<Parent, seq<MessageId>> {
    if rows == [] then map[] else WithChild(ChildMap(rows[..|rows| - 1]), rows[|rows| - 1])
  }

  ghost predicate IsOrder(rows: seq<Row>, order: seq<MessageId>) {
    |order| == |rows| && forall i :: 0 <= i < |rows| ==> order[i] == rows[i].id
  }

  ghost predicate IsIndex(rows: seq<Row>, index: map<MessageId, Row>) {
    && (forall id :: id in index <==> HasRow(rows, id))
    && (forall id :: id in index ==> RowOf(rows, id) == Some(index[id]))
  }

  ghost predicate IsChildMap(rows: seq<Row>, children: map<Parent, seq<MessageId>>) {
    && (forall p :: p in children <==> (if p.None? then rows != [] else HasRow(rows, p.value)))
    && (forall p :: p in children ==> children[p] == Children(rows, p))
  }

  lemma IndexAfterAdd(rows: seq<Row>, record: Row, index: map<MessageId, Row>)
    requires IsIndex(rows, index)
    ensures IsIndex(rows + [record], index[record.id := record])
  {
    var after := index[record.id := record];
    forall id ensures id in after <==> HasRow(rows + [record], id) {
      HasRowAppend(rows, record, id);
    }
    forall id | id in after ensures RowOf(rows + [record], id) == Some(after[id]) {
      HasRowAppend(rows, record, id);
    }
  }

  /** The child lists once `record` is appended to its parent's and has an empty one. */
  function WithChild(children: map<Parent, seq<MessageId>>, record: Row): map<Parent, seq<MessageId>> {
    var siblings := if record.parent in children then children[record.parent] else [];
    var added := children[record.parent := siblings + [record.id]];
    if Some(record.id) in added then added else added[Some(record.id) := []]
  }

  lemma ChildrenAfterAdd(rows: seq<Row>, record: Row, children: map<Parent, seq<MessageId>>)
    requires Tree(rows) && Placed(rows, record) && IsChildMap(rows, children)
    ensures IsChildMap(rows + [record], WithChild(children, record))
  {
    var after := WithChild(children, record);
    assert (rows + [record])[..|rows|] == rows;
    forall p: Parent ensures p in after <==> (if p.None? then true else HasRow(rows + [record], p.value)) {
      if p.Some? {
        HasRowAppend(rows, record, p.value);
      }
    }
    forall p | p in after ensures after[p] == Children(rows + [record], p) {
      NoChildrenYet(rows, record.id);
      assert record.parent !in children ==> rows == [];
    }
  }

  /** What the context keeps in memory is what the rows say: the index finds every row and
      nothing else, and each message's child list is the rows that continue from it. */
  lemma {:induction false} ContextIsExact(rows: seq<Row>)
    requires Tree(rows)
    ensures IsIndex(rows, IndexOf(rows)) && IsChildMap(rows, ChildMap(rows)) && IsOrder(rows, OrderOf(rows))
  {
    if rows != [] {
      var front, last := rows[..|rows| - 1], rows[|rows| - 1];
      assert rows == front + [last];
      ContextIsExact(front);
      IndexAfterAdd(front, last, IndexOf(front));
      ChildrenAfterAdd(front, last, ChildMap(front));
    } else {
      assert forall id :: !HasRow(rows, id);
    }
  }

  lemma IndexHas(rows: seq<Row>, id: MessageId)
    requires Tree(rows)
    ensures id in IndexOf(rows) <==> HasRow(rows, id)
    ensures id in IndexOf(rows) ==> RowOf(rows, id) == Some(IndexOf(rows)[id])
  {
    ContextIsExact(rows);
  }

  lemma OrderLength(rows: seq<Row>)
    requires Tree(rows)
    ensures |OrderOf(rows)| == |rows|
  {
    ContextIsExact(rows);
  }

  lemma IndexAt(rows: seq<Row>, i: nat)
    requires Tree(rows) && i < |rows|
    ensures |OrderOf(rows)| == |rows| && OrderOf(rows)[i] == rows[i].id
    ensures rows[i].id in IndexOf(rows) && IndexOf(rows)[rows[i].id] == rows[i]
  {
    ContextIsExact(rows);
    RowAt(rows, i);
  }

  lemma ContextAppend(rows: seq<Row>, row: Row)
    ensures IndexOf(rows + [row]) == IndexOf(rows)[row.id := row]
    ensures OrderOf(rows + [row]) == OrderOf(rows) + [row.id]
    ensures ChildMap(rows + [row]) == WithChild(ChildMap(rows), row)
  {
    assert (rows + [row])[..|rows + [row]| - 1] == rows;
  }

  lemma LeafIsStored(rows: seq<Row>)
    ensures ActiveLeaf(rows).Some? ==> HasRow(rows, ActiveLeaf(rows).value)
  {
    if rows != [] {
      assert rows[|rows| - 1].id == ActiveLeaf(rows).value;
    }
  }

  lemma ReplaceSamePlaces(rows: seq<Row>, row: Row)
    requires Tree(rows) && RowOf(rows, row.id).Some? && SamePlace(RowOf(rows, row.id).value, row)
    ensures SamePlaces(rows, Replace(rows, row))
  {
    forall i | 0 <= i < |rows| ensures SamePlace(rows[i], Replace(rows, row)[i]) {
      RowAt(rows, i);
    }
  }

  /** Replacing a row in place replaces its index entry and leaves the rest as it is. */
  lemma ReplaceInContext(rows: seq<Row>, row: Row, leaf: Parent) returns (rows': seq<Row>, path': seq<Row>)
    requires Tree(rows) && row.id in IndexOf(rows) && SamePlace(IndexOf(rows)[row.id], row) && leaf == ActiveLeaf(rows)
    ensures rows' == Replace(rows, row) && path' == Replace(Path(rows, leaf), row)
    ensures Tree(rows') && IndexOf(rows') == IndexOf(rows)[row.id := row]
    ensures OrderOf(rows') == OrderOf(rows) && ChildMap(rows') == ChildMap(rows)
    ensures leaf == ActiveLeaf(rows') && Path(rows', leaf) == path'
  {
    rows', path' := Replace(rows, row), Replace(Path(rows, leaf), row);
    IndexHas(rows, row.id);
    ReplaceSamePlaces(rows, row);
    SamePlacesTree(rows, rows');
    SamePlacesMaps(rows, rows');
    TreeIds(rows);
    ReplacedIndex(rows, row);
    PathReplace(rows, row, leaf);
  }

  lemma {:induction false} SamePlacesMaps(rows: seq<Row>, rows': seq<Row>)
    requires SamePlaces(rows, rows')
    ensures OrderOf(rows') == OrderOf(rows) && ChildMap(rows') == ChildMap(rows)
  {
    if rows != [] {
      SamePlacesFront(rows, rows');
      SamePlacesMaps(rows[..|rows| - 1], rows'[..|rows'| - 1]);
    }
  }

  lemma UpdatesCommute(m: map<MessageId, Row>, a: Row, b: Row)
    requires a.id != b.id
    ensures m[a.id := a][b.id := b] == m[b.id := b][a.id := a]
  {
  }

  lemma LastUpdateWins(m: map<MessageId, Row>, id: MessageId, a: Row, b: Row)
    ensures m[id := a][id := b] == m[id := b]
  {
  }

  lemma {:induction false} ReplacedIndex(rows: seq<Row>, row: Row)
    requires Tree(rows) && HasRow(rows, row.id)
    ensures IndexOf(Replace(rows, row)) == IndexOf(rows)[row.id := row]
  {
    var front, last := rows[..|rows| - 1], rows[|rows| - 1];
    FrontRow(rows, row.id);
    ReplaceFront(rows, row);
    if last.id == row.id {
      ReplaceNothing(front, row);
      LastUpdateWins(IndexOf(front), row.id, last, row);
    } else {
      ReplacedIndex(front, row);
      UpdatesCommute(IndexOf(front), row, last);
    }
  }

  lemma ReplaceFront(rows: seq<Row>, row: Row)
    requires rows != []
    ensures var r := Replace(rows, row);
            r[..|r| - 1] == Replace(rows[..|rows| - 1], row)
            && r[|r| - 1] == if rows[|rows| - 1].id == row.id then row else rows[|rows| - 1]
  {
  }

  lemma {:induction false} ReplaceNothing(rows: seq<Row>, row: Row)
    requires !HasRow(rows, row.id)
    ensures Replace(rows, row) == rows
  {
    forall i | 0 <= i < |rows| ensures rows[i].id != row.id {
      assert rows[i].id == row.id ==> HasRow(rows, row.id);
    }
  }

  lemma {:induction false} TreePrefix(rows: seq<Row>, n: nat)
    requires Tree(rows) && n <= |rows|
    ensures Tree(rows[..n]) && (n < |rows| ==> Placed(rows[..n], rows[n]) && rows[..n + 1] == rows[..n] + [rows[n]])
  {
    if n < |rows| {
      var front := rows[..|rows| - 1];
      if n < |front| {
        TreePrefix(front, n);
        assert front[..n] == rows[..n];
      } else {
        assert rows[..n] == front;
      }
    } else {
      assert rows[..n] == rows;
    }
  }

  // ---------------------------------------------------------------- repairs, row by row

  /** The rows with the first `n` repaired. */
  function RepairedUpTo(rows: seq<Row>, keep: set<CallId>, n: nat): (r: seq<Row>)
    requires n <= |rows|
    ensures |r| == |rows|
    decreases n
  {
    if n == 0 then rows else RepairedUpTo(rows, keep, n - 1)[n - 1 := RepairRow(rows[n - 1], keep)]
  }

  lemma {:induction false} RepairedAt(rows: seq<Row>, keep: set<CallId>, n: nat, i: nat)
    requires n <= |rows| && i < |rows|
    ensures RepairedUpTo(rows, keep, n)[i] == if i < n then RepairRow(rows[i], keep) else rows[i]
    decreases n
  {
    if n > 0 {
      RepairedAt(rows, keep, n - 1, i);
    }
  }

  lemma RepairKeepsPlace(row: Row, keep: set<CallId>)
    ensures SamePlace(row, RepairRow(row, keep))
  {
  }

  lemma RepairedUpToPlaces(rows: seq<Row>, keep: set<CallId>, n: nat)
    requires n <= |rows| && Tree(rows)
    ensures SamePlaces(rows, RepairedUpTo(rows, keep, n)) && Tree(RepairedUpTo(rows, keep, n))
  {
    var r := RepairedUpTo(rows, keep, n);
    assert SamePlaces(rows, r) by {
      forall i | 0 <= i < |rows| ensures SamePlace(rows[i], r[i]) {
        RepairedAt(rows, keep, n, i);
        RepairKeepsPlace(rows[i], keep);
      }
    }
    SamePlacesTree(rows, r);
  }

  lemma ReplaceAt(rows: seq<Row>, n: nat, row: Row)
    requires n < |rows| && rows[n].id == row.id && forall i, j :: 0 <= i < j < |rows| ==> rows[i].id != rows[j].id
    ensures Replace(rows, row) == rows[n := row]
  {
  }

  lemma RepairedAll(rows: seq<Row>, keep: set<CallId>)
    requires Tree(rows)
    ensures RepairedUpTo(rows, keep, |rows|) == RepairRows(rows, keep)
    ensures ActiveLeaf(RepairRows(rows, keep)) == ActiveLeaf(rows)
  {
    forall i | 0 <= i < |rows| ensures RepairedUpTo(rows, keep, |rows|)[i] == RepairRows(rows, keep)[i] {
      RepairedAt(rows, keep, |rows|, i);
    }
    RepairedUpToPlaces(rows, keep, |rows|);
  }

  lemma RepairedUpToNext(rows: seq<Row>, keep: set<CallId>, n: nat, row: Row)
    requires n < |rows| && Tree(rows) && row == RepairRow(rows[n], keep)
    ensures RepairedUpTo(rows, keep, n)[n] == rows[n]
    ensures RepairedUpTo(rows, keep, n + 1) == Replace(RepairedUpTo(rows, keep, n), row)
    ensures row == rows[n] ==> RepairedUpTo(rows, keep, n + 1) == RepairedUpTo(rows, keep, n)
  {
    var r := RepairedUpTo(rows, keep, n);
    RepairedUpToPlaces(rows, keep, n);
    RepairKeepsPlace(rows[n], keep);
    RepairedAt(rows, keep, n, n);
    ReplaceInRepaired(r, n, row);
    assert r[n := r[n]] == r;
  }

  /** What one repaired row changes in the context. */
  lemma RepairStep(rows: seq<Row>, keep: set<CallId>, n: nat, row: Row) returns (before: seq<Row>, after: seq<Row>)
    requires n < |rows| && Tree(rows) && row == RepairRow(rows[n], keep)
    ensures before == RepairedUpTo(rows, keep, n) && after == RepairedUpTo(rows, keep, n + 1)
    ensures Tree(after) && IndexOf(after) == IndexOf(before)[row.id := row]
    ensures OrderOf(after) == OrderOf(before) && ChildMap(after) == ChildMap(before)
    ensures row == rows[n] ==> after == before
  {
    before, after := RepairedUpTo(rows, keep, n), RepairedUpTo(rows, keep, n + 1);
    RepairedUpToNext(rows, keep, n, row);
    RepairedUpToPlaces(rows, keep, n);
    RepairKeepsPlace(rows[n], keep);
    IndexAt(before, n);
    var replaced, path := ReplaceInContext(before, row, ActiveLeaf(before));
  }

  lemma RepairedIndexAt(rows: seq<Row>, keep: set<CallId>, n: nat)
    requires n < |rows| && Tree(rows)
    ensures var r := RepairedUpTo(rows, keep, n);
            |OrderOf(r)| == |rows| && OrderOf(r)[n] in IndexOf(r) && IndexOf(r)[OrderOf(r)[n]] == rows[n]
  {
    RepairedUpToPlaces(rows, keep, n);
    RepairedAt(rows, keep, n, n);
    IndexAt(RepairedUpTo(rows, keep, n), n);
  }

  lemma ReplaceInRepaired(r: seq<Row>, n: nat, row: Row)
    requires Tree(r) && n < |r| && r[n].id == row.id
    ensures Replace(r, row) == r[n := row]
  {
    TreeIds(r);
    ReplaceAt(r, n, row);
  }
}
