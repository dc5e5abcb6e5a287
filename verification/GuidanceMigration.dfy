/** The migration that takes legacy guidance rows out of the message tree.

    Guidance rows are deleted and the messages that continued from one are moved to its
    nearest ancestor that is not guidance. */
module GuidanceMigration {
  import opened Basics

  type Id = string

  datatype Row = Row(parent: Option<Id>, guidance: bool, content: string)

  type Rows = map<Id, Row>

  predicate IsGuidance(rows: Rows, p: Option<Id>) {
    p.Some? && p.value in rows && rows[p.value].guidance
  }

  function ParentOf(rows: Rows, id: Id): Option<Id> { if id in rows then rows[id].parent else None }

  function GuidanceIds(rows: Rows): set<Id> { set id | id in rows && rows[id].guidance }

  /** The walk up from `target` past guidance rows, until one is met again. */
  function Chase(rows: Rows, target: Option<Id>, seen: set<Id>): Option<Id>
    decreases GuidanceIds(rows) - seen
  {
    if IsGuidance(rows, target) && target.value !in seen then
      Chase(rows, ParentOf(rows, target.value), seen + {target.value})
    else target
  }

  function TargetOf(rows: Rows, id: Id): Option<Id> { Chase(rows, ParentOf(rows, id), {id}) }

  /** `_guidance_parent_targets`: the guidance rows, and where their children go. */
  method GuidanceParentTargets(rows: Rows) returns (guidance: set<Id>, targets: map<Id, Option<Id>>)
    ensures guidance == GuidanceIds(rows) && targets.Keys == guidance
    ensures forall id :: id in targets ==> targets[id] == TargetOf(rows, id)
  {
    guidance := GuidanceIds(rows);
    targets := map[];
    var todo := guidance;
    while todo != {}
      invariant todo <= guidance && targets.Keys == guidance - todo
      invariant forall id :: id in targets ==> targets[id] == TargetOf(rows, id)
      decreases todo
    {
      var id :| id in todo;
      var target := ParentOf(rows, id);
      var seen := {id};
      while target.Some? && target.value in guidance && target.value !in seen
        invariant TargetOf(rows, id) == Chase(rows, target, seen)
        decreases guidance - seen
      {
        seen := seen + {target.value};
        target := ParentOf(rows, target.value);
      }
      targets := targets[id := target];
      todo := todo - {id};
    }
  }

  function NewParent(rows: Rows, row: Row): Option<Id> {
    if IsGuidance(rows, row.parent) then TargetOf(rows, row.parent.value) else row.parent
  }

  /** The rows after the migration. */
  function Migrated(rows: Rows): Rows {
    map id | id in rows && !rows[id].guidance :: rows[id].(parent := NewParent(rows, rows[id]))
  }

  /** `_migrate_legacy_guidance_rows` on the message rows: reparent, then delete. */
  method MigrateGuidance(rows: Rows) returns (left: Rows)
    ensures left == Migrated(rows)
  {
    var guidance, targets := GuidanceParentTargets(rows);
    if guidance == {} {
      forall id | id in rows ensures !rows[id].guidance {
        assert id in GuidanceIds(rows) <==> rows[id].guidance;
      }
      return rows;
    }
    var reparented := map id | id in rows ::
      if !rows[id].guidance && rows[id].parent.Some? && rows[id].parent.value in guidance then
        rows[id].(parent := targets[rows[id].parent.value])
      else rows[id];
    left := reparented - guidance;
  }

  // ---------------------------------------------------------------- chains

  /** The `n`-th ancestor. */
  function Ancestor(rows: Rows, id: Id, n: nat): Option<Id> {
    if n == 0 then Some(id)
    else
      var p := Ancestor(rows, id, n - 1);
      if p.Some? then ParentOf(rows, p.value) else None
  }

  /** From every row of a set of guidance rows the parent is in the set too. */
  ghost predicate Closed(rows: Rows, ids: set<Id>) {
    forall id :: id in ids ==> IsGuidance(rows, Some(id)) && rows[id].parent.Some? && rows[id].parent.value in ids
  }

  lemma {:induction false} ClosedAncestors(rows: Rows, ids: set<Id>, id: Id, n: nat)
    requires Closed(rows, ids) && id in ids
    ensures Ancestor(rows, id, n).Some? && Ancestor(rows, id, n).value in ids
  {
    if n > 0 {
      ClosedAncestors(rows, ids, id, n - 1);
    }
  }

  /** All ancestors before the `n`-th are guidance. */
  predicate GuidanceBelow(rows: Rows, id: Id, n: nat) {
    forall m :: 0 <= m < n ==> IsGuidance(rows, Ancestor(rows, id, m))
  }

  /** How the walk ends: at its `n`-th step, with what is no guidance row or was met before. */
  lemma {:induction false} ChaseEnds(rows: Rows, id: Id, n: nat, seen: set<Id>) returns (end: nat, met: set<Id>)
    requires IsGuidance(rows, Some(id)) && n > 0 && GuidanceBelow(rows, id, n) && id in seen
    requires forall x :: x in seen ==> IsGuidance(rows, Some(x)) && (rows[x].parent == Ancestor(rows, id, n) || (rows[x].parent.Some? && rows[x].parent.value in seen))
    ensures end >= n && Chase(rows, Ancestor(rows, id, n), seen) == Ancestor(rows, id, end) && GuidanceBelow(rows, id, end)
    ensures id in met && (IsGuidance(rows, Ancestor(rows, id, end)) ==> Closed(rows, met))
    decreases GuidanceIds(rows) - seen
  {
    var target := Ancestor(rows, id, n);
    if IsGuidance(rows, target) && target.value !in seen {
      assert Ancestor(rows, id, n + 1) == ParentOf(rows, target.value);
      end, met := ChaseEnds(rows, id, n + 1, seen + {target.value});
    } else {
      end, met := n, seen;
    }
  }

  lemma TargetEnds(rows: Rows, id: Id) returns (end: nat, met: set<Id>)
    requires IsGuidance(rows, Some(id))
    ensures end > 0 && TargetOf(rows, id) == Ancestor(rows, id, end) && GuidanceBelow(rows, id, end)
    ensures id in met && (IsGuidance(rows, Ancestor(rows, id, end)) ==> Closed(rows, met))
  {
    assert Ancestor(rows, id, 0) == Some(id);
    assert Ancestor(rows, id, 1) == ParentOf(rows, id);
    end, met := ChaseEnds(rows, id, 1, {id});
  }

  /** The chain of parents from a guidance row leaves guidance. */
  ghost predicate Leaves(rows: Rows, id: Id) { exists n: nat :: !IsGuidance(rows, Ancestor(rows, id, n)) }

  /** The target is the nearest ancestor that is not guidance, if the chain has one; it is
      still a guidance row exactly when the chain never leaves guidance. */
  lemma TargetIsNearestSurvivor(rows: Rows, id: Id)
    requires IsGuidance(rows, Some(id))
    ensures !IsGuidance(rows, TargetOf(rows, id)) <==> Leaves(rows, id)
    ensures Leaves(rows, id) ==>
              exists n: nat :: n > 0 && TargetOf(rows, id) == Ancestor(rows, id, n) && GuidanceBelow(rows, id, n)
  {
    var end, met := TargetEnds(rows, id);
    if IsGuidance(rows, TargetOf(rows, id)) {
      forall n: nat ensures IsGuidance(rows, Ancestor(rows, id, n)) {
        ClosedAncestors(rows, met, id, n);
      }
    } else {
      assert !IsGuidance(rows, Ancestor(rows, id, end));
    }
  }

  /** A survivor points at a deleted row exactly when it continued from guidance that only
      ever continues from guidance. */
  lemma SurvivorsPointAtSurvivors(rows: Rows, id: Id)
    requires id in rows && !rows[id].guidance
    ensures id in Migrated(rows)
    ensures IsGuidance(rows, Migrated(rows)[id].parent)
       <==> IsGuidance(rows, rows[id].parent) && !Leaves(rows, rows[id].parent.value)
  {
    if IsGuidance(rows, rows[id].parent) {
      TargetIsNearestSurvivor(rows, rows[id].parent.value);
    }
  }

  // ---------------------------------------------------------------- paths

  /** `rank` shows that no row is its own ancestor. */
  ghost predicate Forest(rows: Rows, rank: map<Id, nat>) {
    forall id :: id in rows ==>
      id in rank && (rows[id].parent.Some? && rows[id].parent.value in rows ==>
                       rows[id].parent.value in rank && rank[rows[id].parent.value] < rank[id])
  }

  /** The ids from the root to `p`. */
  ghost function Path(rows: Rows, rank: map<Id, nat>, p: Option<Id>): seq<Id>
    requires Forest(rows, rank)
    decreases if p.Some? && p.value in rows then rank[p.value] + 1 else 0
  {
    if p.Some? && p.value in rows then Path(rows, rank, rows[p.value].parent) + [p.value] else []
  }

  /** The ids that are not guidance. */
  function Survivors(rows: Rows, path: seq<Id>): seq<Id> {
    if path == [] then []
    else
      var id := path[|path| - 1];
      Survivors(rows, path[..|path| - 1]) + (if IsGuidance(rows, Some(id)) then [] else [id])
  }

  lemma {:induction false} ClosedIsCyclic(rows: Rows, rank: map<Id, nat>, ids: set<Id>, id: Id)
    requires Forest(rows, rank) && Closed(rows, ids) && id in ids
    ensures false
    decreases rank[id]
  {
    ClosedIsCyclic(rows, rank, ids, rows[id].parent.value);
  }

  lemma TargetLeaves(rows: Rows, rank: map<Id, nat>, id: Id)
    requires Forest(rows, rank) && IsGuidance(rows, Some(id))
    ensures !IsGuidance(rows, TargetOf(rows, id))
  {
    var end, met := TargetEnds(rows, id);
    if IsGuidance(rows, TargetOf(rows, id)) {
      ClosedIsCyclic(rows, rank, met, id);
    }
  }

  /** Above guidance, the surviving path is that of the nearest survivor, which is nearer
      to the root. */
  lemma {:induction false} PathAboveGuidance(rows: Rows, rank: map<Id, nat>, id: Id, n: nat)
    requires Forest(rows, rank) && GuidanceBelow(rows, id, n)
    ensures Survivors(rows, Path(rows, rank, Some(id))) == Survivors(rows, Path(rows, rank, Ancestor(rows, id, n)))
    ensures n > 0 && Ancestor(rows, id, n).Some? && Ancestor(rows, id, n).value in rows ==>
              id in rank && Ancestor(rows, id, n).value in rank && rank[Ancestor(rows, id, n).value] < rank[id]
  {
    if n > 0 {
      PathAboveGuidance(rows, rank, id, n - 1);
      var below := Ancestor(rows, id, n - 1);
      assert IsGuidance(rows, below);
      var path := Path(rows, rank, below);
      assert path[..|path| - 1] == Path(rows, rank, rows[below.value].parent);
      assert Survivors(rows, path[..|path| - 1]) + [] == Survivors(rows, path[..|path| - 1]);
    }
  }

  lemma MigratedForest(rows: Rows, rank: map<Id, nat>)
    requires Forest(rows, rank)
    ensures Forest(Migrated(rows), rank)
  {
    var new_ := Migrated(rows);
    forall id | id in new_ && new_[id].parent.Some? && new_[id].parent.value in new_
      ensures rank[new_[id].parent.value] < rank[id]
    {
      if IsGuidance(rows, rows[id].parent) {
        var end, met := TargetEnds(rows, rows[id].parent.value);
        PathAboveGuidance(rows, rank, rows[id].parent.value, end);
      }
    }
  }

  /** On an acyclic forest every surviving message keeps its path, without the guidance. */
  lemma {:induction false} PathsAreKept(rows: Rows, rank: map<Id, nat>, p: Option<Id>)
    requires Forest(rows, rank) && !IsGuidance(rows, p)
    ensures Forest(Migrated(rows), rank)
    ensures Path(Migrated(rows), rank, p) == Survivors(rows, Path(rows, rank, p))
    decreases if p.Some? && p.value in rows then rank[p.value] + 1 else 0
  {
    MigratedForest(rows, rank);
    if p.Some? && p.value in rows {
      var parent := rows[p.value].parent;
      var path := Path(rows, rank, p);
      assert path[..|path| - 1] == Path(rows, rank, parent);
      if IsGuidance(rows, parent) {
        var end, met := TargetEnds(rows, parent.value);
        TargetLeaves(rows, rank, parent.value);
        PathAboveGuidance(rows, rank, parent.value, end);
        PathsAreKept(rows, rank, TargetOf(rows, parent.value));
      } else {
        PathsAreKept(rows, rank, parent);
      }
    }
  }

  /** Two guidance rows that continue from each other: their child ends on a deleted row. */
  lemma CycleDangles()
    ensures var rows := map["a" := Row(Some("b"), true, ""), "b" := Row(Some("a"), true, ""), "m" := Row(Some("a"), false, "")];
            Migrated(rows)["m"].parent == Some("a") && "a" !in Migrated(rows)
  {
    var rows := map["a" := Row(Some("b"), true, ""), "b" := Row(Some("a"), true, ""), "m" := Row(Some("a"), false, "")];
    assert Chase(rows, Some("a"), {"a", "b"}) == Some("a");
    assert {"a"} + {"b"} == {"a", "b"};
    assert Chase(rows, Some("b"), {"a"}) == Some("a");
    assert "m" in Migrated(rows);
  }

  /** What the migration leaves alone: exactly the messages stay, each with its content, and
      its parent too unless that was guidance. */
  lemma MessagesStay(rows: Rows, id: Id)
    ensures id in Migrated(rows) <==> id in rows && !rows[id].guidance
    ensures id in Migrated(rows) ==>
              && Migrated(rows)[id].content == rows[id].content && !Migrated(rows)[id].guidance
              && (!(rows[id].parent.Some? && rows[id].parent.value in rows && rows[rows[id].parent.value].guidance) ==>
                    Migrated(rows)[id].parent == rows[id].parent)
  {
  }
}
