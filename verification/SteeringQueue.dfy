/** The steering records of a session and the policy that delivers them during a run.

    A record waits in a pending list until a model request that carried it has completed.
    The list is kept in memory beside the stored records; the policy of a run remembers
    which records it has handed to the run and which of them a model request has taken in. */
module SteeringQueue {
  import opened Basics
  import opened SessionRows

  datatype Status = Pending | Delivered

  datatype Record = Record(id: string, content: string, profile: Option<string>, status: Status)

  // ---------------------------------------------------------------- what the stored records say

  function RecordIds(records: seq<Record>): seq<string> {
    if records == [] then [] else RecordIds(records[..|records| - 1]) + [records[|records| - 1].id]
  }

  /** The ids of the records still pending, in the order they were queued. */
  function PendingIds(records: seq<Record>): seq<string> {
    if records == [] then []
    else
      var r := records[|records| - 1];
      PendingIds(records[..|records| - 1]) + (if r.status == Pending then [r.id] else [])
  }

  function RecordIndex(records: seq<Record>): map<string, Record> {
    if records == [] then map[]
    else RecordIndex(records[..|records| - 1])[records[|records| - 1].id := records[|records| - 1]]
  }

  predicate Consumes(profile: Option<string>, r: Record) {
    profile.None? || r.profile.None? || r.profile == profile
  }

  /** The pending records a turn of `profile` may consume. */
  function Consumable(records: seq<Record>, profile: Option<string>): seq<Record> {
    if records == [] then []
    else
      var r := records[|records| - 1];
      Consumable(records[..|records| - 1], profile) +
      (if r.status == Pending && Consumes(profile, r) then [r] else [])
  }

  function MarkRecord(r: Record, ids: set<string>): Record {
    if r.status == Pending && r.id in ids then r.(status := Delivered) else r
  }

  /** The records once the pending ones among `ids` are acknowledged. */
  function Mark(records: seq<Record>, ids: set<string>): seq<Record> {
    if records == [] then []
    else Mark(records[..|records| - 1], ids) + [MarkRecord(records[|records| - 1], ids)]
  }

  ghost predicate DistinctRecords(records: seq<Record>) { Distinct(RecordIds(records)) }

  lemma RecordsSnoc(records: seq<Record>, r: Record)
    ensures RecordIds(records + [r]) == RecordIds(records) + [r.id]
    ensures PendingIds(records + [r]) == PendingIds(records) + (if r.status == Pending then [r.id] else [])
    ensures RecordIndex(records + [r]) == RecordIndex(records)[r.id := r]
  {
    assert (records + [r])[..|records|] == records;
  }

  lemma {:induction false} PendingAreRecords(records: seq<Record>)
    ensures forall id :: id in PendingIds(records) ==> id in RecordIds(records)
  {
    if records != [] {
      PendingAreRecords(records[..|records| - 1]);
    }
  }

  lemma {:induction false} PendingDistinct(records: seq<Record>)
    requires DistinctRecords(records)
    ensures Distinct(PendingIds(records))
  {
    if records != [] {
      var front, r := records[..|records| - 1], records[|records| - 1];
      DistinctSnoc(RecordIds(front), r.id);
      PendingDistinct(front);
      PendingAreRecords(front);
      DistinctSnoc(PendingIds(front), r.id);
    }
  }

  lemma {:induction false} IndexKeys(records: seq<Record>, id: string)
    ensures id in RecordIndex(records) <==> id in RecordIds(records)
    ensures id in RecordIndex(records) ==> RecordIndex(records)[id].id == id
  {
    if records != [] {
      IndexKeys(records[..|records| - 1], id);
    }
  }

  /** A record is in the pending list exactly when its status is pending. */
  lemma {:induction false} PendingIsStatus(records: seq<Record>, id: string)
    requires DistinctRecords(records) && id in RecordIndex(records)
    ensures id in PendingIds(records) <==> RecordIndex(records)[id].status == Pending
  {
    var front, r := records[..|records| - 1], records[|records| - 1];
    DistinctSnoc(RecordIds(front), r.id);
    PendingAreRecords(front);
    if r.id != id {
      PendingIsStatus(front, id);
    }
  }

  /** Acknowledging takes exactly the acknowledged ids off the pending list, and nothing
      else changes: order, ids and the other records stay. */
  lemma {:induction false} MarkPending(records: seq<Record>, ids: set<string>)
    ensures PendingIds(Mark(records, ids)) == Without(PendingIds(records), ids)
    ensures RecordIds(Mark(records, ids)) == RecordIds(records)
  {
    if records != [] {
      var front, r := records[..|records| - 1], records[|records| - 1];
      MarkPending(front, ids);
      RecordsSnoc(Mark(front, ids), MarkRecord(r, ids));
      WithoutSnoc(PendingIds(front), r.id, ids);
      assert PendingIds(front) + [] == PendingIds(front);
      assert Without(PendingIds(front), ids) + [] == Without(PendingIds(front), ids);
    }
  }

  lemma {:induction false} MarkIndex(records: seq<Record>, ids: set<string>, id: string)
    ensures id in RecordIndex(Mark(records, ids)) <==> id in RecordIndex(records)
    ensures id in RecordIndex(records) ==> RecordIndex(Mark(records, ids))[id] == MarkRecord(RecordIndex(records)[id], ids)
  {
    if records != [] {
      var front, r := records[..|records| - 1], records[|records| - 1];
      MarkIndex(front, ids, id);
      RecordsSnoc(Mark(front, ids), MarkRecord(r, ids));
    }
  }

  /** The records of the pending ids, as a listing looks them up. */
  function Listed(index: map<string, Record>, ids: seq<string>): seq<Record>
    requires forall id :: id in ids ==> id in index
  {
    if ids == [] then [] else Listed(index, ids[..|ids| - 1]) + [index[ids[|ids| - 1]]]
  }

  function Matching(profile: Option<string>, records: seq<Record>): seq<Record> {
    if records == [] then []
    else
      var r := records[|records| - 1];
      Matching(profile, records[..|records| - 1]) + (if Consumes(profile, r) then [r] else [])
  }

  lemma {:induction false} ListedSame(index: map<string, Record>, index': map<string, Record>, ids: seq<string>)
    requires forall id :: id in ids ==> id in index && id in index' && index[id] == index'[id]
    ensures Listed(index, ids) == Listed(index', ids)
  {
    if ids != [] {
      ListedSame(index, index', ids[..|ids| - 1]);
    }
  }

  lemma PendingListed(records: seq<Record>)
    ensures forall id :: id in PendingIds(records) ==> id in RecordIndex(records)
  {
    PendingAreRecords(records);
    forall id | id in PendingIds(records) ensures id in RecordIndex(records) {
      IndexKeys(records, id);
    }
  }

  /** Listing the pending ids and keeping those of the profile is what the stored records
      say a turn of that profile may consume. */
  lemma {:induction false} ListingIsConsumable(records: seq<Record>, profile: Option<string>)
    requires DistinctRecords(records)
    ensures forall id :: id in PendingIds(records) ==> id in RecordIndex(records)
    ensures Matching(profile, Listed(RecordIndex(records), PendingIds(records)))
         == Consumable(records, profile)
  {
    PendingListed(records);
    if records != [] {
      var front, r := records[..|records| - 1], records[|records| - 1];
      DistinctSnoc(RecordIds(front), r.id);
      ListingIsConsumable(front, profile);
      PendingAreRecords(front);
      ListedSame(RecordIndex(front), RecordIndex(records), PendingIds(front));
      assert PendingIds(front) + [] == PendingIds(front);
      assert Consumable(front, profile) + [] == Consumable(front, profile);
      if r.status == Pending {
        ListedSnoc(RecordIndex(records), PendingIds(front), r.id);
        MatchingSnoc(profile, Listed(RecordIndex(records), PendingIds(front)), r);
      }
    }
  }

  lemma ListedSnoc(index: map<string, Record>, ids: seq<string>, id: string)
    requires id in index && forall i :: i in ids ==> i in index
    ensures forall i :: i in ids + [id] ==> i in index
    ensures Listed(index, ids + [id]) == Listed(index, ids) + [index[id]]
  {
    assert (ids + [id])[..|ids|] == ids;
  }

  lemma MatchingSnoc(profile: Option<string>, s: seq<Record>, r: Record)
    ensures Matching(profile, s + [r]) == Matching(profile, s) + (if Consumes(profile, r) then [r] else [])
  {
    assert (s + [r])[..|s|] == s;
  }

  /** A listing has each record that may be consumed once, and only pending ones. */
  lemma {:induction false} ConsumableIds(records: seq<Record>, profile: Option<string>)
    requires DistinctRecords(records)
    ensures DistinctRecords(Consumable(records, profile))
    ensures forall id :: id in RecordIds(Consumable(records, profile)) ==> id in PendingIds(records)
  {
    if records != [] {
      var front, r := records[..|records| - 1], records[|records| - 1];
      DistinctSnoc(RecordIds(front), r.id);
      ConsumableIds(front, profile);
      PendingAreRecords(front);
      assert Consumable(front, profile) + [] == Consumable(front, profile);
      RecordsSnoc(Consumable(front, profile), r);
      DistinctSnoc(RecordIds(Consumable(front, profile)), r.id);
    }
  }

  lemma {:induction false} ConsumableMember(records: seq<Record>, profile: Option<string>, r: Record)
    ensures r in Consumable(records, profile) <==> r in records && r.status == Pending && Consumes(profile, r)
  {
    if records != [] {
      var front, last := records[..|records| - 1], records[|records| - 1];
      ConsumableMember(front, profile, r);
      assert records == front + [last];
    }
  }

  /** Whose steering a turn receives: with a profile its own and what is for any profile,
      without one all that is pending. */
  lemma ListedFor(records: seq<Record>, profile: Option<string>, r: Record)
    ensures profile.Some? ==>
              (r in Consumable(records, profile) <==> r in records && r.status == Pending && r.profile in {None, profile})
    ensures profile.None? ==> (r in Consumable(records, profile) <==> r in records && r.status == Pending)
  {
    ConsumableMember(records, profile, r);
  }

  // ---------------------------------------------------------------- the store

  class SteeringStore {
    /** The session's steering rows in the database, in creation order. */
    var stored: seq<Record>
    var index: map<string, Record>
    var order: seq<string>
    var pending: seq<string>

    /** Memory says what the stored records say. */
    ghost predicate Holds(records: seq<Record>)
      reads this
    {
      && DistinctRecords(records)
      && index == RecordIndex(records) && order == RecordIds(records) && pending == PendingIds(records)
    }

    ghost predicate Valid()
      reads this
    {
      Holds(stored)
    }

    /** A reload: the rows added in creation order give the memory they were saved from. */
    constructor Load(rows: seq<Record>)
      requires DistinctRecords(rows)
      ensures Valid() && stored == rows
    {
      stored, index, order, pending := rows, map[], [], [];
      new;
      for i := 0 to |rows|
        invariant stored == rows && Holds(rows[..i])
      {
        assert rows[..i + 1] == rows[..i] + [rows[i]];
        PrefixDistinct(rows, i + 1);
        Add(rows[i], rows[..i]);
      }
      assert rows[..|rows|] == rows;
    }

    method Add(record: Record, ghost records: seq<Record>)
      requires Holds(records) && DistinctRecords(records + [record])
      modifies `index, `order, `pending
      ensures Holds(records + [record])
    {
      RecordsSnoc(records, record);
      DistinctSnoc(RecordIds(records), record.id);
      PendingAreRecords(records);
      index := index[record.id := record];
      if record.id !in order {
        order := order + [record.id];
      }
      if record.status == Pending && record.id !in pending {
        pending := pending + [record.id];
      }
    }

    /** A new record, written before it is added; refused when its id is taken. */
    method Queue(id: string, content: string, profile: Option<string>) returns (queued: Option<Record>)
      requires Valid()
      modifies this
      ensures Valid()
      ensures queued.None? <==> id in RecordIds(old(stored))
      ensures queued.Some? ==> queued.value == Record(id, content, profile, Pending) && stored == old(stored) + [queued.value]
      ensures queued.None? ==> unchanged(this)
    {
      IndexKeys(stored, id);
      if id in index {
        return None;
      }
      var record := Record(id, content, profile, Pending);
      ghost var before := stored;
      RecordsSnoc(stored, record);
      DistinctSnoc(RecordIds(stored), id);
      stored := stored + [record];
      Add(record, before);
      queued := Some(record);
    }

    method ListPending(profile: Option<string>) returns (records: seq<Record>)
      requires Valid()
      ensures records == Consumable(stored, profile)
      ensures profile.Some? ==> forall r :: r in records <==> r in stored && r.status == Pending && r.profile in {None, profile}
      ensures profile.None? ==> forall r :: r in records <==> r in stored && r.status == Pending
    {
      ListingIsConsumable(stored, profile);
      records := Matching(profile, Listed(index, pending));
      forall r {
        ListedFor(stored, profile, r);
      }
    }

    /** The pending records among `ids`, acknowledged in one write. */
    method MarkDelivered(ids: set<string>) returns (updated: seq<Record>)
      requires Valid()
      modifies this
      ensures Valid() && stored == Mark(old(stored), ids)
      ensures RecordIds(updated) == Within(PendingIds(old(stored)), ids)
      ensures forall j :: 0 <= j < |updated| ==> updated[j].id in index && index[updated[j].id] == updated[j]
      ensures |stored| == |old(stored)|
      ensures forall i :: 0 <= i < |stored| ==>
                var r := old(stored)[i]; stored[i] == if r.status == Pending && r.id in ids then r.(status := Delivered) else r
    {
      MarkedAt(stored, ids);
      var selected := Within(pending, ids);
      if selected == [] {
        MarkNothing(stored, ids);
        return [];
      }
      SelectedIndexed(stored, ids);
      updated := Acknowledge(selected);
      stored := Mark(stored, ids);
      PublishAcknowledged(updated, selected, ids, old(stored));
      pending := Without(pending, ids);
      MarkedDistinct(old(stored), ids);
    }

    method Acknowledge(selected: seq<string>) returns (updated: seq<Record>)
      requires forall id :: id in selected ==> id in index && index[id].id == id
      ensures |updated| == |selected|
      ensures forall j :: 0 <= j < |selected| ==> updated[j] == index[selected[j]].(status := Delivered)
      ensures RecordIds(updated) == selected
    {
      updated := [];
      for i := 0 to |selected|
        invariant |updated| == i && RecordIds(updated) == selected[..i]
        invariant forall j :: 0 <= j < i ==> updated[j] == index[selected[j]].(status := Delivered)
      {
        assert selected[i] in selected;
        var record := index[selected[i]].(status := Delivered);
        RecordsSnoc(updated, record);
        assert selected[..i + 1] == selected[..i] + [selected[i]];
        updated := updated + [record];
      }
      assert selected[..|selected|] == selected;
    }

    method PublishAcknowledged(updated: seq<Record>, selected: seq<string>, ids: set<string>, ghost records: seq<Record>)
      requires DistinctRecords(records) && index == RecordIndex(records) && selected == Within(PendingIds(records), ids)
      requires |updated| == |selected|
      requires forall j :: 0 <= j < |selected| ==>
                 selected[j] in index && index[selected[j]].id == selected[j] && updated[j] == index[selected[j]].(status := Delivered)
      modifies `index
      ensures index == RecordIndex(Mark(records, ids))
      ensures forall j :: 0 <= j < |updated| ==> updated[j].id in index && index[updated[j].id] == updated[j]
    {
      ghost var before := index;
      for i := 0 to |updated|
        invariant index.Keys == before.Keys
        invariant forall id :: id in before ==> index[id] == if id in selected[..i] then before[id].(status := Delivered) else before[id]
      {
        assert selected[..i + 1] == selected[..i] + [selected[i]];
        index := index[updated[i].id := updated[i]];
      }
      assert selected[..|selected|] == selected;
      MarkedIndex(records, ids, index);
    }
  }

  lemma SelectedIndexed(records: seq<Record>, ids: set<string>)
    ensures forall id :: id in Within(PendingIds(records), ids) ==> id in RecordIndex(records) && RecordIndex(records)[id].id == id
  {
    PendingListed(records);
    forall id | id in PendingIds(records) ensures RecordIndex(records)[id].id == id {
      IndexKeys(records, id);
    }
  }

  lemma MarkedIndex(records: seq<Record>, ids: set<string>, index: map<string, Record>)
    requires DistinctRecords(records) && index.Keys == RecordIndex(records).Keys
    requires var before := RecordIndex(records);
             forall id :: id in before ==>
               index[id] == if id in Within(PendingIds(records), ids) then before[id].(status := Delivered) else before[id]
    ensures index == RecordIndex(Mark(records, ids))
  {
    var before, after := RecordIndex(records), RecordIndex(Mark(records, ids));
    forall id ensures id in after <==> id in before {
      MarkIndex(records, ids, id);
    }
    forall id | id in before ensures index[id] == after[id] {
      MarkIndex(records, ids, id);
      IndexKeys(records, id);
      PendingIsStatus(records, id);
    }
  }

  lemma {:induction false} MarkedAt(records: seq<Record>, ids: set<string>)
    ensures |Mark(records, ids)| == |records|
    ensures forall i :: 0 <= i < |records| ==>
              Mark(records, ids)[i] == if records[i].status == Pending && records[i].id in ids then records[i].(status := Delivered) else records[i]
  {
    if records != [] {
      MarkedAt(records[..|records| - 1], ids);
    }
  }

  lemma MarkedDistinct(records: seq<Record>, ids: set<string>)
    requires DistinctRecords(records)
    ensures DistinctRecords(Mark(records, ids))
    ensures RecordIds(Mark(records, ids)) == RecordIds(records)
    ensures PendingIds(Mark(records, ids)) == Without(PendingIds(records), ids)
  {
    MarkPending(records, ids);
  }

  lemma PrefixDistinct(records: seq<Record>, n: nat)
    requires DistinctRecords(records) && n <= |records|
    ensures DistinctRecords(records[..n])
  {
    forall i, j | 0 <= i < j < |RecordIds(records[..n])| ensures RecordIds(records[..n])[i] != RecordIds(records[..n])[j] {
      RecordIdsAt(records[..n], i);
      RecordIdsAt(records[..n], j);
      RecordIdsAt(records, i);
      RecordIdsAt(records, j);
    }
  }

  lemma {:induction false} RecordIdsAt(records: seq<Record>, i: nat)
    ensures |RecordIds(records)| == |records|
    ensures i < |records| ==> RecordIds(records)[i] == records[i].id
  {
    if records != [] {
      RecordIdsAt(records[..|records| - 1], i);
    }
  }

  lemma {:induction false} MarkNothing(records: seq<Record>, ids: set<string>)
    requires Within(PendingIds(records), ids) == []
    ensures Mark(records, ids) == records
  {
    if records != [] {
      var front, r := records[..|records| - 1], records[|records| - 1];
      assert r.status == Pending ==> r.id in PendingIds(records) && r.id !in Within(PendingIds(records), ids);
      forall id | id in PendingIds(front) ensures id !in ids {
        assert id in PendingIds(records) && id !in Within(PendingIds(records), ids);
      }
      NoMembers(Within(PendingIds(front), ids));
      MarkNothing(front, ids);
    }
  }
}
