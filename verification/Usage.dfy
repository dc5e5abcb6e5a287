/** Token usage: merging snapshots with their auxiliary sections.

    A usage has counts, a cost while every part had one, the service tiers of its responses
    and named auxiliary sections, which are usages themselves. Sections are kept in the
    order their names first appeared. */
module Usage {
  import opened Basics

  type Tier = string

  /** A missing count is 0. */
  datatype Counts = Counts(input: int, output: int, total: int, requests: int, toolCalls: int)

  datatype Usage = Usage(counts: Counts, cost: Option<real>, tiers: seq<Tier>, auxiliary: Sections)

  datatype Sections = Nil | Section(name: string, part: Option<Usage>, rest: Sections)

  const ZERO := Counts(0, 0, 0, 0, 0)

  function Add(a: Counts, b: Counts): Counts {
    Counts(a.input + b.input, a.output + b.output, a.total + b.total, a.requests + b.requests, a.toolCalls + b.toolCalls)
  }

  function AddCost(a: Option<real>, b: Option<real>): Option<real> {
    if a.Some? && b.Some? then Some(a.value + b.value) else None
  }

  // ---------------------------------------------------------------- sections

  function Has(s: Sections, name: string): bool {
    s.Section? && (s.name == name || Has(s.rest, name))
  }

  /** The section called `name`; none when there is no such section or it holds no usage. */
  function Get(s: Sections, name: string): Option<Usage> {
    if s.Nil? then None else if s.name == name then s.part else Get(s.rest, name)
  }

  /** `s` with the section `name` set, in its place if it is there, otherwise at the end. */
  function Put(s: Sections, name: string, part: Option<Usage>): Sections {
    if s.Nil? then Section(name, part, Nil)
    else if s.name == name then s.(part := part)
    else s.(rest := Put(s.rest, name, part))
  }

  function Names(s: Sections): seq<string> {
    if s.Nil? then [] else [s.name] + Names(s.rest)
  }

  function PartSize(part: Option<Usage>): nat { if part.None? then 0 else 1 + SizeOf(part.value.auxiliary) }

  function SizeOf(s: Sections): nat {
    if s.Nil? then 0 else 1 + PartSize(s.part) + SizeOf(s.rest)
  }

  lemma {:induction false} GetIsSmaller(s: Sections, name: string)
    ensures PartSize(Get(s, name)) <= SizeOf(s)
    ensures Has(s, name) ==> PartSize(Get(s, name)) < SizeOf(s)
    ensures !Has(s, name) ==> Get(s, name) == None
  {
    if s.Section? {
      GetIsSmaller(s.rest, name);
    }
  }

  /** A usage is a nested dictionary: at every level names are distinct. */
  ghost predicate Sound(part: Option<Usage>) {
    part.Some? ==> SoundSections(part.value.auxiliary)
  }

  ghost predicate SoundSections(s: Sections) {
    s.Section? ==> !Has(s.rest, s.name) && Sound(s.part) && SoundSections(s.rest)
  }

  // ---------------------------------------------------------------- merging

  /** `merge_usage` of two snapshots. */
  function Merge(a: Option<Usage>, b: Option<Usage>): Option<Usage>
    decreases b
  {
    if a.None? then b
    else if b.None? then a
    else
      Some(Usage(Add(a.value.counts, b.value.counts), AddCost(a.value.cost, b.value.cost), a.value.tiers + b.value.tiers,
                 MergeSections(a.value.auxiliary, b.value.auxiliary)))
  }

  function MergeSections(acc: Sections, s: Sections): Sections
    decreases s
  {
    if s.Nil? then acc
    else MergeSections(Put(acc, s.name, Merge(Get(acc, s.name), s.part)), s.rest)
  }

  /** The merge of several snapshots, in order. */
  function MergeAll(parts: seq<Option<Usage>>): Option<Usage> {
    if parts == [] then None else Merge(MergeAll(parts[..|parts| - 1]), parts[|parts| - 1])
  }

  lemma {:induction false} PutFacts(s: Sections, name: string, part: Option<Usage>, other: string)
    ensures Get(Put(s, name, part), name) == part && Has(Put(s, name, part), name)
    ensures other != name ==> Get(Put(s, name, part), other) == Get(s, other) && (Has(Put(s, name, part), other) <==> Has(s, other))
    ensures Names(Put(s, name, part)) == Names(s) + (if Has(s, name) then [] else [name])
  {
    if s.Section? {
      PutFacts(s.rest, name, part, other);
      assert Names(s) + [] == Names(s);
      assert Names(s.rest) + [] == Names(s.rest);
    }
  }

  lemma {:induction false} HasNames(s: Sections, name: string)
    ensures Has(s, name) <==> name in Names(s)
  {
    if s.Section? {
      HasNames(s.rest, name);
    }
  }

  function NewNames(known: set<string>, names: seq<string>): seq<string> {
    if names == [] then []
    else (if names[0] in known then [] else [names[0]]) + NewNames(known, names[1..])
  }

  function Members(names: seq<string>): set<string> { set name | name in names }

  lemma {:induction false} NewNamesMember(known: set<string>, names: seq<string>, name: string)
    ensures name in NewNames(known, names) <==> name in names && name !in known
  {
    if names != [] {
      NewNamesMember(known, names[1..], name);
      assert names == [names[0]] + names[1..];
    }
  }

  lemma {:induction false} NewNamesAppend(known: set<string>, a: seq<string>, b: seq<string>)
    ensures NewNames(known, a + b) == NewNames(known, a) + NewNames(known, b)
  {
    if a == [] {
      assert a + b == b && [] + NewNames(known, b) == NewNames(known, b);
    } else {
      NewNamesAppend(known, a[1..], b);
      AppendRest(a, b);
      ConcatAssoc(if a[0] in known then [] else [a[0]], NewNames(known, a[1..]), NewNames(known, b));
    }
  }

  lemma {:induction false} NewNamesTwice(known: set<string>, also: set<string>, names: seq<string>)
    ensures NewNames(known, NewNames(also, names)) == NewNames(known + also, names)
  {
    if names != [] {
      NewNamesTwice(known, also, names[1..]);
      var rest := NewNames(also, names[1..]);
      if names[0] in also {
        assert NewNames(also, names) == rest;
      } else {
        assert NewNames(also, names) == [names[0]] + rest;
        assert ([names[0]] + rest)[1..] == rest;
      }
    }
  }

  lemma {:induction false} NewNamesSame(known: set<string>, also: set<string>, names: seq<string>)
    requires forall name :: name in names ==> (name in known <==> name in also)
    ensures NewNames(known, names) == NewNames(also, names)
  {
    if names != [] {
      assert names[0] in names;
      NewNamesSame(known, also, names[1..]);
    }
  }

  /** Merged section by section: each name has the merge of what the two sides had. */
  lemma {:induction false} MergedGet(acc: Sections, s: Sections, name: string)
    requires SoundSections(s)
    ensures Get(MergeSections(acc, s), name) == Merge(Get(acc, name), Get(s, name))
    ensures Has(MergeSections(acc, s), name) <==> Has(acc, name) || Has(s, name)
    decreases s
  {
    GetIsSmaller(s, name);
    if s.Section? {
      var part := Merge(Get(acc, s.name), s.part);
      MergedGet(Put(acc, s.name, part), s.rest, name);
      PutFacts(acc, s.name, part, name);
      GetIsSmaller(s.rest, name);
    }
  }

  lemma {:induction false} MergedNames(acc: Sections, s: Sections)
    requires SoundSections(s)
    ensures Names(MergeSections(acc, s)) == Names(acc) + NewNames(Members(Names(acc)), Names(s))
    decreases s
  {
    if s.Nil? {
      assert Names(acc) + [] == Names(acc);
    } else {
      var put := Put(acc, s.name, Merge(Get(acc, s.name), s.part));
      PutFacts(acc, s.name, Merge(Get(acc, s.name), s.part), s.name);
      MergedNames(put, s.rest);
      HasNames(acc, s.name);
      HasNames(s.rest, s.name);
      assert Names(s)[1..] == Names(s.rest);
      NewNamesSame(Members(Names(put)), Members(Names(acc)), Names(s.rest));
      var new_ := NewNames(Members(Names(acc)), Names(s.rest));
      if s.name in Names(acc) {
        assert Names(put) == Names(acc) && [] + new_ == new_;
      } else {
        assert (Names(acc) + [s.name]) + new_ == Names(acc) + ([s.name] + new_);
      }
    }
  }

  lemma {:induction false} PutSound(s: Sections, name: string, part: Option<Usage>)
    requires SoundSections(s) && Sound(part)
    ensures SoundSections(Put(s, name, part))
  {
    if s.Section? {
      PutSound(s.rest, name, part);
      PutFacts(s.rest, name, part, s.name);
    }
  }

  lemma {:induction false} GetSound(s: Sections, name: string)
    requires SoundSections(s)
    ensures Sound(Get(s, name))
  {
    if s.Section? {
      GetSound(s.rest, name);
    }
  }

  lemma {:induction false} MergeSound(a: Option<Usage>, b: Option<Usage>)
    requires Sound(a) && Sound(b)
    ensures Sound(Merge(a, b))
    decreases b
  {
    if a.Some? && b.Some? {
      MergeSectionsSound(a.value.auxiliary, b.value.auxiliary);
    }
  }

  lemma {:induction false} MergeSectionsSound(acc: Sections, s: Sections)
    requires SoundSections(acc) && SoundSections(s)
    ensures SoundSections(MergeSections(acc, s))
    decreases s
  {
    if s.Section? {
      GetSound(acc, s.name);
      MergeSound(Get(acc, s.name), s.part);
      PutSound(acc, s.name, Merge(Get(acc, s.name), s.part));
      MergeSectionsSound(Put(acc, s.name, Merge(Get(acc, s.name), s.part)), s.rest);
    }
  }

  /** Sections with the same names in the same order and the same parts are the same. */
  lemma {:induction false} SameSections(s: Sections, t: Sections)
    requires Names(s) == Names(t) && SoundSections(s) && SoundSections(t)
    requires forall name :: Has(s, name) ==> Get(s, name) == Get(t, name)
    ensures s == t
  {
    if s.Section? {
      assert Names(s)[0] == Names(t)[0] && Names(s)[1..] == Names(t)[1..];
      assert Get(s, s.name) == s.part && Get(t, s.name) == t.part;
      forall name | Has(s.rest, name) ensures Get(s.rest, name) == Get(t.rest, name) {
        assert name != s.name;
        assert Has(s, name) && Get(s, name) == Get(s.rest, name) && Get(t, name) == Get(t.rest, name);
      }
      SameSections(s.rest, t.rest);
    }
  }

  // ---------------------------------------------------------------- associativity

  /** Merging is associative, through every level of sections, order included. */
  lemma {:induction false} MergeIsAssociative(a: Option<Usage>, b: Option<Usage>, c: Option<Usage>)
    requires Sound(a) && Sound(b) && Sound(c)
    ensures Merge(Merge(a, b), c) == Merge(a, Merge(b, c))
    decreases PartSize(c)
  {
    if a.Some? && b.Some? && c.Some? {
      ConcatAssoc(a.value.tiers, b.value.tiers, c.value.tiers);
      SectionsAssociate(a.value.auxiliary, b.value.auxiliary, c.value.auxiliary);
    }
  }

  lemma {:induction false} SectionsAssociate(x: Sections, y: Sections, z: Sections)
    requires SoundSections(x) && SoundSections(y) && SoundSections(z)
    ensures MergeSections(MergeSections(x, y), z) == MergeSections(x, MergeSections(y, z))
    decreases SizeOf(z)
  {
    MergeSectionsSound(x, y);
    MergeSectionsSound(y, z);
    MergeSectionsSound(MergeSections(x, y), z);
    MergeSectionsSound(x, MergeSections(y, z));
    NamesAssociate(x, y, z);
    forall name | Has(MergeSections(MergeSections(x, y), z), name)
      ensures Get(MergeSections(MergeSections(x, y), z), name) == Get(MergeSections(x, MergeSections(y, z)), name)
    {
      PartsAssociate(x, y, z, name);
    }
    SameSections(MergeSections(MergeSections(x, y), z), MergeSections(x, MergeSections(y, z)));
  }

  lemma {:induction false} PartsAssociate(x: Sections, y: Sections, z: Sections, name: string)
    requires SoundSections(x) && SoundSections(y) && SoundSections(z)
    ensures Get(MergeSections(MergeSections(x, y), z), name) == Get(MergeSections(x, MergeSections(y, z)), name)
    decreases SizeOf(z), 0
  {
    MergeSectionsSound(y, z);
    MergedGet(x, y, name);
    MergedGet(y, z, name);
    MergedGet(MergeSections(x, y), z, name);
    MergedGet(x, MergeSections(y, z), name);
    GetIsSmaller(z, name);
    if Has(z, name) {
      GetSound(x, name);
      GetSound(y, name);
      GetSound(z, name);
      MergeIsAssociative(Get(x, name), Get(y, name), Get(z, name));
    }
  }

  lemma NamesAssociate(x: Sections, y: Sections, z: Sections)
    requires SoundSections(x) && SoundSections(y) && SoundSections(z)
    ensures Names(MergeSections(MergeSections(x, y), z)) == Names(MergeSections(x, MergeSections(y, z)))
  {
    var a, b, c := Names(x), Names(y), Names(z);
    MergeSectionsSound(y, z);
    MergedNames(x, y);
    MergedNames(y, z);
    MergedNames(MergeSections(x, y), z);
    MergedNames(x, MergeSections(y, z));
    NewNamesAppend(Members(a), b, NewNames(Members(b), c));
    NewNamesTwice(Members(a), Members(b), c);
    var ab := a + NewNames(Members(a), b);
    forall name | name in c ensures name in Members(ab) <==> name in Members(a) + Members(b) {
      NewNamesMember(Members(a), b, name);
    }
    NewNamesSame(Members(ab), Members(a) + Members(b), c);
    ConcatAssoc(a, NewNames(Members(a), b), NewNames(Members(a) + Members(b), c));
  }

  /** Several snapshots merged in one pass, with running sums. */
  method MergeUsage(parts: seq<Option<Usage>>) returns (merged: Option<Usage>)
    requires forall part :: part in parts ==> Sound(part)
    ensures merged == MergeAll(parts)
  {
    var counts, cost, auxiliary, tiers := ZERO, Some(0.0), Nil, [];
    var sawUsage := false;
    var i := 0;
    while i < |parts|
      invariant 0 <= i <= |parts|
      invariant !sawUsage ==> counts == ZERO && cost == Some(0.0) && auxiliary == Nil && tiers == []
      invariant MergeAll(parts[..i]) == if sawUsage then Some(Usage(counts, cost, tiers, auxiliary)) else None
    {
      assert parts[..i + 1][..i] == parts[..i];
      var usage := parts[i];
      assert usage in parts;
      i := i + 1;
      if usage.None? {
        continue;
      }
      tiers := tiers + usage.value.tiers;
      counts := Add(counts, usage.value.counts);
      cost := AddCost(cost, usage.value.cost);
      if !sawUsage {
        FromNothing(usage.value.auxiliary);
        assert [] + usage.value.tiers == usage.value.tiers;
      }
      auxiliary := MergeSections(auxiliary, usage.value.auxiliary);
      sawUsage := true;
    }
    assert parts[..|parts|] == parts;
    merged := if sawUsage then Some(Usage(counts, cost, tiers, auxiliary)) else None;
  }

  lemma FromNothing(s: Sections)
    requires SoundSections(s)
    ensures MergeSections(Nil, s) == s
  {
    MergeSectionsSound(Nil, s);
    MergedNames(Nil, s);
    NoneKnown(Names(s));
    forall name | Has(MergeSections(Nil, s), name) ensures Get(MergeSections(Nil, s), name) == Get(s, name) {
      MergedGet(Nil, s, name);
    }
    assert [] + Names(s) == Names(s);
    SameSections(MergeSections(Nil, s), s);
  }

  lemma {:induction false} NoneKnown(names: seq<string>)
    ensures NewNames(Members([]), names) == names
  {
    if names != [] {
      NoneKnown(names[1..]);
    }
  }

  function Total(part: Option<Usage>): int { if part.None? then 0 else part.value.counts.total }

  function TotalOf(parts: seq<Option<Usage>>): int {
    if parts == [] then 0 else TotalOf(parts[..|parts| - 1]) + Total(parts[|parts| - 1])
  }

  /** Nothing is lost or counted twice: the merged total is the sum of the totals. */
  lemma {:induction false} TotalsAdd(parts: seq<Option<Usage>>)
    ensures Total(MergeAll(parts)) == TotalOf(parts)
  {
    if parts != [] {
      TotalsAdd(parts[..|parts| - 1]);
    }
  }

  // ---------------------------------------------------------------- what a merge holds

  /** The counts that are kept. */
  datatype Field = InputTokens | OutputTokens | TotalTokens | Requests | ToolCalls

  function Value(part: Option<Usage>, field: Field): int {
    if part.None? then 0
    else
      match field
      case InputTokens => part.value.counts.input
      case OutputTokens => part.value.counts.output
      case TotalTokens => part.value.counts.total
      case Requests => part.value.counts.requests
      case ToolCalls => part.value.counts.toolCalls
  }

  function SumOf(parts: seq<Option<Usage>>, field: Field): int {
    if parts == [] then 0 else SumOf(parts[..|parts| - 1], field) + Value(parts[|parts| - 1], field)
  }

  function CostsOf(parts: seq<Option<Usage>>): real {
    if parts == [] then 0.0
    else
      var part := parts[|parts| - 1];
      CostsOf(parts[..|parts| - 1]) + (if part.Some? && part.value.cost.Some? then part.value.cost.value else 0.0)
  }

  function TiersOf(parts: seq<Option<Usage>>): seq<Tier> {
    if parts == [] then []
    else TiersOf(parts[..|parts| - 1]) + (if parts[|parts| - 1].Some? then parts[|parts| - 1].value.tiers else [])
  }

  /** The sections of one name, part by part. */
  function Named(parts: seq<Option<Usage>>, name: string): seq<Option<Usage>> {
    if parts == [] then [] else Named(parts[..|parts| - 1], name) + [Get(Auxiliary(parts[|parts| - 1]), name)]
  }

  lemma {:induction false} MergedValues(parts: seq<Option<Usage>>, field: Field)
    ensures Value(MergeAll(parts), field) == SumOf(parts, field)
    ensures MergeAll(parts).Some? <==> exists i :: 0 <= i < |parts| && parts[i].Some?
  {
    if parts != [] {
      var front, last := parts[..|parts| - 1], parts[|parts| - 1];
      MergedValues(front, field);
      assert forall i :: 0 <= i < |front| ==> front[i] == parts[i];
      assert parts[|front|] == last;
    }
  }

  lemma {:induction false} MergedCost(parts: seq<Option<Usage>>)
    requires MergeAll(parts).Some?
    ensures MergeAll(parts).value.cost.Some? <==> forall i :: 0 <= i < |parts| && parts[i].Some? ==> parts[i].value.cost.Some?
    ensures MergeAll(parts).value.cost.Some? ==> MergeAll(parts).value.cost.value == CostsOf(parts)
  {
    var front, last := parts[..|parts| - 1], parts[|parts| - 1];
    assert forall i :: 0 <= i < |front| ==> front[i] == parts[i];
    assert parts[|front|] == last;
    MergedValues(front, TotalTokens);
    if MergeAll(front).Some? {
      MergedCost(front);
    } else {
      NothingBefore(front);
    }
  }

  lemma {:induction false} MergedTiers(parts: seq<Option<Usage>>)
    ensures TiersOf(parts) == if MergeAll(parts).Some? then MergeAll(parts).value.tiers else []
  {
    if parts != [] {
      var front, last := parts[..|parts| - 1], parts[|parts| - 1];
      MergedTiers(front);
      assert TiersOf(front) + [] == TiersOf(front);
      assert last.Some? ==> [] + last.value.tiers == last.value.tiers;
    }
  }

  lemma {:induction false} MergedSections(parts: seq<Option<Usage>>, name: string)
    requires forall i :: 0 <= i < |parts| ==> Sound(parts[i])
    ensures Get(Auxiliary(MergeAll(parts)), name) == MergeAll(Named(parts, name))
  {
    if parts != [] {
      var front, last := parts[..|parts| - 1], parts[|parts| - 1];
      assert forall i :: 0 <= i < |front| ==> front[i] == parts[i];
      MergedSections(front, name);
      SectionMerged(MergeAll(front), last, name);
      MergeAllSnoc(Named(front, name), Get(Auxiliary(last), name));
    }
  }

  /** The merge of several snapshots, part by part: there is one if there is any; each count
      is the sum of theirs; the cost is the sum of theirs if each has one; their tiers follow
      each other; and each section is the merge of theirs. */
  lemma MergeHolds(parts: seq<Option<Usage>>, field: Field, name: string)
    requires forall i :: 0 <= i < |parts| ==> Sound(parts[i])
    ensures var merged := MergeAll(parts);
            && (merged.Some? <==> exists i :: 0 <= i < |parts| && parts[i].Some?)
            && Value(merged, field) == SumOf(parts, field)
            && (merged.Some? ==>
                  && (merged.value.cost.Some? <==> forall i :: 0 <= i < |parts| && parts[i].Some? ==> parts[i].value.cost.Some?)
                  && (merged.value.cost.Some? ==> merged.value.cost.value == CostsOf(parts))
                  && merged.value.tiers == TiersOf(parts))
            && Get(Auxiliary(merged), name) == MergeAll(Named(parts, name))
  {
    MergedValues(parts, field);
    if MergeAll(parts).Some? {
      MergedCost(parts);
    }
    MergedTiers(parts);
    MergedSections(parts, name);
  }

  lemma MergeAllSnoc(parts: seq<Option<Usage>>, part: Option<Usage>)
    ensures MergeAll(parts + [part]) == Merge(MergeAll(parts), part)
  {
    assert (parts + [part])[..|parts|] == parts;
  }

  lemma {:induction false} NothingBefore(parts: seq<Option<Usage>>)
    requires forall i :: 0 <= i < |parts| ==> parts[i].None?
    ensures CostsOf(parts) == 0.0 && TiersOf(parts) == []
  {
    if parts != [] {
      NothingBefore(parts[..|parts| - 1]);
    }
  }

  lemma SectionMerged(a: Option<Usage>, b: Option<Usage>, name: string)
    requires Sound(b)
    ensures Get(Auxiliary(Merge(a, b)), name) == Merge(Get(Auxiliary(a), name), Get(Auxiliary(b), name))
  {
    if a.Some? && b.Some? {
      MergedGet(a.value.auxiliary, b.value.auxiliary, name);
    }
  }

  // ---------------------------------------------------------------- auxiliary sections

  /** `usage` with `part` added to its section `name`. */
  function WithAuxiliary(usage: Option<Usage>, name: string, part: Option<Usage>): Option<Usage> {
    if part.None? then usage
    else
      var base := if usage.Some? then usage.value else Usage(ZERO, None, [], Nil);
      Some(base.(auxiliary := Put(base.auxiliary, name, Merge(Get(base.auxiliary, name), part))))
  }

  const WORKING_MEMORY := "working_memory"
  const SUMMARIZATION := "summarization"

  function Auxiliary(usage: Option<Usage>): Sections { if usage.Some? then usage.value.auxiliary else Nil }

  /** What one section of the row adds to a snapshot about to be written over it. */
  function KeepSection(usage: Option<Usage>, name: string, part: Option<Usage>): Option<Usage> {
    if name == WORKING_MEMORY && Has(Auxiliary(usage), name) then
      Some(usage.value.(auxiliary := Put(usage.value.auxiliary, name, part)))
    else if !Has(Auxiliary(usage), name) then WithAuxiliary(usage, name, part)
    else usage
  }

  function KeepSections(usage: Option<Usage>, existing: Sections): Option<Usage>
    decreases existing
  {
    if existing.Nil? then usage
    else KeepSections(KeepSection(usage, existing.name, existing.part), existing.rest)
  }

  /** `_keep_row_auxiliary`: the memory total of the row, and the sections the snapshot lacks. */
  method KeepRowAuxiliary(snapshot: Option<Usage>, row: Option<Usage>) returns (usage: Option<Usage>)
    ensures usage == KeepSections(snapshot, Auxiliary(row))
  {
    usage := snapshot;
    var existing := Auxiliary(row);
    while existing.Section?
      invariant KeepSections(snapshot, Auxiliary(row)) == KeepSections(usage, existing)
      decreases existing
    {
      var name, part := existing.name, existing.part;
      var auxiliary := Auxiliary(usage);
      if name == WORKING_MEMORY && Has(auxiliary, name) {
        usage := Some(usage.value.(auxiliary := Put(auxiliary, name, part)));
      } else if !Has(auxiliary, name) {
        usage := WithAuxiliary(usage, name, part);
      }
      existing := existing.rest;
    }
  }

  /** Every section holds a usage. */
  predicate Filled(s: Sections) { s.Section? ==> s.part.Some? && Filled(s.rest) }

  lemma {:induction false} FilledGet(s: Sections, name: string)
    requires Filled(s)
    ensures Has(s, name) <==> Get(s, name).Some?
  {
    if s.Section? {
      FilledGet(s.rest, name);
    }
  }

  /** After the row's sections are kept, each name has: the row's memory total; what the
      snapshot had; or, where it had nothing, what the row has. */
  lemma {:induction false} KeptGet(usage: Option<Usage>, existing: Sections, name: string)
    requires SoundSections(existing) && Filled(existing)
    ensures Get(Auxiliary(KeepSections(usage, existing)), name)
         == if Has(existing, name) && (name == WORKING_MEMORY || !Has(Auxiliary(usage), name)) then Get(existing, name)
            else Get(Auxiliary(usage), name)
    ensures Has(Auxiliary(KeepSections(usage, existing)), name) <==> Has(Auxiliary(usage), name) || Has(existing, name)
    decreases existing
  {
    if existing.Section? {
      var next := KeepSection(usage, existing.name, existing.part);
      KeptOne(usage, existing.name, existing.part, name);
      KeptGet(next, existing.rest, name);
    }
  }

  lemma KeptOne(usage: Option<Usage>, name: string, part: Option<Usage>, other: string)
    requires part.Some?
    ensures var next := Auxiliary(KeepSection(usage, name, part));
            && Has(next, name) && (Has(next, other) <==> Has(Auxiliary(usage), other) || other == name)
            && (other != name ==> Get(next, other) == Get(Auxiliary(usage), other))
            && Get(next, name) == if name == WORKING_MEMORY || !Has(Auxiliary(usage), name) then part else Get(Auxiliary(usage), name)
  {
    var s := Auxiliary(usage);
    GetIsSmaller(s, name);
    PutFacts(s, name, part, other);
    PutFacts(s, name, Merge(Get(s, name), part), other);
  }

  // ---------------------------------------------------------------- the usage of one row

  /** One assistant row's committed usage, what the turn now writing it started from and has
      now, and the extractions committed to it so far. */
  datatype RowUsage = RowUsage(row: Option<Usage>, prior: Option<Usage>, turn: Option<Usage>, extracted: seq<Option<Usage>>)

  /** A turn on the row starts from the row's usage; a run's counts are cumulative within its
      turn, so they are added to what the turn started from; the turn's snapshot
      is written, with what its summarisation used; a background extraction is committed.
      They interleave in any order. */
  datatype Event =
    | StartTurn
    | RunEnds(run: Usage)
    | Persist(summarisation: Option<Usage>)
    | Extract(memory: Usage)

  predicate Enabled(u: RowUsage, e: Event) {
    match e
    case Extract(_) => u.row.Some?
    case RunEnds(run) => run.auxiliary == Nil
    case _ => true
  }

  function Snapshot(u: RowUsage, summarisation: Option<Usage>): Option<Usage> {
    WithAuxiliary(u.turn, SUMMARIZATION, summarisation)
  }

  function Next(u: RowUsage, e: Event): RowUsage {
    match e
    case StartTurn => u.(prior := u.row, turn := u.row)
    case RunEnds(run) => u.(turn := Merge(u.prior, Some(run)))
    case Persist(summarisation) => u.(row := KeepSections(Snapshot(u, summarisation), Auxiliary(u.row)))
    case Extract(memory) => u.(row := WithAuxiliary(u.row, WORKING_MEMORY, Some(memory)), extracted := u.extracted + [Some(memory)])
  }

  predicate Runs(u: RowUsage, events: seq<Event>, u': RowUsage)
    decreases |events|
  {
    if events == [] then u' == u
    else Enabled(u, events[0]) && Runs(Next(u, events[0]), events[1..], u')
  }

  ghost predicate RowOk(usage: Option<Usage>) { SoundSections(Auxiliary(usage)) && Filled(Auxiliary(usage)) }

  /** The row's memory total is the merge of every committed extraction; a turn that knows
      a memory total has it from the row. */
  ghost predicate Inv(u: RowUsage) {
    && RowOk(u.row) && RowOk(u.prior) && RowOk(u.turn)
    && Get(Auxiliary(u.row), WORKING_MEMORY) == MergeAll(u.extracted)
    && (Has(Auxiliary(u.prior), WORKING_MEMORY) || Has(Auxiliary(u.turn), WORKING_MEMORY) ==>
          Has(Auxiliary(u.row), WORKING_MEMORY))
  }

  /** A row as it is first seen: new, or stored with what was committed to it before. */
  function Loaded(usage: Option<Usage>): RowUsage {
    var known := Get(Auxiliary(usage), WORKING_MEMORY);
    RowUsage(usage, None, None, if known.Some? then [known] else [])
  }

  lemma StartsSafe(usage: Option<Usage>)
    requires RowOk(usage)
    ensures Inv(Loaded(usage))
  {
    FilledGet(Auxiliary(usage), WORKING_MEMORY);
    var known := Get(Auxiliary(usage), WORKING_MEMORY);
    if known.Some? {
      assert [known][..0] == [];
      assert MergeAll([known]) == Merge(MergeAll([]), known);
    }
  }

  lemma NewRowIsSafe()
    ensures Inv(RowUsage(None, None, None, []))
  {
    StartsSafe(None);
  }

  lemma {:induction false} PutFilled(s: Sections, name: string, part: Option<Usage>)
    requires Filled(s) && part.Some?
    ensures Filled(Put(s, name, part))
  {
    if s.Section? {
      PutFilled(s.rest, name, part);
    }
  }

  lemma WithAuxiliaryOk(usage: Option<Usage>, name: string, part: Option<Usage>)
    requires RowOk(usage) && Sound(part)
    ensures RowOk(WithAuxiliary(usage, name, part))
    ensures part.Some? ==> Get(Auxiliary(WithAuxiliary(usage, name, part)), name) == Merge(Get(Auxiliary(usage), name), part)
    ensures forall other :: other != name || part.None? ==>
              Get(Auxiliary(WithAuxiliary(usage, name, part)), other) == Get(Auxiliary(usage), other)
              && (Has(Auxiliary(WithAuxiliary(usage, name, part)), other) <==> Has(Auxiliary(usage), other))
  {
    if part.Some? {
      var s := Auxiliary(usage);
      GetSound(s, name);
      MergeSound(Get(s, name), part);
      PutSound(s, name, Merge(Get(s, name), part));
      PutFilled(s, name, Merge(Get(s, name), part));
      var merged := Merge(Get(s, name), part);
      forall other | other != name
        ensures Get(Put(s, name, merged), other) == Get(s, other) && (Has(Put(s, name, merged), other) <==> Has(s, other))
      {
        PutFacts(s, name, merged, other);
      }
      PutFacts(s, name, Merge(Get(s, name), part), name);
    }
  }

  lemma {:induction false} KeepOk(usage: Option<Usage>, existing: Sections)
    requires RowOk(usage) && SoundSections(existing) && Filled(existing)
    ensures RowOk(KeepSections(usage, existing))
    decreases existing
  {
    if existing.Section? {
      var name, part := existing.name, existing.part;
      WithAuxiliaryOk(usage, name, part);
      PutSound(Auxiliary(usage), name, part);
      PutFilled(Auxiliary(usage), name, part);
      KeepOk(KeepSection(usage, name, part), existing.rest);
    }
  }

  lemma PersistStep(u: RowUsage, summarisation: Option<Usage>)
    requires Inv(u) && Sound(summarisation)
    ensures Inv(Next(u, Persist(summarisation)))
  {
    var snapshot := Snapshot(u, summarisation);
    WithAuxiliaryOk(u.turn, SUMMARIZATION, summarisation);
    KeepOk(snapshot, Auxiliary(u.row));
    KeptGet(snapshot, Auxiliary(u.row), WORKING_MEMORY);
    GetIsSmaller(Auxiliary(u.row), WORKING_MEMORY);
    GetIsSmaller(Auxiliary(snapshot), WORKING_MEMORY);
  }

  lemma ExtractStep(u: RowUsage, memory: Usage)
    requires Inv(u) && Enabled(u, Extract(memory)) && Sound(Some(memory))
    ensures Inv(Next(u, Extract(memory)))
  {
    WithAuxiliaryOk(u.row, WORKING_MEMORY, Some(memory));
    FilledGet(Auxiliary(Next(u, Extract(memory)).row), WORKING_MEMORY);
    assert Next(u, Extract(memory)).extracted[..|u.extracted|] == u.extracted;
  }

  lemma RunEndsStep(u: RowUsage, run: Usage)
    requires Inv(u) && Enabled(u, RunEnds(run))
    ensures Inv(Next(u, RunEnds(run)))
  {
    MergeSound(u.prior, Some(run));
    if u.prior.Some? {
      assert MergeSections(u.prior.value.auxiliary, Nil) == u.prior.value.auxiliary;
    }
  }

  /** The inputs of an event are nested dictionaries. */
  ghost predicate SoundEvent(e: Event) {
    match e
    case Persist(summarisation) => Sound(summarisation)
    case Extract(memory) => Sound(Some(memory))
    case _ => true
  }

  lemma StepIsSafe(u: RowUsage, e: Event)
    requires Inv(u) && Enabled(u, e) && SoundEvent(e)
    ensures Inv(Next(u, e))
  {
    match e
    case StartTurn =>
    case RunEnds(run) => RunEndsStep(u, run);
    case Persist(summarisation) => PersistStep(u, summarisation);
    case Extract(memory) => ExtractStep(u, memory);
  }

  /** Under any interleaving of snapshots and extractions the row's memory total is the merge
      of every committed extraction, and its token total their sum. */
  lemma {:induction false} MemoryIsConserved(u: RowUsage, events: seq<Event>, u': RowUsage)
    requires Inv(u) && Runs(u, events, u') && forall e :: e in events ==> SoundEvent(e)
    ensures Inv(u') && Get(Auxiliary(u'.row), WORKING_MEMORY) == MergeAll(u'.extracted)
    ensures Total(Get(Auxiliary(u'.row), WORKING_MEMORY)) == TotalOf(u'.extracted)
    decreases |events|
  {
    if events != [] {
      assert events[0] in events;
      StepIsSafe(u, events[0]);
      MemoryIsConserved(Next(u, events[0]), events[1..], u');
    }
    TotalsAdd(u'.extracted);
  }

  /** What a snapshot writes, section by section: the row's memory total; what the turn has
      summarised, with the summarisation at hand; and of any other name what the turn has, or
      else what the row has. */
  lemma PersistedSections(u: RowUsage, summarisation: Option<Usage>, name: string)
    requires Inv(u) && Sound(summarisation)
    ensures var row, turn, written := Auxiliary(u.row), Auxiliary(u.turn), Auxiliary(Next(u, Persist(summarisation)).row);
            && (name == WORKING_MEMORY && Has(row, name) ==> Get(written, name) == Get(row, name))
            && (name == SUMMARIZATION && summarisation.Some? ==> Get(written, name) == Merge(Get(turn, name), summarisation))
            && (name != WORKING_MEMORY && (name != SUMMARIZATION || summarisation.None?) ==>
                  Get(written, name) == if Has(turn, name) then Get(turn, name) else Get(row, name))
  {
    WithAuxiliaryOk(u.turn, SUMMARIZATION, summarisation);
    KeptGet(Snapshot(u, summarisation), Auxiliary(u.row), name);
    GetIsSmaller(Auxiliary(u.row), name);
    GetIsSmaller(Auxiliary(u.turn), name);
    FilledGet(Auxiliary(Snapshot(u, summarisation)), name);
    assert |WORKING_MEMORY| != |SUMMARIZATION|;
  }

  // ---------------------------------------------------------------- the tokens of a row

  /** The last run of the turn so far. */
  function LastRun(events: seq<Event>): Option<Usage> {
    if events == [] then None
    else
      match events[|events| - 1]
      case StartTurn => None
      case RunEnds(run) => Some(run)
      case _ => LastRun(events[..|events| - 1])
  }

  lemma RunsFront(u: RowUsage, events: seq<Event>, u': RowUsage) returns (m: RowUsage)
    requires Runs(u, events, u') && events != []
    ensures Runs(u, events[..|events| - 1], m) && Enabled(m, events[|events| - 1]) && Next(m, events[|events| - 1]) == u'
    decreases |events|
  {
    if |events| == 1 {
      m := u;
    } else {
      m := RunsFront(Next(u, events[0]), events[1..], u');
      assert events[1..][..|events| - 2] == events[..|events| - 1][1..];
      assert events[1..][|events| - 2] == events[|events| - 1];
    }
  }

  /** What a turn has used is what its row had when it began and what its last run counted,
      in every interleaving with snapshots and extractions. */
  lemma {:induction false} TurnIsPriorAndRun(u: RowUsage, events: seq<Event>, u': RowUsage)
    requires Runs(u, events, u') && u.turn == u.prior
    ensures u'.turn == Merge(u'.prior, LastRun(events))
    decreases |events|
  {
    if events != [] {
      var m := RunsFront(u, events, u');
      TurnIsPriorAndRun(u, events[..|events| - 1], m);
    }
  }

  lemma AuxiliaryCounts(usage: Option<Usage>, name: string, part: Option<Usage>, field: Field)
    ensures Value(WithAuxiliary(usage, name, part), field) == Value(usage, field)
  {
  }

  lemma {:induction false} KeptCounts(usage: Option<Usage>, existing: Sections, field: Field)
    ensures Value(KeepSections(usage, existing), field) == Value(usage, field)
    decreases existing
  {
    if existing.Section? {
      AuxiliaryCounts(usage, existing.name, existing.part, field);
      KeptCounts(KeepSection(usage, existing.name, existing.part), existing.rest, field);
    }
  }

  /** A snapshot writes the sum of both: a turn's counts are added to its row's once, however
      often it is written. */
  lemma RowCountsOnce(u: RowUsage, events: seq<Event>, u': RowUsage, summarisation: Option<Usage>, field: Field)
    requires Runs(u, events, u') && u.turn == u.prior
    ensures Value(Next(u', Persist(summarisation)).row, field) == Value(u'.prior, field) + Value(LastRun(events), field)
  {
    TurnIsPriorAndRun(u, events, u');
    AuxiliaryCounts(u'.turn, SUMMARIZATION, summarisation, field);
    KeptCounts(Snapshot(u', summarisation), Auxiliary(u'.row), field);
  }

  /** What a turn begins with is what its row has then, and extractions leave that alone. */
  lemma TurnBeginsFromRow(u: RowUsage, memory: Usage, field: Field)
    ensures Next(u, StartTurn).prior == u.row && Next(u, StartTurn).turn == u.row
    ensures Value(Next(u, Extract(memory)).row, field) == Value(u.row, field)
  {
    AuxiliaryCounts(u.row, WORKING_MEMORY, Some(memory), field);
  }

  // ---------------------------------------------------------------- writing twice

  lemma KeptOneNames(usage: Option<Usage>, name: string, part: Option<Usage>)
    requires part.Some?
    ensures var known := Names(Auxiliary(usage));
            Names(Auxiliary(KeepSection(usage, name, part))) == if name in known then known else known + [name]
  {
    var s := Auxiliary(usage);
    PutFacts(s, name, part, name);
    PutFacts(s, name, Merge(Get(s, name), part), name);
    HasNames(s, name);
    assert Names(s) + [] == Names(s);
  }

  lemma {:induction false} KeptNames(usage: Option<Usage>, existing: Sections)
    requires SoundSections(existing) && Filled(existing)
    ensures Names(Auxiliary(KeepSections(usage, existing)))
         == Names(Auxiliary(usage)) + NewNames(Members(Names(Auxiliary(usage))), Names(existing))
    decreases existing
  {
    var known := Names(Auxiliary(usage));
    if existing.Nil? {
      assert known + [] == known;
    } else {
      var name, part := existing.name, existing.part;
      var next := KeepSection(usage, name, part);
      KeptOneNames(usage, name, part);
      HasNames(existing.rest, name);
      KeptNames(next, existing.rest);
      assert Names(existing)[1..] == Names(existing.rest);
      NewNamesSame(Members(Names(Auxiliary(next))), Members(known), Names(existing.rest));
      var new_ := NewNames(Members(known), Names(existing.rest));
      if name in known {
        assert known + [] == known && [] + new_ == new_;
      } else {
        assert (known + [name]) + new_ == known + ([name] + new_);
      }
    }
  }

  lemma {:induction false} KeptRest(usage: Option<Usage>, existing: Sections)
    requires Filled(existing)
    ensures usage.Some? ==>
              KeepSections(usage, existing).Some?
              && KeepSections(usage, existing).value == usage.value.(auxiliary := Auxiliary(KeepSections(usage, existing)))
    ensures usage.None? && existing.Nil? ==> KeepSections(usage, existing) == None
    ensures usage.None? && existing.Section? ==>
              KeepSections(usage, existing) == Some(Usage(ZERO, None, [], Auxiliary(KeepSections(usage, existing))))
    decreases existing
  {
    if existing.Section? {
      KeptRest(KeepSection(usage, existing.name, existing.part), existing.rest);
    }
  }

  lemma {:induction false} AllKnown(known: set<string>, names: seq<string>)
    requires forall name :: name in names ==> name in known
    ensures NewNames(known, names) == []
  {
    if names != [] {
      assert names[0] in names;
      AllKnown(known, names[1..]);
    }
  }

  lemma KeptNamesTwice(usage: Option<Usage>, existing: Sections, kept: Sections)
    requires SoundSections(existing) && Filled(existing) && SoundSections(kept) && Filled(kept)
    requires kept == Auxiliary(KeepSections(usage, existing))
    ensures Names(Auxiliary(KeepSections(usage, kept))) == Names(kept)
  {
    var known := Names(Auxiliary(usage));
    KeptNames(usage, existing);
    KeptNames(usage, kept);
    var new_ := NewNames(Members(known), Names(existing));
    NewNamesAppend(Members(known), known, new_);
    AllKnown(Members(known), known);
    NewNamesTwice(Members(known), Members(known), Names(existing));
    assert Members(known) + Members(known) == Members(known);
    assert [] + new_ == new_;
  }

  /** Writing an unchanged snapshot again changes nothing. */
  lemma PersistIsIdempotent(u: RowUsage, summarisation: Option<Usage>)
    requires Inv(u) && Sound(summarisation)
    ensures Next(Next(u, Persist(summarisation)), Persist(summarisation)) == Next(u, Persist(summarisation))
  {
    var snapshot := Snapshot(u, summarisation);
    WithAuxiliaryOk(u.turn, SUMMARIZATION, summarisation);
    KeepTwice(snapshot, Auxiliary(u.row));
  }

  lemma KeepTwice(usage: Option<Usage>, existing: Sections)
    requires RowOk(usage) && SoundSections(existing) && Filled(existing)
    ensures KeepSections(usage, Auxiliary(KeepSections(usage, existing))) == KeepSections(usage, existing)
  {
    var kept := Auxiliary(KeepSections(usage, existing));
    KeepOk(usage, existing);
    KeepOk(usage, kept);
    var again := Auxiliary(KeepSections(usage, kept));
    KeptNamesTwice(usage, existing, kept);
    forall name | Has(again, name) ensures Get(again, name) == Get(kept, name) {
      KeptGet(usage, existing, name);
      KeptGet(usage, kept, name);
    }
    SameSections(again, kept);
    KeptRest(usage, existing);
    KeptRest(usage, kept);
    KeptSome(usage, existing);
  }

  lemma KeptSome(usage: Option<Usage>, existing: Sections)
    requires SoundSections(existing) && Filled(existing)
    ensures usage.None? && existing.Section? ==> Auxiliary(KeepSections(usage, existing)).Section?
  {
    if usage.None? && existing.Section? {
      KeptGet(usage, existing, existing.name);
    }
  }
}
