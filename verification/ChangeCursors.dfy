/** Reading changes page by page with a cursor over `(updated_at, id)`. */
module ChangeCursors {
  import opened Basics

  datatype Record = Record(id: nat, updatedAt: int, content: string)

  /** A position: a time and, unless it was a bare time, the id read last. */
  datatype Cursor = Cursor(updatedAt: int, id: Option<nat>)

  /** The order records are read in. */
  predicate Less(a: Record, b: Record) {
    a.updatedAt < b.updatedAt || (a.updatedAt == b.updatedAt && a.id < b.id)
  }

  predicate Admits(c: Cursor, r: Record) {
    if c.id.None? then r.updatedAt > c.updatedAt
    else r.updatedAt > c.updatedAt || (r.updatedAt == c.updatedAt && r.id > c.id.value)
  }

  predicate After(c: Option<Cursor>, r: Record) { c.None? || Admits(c.value, r) }

  function Admitted(records: seq<Record>, c: Option<Cursor>): seq<Record> {
    if records == [] then []
    else
      var r := records[|records| - 1];
      Admitted(records[..|records| - 1], c) + (if After(c, r) then [r] else [])
  }

  function Insert(r: Record, sorted: seq<Record>): seq<Record> {
    if sorted == [] || Less(r, sorted[0]) then [r] + sorted else [sorted[0]] + Insert(r, sorted[1..])
  }

  function Sort(records: seq<Record>): seq<Record> {
    if records == [] then [] else Insert(records[|records| - 1], Sort(records[..|records| - 1]))
  }

  function Take(records: seq<Record>, limit: nat): seq<Record> {
    if |records| <= limit then records else records[..limit]
  }

  /** The records changed after the cursor, oldest change first, at most `limit`; from the
      beginning without one. */
  function Changed(records: seq<Record>, c: Option<Cursor>, limit: nat): seq<Record> {
    Take(Sort(Admitted(records, c)), limit)
  }

  function NextCursor(page: seq<Record>, after: Option<Cursor>): Option<Cursor> {
    if page == [] then after else Some(Cursor(page[|page| - 1].updatedAt, Some(page[|page| - 1].id)))
  }

  // ---------------------------------------------------------------- order

  ghost predicate Sorted(s: seq<Record>) { forall i, j :: 0 <= i < j < |s| ==> Less(s[i], s[j]) }

  ghost predicate DistinctIds(records: seq<Record>) {
    forall i, j :: 0 <= i < j < |records| ==> records[i].id != records[j].id
  }

  lemma {:induction false} InsertSorts(r: Record, s: seq<Record>)
    requires Sorted(s) && forall x :: x in s ==> x.id != r.id
    ensures Sorted(Insert(r, s))
    ensures forall x :: x in Insert(r, s) <==> x == r || x in s
    ensures |Insert(r, s)| == |s| + 1
  {
    if s != [] && !Less(r, s[0]) {
      assert s[0] in s && Less(s[0], r);
      assert s == [s[0]] + s[1..];
      forall x | x in s[1..] ensures x.id != r.id && Less(s[0], x) {
        var i :| 0 <= i < |s[1..]| && s[1..][i] == x;
        assert s[i + 1] == x;
      }
      InsertSorts(r, s[1..]);
    } else if s != [] {
      forall x | x in s ensures Less(r, x) {
        var i :| 0 <= i < |s| && s[i] == x;
        assert i > 0 ==> Less(s[0], s[i]);
      }
    }
  }

  lemma {:induction false} SortSorts(records: seq<Record>)
    requires DistinctIds(records)
    ensures Sorted(Sort(records)) && |Sort(records)| == |records|
    ensures forall x :: x in Sort(records) <==> x in records
  {
    if records != [] {
      var front, last := records[..|records| - 1], records[|records| - 1];
      assert records == front + [last];
      SortSorts(front);
      forall x | x in Sort(front) ensures x.id != last.id {
        var i :| 0 <= i < |front| && front[i] == x;
        assert records[i].id != records[|records| - 1].id;
      }
      InsertSorts(last, Sort(front));
    }
  }

  lemma {:induction false} AdmittedMembers(records: seq<Record>, c: Option<Cursor>)
    ensures forall x :: x in Admitted(records, c) <==> x in records && After(c, x)
  {
    if records != [] {
      AdmittedMembers(records[..|records| - 1], c);
      assert records == records[..|records| - 1] + [records[|records| - 1]];
    }
  }

  lemma {:induction false} AdmittedDistinct(records: seq<Record>, c: Option<Cursor>)
    requires DistinctIds(records)
    ensures DistinctIds(Admitted(records, c))
  {
    if records != [] {
      var front, last := records[..|records| - 1], records[|records| - 1];
      AdmittedDistinct(front, c);
      AdmittedMembers(front, c);
      var a := Admitted(front, c);
      forall i | 0 <= i < |a| ensures a[i].id != last.id {
        assert a[i] in front;
        var j :| 0 <= j < |front| && front[j] == a[i];
        assert records[j].id != records[|records| - 1].id;
      }
    }
  }

  /** What a reader at the cursor has still to read, in order. */
  lemma Pending(records: seq<Record>, c: Option<Cursor>)
    requires DistinctIds(records)
    ensures Sorted(Sort(Admitted(records, c)))
    ensures forall x :: x in Sort(Admitted(records, c)) <==> x in records && After(c, x)
  {
    AdmittedDistinct(records, c);
    AdmittedMembers(records, c);
    SortSorts(Admitted(records, c));
  }

  lemma {:induction false} SortedUnique(s: seq<Record>, t: seq<Record>)
    requires Sorted(s) && Sorted(t) && forall x :: x in s <==> x in t
    ensures s == t
  {
    if s == [] {
      NoMembers(t);
    } else {
      assert s[0] in t;
      assert t != [];
      FirstIsSame(s, t);
      forall x ensures x in s[1..] <==> x in t[1..] {
        RestMember(s, x);
        RestMember(t, x);
      }
      SortedUnique(s[1..], t[1..]);
      assert s == [s[0]] + s[1..] && t == [t[0]] + t[1..];
    }
  }

  lemma FirstIsLeast(s: seq<Record>, x: Record)
    requires Sorted(s) && x in s
    ensures x == s[0] || Less(s[0], x)
  {
    var i :| 0 <= i < |s| && s[i] == x;
    assert i > 0 ==> Less(s[0], s[i]);
  }

  lemma FirstIsSame(s: seq<Record>, t: seq<Record>)
    requires Sorted(s) && Sorted(t) && s != [] && t != [] && forall x :: x in s <==> x in t
    ensures s[0] == t[0]
  {
    FirstIsLeast(s, t[0]);
    FirstIsLeast(t, s[0]);
  }

  lemma RestMember(s: seq<Record>, x: Record)
    requires Sorted(s) && s != []
    ensures x in s[1..] <==> x in s && x != s[0]
  {
    if x in s[1..] {
      var i :| 0 <= i < |s[1..]| && s[1..][i] == x;
      assert Less(s[0], s[i + 1]);
    }
    assert s == [s[0]] + s[1..];
  }

  /** Continuing after a page leaves exactly the rest. */
  lemma NextPage(records: seq<Record>, c: Option<Cursor>, limit: nat)
    requires DistinctIds(records) && limit > 0
    ensures var todo := Sort(Admitted(records, c));
            var page := Changed(records, c, limit);
            var rest := Sort(Admitted(records, NextCursor(page, c)));
            page + rest == todo && (todo != [] ==> page != [])
  {
    var todo, page := Sort(Admitted(records, c)), Changed(records, c, limit);
    var next := NextCursor(page, c);
    Pending(records, c);
    Pending(records, next);
    if todo != [] {
      var n := |page|;
      assert todo == page + todo[n..];
      forall x ensures x in todo[n..] <==> x in records && After(next, x) {
        RestAfter(todo, n, c, x);
      }
      SuffixSorted(todo, n);
      SortedUnique(todo[n..], Sort(Admitted(records, next)));
    }
  }

  lemma SuffixSorted(s: seq<Record>, n: nat)
    requires Sorted(s) && n <= |s|
    ensures Sorted(s[n..])
  {
    forall i, j | 0 <= i < j < |s[n..]| ensures Less(s[n..][i], s[n..][j]) {
      assert Less(s[n + i], s[n + j]);
    }
  }

  /** After the first `n` of what was to read, the cursor at the last of them admits the rest. */
  lemma RestAfter(todo: seq<Record>, n: nat, c: Option<Cursor>, x: Record)
    requires Sorted(todo) && 0 < n <= |todo| && forall y :: y in todo ==> After(c, y)
    ensures var next := Cursor(todo[n - 1].updatedAt, Some(todo[n - 1].id));
            && (x in todo ==> (x in todo[n..] <==> Admits(next, x)))
            && (Admits(next, x) ==> After(c, x))
  {
    assert todo[n - 1] in todo;
    if x in todo {
      var i :| 0 <= i < |todo| && todo[i] == x;
      if i >= n {
        assert todo[n..][i - n] == x;
        assert Less(todo[n - 1], todo[i]);
      } else {
        assert i < n - 1 ==> Less(todo[i], todo[n - 1]);
        forall j | n <= j < |todo| ensures todo[j] != x {
          assert Less(todo[i], todo[j]);
        }
      }
    }
  }

  // ---------------------------------------------------------------- reading an unchanged store

  /** All pages from the cursor on, until one is empty. */
  function ReadAll(records: seq<Record>, c: Option<Cursor>, limit: nat, fuel: nat): seq<Record>
    decreases fuel
  {
    var page := Changed(records, c, limit);
    if page == [] || fuel == 0 then [] else page + ReadAll(records, NextCursor(page, c), limit, fuel - 1)
  }

  lemma {:induction false} PagesJoin(records: seq<Record>, c: Option<Cursor>, limit: nat, fuel: nat)
    requires DistinctIds(records) && limit > 0 && fuel >= |Sort(Admitted(records, c))|
    ensures ReadAll(records, c, limit, fuel) == Sort(Admitted(records, c))
    decreases fuel
  {
    var page := Changed(records, c, limit);
    NextPage(records, c, limit);
    if page != [] {
      PagesJoin(records, NextCursor(page, c), limit, fuel - 1);
    }
  }

  /** Over an unchanged store, following the cursor yields every later record exactly once,
      in order, and is done after as many pages as there are records at most. */
  lemma PagingIsComplete(records: seq<Record>, c: Option<Cursor>, limit: nat, fuel: nat)
    requires DistinctIds(records) && limit > 0 && fuel >= |Sort(Admitted(records, c))|
    ensures Sorted(ReadAll(records, c, limit, fuel))
    ensures forall x :: x in ReadAll(records, c, limit, fuel) <==> x in records && After(c, x)
  {
    PagesJoin(records, c, limit, fuel);
    Pending(records, c);
  }

  // ---------------------------------------------------------------- reading a changing store

  /** A store that changes while a reader pages through it: the store's clock, the reader's
      cursor, and every version it has received. */
  datatype System = System(records: seq<Record>, clock: int, cursor: Option<Cursor>, received: set<Record>)

  datatype Event = Create(id: nat, at: int, content: string) | Update(index: nat, at: int, content: string) | Read(limit: nat)

  /** Stamps are strictly newer than all before. */
  predicate Enabled(s: System, e: Event) {
    match e
    case Create(id, at, _) => at > s.clock && forall r :: r in s.records ==> r.id != id
    case Update(index, at, _) => index < |s.records| && at > s.clock
    case Read(limit) => limit > 0
  }

  function Next(s: System, e: Event): System
    requires Enabled(s, e)
  {
    match e
    case Create(id, at, content) => s.(records := s.records + [Record(id, at, content)], clock := at)
    case Update(index, at, content) =>
      s.(records := s.records[index := Record(s.records[index].id, at, content)], clock := at)
    case Read(limit) =>
      var page := Changed(s.records, s.cursor, limit);
      s.(cursor := NextCursor(page, s.cursor), received := s.received + (set r | r in page))
  }

  predicate Runs(s: System, events: seq<Event>, s': System)
    decreases |events|
  {
    if events == [] then s' == s
    else Enabled(s, events[0]) && Runs(Next(s, events[0]), events[1..], s')
  }

  /** What the cursor no longer admits has been received, in its present version. */
  ghost predicate Inv(s: System) {
    && DistinctIds(s.records)
    && (forall r :: r in s.records ==> r.updatedAt <= s.clock)
    && (s.cursor.Some? ==> s.cursor.value.updatedAt <= s.clock)
    && (forall r :: r in s.records && !After(s.cursor, r) ==> r in s.received)
  }

  lemma ChangeStep(s: System, e: Event)
    requires Inv(s) && Enabled(s, e) && (e.Create? || e.Update?)
    ensures Inv(Next(s, e))
  {
    var next := Next(s, e);
    forall r | r in next.records ensures r.updatedAt <= next.clock && (!After(next.cursor, r) ==> r in next.received) {
      assert r in s.records || r.updatedAt == e.at;
    }
    if e.Update? {
      forall i, j | 0 <= i < j < |next.records| ensures next.records[i].id != next.records[j].id {
        assert s.records[i].id != s.records[j].id;
      }
    } else {
      forall i | 0 <= i < |s.records| ensures s.records[i].id != e.id {
        assert s.records[i] in s.records;
      }
    }
  }

  lemma ReadStep(s: System, limit: nat)
    requires Inv(s) && limit > 0
    ensures Inv(Next(s, Read(limit)))
  {
    var next := Next(s, Read(limit));
    var todo, page := Sort(Admitted(s.records, s.cursor)), Changed(s.records, s.cursor, limit);
    Pending(s.records, s.cursor);
    if page != [] {
      assert page[|page| - 1] in todo;
      assert todo == page + todo[|page|..];
      forall r | r in s.records && !After(next.cursor, r) ensures r in next.received {
        RestAfter(todo, |page|, s.cursor, r);
        if After(s.cursor, r) {
          assert r in todo && r !in todo[|page|..];
        }
      }
    }
  }

  lemma {:induction false} RunsAreSafe(s: System, events: seq<Event>, s': System)
    requires Inv(s) && Runs(s, events, s')
    ensures Inv(s')
    decreases |events|
  {
    if events != [] {
      if events[0].Read? {
        ReadStep(s, events[0].limit);
      } else {
        ChangeStep(s, events[0]);
      }
      RunsAreSafe(Next(s, events[0]), events[1..], s');
    }
  }

  /** Whatever changed in between, a reader that gets an empty page has received the present
      version of every record. */
  lemma ReaderSeesFinalVersions(s: System, events: seq<Event>, s': System, limit: nat)
    requires Inv(s) && Runs(s, events, s') && limit > 0 && Changed(s'.records, s'.cursor, limit) == []
    ensures forall r :: r in s'.records ==> r in s'.received
  {
    RunsAreSafe(s, events, s');
    Pending(s'.records, s'.cursor);
    assert Sort(Admitted(s'.records, s'.cursor)) == [];
  }

  /** Each page that is not empty leaves less to read: without changes the reader ends. */
  lemma ReadingEnds(s: System, limit: nat)
    requires Inv(s) && limit > 0
    ensures var next := Next(s, Read(limit));
            Changed(s.records, s.cursor, limit) != [] ==>
              |Sort(Admitted(next.records, next.cursor))| < |Sort(Admitted(s.records, s.cursor))|
  {
    NextPage(s.records, s.cursor, limit);
  }

  /** A version whose stamp is not newer is received exactly when it still comes after the
      reader's cursor: otherwise no later page has it. */
  lemma StaleStampIsMissed(records: seq<Record>, index: nat, version: Record, c: Option<Cursor>, limit: nat)
    requires DistinctIds(records) && index < |records| && version.id == records[index].id && limit > 0
    ensures var changed := records[index := version];
            version in ReadAll(changed, c, limit, |Sort(Admitted(changed, c))|) <==> After(c, version)
  {
    var changed := records[index := version];
    forall i, j | 0 <= i < j < |changed| ensures changed[i].id != changed[j].id {
      assert records[i].id != records[j].id;
    }
    PagingIsComplete(changed, c, limit, |Sort(Admitted(changed, c))|);
    assert changed[index] == version;
  }

  // ---------------------------------------------------------------- what a cursor lets through

  /** The pages from a cursor on, spelled out: with an id, whatever changed later than the
      time or at it with a greater id; without one, whatever changed later; without a
      cursor, everything; and all of it in the order of change, ids deciding between equals. */
  lemma PagesFrom(records: seq<Record>, c: Option<Cursor>, limit: nat, fuel: nat)
    requires DistinctIds(records) && limit > 0 && fuel >= |records|
    ensures var pages := ReadAll(records, c, limit, fuel);
            && (forall i, j :: 0 <= i < j < |pages| ==>
                  pages[i].updatedAt < pages[j].updatedAt || (pages[i].updatedAt == pages[j].updatedAt && pages[i].id < pages[j].id))
            && (forall r :: r in pages <==> (r in records && (c.Some? ==>
                  r.updatedAt > c.value.updatedAt
                  || (c.value.id.Some? && r.updatedAt == c.value.updatedAt && r.id > c.value.id.value))))
  {
    AdmittedFewer(records, c);
    AdmittedDistinct(records, c);
    SortSorts(Admitted(records, c));
    PagingIsComplete(records, c, limit, fuel);
    var pages := ReadAll(records, c, limit, fuel);
    forall i, j | 0 <= i < j < |pages|
      ensures pages[i].updatedAt < pages[j].updatedAt || (pages[i].updatedAt == pages[j].updatedAt && pages[i].id < pages[j].id)
    {
      assert Less(pages[i], pages[j]);
    }
  }

  lemma {:induction false} AdmittedFewer(records: seq<Record>, c: Option<Cursor>)
    ensures |Admitted(records, c)| <= |records|
  {
    if records != [] {
      AdmittedFewer(records[..|records| - 1], c);
    }
  }

  /** A page is no longer than it may be, and the cursor after it is at its last record. */
  lemma PageIsLimited(records: seq<Record>, c: Option<Cursor>, limit: nat)
    ensures |Changed(records, c, limit)| <= limit
    ensures var page := Changed(records, c, limit);
            NextCursor(page, c) == if page == [] then c else Some(Cursor(page[|page| - 1].updatedAt, Some(page[|page| - 1].id)))
  {
  }
}
