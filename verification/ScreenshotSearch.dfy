/** Finding the screenshot in a host tool's result, and taking it out.

    The search keeps a stack of iterators and a budget of nodes; it is shown to return what
    a walk of the tree in preorder, preferred keys first, finds within the budget. */
module ScreenshotSearch {
  import opened Basics

  datatype Json = Str(text: string) | Arr(items: seq<Json>) | Obj(entries: seq<Entry>) | Other

  datatype Entry = Entry(key: string, value: Json)

  const SCREENSHOT_KEYS := ["screenshot", "image", "image_data_uri", "imageDataUri", "data_uri", "dataUri"]
  const BUDGET := 10000
  const PREFIX := "data:image/"
  const PLACEHOLDER := "[screenshot captured]"

  predicate IsImage(j: Json) { j.Str? && PREFIX <= j.text }

  // ---------------------------------------------------------------- children

  function Size(j: Json): (n: nat)
    ensures n > 0
  {
    match j
    case Arr(items) => 1 + SizeAll(items)
    case Obj(entries) => 1 + SizeEntries(entries)
    case _ => 1
  }

  function SizeAll(items: seq<Json>): nat {
    if items == [] then 0 else Size(items[0]) + SizeAll(items[1..])
  }

  function SizeEntries(entries: seq<Entry>): nat {
    if entries == [] then 0 else Size(entries[0].value) + SizeEntries(entries[1..])
  }

  predicate HasKey(entries: seq<Entry>, key: string) {
    entries != [] && (entries[0].key == key || HasKey(entries[1..], key))
  }

  function Lookup(entries: seq<Entry>, key: string): Json
    requires HasKey(entries, key)
  {
    if entries[0].key == key then entries[0].value else Lookup(entries[1..], key)
  }

  /** The values under the preferred keys, in the order of the keys. */
  function Preferred(entries: seq<Entry>, keys: seq<string>): seq<Json> {
    if keys == [] then []
    else (if HasKey(entries, keys[0]) then [Lookup(entries, keys[0])] else []) + Preferred(entries, keys[1..])
  }

  function Others(entries: seq<Entry>, keys: seq<string>): seq<Json> {
    if entries == [] then []
    else (if entries[0].key in keys then [] else [entries[0].value]) + Others(entries[1..], keys)
  }

  /** The values of the entries whose key is in `keys`, by size. */
  function SizeUnder(entries: seq<Entry>, keys: set<string>): nat {
    if entries == [] then 0
    else (if entries[0].key in keys then Size(entries[0].value) else 0) + SizeUnder(entries[1..], keys)
  }

  lemma {:induction false} SizeAllAppend(a: seq<Json>, b: seq<Json>)
    ensures SizeAll(a + b) == SizeAll(a) + SizeAll(b)
  {
    if a == [] {
      assert a + b == b;
    } else {
      SizeAllAppend(a[1..], b);
      AppendRest(a, b);
    }
  }

  lemma {:induction false} LookupSize(entries: seq<Entry>, key: string)
    requires HasKey(entries, key)
    ensures Size(Lookup(entries, key)) <= SizeUnder(entries, {key})
  {
    if entries[0].key != key {
      LookupSize(entries[1..], key);
    }
  }

  lemma {:induction false} SizeUnderSplit(entries: seq<Entry>, a: set<string>, b: set<string>)
    requires a !! b
    ensures SizeUnder(entries, a + b) == SizeUnder(entries, a) + SizeUnder(entries, b)
  {
    if entries != [] {
      SizeUnderSplit(entries[1..], a, b);
    }
  }

  function Members(keys: seq<string>): set<string> { set key | key in keys }

  lemma {:induction false} PreferredSize(entries: seq<Entry>, keys: seq<string>)
    requires Distinct(keys)
    ensures SizeAll(Preferred(entries, keys)) <= SizeUnder(entries, Members(keys))
  {
    if keys != [] {
      var rest := keys[1..];
      assert keys == [keys[0]] + rest;
      DistinctSplit([keys[0]], rest);
      assert keys[0] in [keys[0]];
      PreferredSize(entries, rest);
      SizeUnderSplit(entries, {keys[0]}, Members(rest));
      assert {keys[0]} + Members(rest) == Members(keys);
      if HasKey(entries, keys[0]) {
        LookupSize(entries, keys[0]);
        SizeAllAppend([Lookup(entries, keys[0])], Preferred(entries, rest));
        assert SizeAll([Lookup(entries, keys[0])]) == Size(Lookup(entries, keys[0])) + SizeAll([]);
      } else {
        assert [] + Preferred(entries, rest) == Preferred(entries, rest);
      }
    }
  }

  lemma {:induction false} OthersSize(entries: seq<Entry>, keys: seq<string>)
    ensures SizeUnder(entries, Members(keys)) + SizeAll(Others(entries, keys)) == SizeEntries(entries)
  {
    if entries != [] {
      OthersSize(entries[1..], keys);
      var rest := Others(entries[1..], keys);
      if entries[0].key in keys {
        assert [] + rest == rest;
      } else {
        assert ([entries[0].value] + rest)[1..] == rest;
      }
    }
  }

  lemma KeysAreDistinct()
    ensures Distinct(SCREENSHOT_KEYS)
  {
  }

  /** What the search visits below a node: an object's preferred keys come first. */
  function Children(j: Json): seq<Json> {
    match j
    case Arr(items) => items
    case Obj(entries) => Preferred(entries, SCREENSHOT_KEYS) + Others(entries, SCREENSHOT_KEYS)
    case _ => []
  }

  lemma ChildrenAreSmaller(j: Json)
    ensures SizeAll(Children(j)) < Size(j)
  {
    if j.Obj? {
      KeysAreDistinct();
      PreferredSize(j.entries, SCREENSHOT_KEYS);
      OthersSize(j.entries, SCREENSHOT_KEYS);
      SizeAllAppend(Preferred(j.entries, SCREENSHOT_KEYS), Others(j.entries, SCREENSHOT_KEYS));
    }
  }

  // ---------------------------------------------------------------- the search

  /** The nodes of the tree in preorder. */
  function Preorder(j: Json): seq<Json>
    decreases Size(j), 0
  {
    ChildrenAreSmaller(j);
    [j] + PreorderAll(Children(j))
  }

  function PreorderAll(items: seq<Json>): seq<Json>
    decreases SizeAll(items), 1
  {
    if items == [] then [] else Preorder(items[0]) + PreorderAll(items[1..])
  }

  datatype Search = Found(uri: string) | NotFound | OverBudget

  /** The first image among the nodes, unless the budget ends before it. */
  function FirstImage(nodes: seq<Json>, budget: nat): Search {
    if nodes == [] then NotFound
    else if budget == 0 then OverBudget
    else if IsImage(nodes[0]) then Found(nodes[0].text)
    else FirstImage(nodes[1..], budget - 1)
  }

  /** What is left to visit: the rest of the innermost iterator first. */
  function Todo(pending: seq<seq<Json>>): seq<Json> {
    if pending == [] then [] else PreorderAll(pending[|pending| - 1]) + Todo(pending[..|pending| - 1])
  }

  /** `_find_screenshot_data_uri`, with its budget. */
  method FindScreenshot(value: Json) returns (r: Search)
    ensures r == FirstImage(Preorder(value), BUDGET)
  {
    r := FindWithin(value, BUDGET);
  }

  /** One pass with a stack of iterators. */
  method FindWithin(value: Json, budget: nat) returns (r: Search)
    ensures r == FirstImage(Preorder(value), budget)
  {
    var pending := [[value]];
    var remaining := budget;
    TodoOfOne(value);
    ghost var todo := Todo(pending);
    while pending != []
      invariant todo == Todo(pending)
      invariant FirstImage(todo, remaining) == FirstImage(Preorder(value), budget)
      decreases remaining, |pending|
    {
      var last := |pending| - 1;
      var top := pending[last];
      if top == [] {
        TodoPop(pending);
        pending := pending[..last];
        continue;
      }
      var child := top[0];
      ghost var rest := TakeFirst(pending, remaining);
      pending := pending[..last] + [top[1..]];
      if remaining == 0 {
        return OverBudget;
      }
      if child.Str? {
        if PREFIX <= child.text {
          return Found(child.text);
        }
      } else if child.Arr? || child.Obj? {
        pending := pending + [Children(child)];
      }
      NoImageHere(child, rest, remaining);
      todo, remaining := rest, remaining - 1;
    }
    r := NotFound;
  }

  lemma TodoOfOne(value: Json)
    ensures Todo([[value]]) == Preorder(value)
  {
    TodoPush([], [value]);
    assert [] + [[value]] == [[value]];
    PreorderAllOne(value);
    assert Todo([]) == [] && Preorder(value) + [] == Preorder(value);
  }

  lemma PreorderAllOne(value: Json)
    ensures PreorderAll([value]) == Preorder(value)
  {
    assert [value][1..] == [] && PreorderAll([]) == [];
    assert Preorder(value) + [] == Preorder(value);
  }

  lemma TodoPop(pending: seq<seq<Json>>)
    requires pending != [] && pending[|pending| - 1] == []
    ensures Todo(pending[..|pending| - 1]) == Todo(pending)
  {
    assert PreorderAll([]) + Todo(pending[..|pending| - 1]) == Todo(pending[..|pending| - 1]);
  }

  lemma TodoPush(pending: seq<seq<Json>>, items: seq<Json>)
    ensures Todo(pending + [items]) == PreorderAll(items) + Todo(pending)
  {
    assert (pending + [items])[..|pending|] == pending;
  }

  /** Visiting a node takes it off what is left and puts its children first. */
  lemma Visit(below: seq<seq<Json>>, child: Json, items: seq<Json>)
    ensures Todo(below + [[child] + items]) == [child] + Todo(below + [items] + [Children(child)])
  {
    TodoPush(below, [child] + items);
    TodoPush(below, items);
    TodoPush(below + [items], Children(child));
    PreorderFirst(child, items);
    Regroup([child], PreorderAll(Children(child)), PreorderAll(items), Todo(below));
  }

  lemma PreorderFirst(child: Json, items: seq<Json>)
    ensures PreorderAll([child] + items) == ([child] + PreorderAll(Children(child))) + PreorderAll(items)
  {
    assert ([child] + items)[1..] == items && ([child] + items)[0] == child;
  }

  lemma Regroup<T>(a: seq<T>, b: seq<T>, c: seq<T>, d: seq<T>)
    ensures ((a + b) + c) + d == a + (b + (c + d))
  {
  }

  /** A node without children leaves only what is below it. */
  lemma VisitLeaf(below: seq<seq<Json>>, child: Json, items: seq<Json>)
    requires Children(child) == []
    ensures Todo(below + [[child] + items]) == [child] + Todo(below + [items])
  {
    Visit(below, child, items);
    TodoPush(below + [items], []);
    assert [] + Todo(below + [items]) == Todo(below + [items]);
  }

  /** What is left once the first node of the innermost iterator has been taken. */
  lemma TakeFirst(pending: seq<seq<Json>>, budget: nat) returns (rest: seq<Json>)
    requires pending != [] && pending[|pending| - 1] != []
    ensures var last := |pending| - 1;
            var child, below := pending[last][0], pending[..last] + [pending[last][1..]];
            && Todo(pending) == [child] + rest
            && rest == Todo(below + [Children(child)])
            && (Children(child) == [] ==> rest == Todo(below))
            && FirstImage(Todo(pending), budget) == FirstStep(child, rest, budget)
  {
    var last := |pending| - 1;
    var top := pending[last];
    var child, items := top[0], top[1..];
    assert pending == pending[..last] + [top] && top == [child] + items;
    rest := Todo(pending[..last] + [items] + [Children(child)]);
    Visit(pending[..last], child, items);
    if Children(child) == [] {
      VisitLeaf(pending[..last], child, items);
      assert ([child] + Todo(pending[..last] + [items]))[1..] == Todo(pending[..last] + [items]);
    }
    FirstImageStep(child, rest, budget);
  }

  lemma NoImageHere(child: Json, rest: seq<Json>, budget: nat)
    requires budget > 0 && !IsImage(child)
    ensures FirstStep(child, rest, budget) == FirstImage(rest, budget - 1)
  {
  }

  function FirstStep(child: Json, rest: seq<Json>, budget: nat): Search {
    if budget == 0 then OverBudget else if IsImage(child) then Found(child.text) else FirstImage(rest, budget - 1)
  }

  lemma FirstImageStep(child: Json, rest: seq<Json>, budget: nat)
    ensures FirstImage([child] + rest, budget) == FirstStep(child, rest, budget)
  {
    assert ([child] + rest)[1..] == rest;
  }

  /** Where a search that finds an image finds it. */
  lemma {:induction false} FoundAt(nodes: seq<Json>, budget: nat) returns (k: nat)
    requires FirstImage(nodes, budget).Found?
    ensures k < |nodes| && k < budget && FirstAt(nodes, k)
  {
    if IsImage(nodes[0]) {
      k := 0;
    } else {
      k := FoundAt(nodes[1..], budget - 1);
      k := k + 1;
      FirstAtRest(nodes, k);
    }
  }

  lemma FirstAtRest(nodes: seq<Json>, k: nat)
    requires 0 < k < |nodes| && !IsImage(nodes[0])
    ensures FirstAt(nodes, k) <==> FirstAt(nodes[1..], k - 1)
  {
    var rest := nodes[1..];
    if FirstAt(nodes, k) {
      forall i | 0 <= i < k - 1 ensures !IsImage(rest[i]) {
        assert rest[i] == nodes[i + 1];
      }
    }
    if FirstAt(rest, k - 1) {
      forall i | 0 <= i < k ensures !IsImage(nodes[i]) {
        assert i > 0 ==> nodes[i] == rest[i - 1];
      }
    }
  }

  lemma {:induction false} FirstIsFound(nodes: seq<Json>, budget: nat, k: nat)
    requires k < |nodes| && k < budget && FirstAt(nodes, k)
    ensures FirstImage(nodes, budget) == Found(nodes[k].text)
  {
    if k > 0 {
      FirstAtRest(nodes, k);
      FirstIsFound(nodes[1..], budget - 1, k - 1);
    }
  }

  lemma {:induction false} OverBudgetMeans(nodes: seq<Json>, budget: nat)
    ensures FirstImage(nodes, budget).OverBudget? <==> |nodes| > budget && forall i :: 0 <= i < budget ==> !IsImage(nodes[i])
  {
    if nodes != [] && budget > 0 && !IsImage(nodes[0]) {
      OverBudgetMeans(nodes[1..], budget - 1);
      assert forall i :: 0 <= i < |nodes[1..]| ==> nodes[1..][i] == nodes[i + 1];
      if |nodes| > budget && forall i :: 0 <= i < budget - 1 ==> !IsImage(nodes[1..][i]) {
        forall i | 0 <= i < budget ensures !IsImage(nodes[i]) {
          assert i > 0 ==> nodes[i] == nodes[1..][i - 1];
        }
      }
    }
  }

  /** The search finds the first image in preorder when it is within the budget, reports none
      when the whole tree is within the budget and has none, and fails otherwise: exactly
      when the budget's worth of nodes passes without an image and there are more. */
  lemma FirstImageMeans(nodes: seq<Json>, budget: nat)
    ensures var r := FirstImage(nodes, budget);
            && (r.Found? <==> exists k :: 0 <= k < |nodes| && k < budget && FirstAt(nodes, k))
            && (forall k :: 0 <= k < |nodes| && k < budget && FirstAt(nodes, k) ==> r == Found(nodes[k].text))
            && (r.OverBudget? <==> |nodes| > budget && forall i :: 0 <= i < budget ==> !IsImage(nodes[i]))
  {
    OverBudgetMeans(nodes, budget);
    if FirstImage(nodes, budget).Found? {
      var k := FoundAt(nodes, budget);
    }
    forall k | 0 <= k < |nodes| && k < budget && FirstAt(nodes, k) ensures FirstImage(nodes, budget) == Found(nodes[k].text) {
      FirstIsFound(nodes, budget, k);
    }
  }

  /** The first image is at `k`. */
  predicate FirstAt(nodes: seq<Json>, k: nat)
    requires k < |nodes|
  {
    IsImage(nodes[k]) && forall i :: 0 <= i < k ==> !IsImage(nodes[i])
  }

  // ---------------------------------------------------------------- which image comes first

  /** The search without a budget. */
  function SearchAll(nodes: seq<Json>): Search { FirstImage(nodes, |nodes|) }

  lemma {:induction false} MoreBudget(nodes: seq<Json>, budget: nat)
    requires budget >= |nodes|
    ensures FirstImage(nodes, budget) == SearchAll(nodes) && !SearchAll(nodes).OverBudget?
  {
    if nodes != [] {
      MoreBudget(nodes[1..], budget - 1);
      MoreBudget(nodes[1..], |nodes| - 1);
    }
  }

  lemma {:induction false} SearchAppend(a: seq<Json>, b: seq<Json>)
    ensures SearchAll(a + b) == if SearchAll(a).Found? then SearchAll(a) else SearchAll(b)
  {
    if a == [] {
      assert a + b == b;
    } else {
      SearchAppend(a[1..], b);
      AppendRest(a, b);
      MoreBudget(a[1..], |a| - 1);
    }
  }

  /** The first of several values in which the search finds something. */
  function FirstWithImage(values: seq<Json>): Search
  {
    if values == [] then NotFound
    else if SearchAll(Preorder(values[0])).Found? then SearchAll(Preorder(values[0]))
    else FirstWithImage(values[1..])
  }

  lemma {:induction false} SearchEach(values: seq<Json>)
    ensures SearchAll(PreorderAll(values)) == FirstWithImage(values)
  {
    if values != [] {
      SearchEach(values[1..]);
      SearchAppend(Preorder(values[0]), PreorderAll(values[1..]));
    }
  }

  lemma {:induction false} FirstAppend(a: seq<Json>, b: seq<Json>)
    ensures FirstWithImage(a + b) == if FirstWithImage(a).Found? then FirstWithImage(a) else FirstWithImage(b)
  {
    if a == [] {
      assert a + b == b;
    } else {
      FirstAppend(a[1..], b);
      AppendRest(a, b);
    }
  }

  lemma SearchInto(j: Json)
    requires !j.Str?
    ensures SearchAll(Preorder(j)) == FirstWithImage(Children(j))
  {
    ChildrenAreSmaller(j);
    SearchAppend([j], PreorderAll(Children(j)));
    SearchEach(Children(j));
  }

  /** The values under the first `p` preferred keys hold no image. */
  predicate NoneBefore(entries: seq<Entry>, keys: seq<string>, p: nat)
    requires p <= |keys|
  {
    forall q :: 0 <= q < p && HasKey(entries, keys[q]) ==> !SearchAll(Preorder(Lookup(entries, keys[q]))).Found?
  }

  lemma {:induction false} FirstPreferred(entries: seq<Entry>, keys: seq<string>, p: nat)
    requires p <= |keys| && NoneBefore(entries, keys, p)
    ensures p < |keys| && HasKey(entries, keys[p]) && SearchAll(Preorder(Lookup(entries, keys[p]))).Found? ==>
              FirstWithImage(Preferred(entries, keys)) == SearchAll(Preorder(Lookup(entries, keys[p])))
    ensures p == |keys| ==> !FirstWithImage(Preferred(entries, keys)).Found?
  {
    if keys != [] {
      var head := if HasKey(entries, keys[0]) then [Lookup(entries, keys[0])] else [];
      FirstAppend(head, Preferred(entries, keys[1..]));
      assert head != [] ==> head[1..] == [];
      if p > 0 {
        assert forall q :: 0 <= q < p - 1 ==> keys[1..][q] == keys[q + 1];
        FirstPreferred(entries, keys[1..], p - 1);
      }
    }
  }

  /** In an object the preferred keys come before all others, in their own order, whatever
      the order of its entries: the image is that of the first preferred key with one. */
  lemma PreferredKeyWins(entries: seq<Entry>, p: nat)
    requires p < |SCREENSHOT_KEYS| && NoneBefore(entries, SCREENSHOT_KEYS, p)
    requires HasKey(entries, SCREENSHOT_KEYS[p]) && SearchAll(Preorder(Lookup(entries, SCREENSHOT_KEYS[p]))).Found?
    ensures SearchAll(Preorder(Obj(entries))) == SearchAll(Preorder(Lookup(entries, SCREENSHOT_KEYS[p])))
  {
    SearchInto(Obj(entries));
    FirstPreferred(entries, SCREENSHOT_KEYS, p);
    FirstAppend(Preferred(entries, SCREENSHOT_KEYS), Others(entries, SCREENSHOT_KEYS));
  }

  /** An image is a string that begins as an image's data does. */
  lemma ImageBegins(text: string)
    ensures IsImage(Str(text)) <==> |text| >= 11 && text[..11] == "data:image/"
  {
  }

  /** Of two images in an object the one called `screenshot` is found, first or last. */
  lemma ScreenshotWins(image: string, screenshot: string)
    requires IsImage(Str(image)) && IsImage(Str(screenshot))
    ensures SearchAll(Preorder(Obj([Entry("image", Str(image)), Entry("screenshot", Str(screenshot))]))) == Found(screenshot)
  {
    var entries := [Entry("image", Str(image)), Entry("screenshot", Str(screenshot))];
    assert |entries[0].key| != |SCREENSHOT_KEYS[0]| && HasKey(entries[1..], "screenshot") && HasKey(entries, "screenshot");
    assert Lookup(entries, "screenshot") == Lookup(entries[1..], "screenshot") == Str(screenshot);
    StringIsFound(screenshot);
    PreferredKeyWins(entries, 0);
  }

  lemma StringIsFound(text: string)
    requires IsImage(Str(text))
    ensures SearchAll(Preorder(Str(text))) == Found(text)
  {
    assert Preorder(Str(text)) == [Str(text)] + PreorderAll([]);
  }

  predicate NoOtherBefore(entries: seq<Entry>, keys: seq<string>, i: nat)
    requires i <= |entries|
  {
    forall j :: 0 <= j < i && entries[j].key !in keys ==> !SearchAll(Preorder(entries[j].value)).Found?
  }

  lemma {:induction false} FirstOther(entries: seq<Entry>, keys: seq<string>, i: nat)
    requires i < |entries| && NoOtherBefore(entries, keys, i) && entries[i].key !in keys
    requires SearchAll(Preorder(entries[i].value)).Found?
    ensures FirstWithImage(Others(entries, keys)) == SearchAll(Preorder(entries[i].value))
  {
    var head := if entries[0].key in keys then [] else [entries[0].value];
    FirstAppend(head, Others(entries[1..], keys));
    assert head != [] ==> head[1..] == [];
    if i > 0 {
      assert forall j :: 0 <= j < i - 1 ==> entries[1..][j] == entries[j + 1];
      FirstOther(entries[1..], keys, i - 1);
    }
  }

  /** Without an image under a preferred key it is that of the first other entry with one. */
  lemma OtherKeysFollow(entries: seq<Entry>, i: nat)
    requires NoneBefore(entries, SCREENSHOT_KEYS, |SCREENSHOT_KEYS|)
    requires i < |entries| && NoOtherBefore(entries, SCREENSHOT_KEYS, i) && entries[i].key !in SCREENSHOT_KEYS
    requires SearchAll(Preorder(entries[i].value)).Found?
    ensures SearchAll(Preorder(Obj(entries))) == SearchAll(Preorder(entries[i].value))
  {
    SearchInto(Obj(entries));
    FirstPreferred(entries, SCREENSHOT_KEYS, |SCREENSHOT_KEYS|);
    FirstOther(entries, SCREENSHOT_KEYS, i);
    FirstAppend(Preferred(entries, SCREENSHOT_KEYS), Others(entries, SCREENSHOT_KEYS));
  }

  // ---------------------------------------------------------------- stripping

  /** A copy with every image replaced by a placeholder. */
  function Strip(j: Json): Json {
    match j
    case Str(text) => if PREFIX <= text then Str(PLACEHOLDER) else j
    case Arr(items) => Arr(StripAll(items))
    case Obj(entries) => Obj(StripEntries(entries))
    case Other => j
  }

  function StripAll(items: seq<Json>): (r: seq<Json>)
    ensures |r| == |items|
  {
    if items == [] then [] else [Strip(items[0])] + StripAll(items[1..])
  }

  function StripEntries(entries: seq<Entry>): (r: seq<Entry>)
    ensures |r| == |entries|
  {
    if entries == [] then [] else [entries[0].(value := Strip(entries[0].value))] + StripEntries(entries[1..])
  }

  lemma {:induction false} StripHas(entries: seq<Entry>, key: string)
    ensures HasKey(StripEntries(entries), key) <==> HasKey(entries, key)
    ensures HasKey(entries, key) ==> Lookup(StripEntries(entries), key) == Strip(Lookup(entries, key))
  {
    if entries != [] {
      StripHas(entries[1..], key);
      assert StripEntries(entries)[1..] == StripEntries(entries[1..]);
    }
  }

  lemma {:induction false} StripAllAppend(a: seq<Json>, b: seq<Json>)
    ensures StripAll(a + b) == StripAll(a) + StripAll(b)
  {
    if a == [] {
      assert a + b == b;
    } else {
      StripAllAppend(a[1..], b);
      AppendRest(a, b);
      ConcatAssoc([Strip(a[0])], StripAll(a[1..]), StripAll(b));
    }
  }

  lemma StripAllOne(j: Json)
    ensures StripAll([j]) == [Strip(j)]
  {
    assert [j][1..] == [] && [Strip(j)] + [] == [Strip(j)];
  }

  lemma {:induction false} StripPreferred(entries: seq<Entry>, keys: seq<string>)
    ensures Preferred(StripEntries(entries), keys) == StripAll(Preferred(entries, keys))
  {
    if keys != [] {
      StripPreferred(entries, keys[1..]);
      StripHas(entries, keys[0]);
      if HasKey(entries, keys[0]) {
        StripAllOne(Lookup(entries, keys[0]));
        StripAllAppend([Lookup(entries, keys[0])], Preferred(entries, keys[1..]));
      } else {
        assert [] + Preferred(entries, keys[1..]) == Preferred(entries, keys[1..]);
      }
    }
  }

  lemma {:induction false} StripOthers(entries: seq<Entry>, keys: seq<string>)
    ensures Others(StripEntries(entries), keys) == StripAll(Others(entries, keys))
  {
    if entries != [] {
      StripOthers(entries[1..], keys);
      assert StripEntries(entries)[1..] == StripEntries(entries[1..]);
      var rest := Others(entries[1..], keys);
      if entries[0].key in keys {
        assert [] + rest == rest;
      } else {
        StripAllOne(entries[0].value);
        StripAllAppend([entries[0].value], rest);
      }
    }
  }

  lemma StripChildren(j: Json)
    ensures Children(Strip(j)) == StripAll(Children(j))
  {
    if j.Obj? {
      StripPreferred(j.entries, SCREENSHOT_KEYS);
      StripOthers(j.entries, SCREENSHOT_KEYS);
      StripAllAppend(Preferred(j.entries, SCREENSHOT_KEYS), Others(j.entries, SCREENSHOT_KEYS));
    }
  }

  /** The stripped tree has the same nodes in the same order, each stripped. */
  lemma {:induction false} StripPreorder(j: Json)
    ensures Preorder(Strip(j)) == StripAll(Preorder(j))
    decreases Size(j), 0
  {
    StripChildren(j);
    ChildrenAreSmaller(j);
    StripPreorderAll(Children(j));
    StripAllOne(j);
    StripAllAppend([j], PreorderAll(Children(j)));
  }

  lemma {:induction false} StripPreorderAll(items: seq<Json>)
    ensures PreorderAll(StripAll(items)) == StripAll(PreorderAll(items))
    decreases SizeAll(items), 1
  {
    if items != [] {
      StripPreorder(items[0]);
      StripPreorderAll(items[1..]);
      StripAllAppend(Preorder(items[0]), PreorderAll(items[1..]));
      assert StripAll(items)[1..] == StripAll(items[1..]);
    }
  }

  /** In a stripped tree the search never finds an image, whatever the budget; it fails
      exactly when the tree, which keeps its number of nodes, is over the budget. */
  lemma NothingFoundInStripped(j: Json, budget: nat)
    ensures |Preorder(Strip(j))| == |Preorder(j)|
    ensures FirstImage(Preorder(Strip(j)), budget) == if |Preorder(j)| > budget then OverBudget else NotFound
  {
    StripPreorder(j);
    SearchStripped(Preorder(j), budget);
  }

  lemma StripsImage(j: Json)
    ensures !IsImage(Strip(j))
  {
    assert PLACEHOLDER[0] == '[' && PREFIX[0] == 'd';
  }

  lemma {:induction false} SearchStripped(nodes: seq<Json>, budget: nat)
    ensures FirstImage(StripAll(nodes), budget) == if |nodes| > budget then OverBudget else NotFound
  {
    if nodes != [] && budget > 0 {
      StripsImage(nodes[0]);
      SearchStripped(nodes[1..], budget - 1);
      AppendRest([Strip(nodes[0])], StripAll(nodes[1..]));
      assert [Strip(nodes[0])][1..] + StripAll(nodes[1..]) == StripAll(nodes[1..]);
    }
  }

  /** Stripping changes nothing but images: a tree with none is returned as it is. */
  lemma {:induction false} StripKeepsTheRest(j: Json)
    ensures Strip(j) == j <==> NoImage(j)
  {
    match j
    case Arr(items) => StripAllKeeps(items);
    case Obj(entries) => StripEntriesKeeps(entries);
    case Str(text) => assert PLACEHOLDER[0] == '[' && PREFIX[0] == 'd';
    case Other =>
  }

  predicate NoImage(j: Json) {
    match j
    case Str(_) => !IsImage(j)
    case Arr(items) => forall i :: 0 <= i < |items| ==> NoImage(items[i])
    case Obj(entries) => forall i :: 0 <= i < |entries| ==> NoImage(entries[i].value)
    case Other => true
  }

  lemma {:induction false} StripAllKeeps(items: seq<Json>)
    ensures StripAll(items) == items <==> forall i :: 0 <= i < |items| ==> NoImage(items[i])
  {
    if items != [] {
      StripKeepsTheRest(items[0]);
      StripAllKeeps(items[1..]);
      assert items == [items[0]] + items[1..];
      assert StripAll(items)[0] == Strip(items[0]) && StripAll(items)[1..] == StripAll(items[1..]);
      assert forall i :: 0 <= i < |items[1..]| ==> items[1..][i] == items[i + 1];
    }
  }

  lemma {:induction false} StripEntriesKeeps(entries: seq<Entry>)
    ensures StripEntries(entries) == entries <==> forall i :: 0 <= i < |entries| ==> NoImage(entries[i].value)
  {
    if entries != [] {
      StripKeepsTheRest(entries[0].value);
      StripEntriesKeeps(entries[1..]);
      assert entries == [entries[0]] + entries[1..];
      assert StripEntries(entries)[0] == entries[0].(value := Strip(entries[0].value));
      assert StripEntries(entries)[1..] == StripEntries(entries[1..]);
      assert forall i :: 0 <= i < |entries[1..]| ==> entries[1..][i] == entries[i + 1];
    }
  }
}
