/** The two stored forms of an assistant message, and the translations between them.

    An assistant row keeps `segments` (the display form and the index of its tool
    calls) and its conversation as model messages. `Canonical` is the normal form of
    segments, `Build` reads segments off messages, and `Expand` writes the messages of
    a row that has only segments. */
module Transcript {
  import opened Basics

  type CallId = string

  datatype Outcome = Success | Failed | Denied | Interrupted

  /** The recorded result of a tool call; `status` is the display label of a
      result that was not a plain success. */
  datatype Answer = Answer(output: string, outcome: Outcome, status: Option<string>)

  datatype Tool = Tool(id: CallId, name: string, input: string, answer: Option<Answer>)

  datatype Segment =
    | Thinking(text: string)
    | Text(text: string)
    | Group(tools: seq<Tool>)
    | Other(kind: string)

  datatype ResponsePart =
    | ThinkingPart(content: string)
    | TextPart(content: string)
    | CallPart(id: CallId, name: string, args: string)

  datatype RequestPart =
    | ReturnPart(id: CallId, name: string, output: string, outcome: Outcome)
    | RetryPart(id: CallId)
    | PromptPart(prompt: string)

  /** A model message; `steering` names the steering records a request delivers. */
  datatype Message =
    | Request(parts: seq<RequestPart>, steering: seq<string>)
    | Response(reply: seq<ResponsePart>)

  // ---------------------------------------------------------------- canonical segments

  predicate SameContentKind(a: Segment, b: Segment) {
    (a.Thinking? && b.Thinking?) || (a.Text? && b.Text?)
  }

  /** One step of canonicalisation: what appending `s` does to the canonical `acc`. */
  function AppendSegment(acc: seq<Segment>, s: Segment): seq<Segment> {
    match s
    case Other(_) => acc
    case Group(tools) => if tools == [] then acc else acc + [s]
    case _ =>
      if s.text == "" then acc
      else if acc != [] && SameContentKind(acc[|acc| - 1], s) then
        acc[..|acc| - 1] + [acc[|acc| - 1].(text := acc[|acc| - 1].text + s.text)]
      else acc + [s]
  }

  /** The canonical form of a list of segments. */
  function Canonical(segments: seq<Segment>): seq<Segment> {
    if segments == [] then []
    else AppendSegment(Canonical(segments[..|segments| - 1]), segments[|segments| - 1])
  }

  /** Canonicalisation as the runtime does it: one pass that extends the last element. */
  method CanonicalizeSegments(segments: seq<Segment>) returns (normalized: seq<Segment>)
    ensures normalized == Canonical(segments)
    ensures IsCanonical(normalized) && Atoms(normalized) == Atoms(segments)
  {
    normalized := [];
    var i := 0;
    while i < |segments|
      invariant 0 <= i <= |segments|
      invariant normalized == Canonical(segments[..i])
    {
      var segment := segments[i];
      assert segments[..i + 1][..i] == segments[..i];
      i := i + 1;
      if segment.Other? {
        continue;
      }
      if segment.Group? {
        if segment.tools != [] {
          normalized := normalized + [segment];
        }
        continue;
      }
      if segment.text == "" {
        continue;
      }
      var last := |normalized| - 1;
      if normalized != [] && SameContentKind(normalized[last], segment) {
        normalized := normalized[..last] + [normalized[last].(text := normalized[last].text + segment.text)];
      } else {
        normalized := normalized + [segment];
      }
    }
    assert segments[..i] == segments;
    CanonicalAtoms(segments);
    CanonicalIsCanonical(segments);
  }

  /** What a list of segments says: its characters, each with its kind, and its groups of calls. */
  datatype Atom = ThinkingChar(c: char) | TextChar(c: char) | Calls(tools: seq<Tool>)

  function SegmentAtoms(s: Segment): seq<Atom> {
    match s
    case Thinking(text) => seq(|text|, i requires 0 <= i < |text| => ThinkingChar(text[i]))
    case Text(text) => seq(|text|, i requires 0 <= i < |text| => TextChar(text[i]))
    case Group(tools) => if tools == [] then [] else [Calls(tools)]
    case Other(_) => []
  }

  function Atoms(segments: seq<Segment>): seq<Atom> {
    if segments == [] then []
    else Atoms(segments[..|segments| - 1]) + SegmentAtoms(segments[|segments| - 1])
  }

  predicate IsCanonical(segments: seq<Segment>) {
    && (forall i :: 0 <= i < |segments| ==>
          match segments[i] {
            case Other(_) => false
            case Group(tools) => tools != []
            case _ => segments[i].text != ""
          })
    && (forall i :: 0 < i < |segments| ==> !SameContentKind(segments[i - 1], segments[i]))
  }

  /** Canonicalising neither loses nor reorders anything. */
  lemma {:induction false} CanonicalAtoms(segments: seq<Segment>)
    ensures Atoms(Canonical(segments)) == Atoms(segments)
  {
    if segments != [] {
      var front, s := segments[..|segments| - 1], segments[|segments| - 1];
      CanonicalAtoms(front);
      AppendSegmentAtoms(Canonical(front), s);
    }
  }

  lemma AtomsSnoc(acc: seq<Segment>, s: Segment)
    ensures Atoms(acc + [s]) == Atoms(acc) + SegmentAtoms(s)
  {
    assert (acc + [s])[..|acc|] == acc;
  }

  lemma MergedAtoms(a: Segment, b: Segment)
    requires SameContentKind(a, b)
    ensures SegmentAtoms(a.(text := a.text + b.text)) == SegmentAtoms(a) + SegmentAtoms(b)
  {
  }

  lemma AppendSegmentAtoms(acc: seq<Segment>, s: Segment)
    ensures Atoms(AppendSegment(acc, s)) == Atoms(acc) + SegmentAtoms(s)
  {
    if s.Other? || SegmentAtoms(s) == [] {
      assert Atoms(acc) + [] == Atoms(acc);
    } else if !s.Group? && acc != [] && SameContentKind(acc[|acc| - 1], s) {
      var front, last := acc[..|acc| - 1], acc[|acc| - 1];
      AtomsSnoc(front, last.(text := last.text + s.text));
      MergedAtoms(last, s);
      ConcatAssoc(Atoms(front), SegmentAtoms(last), SegmentAtoms(s));
    } else {
      AtomsSnoc(acc, s);
    }
  }

  lemma {:induction false} CanonicalIsCanonical(segments: seq<Segment>)
    ensures IsCanonical(Canonical(segments))
  {
    if segments != [] {
      CanonicalIsCanonical(segments[..|segments| - 1]);
    }
  }

  lemma {:induction false} CanonicalIsFixed(segments: seq<Segment>)
    requires IsCanonical(segments)
    ensures Canonical(segments) == segments
  {
    if segments != [] {
      var front := segments[..|segments| - 1];
      CanonicalIsFixed(front);
    }
  }

  lemma {:induction false} CanonicalIsIdempotent(segments: seq<Segment>)
    ensures Canonical(Canonical(segments)) == Canonical(segments)
    ensures Canonical(segments) == segments <==> IsCanonical(segments)
  {
    CanonicalIsCanonical(segments);
    CanonicalIsFixed(Canonical(segments));
    if IsCanonical(segments) {
      CanonicalIsFixed(segments);
    }
  }

  function AtomSegment(a: Atom): Segment {
    match a
    case ThinkingChar(c) => Thinking([c])
    case TextChar(c) => Text([c])
    case Calls(tools) => Group(tools)
  }

  function OfAtoms(atoms: seq<Atom>): seq<Segment> {
    if atoms == [] then []
    else AppendSegment(OfAtoms(atoms[..|atoms| - 1]), AtomSegment(atoms[|atoms| - 1]))
  }

  /** The canonical form depends only on what the segments say: two lists have the
      same canonical form exactly when they say the same. */
  lemma {:induction false} CanonicalIsUnique(s: seq<Segment>, t: seq<Segment>)
    ensures Canonical(s) == Canonical(t) <==> Atoms(s) == Atoms(t)
  {
    CanonicalAtoms(s);
    CanonicalAtoms(t);
    CanonicalOfAtoms(s);
    CanonicalOfAtoms(t);
  }

  lemma {:induction false} CanonicalOfAtoms(segments: seq<Segment>)
    ensures Canonical(segments) == OfAtoms(Atoms(segments))
  {
    if segments != [] {
      var front, s := segments[..|segments| - 1], segments[|segments| - 1];
      CanonicalOfAtoms(front);
      OfAtomsAppend(Atoms(front), s);
    }
  }

  /** Appending a text in one piece or character by character is the same. */
  lemma {:induction false} AppendSplit(acc: seq<Segment>, s: Segment, n: nat)
    requires s.Thinking? || s.Text?
    requires n == |s.text| - 1
    ensures AppendSegment(AppendSegment(acc, s.(text := s.text[..n])), s.(text := [s.text[n]])) == AppendSegment(acc, s)
  {
    assert s.text == s.text[..n] + [s.text[n]];
    if acc != [] && SameContentKind(acc[|acc| - 1], s) {
      var last := acc[|acc| - 1];
      assert last.text + s.text == (last.text + s.text[..n]) + [s.text[n]];
    }
  }

  lemma OfAtomsSnoc(atoms: seq<Atom>, a: Atom)
    ensures OfAtoms(atoms + [a]) == AppendSegment(OfAtoms(atoms), AtomSegment(a))
  {
    assert (atoms + [a])[..|atoms|] == atoms;
  }

  lemma SegmentAtomsSnoc(s: Segment, n: nat) returns (atom: Atom)
    requires s.Thinking? || s.Text?
    requires n == |s.text| - 1
    ensures SegmentAtoms(s) == SegmentAtoms(s.(text := s.text[..n])) + [atom]
    ensures AtomSegment(atom) == s.(text := [s.text[n]])
  {
    atom := SegmentAtoms(s)[n];
  }

  lemma {:induction false} OfAtomsContent(atoms: seq<Atom>, s: Segment)
    requires s.Thinking? || s.Text?
    ensures OfAtoms(atoms + SegmentAtoms(s)) == AppendSegment(OfAtoms(atoms), s)
    decreases |s.text|
  {
    if s.text == "" {
      assert atoms + SegmentAtoms(s) == atoms;
    } else {
      var n := |s.text| - 1;
      var shorter := s.(text := s.text[..n]);
      var atom := SegmentAtomsSnoc(s, n);
      var front := atoms + SegmentAtoms(shorter);
      calc {
        OfAtoms(atoms + SegmentAtoms(s));
        { assert atoms + SegmentAtoms(s) == front + [atom]; }
        OfAtoms(front + [atom]);
        { OfAtomsSnoc(front, atom); }
        AppendSegment(OfAtoms(front), AtomSegment(atom));
        { OfAtomsContent(atoms, shorter); }
        AppendSegment(AppendSegment(OfAtoms(atoms), shorter), AtomSegment(atom));
        { AppendSplit(OfAtoms(atoms), s, n); }
        AppendSegment(OfAtoms(atoms), s);
      }
    }
  }

  lemma {:induction false} OfAtomsAppend(atoms: seq<Atom>, s: Segment)
    ensures OfAtoms(atoms + SegmentAtoms(s)) == AppendSegment(OfAtoms(atoms), s)
  {
    if s.Thinking? || s.Text? {
      OfAtomsContent(atoms, s);
    } else if SegmentAtoms(s) == [] {
      assert atoms + SegmentAtoms(s) == atoms;
    } else {
      OfAtomsSnoc(atoms, Calls(s.tools));
    }
  }
}
