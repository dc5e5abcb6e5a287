/** The events of one turn: the coordinator that numbers and limits them, and the trace a
    turn yields on every way out. */
module TurnEvents {
  import opened Basics

  datatype Kind = Thinking | Text

  datatype Event =
    | Started
    | Delta(kind: Kind, content: string, segment: nat, index: nat, first: bool)
    | Tool(name: string)
    | Debug(name: string)
    | Final(error: bool, reply: Option<string>)
    | Failure(errorType: string)
    | Completed

  /** The coordinator's fields; the segment index is meaningful while a segment is open. */
  datatype State = State(
    limit: nat,
    count: nat,
    started: bool,
    completed: bool,
    final: bool,
    streamedText: bool,
    response: string,
    kind: Option<Kind>,
    segment: nat,
    delta: nat,
    next: nat)

  function NewState(limit: nat): State { State(limit, 0, false, false, false, false, "", None, 0, 0, 0) }

  /** A turn that has put out its started event. */
  function Begun(limit: nat): State { NewState(limit).(started := true, count := 1) }

  /** Segment tracking reset at a boundary. */
  function Clear(s: State): State { s.(kind := None, segment := 0, delta := 0) }

  function Rotate(s: State, kind: Kind): State {
    if s.kind == Some(kind) then s else Clear(s).(kind := Some(kind), segment := s.next, next := s.next + 1)
  }

  function DeltaEvent(s: State, kind: Kind, content: string): Event {
    var t := Rotate(s, kind);
    Delta(kind, content, t.segment, t.delta, t.delta == 0)
  }

  function AfterDelta(s: State, kind: Kind, content: string): State {
    var t := Rotate(s, kind);
    t.(delta := t.delta + 1, count := t.count + 1,
       streamedText := t.streamedText || kind == Text,
       response := if kind == Text then t.response + content else t.response)
  }

  function AfterTool(s: State): State { Clear(s).(count := s.count + 1) }

  function AfterFinal(s: State): State { Clear(s).(final := true, count := s.count + 1) }

  function FinalEvent(s: State, content: Option<string>, error: bool): Event {
    Final(error, if s.streamedText && !error && content.Some? then Some("") else content)
  }

  function AfterCompleted(s: State): State { Clear(s).(completed := true, count := s.count + 1) }

  /** What emitting an event comes to: the event, a suppressed duplicate, or the limit. */
  datatype Emitted = Event(event: Event) | Suppressed | LimitExceeded

  function Limited(s: State, e: Event): Emitted { if s.count > s.limit then LimitExceeded else Emitted.Event(e) }

  class EventCoordinator {
    const maxEvents: nat
    var eventCount: nat
    var startedEmitted: bool
    var completedEmitted: bool
    var finalResponseEmitted: bool
    var streamedText: bool
    var responseBuffer: string
    var segmentKind: Option<Kind>
    var segmentIndex: nat
    var segmentDeltaIndex: nat
    var nextSegmentIndex: nat

    ghost function View(): State
      reads this
    {
      State(maxEvents, eventCount, startedEmitted, completedEmitted, finalResponseEmitted, streamedText, responseBuffer,
            segmentKind, segmentIndex, segmentDeltaIndex, nextSegmentIndex)
    }

    constructor (maxEvents: nat)
      ensures View() == NewState(maxEvents)
    {
      this.maxEvents := maxEvents;
      eventCount, startedEmitted, completedEmitted, finalResponseEmitted := 0, false, false, false;
      streamedText, responseBuffer := false, "";
      segmentKind, segmentIndex, segmentDeltaIndex, nextSegmentIndex := None, 0, 0, 0;
    }

    method ClearContentSegment()
      modifies this
      ensures View() == Clear(old(View()))
    {
      segmentKind, segmentIndex, segmentDeltaIndex := None, 0, 0;
    }

    /** Counts the event; over the limit the event is lost. */
    method Count(event: Event) returns (r: Emitted)
      modifies this
      ensures View() == old(View()).(count := old(View()).count + 1)
      ensures r == Limited(View(), event)
    {
      eventCount := eventCount + 1;
      r := if eventCount > maxEvents then LimitExceeded else Emitted.Event(event);
    }

    method TryStarted() returns (r: Emitted)
      modifies this
      ensures View() == if old(View()).started then old(View()) else old(View()).(started := true, count := old(View()).count + 1)
      ensures r == if old(View()).started then Suppressed else Limited(View(), Started)
    {
      if startedEmitted {
        return Suppressed;
      }
      startedEmitted := true;
      r := Count(Started);
    }

    method TryCompleted() returns (r: Emitted)
      modifies this
      ensures View() == if old(View()).completed then old(View()) else AfterCompleted(old(View()))
      ensures r == if old(View()).completed then Suppressed else Emitted.Event(Completed)
    {
      if completedEmitted {
        return Suppressed;
      }
      completedEmitted := true;
      ClearContentSegment();
      eventCount := eventCount + 1;
      r := Emitted.Event(Completed);
    }

    method TryFinalResponse(content: Option<string>, error: bool) returns (r: Emitted)
      modifies this
      ensures View() == if old(View()).final then old(View()) else AfterFinal(old(View()))
      ensures r == if old(View()).final then Suppressed else Emitted.Event(FinalEvent(old(View()), content, error))
    {
      if finalResponseEmitted {
        return Suppressed;
      }
      finalResponseEmitted := true;
      ClearContentSegment();
      var effective := if streamedText && !error && content.Some? then Some("") else content;
      eventCount := eventCount + 1;
      r := Emitted.Event(Final(error, effective));
    }

    method NextSegment(kind: Kind) returns (index: nat, delta: nat, first: bool)
      modifies this
      ensures View() == Rotate(old(View()), kind).(delta := Rotate(old(View()), kind).delta + 1)
      ensures index == Rotate(old(View()), kind).segment && delta == Rotate(old(View()), kind).delta && (first <==> delta == 0)
    {
      if segmentKind != Some(kind) {
        ClearContentSegment();
        segmentKind, segmentIndex := Some(kind), nextSegmentIndex;
        nextSegmentIndex := nextSegmentIndex + 1;
      }
      index, delta, first := segmentIndex, segmentDeltaIndex, segmentDeltaIndex == 0;
      segmentDeltaIndex := segmentDeltaIndex + 1;
    }

    /** A text or thinking delta. Text is added to the response before the limit is checked. */
    method EmitDelta(kind: Kind, content: string) returns (r: Emitted)
      modifies this
      ensures View() == AfterDelta(old(View()), kind, content)
      ensures r == Limited(View(), DeltaEvent(old(View()), kind, content))
    {
      if kind == Text {
        streamedText := true;
        responseBuffer := responseBuffer + content;
      }
      var index, delta, first := NextSegment(kind);
      r := Count(Delta(kind, content, index, delta, first));
    }

    method TrackTool(name: string) returns (r: Emitted)
      modifies this
      ensures View() == AfterTool(old(View()))
      ensures r == Limited(View(), Tool(name))
    {
      ClearContentSegment();
      r := Count(Tool(name));
    }
  }

  // ---------------------------------------------------------------- the turn

  /** What a run puts out: pieces of text or thinking, tool events, the end of a response, or
      a debug event. */
  datatype Emission = Piece(kind: Kind, content: string) | ToolEvent(name: string) | ResponseEnd | Trace(name: string)

  /** How a turn ends: the next host call is handed on, a receipt is given, the run answered,
      or it did not finish normally. */
  datatype Exit = HandedOn | Receipt | Answered(content: Option<string>) | Unfinished(errorType: string, text: Option<string>)

  const EVENT_LIMIT := Unfinished("internal", None)

  datatype Played = Played(state: State, events: seq<Event>, limited: bool)

  /** The state and event of one emission. */
  function PlayOne(s: State, e: Emission): Played {
    match e
    case Piece(kind, content) =>
      var t := AfterDelta(s, kind, content);
      if t.count > t.limit then Played(t, [], true) else Played(t, [DeltaEvent(s, kind, content)], false)
    case ToolEvent(name) =>
      var t := AfterTool(s);
      if t.count > t.limit then Played(t, [], true) else Played(t, [Tool(name)], false)
    case ResponseEnd => Played(Clear(s), [], false)
    case Trace(name) => Played(s, [Debug(name)], false)
  }

  /** The emissions up to the one that hits the limit. */
  function Play(s: State, script: seq<Emission>): Played
    decreases |script|
  {
    if script == [] then Played(s, [], false)
    else
      var front := Play(s, script[..|script| - 1]);
      if front.limited then front
      else
        var last := PlayOne(front.state, script[|script| - 1]);
        Played(last.state, front.events + last.events, last.limited)
  }

  /** The terminal events of a turn that did not finish normally, or its final response. */
  function Ending(s: State, exit: Exit, emitDebug: bool): seq<Event> {
    match exit
    case HandedOn => [FinalEvent(s, None, false)]
    case Receipt => [FinalEvent(s, None, false)]
    case Answered(content) => [FinalEvent(s, content, false)]
    case Unfinished(errorType, text) =>
      [FinalEvent(s, text, true)] + (if emitDebug then [Debug("error")] else []) + [Failure(errorType)]
  }

  function Closing(response: string, emitDebug: bool): seq<Event> {
    if !emitDebug then [] else (if response != "" then [Debug("final_response")] else []) + [Debug("completed")]
  }

  function TurnTrace(limit: nat, emitDebug: bool, script: seq<Emission>, exit: Exit): seq<Event> {
    var played := Play(Begun(limit), script);
    [Started] + played.events
    + Ending(played.state, if played.limited then EVENT_LIMIT else exit, emitDebug)
    + Closing(played.state.response, emitDebug) + [Completed]
  }

  method EmitOne(c: EventCoordinator, e: Emission) returns (events: seq<Event>, limited: bool)
    modifies c
    ensures Played(c.View(), events, limited) == PlayOne(old(c.View()), e)
  {
    var r := Suppressed;
    match e {
      case Piece(kind, content) => r := c.EmitDelta(kind, content);
      case ToolEvent(name) => r := c.TrackTool(name);
      case ResponseEnd => c.ClearContentSegment();
      case Trace(name) => r := Emitted.Event(Debug(name));
    }
    limited := r == LimitExceeded;
    events := if r.Event? then [r.event] else [];
  }

  /** What the run puts out, until it ends or an event hits the limit. */
  method PlayScript(c: EventCoordinator, script: seq<Emission>) returns (events: seq<Event>, limited: bool)
    modifies c
    ensures Played(c.View(), events, limited) == Play(old(c.View()), script)
  {
    events, limited := [], false;
    ghost var begun := c.View();
    var i := 0;
    while i < |script| && !limited
      invariant 0 <= i <= |script|
      invariant Played(c.View(), events, limited) == Play(begun, script[..i])
    {
      PrefixFront(script, i);
      var more;
      more, limited := EmitOne(c, script[i]);
      events := events + more;
      i := i + 1;
    }
    if limited {
      PlayStops(begun, script, i);
    } else {
      assert script[..i] == script;
    }
  }

  lemma PrefixFront(script: seq<Emission>, i: nat)
    requires i < |script|
    ensures script[..i + 1][..i] == script[..i] && script[..i + 1][i] == script[i]
  {
  }

  /** A turn as the runner drives it: started, what the run puts out, the way out, completed. */
  method RunTurn(maxEvents: nat, emitDebug: bool, script: seq<Emission>, exit: Exit)
    returns (trace: seq<Event>, coordinator: EventCoordinator)
    requires maxEvents > 0
    ensures trace == TurnTrace(maxEvents, emitDebug, script, exit)
    ensures fresh(coordinator)
    ensures coordinator.View().response == Play(Begun(maxEvents), script).state.response
  {
    coordinator := new EventCoordinator(maxEvents);
    var started := coordinator.TryStarted();
    ghost var begun := coordinator.View();
    var played, limited := PlayScript(coordinator, script);
    PlayKeepsFlags(begun, script);
    var ending := EndTurn(coordinator, if limited then EVENT_LIMIT else exit, emitDebug);
    var response := coordinator.responseBuffer;
    var completed := coordinator.TryCompleted();
    trace := [started.event] + played + ending + Closing(response, emitDebug) + [completed.event];
  }

  method EndTurn(c: EventCoordinator, exit: Exit, emitDebug: bool) returns (events: seq<Event>)
    requires !c.View().final
    modifies c
    ensures events == Ending(old(c.View()), exit, emitDebug)
    ensures c.View() == AfterFinal(old(c.View()))
  {
    var r;
    match exit {
      case HandedOn => r := c.TryFinalResponse(None, false);
      case Receipt => r := c.TryFinalResponse(None, false);
      case Answered(content) => r := c.TryFinalResponse(content, false);
      case Unfinished(_, text) => r := c.TryFinalResponse(text, true);
    }
    events := [r.event];
    if exit.Unfinished? {
      if emitDebug {
        events := events + [Debug("error")];
      }
      events := events + [Failure(exit.errorType)];
    }
  }

  lemma {:induction false} PlayStops(s: State, script: seq<Emission>, i: nat)
    requires i <= |script| && Play(s, script[..i]).limited
    ensures Play(s, script) == Play(s, script[..i])
    decreases |script|
  {
    if i < |script| {
      assert script[..|script| - 1][..i] == script[..i];
      PlayStops(s, script[..|script| - 1], i);
    } else {
      assert script[..i] == script;
    }
  }

  predicate SameFlags(s: State, t: State) {
    t.final == s.final && t.completed == s.completed && t.started == s.started && t.limit == s.limit
  }

  lemma PlayOneKeepsFlags(s: State, e: Emission)
    ensures SameFlags(s, PlayOne(s, e).state)
  {
  }

  lemma {:induction false} PlayKeepsFlags(s: State, script: seq<Emission>)
    ensures SameFlags(s, Play(s, script).state)
  {
    if script != [] {
      var front := Play(s, script[..|script| - 1]);
      PlayKeepsFlags(s, script[..|script| - 1]);
      PlayOneKeepsFlags(front.state, script[|script| - 1]);
    }
  }

  // ---------------------------------------------------------------- the event limit

  predicate Counted(e: Event) { e.Started? || e.Delta? || e.Tool? }

  function CountOf(events: seq<Event>): nat {
    if events == [] then 0 else CountOf(events[..|events| - 1]) + (if Counted(events[|events| - 1]) then 1 else 0)
  }

  lemma {:induction false} CountAppend(a: seq<Event>, b: seq<Event>)
    ensures CountOf(a + b) == CountOf(a) + CountOf(b)
  {
    if b == [] {
      assert a + b == a;
    } else {
      CountAppend(a, b[..|b| - 1]);
      AppendFront(a, b);
    }
  }

  lemma CountOne(e: Event)
    ensures CountOf([e]) == if Counted(e) then 1 else 0
  {
    assert CountOf([]) == 0;
  }

  lemma PlayOneCounts(s: State, e: Emission)
    requires s.count <= s.limit
    ensures var p := PlayOne(s, e);
            && p.state.count == s.count + CountOf(p.events) + (if p.limited then 1 else 0)
            && (p.limited <==> p.state.count > s.limit)
  {
    var p := PlayOne(s, e);
    if p.events != [] {
      CountOne(p.events[0]);
      assert p.events == [p.events[0]];
    }
  }

  lemma {:induction false} PlayCounts(s: State, script: seq<Emission>)
    requires s.count <= s.limit
    ensures var p := Play(s, script);
            && p.state.count == s.count + CountOf(p.events) + (if p.limited then 1 else 0)
            && (if p.limited then p.state.count == s.limit + 1 else p.state.count <= s.limit)
  {
    if script != [] {
      var front := Play(s, script[..|script| - 1]);
      PlayCounts(s, script[..|script| - 1]);
      PlayKeepsFlags(s, script[..|script| - 1]);
      if !front.limited {
        PlayOneCounts(front.state, script[|script| - 1]);
        CountAppend(front.events, PlayOne(front.state, script[|script| - 1]).events);
      }
    }
  }

  predicate Uncounted(events: seq<Event>) { forall e :: e in events ==> !Counted(e) }

  lemma {:induction false} NoneCounted(events: seq<Event>)
    requires Uncounted(events)
    ensures CountOf(events) == 0
  {
    if events != [] {
      NoneCounted(events[..|events| - 1]);
    }
  }

  lemma TailCount(head: seq<Event>, ending: seq<Event>, closing: seq<Event>)
    requires Uncounted(ending) && Uncounted(closing)
    ensures CountOf(head + ending + closing + [Completed]) == CountOf(head)
  {
    NoneCounted(ending);
    NoneCounted(closing);
    CountOne(Completed);
    CountAppend(head, ending);
    CountAppend(head + ending, closing);
    CountAppend(head + ending + closing, [Completed]);
  }

  lemma TerminalsUncounted(s: State, exit: Exit, emitDebug: bool)
    ensures Uncounted(Ending(s, exit, emitDebug)) && Uncounted(Closing(s.response, emitDebug))
  {
  }

  lemma HeadCount(limit: nat, script: seq<Emission>)
    requires limit > 0
    ensures var played := Play(Begun(limit), script);
            if played.limited then CountOf([Started] + played.events) == limit else CountOf([Started] + played.events) <= limit
  {
    var s := Begun(limit);
    PlayCounts(s, script);
    CountOne(Started);
    CountAppend([Started], Play(s, script).events);
  }

  /** Every event a turn yields but its terminal ones stays within the limit; a run that puts
      out more than the limit ends as a failure with exactly as many. */
  lemma WithinLimit(limit: nat, emitDebug: bool, script: seq<Emission>, exit: Exit)
    requires limit > 0
    ensures CountOf(TurnTrace(limit, emitDebug, script, exit)) <= limit
    ensures Play(Begun(limit), script).limited ==>
              CountOf(TurnTrace(limit, emitDebug, script, exit)) == limit
  {
    var played := Play(Begun(limit), script);
    var last := if played.limited then EVENT_LIMIT else exit;
    HeadCount(limit, script);
    TerminalsUncounted(played.state, last, emitDebug);
    TailCount([Started] + played.events, Ending(played.state, last, emitDebug), Closing(played.state.response, emitDebug));
  }

  // ---------------------------------------------------------------- the grammar

  predicate Middle(e: Event) { e.Delta? || e.Tool? || e.Debug? }

  /** Started first; then content, tools and debug events; one final response at `f`; after it
      only debug events and, exactly when it is an error, one terminal failure; completed last. */
  predicate GrammarAt(trace: seq<Event>, f: nat) {
    var n := |trace| - 1;
    && 0 < f < n && trace[0] == Started && trace[n] == Completed && trace[f].Final?
    && (forall i :: 0 < i < f ==> Middle(trace[i]))
    && (forall i :: f < i < n ==> trace[i].Debug? || trace[i].Failure?)
    && (forall i, j :: f < i < n && f < j < n && trace[i].Failure? && trace[j].Failure? ==> i == j)
    && (trace[f].error <==> exists i :: f < i < n && trace[i].Failure?)
  }

  lemma {:induction false} PlayIsMiddle(s: State, script: seq<Emission>)
    ensures forall e :: e in Play(s, script).events ==> Middle(e)
  {
    if script != [] {
      PlayIsMiddle(s, script[..|script| - 1]);
    }
  }

  lemma EndingGrammar(head: seq<Event>, ending: seq<Event>, closing: seq<Event>, failure: Option<nat>)
    requires head != [] && head[0] == Started && (forall i :: 0 < i < |head| ==> Middle(head[i]))
    requires ending != [] && ending[0].Final? && (forall i :: 0 < i < |ending| ==> ending[i].Debug? || ending[i].Failure?)
    requires ending[0].error <==> failure.Some?
    requires failure.Some? ==> 0 < failure.value < |ending| && ending[failure.value].Failure?
    requires forall i :: 0 < i < |ending| && ending[i].Failure? ==> failure == Some(i)
    requires forall e :: e in closing ==> e.Debug?
    ensures GrammarAt(head + ending + closing + [Completed], |head|)
    ensures (head + ending + closing + [Completed])[|head|] == ending[0]
  {
    var trace := head + ending + closing + [Completed];
    var f, n := |head|, |trace| - 1;
    assert forall i :: 0 <= i < |ending| ==> trace[f + i] == ending[i];
    assert forall i :: f + |ending| <= i < n ==> trace[i] in closing;
    forall i | f < i < n && trace[i].Failure? ensures failure == Some(i - f) {
      assert i < f + |ending|;
      assert trace[i] == ending[i - f];
    }
    if failure.Some? {
      assert trace[f + failure.value] == ending[failure.value];
    }
  }

  lemma {:induction false} HeadIsMiddle(s: State, script: seq<Emission>)
    ensures var head := [Started] + Play(s, script).events;
            |head| == 1 + |Play(s, script).events| && head[0] == Started && forall i :: 0 < i < |head| ==> Middle(head[i])
  {
    var events := Play(s, script).events;
    PlayIsMiddle(s, script);
    forall i | 0 < i < |events| + 1 ensures Middle(([Started] + events)[i]) {
      assert ([Started] + events)[i] == events[i - 1];
    }
  }

  lemma ClosingIsDebug(response: string, emitDebug: bool)
    ensures forall e :: e in Closing(response, emitDebug) ==> e.Debug?
  {
  }

  lemma EndingShape(s: State, exit: Exit, emitDebug: bool)
    ensures var ending := Ending(s, exit, emitDebug);
            && ending != [] && ending[0].Final? && (ending[0].error <==> exit.Unfinished?)
            && (forall i :: 0 < i < |ending| ==> ending[i].Debug? || ending[i].Failure?)
            && (forall i :: 0 < i < |ending| && ending[i].Failure? ==> exit.Unfinished? && i == |ending| - 1)
            && (exit.Unfinished? ==> |ending| > 1 && ending[|ending| - 1].Failure?)
  {
  }

  /** On every way out the trace of a turn is well formed, and its final response is an error
      exactly when the turn did not finish normally or ran into the event limit. */
  lemma TurnGrammar(limit: nat, emitDebug: bool, script: seq<Emission>, exit: Exit)
    ensures var played := Play(Begun(limit), script);
            var trace := TurnTrace(limit, emitDebug, script, exit);
            GrammarAt(trace, 1 + |played.events|)
            && (trace[1 + |played.events|].error <==> played.limited || exit.Unfinished?)
  {
    var s := Begun(limit);
    var played := Play(s, script);
    HeadIsMiddle(s, script);
    var last := if played.limited then EVENT_LIMIT else exit;
    var ending := Ending(played.state, last, emitDebug);
    EndingShape(played.state, last, emitDebug);
    ClosingIsDebug(played.state.response, emitDebug);
    EndingGrammar([Started] + played.events, ending, Closing(played.state.response, emitDebug),
                  if last.Unfinished? then Some(|ending| - 1) else None);
  }

  /** The fixed envelope of a stream that never reached the runner. */
  function SetupFailure(errorType: string): seq<Event> {
    [Started, Final(true, None), Failure(errorType), Completed]
  }

  lemma EnvelopeGrammar(errorType: string)
    ensures GrammarAt(SetupFailure(errorType), 1)
    ensures SetupFailure(errorType)[1].error
  {
    assert SetupFailure(errorType)[2].Failure?;
  }

  /** The fixed envelope of a stream cancelled before it put anything out. */
  const CANCELLED_BEFORE_START: seq<Event> := [Started, Final(true, None), Failure("cancelled"), Completed]

  lemma CancelledGrammar()
    ensures GrammarAt(CANCELLED_BEFORE_START, 1) && CANCELLED_BEFORE_START[1].error
    ensures forall i :: 0 <= i < |CANCELLED_BEFORE_START| && CANCELLED_BEFORE_START[i].Failure? ==> CANCELLED_BEFORE_START[i].errorType == "cancelled"
  {
    assert CANCELLED_BEFORE_START == SetupFailure("cancelled");
    EnvelopeGrammar("cancelled");
  }

  // ---------------------------------------------------------------- segments

  function Deltas(events: seq<Event>): seq<Event> {
    if events == [] then []
    else Deltas(events[..|events| - 1]) + (if events[|events| - 1].Delta? then [events[|events| - 1]] else [])
  }

  /** Each delta continues the segment before it, or opens the next one. */
  predicate Follows(a: Event, b: Event)
    requires a.Delta? && b.Delta?
  {
    (b.segment == a.segment && b.kind == a.kind && b.index == a.index + 1) || (b.segment == a.segment + 1 && b.index == 0)
  }

  /** Segments count up from 0, and the deltas of each count up from 0. */
  ghost predicate InOrder(deltas: seq<Event>) {
    && (forall i :: 0 <= i < |deltas| ==> deltas[i].Delta? && (deltas[i].first <==> deltas[i].index == 0))
    && (deltas != [] ==> deltas[0].segment == 0 && deltas[0].index == 0)
    && (forall i :: 0 < i < |deltas| ==> Follows(deltas[i - 1], deltas[i]))
  }

  /** What the coordinator remembers of the deltas so far. */
  ghost predicate Remembers(s: State, deltas: seq<Event>) {
    && InOrder(deltas)
    && (deltas == [] ==> s.next == 0 && s.kind == None)
    && (deltas != [] ==>
          var last := deltas[|deltas| - 1];
          && s.next == last.segment + 1
          && (s.kind.Some? ==> s.kind == Some(last.kind) && s.segment == last.segment && s.delta == last.index + 1))
  }

  /** The delta that one emission puts out, if any. */
  lemma PlayOneDeltas(s: State, e: Emission)
    ensures Deltas(PlayOne(s, e).events)
         == if e.Piece? && !PlayOne(s, e).limited then [DeltaEvent(s, e.kind, e.content)] else []
  {
    var p := PlayOne(s, e);
    if p.events != [] {
      DeltasOfOne(p.events[0]);
      assert p.events == [p.events[0]];
    }
  }

  lemma DeltasOfOne(event: Event)
    ensures Deltas([event]) == if event.Delta? then [event] else []
  {
    assert [event][..0] == [] && Deltas([]) == [];
    assert [] + [event] == [event];
  }

  /** Tool and debug events and the end of a response open no segment. */
  lemma RememberOther(s: State, e: Emission, deltas: seq<Event>)
    requires Remembers(s, deltas) && (s.kind == None ==> s.delta == 0) && !e.Piece?
    ensures Remembers(PlayOne(s, e).state, deltas) && (PlayOne(s, e).state.kind == None ==> PlayOne(s, e).state.delta == 0)
  {
  }

  lemma RememberOne(s: State, e: Emission, deltas: seq<Event>)
    requires Remembers(s, deltas) && (s.kind == None ==> s.delta == 0)
    ensures var p := PlayOne(s, e);
            InOrder(deltas + Deltas(p.events)) && (!p.limited ==> Remembers(p.state, deltas + Deltas(p.events)))
            && (p.state.kind == None ==> p.state.delta == 0)
  {
    PlayOneDeltas(s, e);
    assert deltas + [] == deltas;
    if e.Piece? {
      RememberDelta(s, e, deltas, DeltaEvent(s, e.kind, e.content));
    } else {
      RememberOther(s, e, deltas);
    }
  }

  lemma RememberDelta(s: State, e: Emission, deltas: seq<Event>, d: Event)
    requires Remembers(s, deltas) && (s.kind == None ==> s.delta == 0)
    requires e.Piece? && d == DeltaEvent(s, e.kind, e.content)
    ensures Remembers(AfterDelta(s, e.kind, e.content), deltas + [d])
  {
    var next := deltas + [d];
    forall i | 0 < i < |next| ensures Follows(next[i - 1], next[i]) {
      if i < |deltas| {
        assert Follows(deltas[i - 1], deltas[i]);
      }
    }
  }

  lemma {:induction false} DeltasAppend(a: seq<Event>, b: seq<Event>)
    ensures Deltas(a + b) == Deltas(a) + Deltas(b)
  {
    if b == [] {
      assert a + b == a;
    } else {
      DeltasAppend(a, b[..|b| - 1]);
      AppendFront(a, b);
    }
  }

  /** Segment indexes increase by one, and the deltas of each segment count up from zero. */
  lemma {:induction false} SegmentsCountUp(s: State, script: seq<Emission>)
    requires s.kind == None && s.next == 0 && s.delta == 0
    ensures InOrder(Deltas(Play(s, script).events))
    ensures !Play(s, script).limited ==> Remembers(Play(s, script).state, Deltas(Play(s, script).events))
    ensures Play(s, script).state.kind == None ==> Play(s, script).state.delta == 0
  {
    if script != [] {
      var front := Play(s, script[..|script| - 1]);
      SegmentsCountUp(s, script[..|script| - 1]);
      if !front.limited {
        RememberOne(front.state, script[|script| - 1], Deltas(front.events));
        DeltasAppend(front.events, PlayOne(front.state, script[|script| - 1]).events);
      }
    }
  }

  // ---------------------------------------------------------------- the accumulated response

  function TextOf(events: seq<Event>): string {
    if events == [] then ""
    else
      var e := events[|events| - 1];
      TextOf(events[..|events| - 1]) + (if e.Delta? && e.kind == Text then e.content else "")
  }

  /** The text of the emission that hit the limit: accumulated, never yielded. */
  function Lost(s: State, script: seq<Emission>): string {
    if script == [] then ""
    else
      var front, e := Play(s, script[..|script| - 1]), script[|script| - 1];
      if front.limited then Lost(s, script[..|script| - 1])
      else if PlayOne(front.state, e).limited && e.Piece? && e.kind == Text then e.content
      else ""
  }

  lemma {:induction false} TextAppend(a: seq<Event>, b: seq<Event>)
    ensures TextOf(a + b) == TextOf(a) + TextOf(b)
  {
    if b == [] {
      assert a + b == a;
    } else {
      var front, last := b[..|b| - 1], b[|b| - 1];
      TextAppend(a, front);
      AppendFront(a, b);
      ConcatAssoc(TextOf(a), TextOf(front), if last.Delta? && last.kind == Text then last.content else "");
    }
  }

  lemma TextOfOne(s: State, e: Emission)
    ensures var p := PlayOne(s, e);
            p.state.response == s.response + TextOf(p.events)
              + (if p.limited && e.Piece? && e.kind == Text then e.content else "")
  {
    var p := PlayOne(s, e);
    assert s.response + "" == s.response;
    assert TextOf([]) == "";
    if p.events != [] {
      assert p.events == [p.events[0]] && p.events[..0] == [];
      if e.Piece? && e.kind == Text {
        assert "" + e.content == e.content;
        assert (s.response + e.content) + "" == s.response + e.content;
      }
    }
  }

  lemma {:induction false} AccumulatedText(s: State, script: seq<Emission>)
    ensures Play(s, script).state.response == s.response + TextOf(Play(s, script).events) + Lost(s, script)
  {
    if script == [] {
      assert s.response + "" + "" == s.response;
    } else {
      var front, e := Play(s, script[..|script| - 1]), script[|script| - 1];
      AccumulatedText(s, script[..|script| - 1]);
      if !front.limited {
        NothingLostYet(s, script[..|script| - 1]);
        TextOfOne(front.state, e);
        var events := PlayOne(front.state, e).events;
        TextAppend(front.events, events);
        assert s.response + TextOf(front.events) + "" == s.response + TextOf(front.events);
        ConcatAssoc(s.response, TextOf(front.events), TextOf(events));
      }
    }
  }

  lemma {:induction false} NothingLostYet(s: State, script: seq<Emission>)
    requires !Play(s, script).limited
    ensures Lost(s, script) == ""
  {
  }

  /** The emissions the limit counts. */
  predicate Counts(e: Emission) { e.Piece? || e.ToolEvent? }

  function CountedIn(script: seq<Emission>): nat {
    if script == [] then 0 else CountedIn(script[..|script| - 1]) + (if Counts(script[|script| - 1]) then 1 else 0)
  }

  /** The `n`-th counted emission of a script, from 1. */
  function NthCounted(script: seq<Emission>, n: nat): Option<Emission> {
    if script == [] then None
    else
      var front, last := script[..|script| - 1], script[|script| - 1];
      if NthCounted(front, n).Some? then NthCounted(front, n)
      else if Counts(last) && CountedIn(front) + 1 == n then Some(last)
      else None
  }

  /** The position, among the counted emissions, of the one that hits the limit: the started
      event is counted before them. */
  function HitAt(limit: nat): nat { if limit == 0 then 1 else limit }

  /** The emission that first passes the limit is a piece of text, and not empty. */
  predicate HitsText(limit: nat, script: seq<Emission>) {
    var hit := NthCounted(script, HitAt(limit));
    hit.Some? && hit.value.Piece? && hit.value.kind == Text && hit.value.content != ""
  }

  lemma HitStep(limit: nat, s: State, e: Emission, before: nat)
    requires s.limit == limit && s.count == 1 + before && before < HitAt(limit)
    ensures PlayOne(s, e).limited <==> Counts(e) && before + 1 == HitAt(limit)
    ensures PlayOne(s, e).state.count == s.count + (if Counts(e) then 1 else 0)
  {
  }

  /** Which emission hits the limit, told from the script alone. */
  lemma {:induction false} HitIsNth(limit: nat, script: seq<Emission>)
    ensures Play(Begun(limit), script).limited <==> NthCounted(script, HitAt(limit)).Some?
    ensures !Play(Begun(limit), script).limited ==>
              Play(Begun(limit), script).state.count == 1 + CountedIn(script) && CountedIn(script) < HitAt(limit)
    ensures Lost(Begun(limit), script) != "" <==> HitsText(limit, script)
  {
    if script != [] {
      var front, last := script[..|script| - 1], script[|script| - 1];
      HitIsNth(limit, front);
      PlayKeepsFlags(Begun(limit), front);
      if !Play(Begun(limit), front).limited {
        HitStep(limit, Play(Begun(limit), front).state, last, CountedIn(front));
      }
    }
  }

  /** The text deltas of a turn concatenate to its accumulated response exactly unless the
      emission that first passes the limit is a piece of text. */
  lemma ResponseIsStreamed(limit: nat, script: seq<Emission>)
    ensures var played := Play(Begun(limit), script);
            played.state.response == TextOf(played.events) <==> !HitsText(limit, script)
  {
    AccumulatedText(Begun(limit), script);
    NothingAdded(TextOf(Play(Begun(limit), script).events), Lost(Begun(limit), script));
    HitIsNth(limit, script);
  }

  function Pieces(n: nat): seq<Emission> { if n == 0 then [] else Pieces(n - 1) + [Piece(Text, "a")] }

  lemma {:induction false} PiecesCounted(n: nat, m: nat)
    requires n <= m
    ensures CountedIn(Pieces(n)) == n
    ensures NthCounted(Pieces(n), m) == if n == m > 0 then Some(Piece(Text, "a")) else None
  {
    if n > 0 {
      PiecesCounted(n - 1, m);
      assert Pieces(n)[..|Pieces(n)| - 1] == Pieces(n - 1);
    }
  }

  /** At any limit: a run that puts out one short piece of text too many has the last one in
      its response, and in no event. */
  lemma TextIsLost(limit: nat)
    requires limit > 0
    ensures var played := Play(Begun(limit), Pieces(limit));
            played.limited && played.state.response == TextOf(played.events) + "a"
  {
    var script := Pieces(limit);
    PiecesCounted(limit, limit);
    PiecesCounted(limit - 1, limit);
    assert script[..|script| - 1] == Pieces(limit - 1);
    HitIsNth(limit, script);
    HitIsNth(limit, Pieces(limit - 1));
    AccumulatedText(Begun(limit), script);
    assert "" + TextOf(Play(Begun(limit), script).events) == TextOf(Play(Begun(limit), script).events);
  }

  lemma NothingAdded(text: string, lost: string)
    ensures "" + text + lost == text <==> lost == ""
  {
    assert |"" + text + lost| == |text| + |lost|;
  }

  // ---------------------------------------------------------------- large parts

  function Concat(pieces: seq<string>): string {
    if pieces == [] then "" else Concat(pieces[..|pieces| - 1]) + pieces[|pieces| - 1]
  }

  /** A large part is put out in pieces of at most `size` characters that make it up again. */
  method Chunked(content: string, threshold: nat, size: nat) returns (pieces: seq<string>)
    requires size > 0
    ensures Concat(pieces) == content
    ensures |content| > threshold ==> forall p :: p in pieces ==> 0 < |p| <= size
    ensures |content| <= threshold ==> pieces == [content]
  {
    if |content| <= threshold {
      assert Concat([]) == "" && [content][..0] == [];
      return [content];
    }
    pieces := [];
    var i := 0;
    while i < |content|
      invariant 0 <= i && Concat(pieces) == content[..if i < |content| then i else |content|]
      invariant forall p :: p in pieces ==> 0 < |p| <= size
    {
      var end := if i + size < |content| then i + size else |content|;
      var piece := content[i..end];
      assert (pieces + [piece])[..|pieces|] == pieces;
      assert content[..i] + piece == content[..end];
      pieces := pieces + [piece];
      i := i + size;
    }
    assert content[..|content|] == content;
  }

  // ---------------------------------------------------------------- what the host is told

  /** The emission an event shows. */
  function Shown(e: Event): Option<Emission> {
    match e
    case Delta(kind, content, _, _, _) => Some(Piece(kind, content))
    case Tool(name) => Some(ToolEvent(name))
    case Debug(name) => Some(Trace(name))
    case _ => None
  }

  function ShownAll(events: seq<Event>): seq<Emission> {
    if events == [] then []
    else
      var e := Shown(events[|events| - 1]);
      ShownAll(events[..|events| - 1]) + (if e.Some? then [e.value] else [])
  }

  /** The emissions that are events: all but the ends of responses. */
  function Visible(script: seq<Emission>): seq<Emission> {
    if script == [] then []
    else Visible(script[..|script| - 1]) + (if script[|script| - 1].ResponseEnd? then [] else [script[|script| - 1]])
  }

  lemma ShownSnoc(events: seq<Event>, e: Event)
    ensures ShownAll(events + [e]) == ShownAll(events) + (if Shown(e).Some? then [Shown(e).value] else [])
  {
    assert (events + [e])[..|events|] == events;
  }

  lemma PlayOneShows(s: State, events: seq<Event>, e: Emission)
    ensures !PlayOne(s, e).limited ==> ShownAll(events + PlayOne(s, e).events) == ShownAll(events) + (if e.ResponseEnd? then [] else [e])
    ensures PlayOne(s, e).limited ==> PlayOne(s, e).events == []
  {
    var p := PlayOne(s, e);
    assert events + [] == events && ShownAll(events) + [] == ShownAll(events);
    if p.events != [] {
      PlayOneEvent(s, e);
      ShownSnoc(events, p.events[0]);
    }
  }

  lemma PlayOneEvent(s: State, e: Emission)
    requires PlayOne(s, e).events != []
    ensures var p := PlayOne(s, e); p.events == [p.events[0]] && Shown(p.events[0]) == Some(e) && !e.ResponseEnd? && !p.limited
  {
  }

  /** How many emissions come before the one that hits the limit. */
  function Reached(s: State, script: seq<Emission>): nat
    decreases |script|
  {
    if script == [] then 0
    else
      var front := Play(s, script[..|script| - 1]);
      if front.limited then Reached(s, script[..|script| - 1])
      else if PlayOne(front.state, script[|script| - 1]).limited then |script| - 1
      else |script|
  }

  /** The events of a run show exactly what it put out, in order, up to the emission that hits
      the limit; without one, all of it. */
  lemma {:induction false} EventsShowScript(s: State, script: seq<Emission>)
    ensures Reached(s, script) <= |script| && (Play(s, script).limited <==> Reached(s, script) < |script|)
    ensures ShownAll(Play(s, script).events) == Visible(script[..Reached(s, script)])
  {
    if script == [] {
      assert ShownAll([]) == [];
    } else {
      var front, e, n := script[..|script| - 1], script[|script| - 1], |script| - 1;
      EventsShowScript(s, front);
      if Play(s, front).limited {
        assert front[..Reached(s, front)] == script[..Reached(s, front)];
      } else {
        assert front[..n] == front && script[..n] == front && script[..|script|] == script;
        PlayOneShows(Play(s, front).state, Play(s, front).events, e);
        assert Visible(front) + [] == Visible(front);
        assert Play(s, front).events + [] == Play(s, front).events;
      }
    }
  }

  /** The run puts out text, if only an empty piece. */
  predicate Speaks(script: seq<Emission>) { exists i :: 0 <= i < |script| && script[i].Piece? && script[i].kind == Text }

  lemma SpeaksSnoc(script: seq<Emission>, e: Emission)
    ensures Speaks(script + [e]) <==> Speaks(script) || (e.Piece? && e.kind == Text)
  {
    var all := script + [e];
    if Speaks(script) {
      var i :| 0 <= i < |script| && script[i].Piece? && script[i].kind == Text;
      assert all[i] == script[i];
    }
    if e.Piece? && e.kind == Text {
      assert all[|script|] == e;
    }
  }

  lemma {:induction false} StreamedIsSpoken(s: State, script: seq<Emission>)
    ensures !Play(s, script).limited ==> (Play(s, script).state.streamedText <==> s.streamedText || Speaks(script))
  {
    if script != [] {
      var front, e := script[..|script| - 1], script[|script| - 1];
      StreamedIsSpoken(s, front);
      assert script == front + [e];
      SpeaksSnoc(front, e);
    }
  }

  /** What the final response carries, on every way out: nothing at the limit, for a call
      that is handed on and for a receipt; the text of a turn that did not finish normally;
      and the answer of one that did, unless text was streamed, which then is the answer. */
  function Reply(script: seq<Emission>, exit: Exit): Option<string> {
    match exit
    case HandedOn | Receipt => None
    case Answered(content) => if content.Some? && Speaks(script) then Some("") else content
    case Unfinished(_, text) => text
  }

  lemma FinalReply(limit: nat, emitDebug: bool, script: seq<Emission>, exit: Exit)
    ensures var played, trace := Play(Begun(limit), script), TurnTrace(limit, emitDebug, script, exit);
            && 1 + |played.events| < |trace|
            && trace[1 + |played.events|] == Final(played.limited || exit.Unfinished?, if played.limited then None else Reply(script, exit))
  {
    var s := Begun(limit);
    var played := Play(s, script);
    StreamedIsSpoken(s, script);
    var last := if played.limited then EVENT_LIMIT else exit;
    var ending, closing := Ending(played.state, last, emitDebug), Closing(played.state.response, emitDebug);
    var trace := [Started] + played.events + ending + closing + [Completed];
    assert trace[1 + |played.events|] == ending[0];
  }

  lemma EndingFailures(s: State, exit: Exit, emitDebug: bool)
    ensures forall e :: e in Ending(s, exit, emitDebug) && e.Failure? ==> exit.Unfinished? && e == Failure(exit.errorType)
  {
  }

  /** Every failure a turn reports is its own, or the one of the event limit. */
  lemma FailureIsOwn(limit: nat, emitDebug: bool, script: seq<Emission>, exit: Exit, e: Event)
    requires e in TurnTrace(limit, emitDebug, script, exit) && e.Failure?
    ensures if Play(Begun(limit), script).limited then e == Failure("internal") else exit.Unfinished? && e == Failure(exit.errorType)
  {
    var played := Play(Begun(limit), script);
    PlayIsMiddle(Begun(limit), script);
    ClosingIsDebug(played.state.response, emitDebug);
    EndingFailures(played.state, if played.limited then EVENT_LIMIT else exit, emitDebug);
  }

  /** What comes after the final response: the failure, behind a debug event if those are
      wanted; then, if they are, one for a response that has text and one for the end. */
  lemma AfterTheFinal(limit: nat, emitDebug: bool, script: seq<Emission>, exit: Exit)
    ensures var played, trace := Play(Begun(limit), script), TurnTrace(limit, emitDebug, script, exit);
            var error := played.limited || exit.Unfinished?;
            2 + |played.events| <= |trace|
            && trace[2 + |played.events|..]
               == (if error && emitDebug then [Debug("error")] else [])
                  + (if error then [Failure(if played.limited then "internal" else exit.errorType)] else [])
                  + (if emitDebug && played.state.response != "" then [Debug("final_response")] else [])
                  + (if emitDebug then [Debug("completed")] else []) + [Completed]
  {
    var played := Play(Begun(limit), script);
    var last := if played.limited then EVENT_LIMIT else exit;
    var head, ending, closing := [Started] + played.events, Ending(played.state, last, emitDebug), Closing(played.state.response, emitDebug);
    var trace := head + ending + closing + [Completed];
    assert trace[|head| + 1..] == ending[1..] + closing + [Completed];
    EndingRest(played.state, last, emitDebug);
    ConcatAssoc(ending[1..], if emitDebug && played.state.response != "" then [Debug("final_response")] else [],
                if emitDebug then [Debug("completed")] else []);
  }

  lemma EndingRest(s: State, exit: Exit, emitDebug: bool)
    ensures var ending := Ending(s, exit, emitDebug);
            ending != [] && ending[1..] == (if exit.Unfinished? && emitDebug then [Debug("error")] else [])
                                            + (if exit.Unfinished? then [Failure(exit.errorType)] else [])
    ensures Closing(s.response, emitDebug)
         == (if emitDebug && s.response != "" then [Debug("final_response")] else []) + (if emitDebug then [Debug("completed")] else [])
  {
  }

  // ---------------------------------------------------------------- where a segment begins

  /** The kind of the segment that is open after the script: that of the last piece, unless a
      tool event or the end of a response came after it. */
  function OpenKind(script: seq<Emission>): Option<Kind> {
    if script == [] then None
    else
      match script[|script| - 1]
      case Piece(kind, _) => Some(kind)
      case Trace(_) => OpenKind(script[..|script| - 1])
      case _ => None
  }

  lemma {:induction false} KindIsOpen(limit: nat, script: seq<Emission>)
    ensures !Play(Begun(limit), script).limited ==> Play(Begun(limit), script).state.kind == OpenKind(script)
  {
    if script != [] {
      KindIsOpen(limit, script[..|script| - 1]);
    }
  }

  lemma {:induction false} OpenHasDelta(limit: nat, script: seq<Emission>)
    ensures !Play(Begun(limit), script).limited ==>
              (Play(Begun(limit), script).state.kind.Some? ==> Play(Begun(limit), script).state.delta > 0)
  {
    if script != [] {
      OpenHasDelta(limit, script[..|script| - 1]);
    }
  }

  /** A piece begins a new segment if and only if none of its kind is open: the kind changed,
      or a tool event or the end of a response came between. */
  lemma SegmentBegins(limit: nat, script: seq<Emission>, kind: Kind, content: string)
    requires !Play(Begun(limit), script + [Piece(kind, content)]).limited
    ensures var events := Play(Begun(limit), script + [Piece(kind, content)]).events;
            events != [] && events[|events| - 1].Delta? && (events[|events| - 1].first <==> OpenKind(script) != Some(kind))
  {
    assert (script + [Piece(kind, content)])[..|script|] == script;
    KindIsOpen(limit, script);
    OpenHasDelta(limit, script);
  }
}
