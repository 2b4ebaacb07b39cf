/**
 * RDS_Profiler: a named timeline of events that is OPEN until end() and CLOSED
 * for ever after. Events are addressed by their position in an append-only list.
 */
module Profiling {
  import opened Wrappers
  import opened Host
  import opened Failures
  import Text

  /** One event; its end memory and end time stay null until endEvent or end() sets them. */
  datatype Event = Event(
    message: string,
    origin: Location,
    startMemory: int,
    startTime: real,
    endMemory: Option<int>,
    endTime: Option<real>)
  {
    predicate Ended() { endMemory.Some? && endTime.Some? }
  }

  /** The value of every field of a profiler at one moment. */
  datatype ProfilerView = ProfilerView(
    name: string,
    startTime: real,
    startMemory: int,
    startAt: Location,
    endTime: Option<real>,
    endMemory: int,
    endAt: Option<Location>,
    open: bool,
    events: seq<Event>)

  /**
   * The profiler invariant: the end time and end location are set exactly when the
   * profiler is closed, and a closed profiler has no event left without an end.
   */
  predicate WellFormed(v: ProfilerView) {
    && (v.open <==> v.endTime.None?)
    && (v.open <==> v.endAt.None?)
    && (!v.open ==> forall i :: 0 <= i < |v.events| ==> v.events[i].Ended())
  }

  /** The stored name: spaces become underscores, then the name is upper-cased. */
  function NormalizeName(name: string): (r: string)
    ensures |r| == |name|
    ensures forall i :: 0 <= i < |name| ==>
      r[i] == Text.UpperChar(if name[i] == ' ' then '_' else name[i])
    ensures ' ' !in r
  {
    Text.ToUpper(Text.ReplaceChar(name, ' ', '_'))
  }

  // The state transitions, one per method of the class below.

  /** A new profiler: open, no events, end memory already read once, no end time. */
  function Created(name: string, now: Sample, at: Location): ProfilerView {
    ProfilerView(NormalizeName(name), now.time, now.memory, at, None, now.memory, None, true, [])
  }

  function StartedEvent(v: ProfilerView, message: string, at: Location, now: Sample)
    : (ProfilerView, Result<nat, Failure>)
  {
    var index: nat := |v.events|;
    if v.open then
      (v.(events := v.events + [Event(message, at, now.memory, now.time, None, None)]), Ok(index))
    else
      (v, Err(ProfilerClosed(v.name)))
  }

  function EndedEvent(v: ProfilerView, id: int, now: Sample): (ProfilerView, Outcome<Failure>) {
    if v.open && 0 <= id < |v.events| then
      (v.(events := v.events[id := v.events[id].(endMemory := Some(now.memory), endTime := Some(now.time))]),
       Pass)
    else if !v.open then
      (v, Fail(ProfilerClosed(v.name)))
    else
      (v, Fail(EventNotFound(id)))
  }

  /** Back-fills each missing end field of an event, independently, from the profiler's end sample. */
  function CloseEvent(e: Event, s: Sample): Event {
    e.(endMemory := if e.endMemory.None? then Some(s.memory) else e.endMemory,
       endTime := if e.endTime.None? then Some(s.time) else e.endTime)
  }

  function CloseAll(es: seq<Event>, s: Sample): (r: seq<Event>)
    ensures |r| == |es|
    ensures forall i :: 0 <= i < |es| ==> r[i] == CloseEvent(es[i], s)
  {
    if es == [] then [] else [CloseEvent(es[0], s)] + CloseAll(es[1..], s)
  }

  function Ended(v: ProfilerView, now: Sample, at: Location): ProfilerView {
    if !v.open then v
    else v.(endTime := Some(now.time), endMemory := now.memory, endAt := Some(at),
            open := false, events := CloseAll(v.events, now))
  }

  // Sequences of operations on one profiler.

  datatype Op =
    | StartEventOp(message: string, at: Location, now: Sample)
    | EndEventOp(id: int, now: Sample)
    | EndOp(now: Sample, at: Location)

  function Apply(v: ProfilerView, op: Op): ProfilerView {
    match op
    case StartEventOp(message, at, now) => StartedEvent(v, message, at, now).0
    case EndEventOp(id, now) => EndedEvent(v, id, now).0
    case EndOp(now, at) => Ended(v, now, at)
  }

  function Run(v: ProfilerView, ops: seq<Op>): ProfilerView
    decreases |ops|
  {
    if ops == [] then v else Run(Apply(v, ops[0]), ops[1..])
  }

  // Properties of the transitions.

  /** A new profiler is open, has no events and is well formed. */
  lemma CreatedIsOpen(name: string, now: Sample, at: Location)
    ensures WellFormed(Created(name, now, at))
    ensures Created(name, now, at).open && Created(name, now, at).events == []
    ensures Created(name, now, at).name == NormalizeName(name)
  {
  }

  /** Every operation keeps the profiler invariant. */
  lemma ApplyWellFormed(v: ProfilerView, op: Op)
    requires WellFormed(v)
    ensures WellFormed(Apply(v, op))
  {
  }

  lemma {:induction false} RunWellFormed(v: ProfilerView, ops: seq<Op>)
    requires WellFormed(v)
    ensures WellFormed(Run(v, ops))
    decreases |ops|
  {
    if ops != [] {
      ApplyWellFormed(v, ops[0]);
      RunWellFormed(Apply(v, ops[0]), ops[1..]);
    }
  }

  /** CLOSED is terminal: once closed, no sequence of operations changes the profiler. */
  lemma {:induction false} ClosedIsTerminal(v: ProfilerView, ops: seq<Op>)
    requires !v.open
    ensures Run(v, ops) == v
    decreases |ops|
  {
    if ops != [] {
      assert Apply(v, ops[0]) == v;
      ClosedIsTerminal(v, ops[1..]);
    }
  }

  /** Whatever happens later, event i keeps its message, origin and start sample. */
  lemma {:induction false} RunKeepsEvents(v: ProfilerView, ops: seq<Op>)
    ensures |Run(v, ops).events| >= |v.events|
    ensures forall i :: 0 <= i < |v.events| ==>
      var e, e' := v.events[i], Run(v, ops).events[i];
      e'.message == e.message && e'.origin == e.origin &&
      e'.startMemory == e.startMemory && e'.startTime == e.startTime
    decreases |ops|
  {
    if ops != [] {
      RunKeepsEvents(Apply(v, ops[0]), ops[1..]);
    }
  }

  /**
   * startEvent on an open profiler appends exactly one unended event and returns
   * the former event count as its index, leaving everything else as it was; on a
   * closed profiler it fails with the "closed" error and changes nothing.
   */
  lemma StartedEventSpec(v: ProfilerView, message: string, at: Location, now: Sample)
    ensures var (w, r) := StartedEvent(v, message, at, now);
      && (r.Ok? <==> v.open)
      && (v.open ==>
            && r.value == |v.events|
            && |w.events| == |v.events| + 1 && w.events[..|v.events|] == v.events
            && w.events[|v.events|].message == message && w.events[|v.events|].origin == at
            && w.events[|v.events|].startMemory == now.memory && w.events[|v.events|].startTime == now.time
            && w.events[|v.events|].endMemory.None? && w.events[|v.events|].endTime.None?
            && w.(events := v.events) == v)
      && (!v.open ==> w == v && r == Err(ProfilerClosed(v.name)))
  {
    var (w, r) := StartedEvent(v, message, at, now);
    if v.open {
      assert w.events[..|v.events|] == v.events;
    }
  }

  /**
   * endEvent(id) succeeds exactly on an open profiler with an event `id`, and then
   * sets that event's end readings and nothing else; a closed profiler fails with
   * the "closed" error whatever the id, an open one with "not found".
   */
  lemma EndedEventSpec(v: ProfilerView, id: int, now: Sample)
    ensures var (w, r) := EndedEvent(v, id, now);
      && (r == Pass <==> v.open && 0 <= id < |v.events|)
      && (!v.open ==> r == Fail(ProfilerClosed(v.name)))
      && (v.open && !(0 <= id < |v.events|) ==> r == Fail(EventNotFound(id)))
      && (r != Pass ==> w == v)
      && (r == Pass ==>
            && |w.events| == |v.events| && w.(events := v.events) == v
            && (forall j :: 0 <= j < |v.events| && j != id ==> w.events[j] == v.events[j])
            && w.events[id].endMemory == Some(now.memory) && w.events[id].endTime == Some(now.time)
            && w.events[id].(endMemory := v.events[id].endMemory, endTime := v.events[id].endTime) == v.events[id])
  {
  }

  /**
   * end() on an open profiler: every event ends, an explicitly ended field is kept,
   * and a missing one takes the profiler's own end value.
   */
  lemma EndedBackfills(v: ProfilerView, now: Sample, at: Location)
    requires v.open
    ensures var w := Ended(v, now, at);
      && !w.open && w.endTime == Some(now.time) && w.endMemory == now.memory && w.endAt == Some(at)
      && |w.events| == |v.events|
      && (forall i :: 0 <= i < |w.events| ==> w.events[i].Ended())
      && (forall i :: 0 <= i < |v.events| ==>
            w.events[i].endMemory == (if v.events[i].endMemory.Some? then v.events[i].endMemory else Some(now.memory)))
      && (forall i :: 0 <= i < |v.events| ==>
            w.events[i].endTime == (if v.events[i].endTime.Some? then v.events[i].endTime else Some(now.time)))
  {
  }

  /** A second end() is a no-op. */
  lemma EndIdempotent(v: ProfilerView, now: Sample, at: Location, later: Sample, at2: Location)
    ensures Ended(Ended(v, now, at), later, at2) == Ended(v, now, at)
  {
  }

  /** endEvent twice on the same event: the last call's readings win. */
  lemma LastEndEventWins(v: ProfilerView, id: int, first: Sample, second: Sample)
    ensures EndedEvent(EndedEvent(v, id, first).0, id, second) == EndedEvent(v, id, second)
  {
    if v.open && 0 <= id < |v.events| {
      var once := EndedEvent(v, id, first).0.events;
      assert once[id := once[id].(endMemory := Some(second.memory), endTime := Some(second.time))]
          == v.events[id := v.events[id].(endMemory := Some(second.memory), endTime := Some(second.time))];
    }
  }

  /** The profiler object; methods change its fields as the transitions above say. */
  class Profiler {
    const name: string
    const startTime: real
    const startMemory: int
    const startAt: Location
    var endTime: Option<real>
    var endMemory: int
    var endAt: Option<Location>
    var open: bool
    var events: seq<Event>

    function View(): ProfilerView
      reads this
    {
      ProfilerView(name, startTime, startMemory, startAt, endTime, endMemory, endAt, open, events)
    }

    ghost predicate Valid()
      reads this
    {
      WellFormed(View())
    }

    /** `at` is where the profiler was created (the caller's file and line). */
    constructor (rawName: string, now: Sample, at: Location)
      ensures Valid()
      ensures View() == Created(rawName, now, at)
    {
      name := NormalizeName(rawName);
      startTime := now.time;
      startMemory := now.memory;
      startAt := at;
      endTime := None;
      endMemory := now.memory;
      endAt := None;
      open := true;
      events := [];
    }

    /** Appends an event started `now` at `at`; its index is the former event count. */
    method StartEvent(message: string, at: Location, now: Sample) returns (r: Result<nat, Failure>)
      requires Valid()
      modifies this`events
      ensures Valid()
      ensures (View(), r) == StartedEvent(old(View()), message, at, now)
    {
      if open {
        events := events + [Event(message, at, now.memory, now.time, None, None)];
        r := Ok(|events| - 1);
      } else {
        r := Err(ProfilerClosed(name));
      }
    }

    method EndEvent(id: int, now: Sample) returns (r: Outcome<Failure>)
      requires Valid()
      modifies this`events
      ensures Valid()
      ensures (View(), r) == EndedEvent(old(View()), id, now)
    {
      if open && 0 <= id < |events| {
        events := events[id := events[id].(endMemory := Some(now.memory), endTime := Some(now.time))];
        r := Pass;
      } else if !open {
        r := Fail(ProfilerClosed(name));
      } else {
        r := Fail(EventNotFound(id));
      }
    }

    /** Closes the profiler at `at` and back-fills the events, one by one. */
    method End(now: Sample, at: Location)
      requires Valid()
      modifies this
      ensures Valid()
      ensures View() == Ended(old(View()), now, at)
    {
      if open {
        endMemory := now.memory;
        endTime := Some(now.time);
        endAt := Some(at);
        open := false;
        var i := 0;
        while i < |events|
          invariant 0 <= i <= |events| == |old(events)|
          invariant forall k :: 0 <= k < i ==> events[k] == CloseEvent(old(events)[k], now)
          invariant forall k :: i <= k < |events| ==> events[k] == old(events)[k]
          invariant endMemory == now.memory && endTime == Some(now.time) && endAt == Some(at) && !open
        {
          if events[i].endMemory.None? {
            events := events[i := events[i].(endMemory := Some(endMemory))];
          }
          if events[i].endTime.None? {
            events := events[i := events[i].(endTime := endTime)];
          }
          i := i + 1;
        }
        assert events == CloseAll(old(events), now);
      }
    }

    method IsOpen() returns (b: bool)
      ensures b == open
    {
      b := open;
    }

    method GetEvents() returns (es: seq<Event>)
      ensures es == events
    {
      es := events;
    }
  }
}
