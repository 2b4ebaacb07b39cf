/**
 * RDS_Base: the message buffer, the profiler registry, error interception and
 * flush. The abstract write()/writeProfiler() of the source are recorded, in call
 * order, in `log`: the sink sees exactly the calls listed there.
 */
module Base {
  import opened Wrappers
  import opened Host
  import opened Levels
  import opened Failures
  import opened Profiling
  import opened Messages
  import opened StackTrace
  import opened PhpErrors
  import Sizes
  import Text
  import Seqs

  /** levelToString: the name of a level code, "UNKNOWN" for any other integer. */
  function LevelToString(code: int): (r: string)
    ensures r == "ERROR" <==> FromCode(code) == Some(Error)
    ensures r == "WARNING" <==> FromCode(code) == Some(Warning)
    ensures r == "NOTICE" <==> FromCode(code) == Some(Notice)
    ensures r == "DEBUG" <==> FromCode(code) == Some(Debug)
    ensures r == "UNKNOWN" <==> FromCode(code).None?
    ensures r in {"ERROR", "WARNING", "NOTICE", "DEBUG", "UNKNOWN"}
  {
    if code == Error.Code() then "ERROR"
    else if code == Warning.Code() then "WARNING"
    else if code == Notice.Code() then "NOTICE"
    else if code == Debug.Code() then "DEBUG"
    else "UNKNOWN"
  }

  /** The four level codes have four different names. */
  lemma LevelToStringInjective(a: int, b: int)
    requires FromCode(a).Some? && FromCode(b).Some? && a != b
    ensures LevelToString(a) != LevelToString(b)
  {
  }

  /** PHP's round(x, 3): to three decimals, halves away from zero. */
  function Round3(x: real): real {
    if x >= 0.0 then ((x * 1000.0 + 0.5).Floor as real) / 1000.0
    else -((((-x) * 1000.0 + 0.5).Floor as real) / 1000.0)
  }

  /** convertSizeToHuman: the scaled value rendered by number_format, then the unit. */
  function HumanSize(render: Render, size: int): string {
    var s := Sizes.ScaleSize(size);
    render.number(s.value) + s.unit.Suffix()
  }

  /** Where flush() calls end() on a profiler it force-closes. */
  const ForcedEndAt: Location := Location(BaseFile, 147)

  /** The WARNING flush() writes, unbuffered, for each profiler it force-closes. */
  function ForcedEndWarning(name: string): Message {
    Message(Warning, Plain("Forced profiler end for name '" + name + "'."), Location(BaseFile, 152))
  }

  /** The DEBUG summary that ends every flush. */
  function Summary(start: Sample, render: Render, now: Sample, peak: int): Message {
    Message(Debug,
      Plain("Total processing time: " + render.float(Round3(now.time - start.time))
        + ". Memory used: " + HumanSize(render, now.memory)
        + "(" + HumanSize(render, now.memory - start.memory)
        + " delta). Memory peak: " + HumanSize(render, peak)),
      Location(BaseFile, 175))
  }

  /** A profiler as flush() hands it to the sink: closed by flush if it was still open. */
  function Settle(v: ProfilerView, now: Sample): ProfilerView {
    Ended(v, now, ForcedEndAt)
  }

  /** The sink calls flush() makes for one registered profiler. */
  function SettleCalls(v: ProfilerView, now: Sample): seq<SinkCall> {
    (if v.open then [Write(ForcedEndWarning(v.name))] else []) + [WriteProfiler(Settle(v, now))]
  }

  /** The sink calls flush() makes for the registry, in registry order. */
  function ProfilerCalls(vs: seq<ProfilerView>, now: Sample): seq<SinkCall> {
    if vs == [] then [] else ProfilerCalls(vs[..|vs| - 1], now) + SettleCalls(vs[|vs| - 1], now)
  }

  /** Settling one more profiler of the registry appends its calls. */
  lemma ProfilerCallsStep(vs: seq<ProfilerView>, j: nat, now: Sample)
    requires j < |vs|
    ensures ProfilerCalls(vs[..j + 1], now) == ProfilerCalls(vs[..j], now) + SettleCalls(vs[j], now)
  {
    assert vs[..j + 1][..j] == vs[..j];
  }

  /** The position of `x` in `s`, or |s| when it is absent. */
  function IndexOf(s: seq<string>, x: string): (k: nat)
    ensures k <= |s|
    ensures k < |s| ==> s[k] == x
    ensures x !in s[..k]
  {
    if s == [] then 0
    else if s[0] == x then 0
    else
      var k := 1 + IndexOf(s[1..], x);
      assert s[..k] == [s[0]] + s[1..][..k - 1];
      k
  }

  /** Everything one flush() sends to the sink: the buffer, the profilers, the summary. */
  function FlushCalls(start: Sample, render: Render, buffer: seq<Message>, vs: seq<ProfilerView>,
                      now: Sample, peak: int): seq<SinkCall>
  {
    Writes(buffer) + ProfilerCalls(vs, now) + [Write(Summary(start, render, now, peak))]
  }

  /** Messages written straight to the sink just before a flush come out as if they had been buffered. */
  lemma FlushCallsPrepend(start: Sample, render: Render, a: seq<Message>, b: seq<Message>, vs: seq<ProfilerView>,
                          now: Sample, peak: int)
    ensures Writes(a) + FlushCalls(start, render, b, vs, now, peak) == FlushCalls(start, render, a + b, vs, now, peak)
  {
    WritesAppend(a, b);
    var tail := ProfilerCalls(vs, now) + [Write(Summary(start, render, now, peak))];
    assert FlushCalls(start, render, b, vs, now, peak) == Writes(b) + tail;
    assert FlushCalls(start, render, a + b, vs, now, peak) == Writes(a) + Writes(b) + tail;
  }

  /** The profilers among a sequence of sink calls, in order. */
  function WrittenProfilers(calls: seq<SinkCall>): seq<ProfilerView> {
    if calls == [] then []
    else
      var last := calls[|calls| - 1];
      WrittenProfilers(calls[..|calls| - 1]) + (if last.WriteProfiler? then [last.profiler] else [])
  }

  /** How many profilers of a registry are still open. */
  function OpenCount(vs: seq<ProfilerView>): nat {
    if vs == [] then 0 else OpenCount(vs[..|vs| - 1]) + (if vs[|vs| - 1].open then 1 else 0)
  }

  lemma {:induction false} WrittenProfilersAppend(a: seq<SinkCall>, b: seq<SinkCall>)
    ensures WrittenProfilers(a + b) == WrittenProfilers(a) + WrittenProfilers(b)
    decreases |b|
  {
    if b == [] {
      assert a + b == a;
    } else {
      var b' := b[..|b| - 1];
      assert (a + b)[..|a + b| - 1] == a + b';
      WrittenProfilersAppend(a, b');
    }
  }

  lemma {:induction false} WrittenProfilersOfWrites(msgs: seq<Message>)
    ensures WrittenProfilers(Writes(msgs)) == []
    decreases |msgs|
  {
    if msgs != [] {
      var m' := msgs[..|msgs| - 1];
      WritesAppend(m', [msgs[|msgs| - 1]]);
      assert m' + [msgs[|msgs| - 1]] == msgs;
      WrittenProfilersOfWrites(m');
      WrittenProfilersAppend(Writes(m'), Writes([msgs[|msgs| - 1]]));
      assert WrittenProfilers(Writes([msgs[|msgs| - 1]])) == [];
    }
  }

  /** A settled profiler is closed and well-formed. */
  lemma SettleCloses(v: ProfilerView, now: Sample)
    requires WellFormed(v)
    ensures !Settle(v, now).open && WellFormed(Settle(v, now))
  {
    if v.open {
      EndedBackfills(v, now, ForcedEndAt);
    }
  }

  /** One registered profiler yields one writeProfiler call, preceded by a WARNING if it was open. */
  lemma SettleCallsWritten(v: ProfilerView, now: Sample)
    ensures WrittenProfilers(SettleCalls(v, now)) == [Settle(v, now)]
    ensures |SettleCalls(v, now)| == (if v.open then 2 else 1)
  {
    var w := (if v.open then [Write(ForcedEndWarning(v.name))] else []);
    WrittenProfilersAppend(w, [WriteProfiler(Settle(v, now))]);
    assert WrittenProfilers([WriteProfiler(Settle(v, now))]) == [Settle(v, now)] by {
      assert [WriteProfiler(Settle(v, now))][..0] == [];
    }
    if v.open {
      assert WrittenProfilers(w) == [] by {
        assert w[..|w| - 1] == [];
      }
    }
  }

  /**
   * flush() hands every registered profiler to writeProfiler exactly once, in
   * registry order, each closed by flush if it was still open; it writes one
   * forced-end WARNING per profiler that was still open, and nothing else.
   */
  lemma {:induction false} ProfilerCallsCorrect(vs: seq<ProfilerView>, now: Sample)
    ensures WrittenProfilers(ProfilerCalls(vs, now)) == seq(|vs|, i requires 0 <= i < |vs| => Settle(vs[i], now))
    ensures |ProfilerCalls(vs, now)| == |vs| + OpenCount(vs)
    decreases |vs|
  {
    if vs != [] {
      var vs', v := vs[..|vs| - 1], vs[|vs| - 1];
      var calls' := ProfilerCalls(vs', now);
      assert ProfilerCalls(vs, now) == calls' + SettleCalls(v, now);
      ProfilerCallsCorrect(vs', now);
      WrittenProfilersAppend(calls', SettleCalls(v, now));
      SettleCallsWritten(v, now);
      var settled' := seq(|vs'|, i requires 0 <= i < |vs'| => Settle(vs'[i], now));
      assert WrittenProfilers(calls') == settled';
      assert seq(|vs|, i requires 0 <= i < |vs| => Settle(vs[i], now)) == settled' + [Settle(v, now)];
      assert OpenCount(vs) == OpenCount(vs') + (if v.open then 1 else 0);
    }
  }

  /** Every profiler flush() hands over is closed and keeps the profiler invariant. */
  lemma ProfilersWrittenClosed(vs: seq<ProfilerView>, now: Sample)
    requires forall i :: 0 <= i < |vs| ==> WellFormed(vs[i])
    ensures forall i :: 0 <= i < |vs| ==> !Settle(vs[i], now).open && WellFormed(Settle(vs[i], now))
  {
    forall i | 0 <= i < |vs|
      ensures !Settle(vs[i], now).open && WellFormed(Settle(vs[i], now))
    {
      SettleCloses(vs[i], now);
    }
  }

  /**
   * One flush(): first every buffered message, in order; then the profilers, each
   * once and closed; last, exactly one DEBUG summary.
   */
  lemma FlushCallsCorrect(start: Sample, render: Render, buffer: seq<Message>, vs: seq<ProfilerView>,
                          now: Sample, peak: int)
    ensures var calls := FlushCalls(start, render, buffer, vs, now, peak);
      && |calls| == |buffer| + |vs| + OpenCount(vs) + 1
      && calls[..|buffer|] == Writes(buffer)
      && calls[|calls| - 1] == Write(Summary(start, render, now, peak))
      && WrittenProfilers(calls) == seq(|vs|, i requires 0 <= i < |vs| => Settle(vs[i], now))
  {
    var summary := [Write(Summary(start, render, now, peak))];
    ProfilerCallsCorrect(vs, now);
    WrittenProfilersOfWrites(buffer);
    WrittenProfilersAppend(Writes(buffer), ProfilerCalls(vs, now));
    WrittenProfilersAppend(Writes(buffer) + ProfilerCalls(vs, now), summary);
    assert WrittenProfilers(summary) == [] by {
      assert summary[..0] == [];
    }
  }

  /** With the buffer and the registry empty, as after a flush, a flush writes only the summary. */
  lemma SecondFlushWritesOnlySummary(start: Sample, render: Render, now: Sample, peak: int)
    ensures FlushCalls(start, render, [], [], now, peak) == [Write(Summary(start, render, now, peak))]
  {
    assert Writes([]) == [];
  }

  /** The messages the constructor logs about attaching to the error handler. */
  function StartupMessages(attach: bool, installed: bool, stack: seq<StackFrame>): seq<Message> {
    if !attach then []
    else if !installed then
      [Message(Error, Plain("Could not attach to error_handler"), Location(BaseFile, 92))]
        + TraceMessages(stack, 5, 2)
    else
      [Message(Debug, Plain("Attached to error handler, using error messages of type E_ALL | E_STRICT"),
               Location(BaseFile, 96))]
  }

  /** What debug() logs: the message, then, for an ERROR, the stack trace from frame 2, at most 5 frames. */
  function DebugMessages(level: Level, body: Body, origin: Location, stack: seq<StackFrame>): seq<Message> {
    [Message(level, body, origin)] + (if level == Error then TraceMessages(stack, 5, 2) else [])
  }

  /** What errorHandler logs for an intercepted error. */
  function ErrorMessages(errno: int, message: string, file: string, line: int, stack: seq<StackFrame>)
    : seq<Message>
  {
    DebugMessages(ConvertPhpError(errno).0, Plain(ErrorText(errno, message)), Location(file, line), stack)
  }

  /** The states of a registry's profilers, in registry order. */
  ghost function Views(ps: seq<Profiler>): (vs: seq<ProfilerView>)
    reads ps
    requires forall i :: 0 <= i < |ps| ==> ps[i].Valid()
    ensures |vs| == |ps|
    ensures forall i :: 0 <= i < |vs| ==> vs[i] == ps[i].View() && WellFormed(vs[i])
  {
    assert forall i :: 0 <= i < |ps| ==> WellFormed(ps[i].View()) by {
      forall i | 0 <= i < |ps| ensures WellFormed(ps[i].View()) {
        assert ps[i].Valid();
      }
    }
    seq(|ps|, i requires 0 <= i < |ps| reads ps => ps[i].View())
  }

  /**
   * Going from (buffer0, log0) to (buffer1, log1), debug() delivered `msgs`: appended
   * to the buffer when buffered, written to the sink otherwise.
   */
  predicate Delivered(buffered: bool, buffer0: seq<Message>, log0: seq<SinkCall>,
                      buffer1: seq<Message>, log1: seq<SinkCall>, msgs: seq<Message>)
  {
    if buffered then buffer1 == buffer0 + msgs && log1 == log0
    else buffer1 == buffer0 && log1 == log0 + Writes(msgs)
  }

  /** Two deliveries in a row deliver the concatenation of their messages. */
  lemma DeliveredChain(buffered: bool, b0: seq<Message>, l0: seq<SinkCall>, b1: seq<Message>, l1: seq<SinkCall>,
                       b2: seq<Message>, l2: seq<SinkCall>, first: seq<Message>, second: seq<Message>)
    requires Delivered(buffered, b0, l0, b1, l1, first)
    requires Delivered(buffered, b1, l1, b2, l2, second)
    ensures Delivered(buffered, b0, l0, b2, l2, first + second)
  {
    WritesAppend(first, second);
  }

  /**
   * Messages delivered just before a flush reach the sink as if they had been
   * buffered: written straight away when unbuffered, drained by the flush otherwise.
   */
  lemma DeliveredThenFlushed(buffered: bool, b0: seq<Message>, l0: seq<SinkCall>, b1: seq<Message>,
                             l1: seq<SinkCall>, msgs: seq<Message>, l2: seq<SinkCall>,
                             start: Sample, render: Render, vs: seq<ProfilerView>, now: Sample, peak: int)
    requires Delivered(buffered, b0, l0, b1, l1, msgs)
    requires !buffered ==> b0 == []
    requires l2 == l1 + FlushCalls(start, render, b1, vs, now, peak)
    ensures l2 == l0 + FlushCalls(start, render, b0 + msgs, vs, now, peak)
  {
    if !buffered {
      FlushCallsPrepend(start, render, msgs, [], vs, now, peak);
      assert b0 + msgs == msgs + [];
      assert l2 == l0 + (Writes(msgs) + FlushCalls(start, render, [], vs, now, peak));
    }
  }

  class Core {
    const buffered: bool
    const start: Sample
    const render: Render
    var buffer: seq<Message>
    /**
     * The registry, an ordered PHP array: `names` are its keys in insertion order,
     * `profilers[i]` is the profiler stored under `names[i]`.
     */
    var names: seq<string>
    var profilers: seq<Profiler>
    /** Every write()/writeProfiler() call made so far, in order. */
    var log: seq<SinkCall>

    ghost predicate Valid()
      reads this, profilers
    {
      && (!buffered ==> buffer == [])
      && |names| == |profilers|
      && (forall i, j :: 0 <= i < j < |names| ==> names[i] != names[j])
      && (forall i, j :: 0 <= i < j < |profilers| ==> profilers[i] != profilers[j])
      && (forall i :: 0 <= i < |profilers| ==> profilers[i].Valid())
    }

    /** `msgs` went to the buffer when buffered, else straight to the sink. */
    ghost predicate Delivers(buffer0: seq<Message>, log0: seq<SinkCall>, msgs: seq<Message>)
      reads this
    {
      Delivered(buffered, buffer0, log0, buffer, log, msgs)
    }

    /**
     * `installed` is the outcome of the test `set_error_handler(...) !== false`. PHP returns
     * the previous handler or null, so in PHP it always holds. `stack` is the backtrace
     * dumpStackTrace would see if the failure is logged.
     */
    constructor (attach: bool, buffered: bool, installed: bool, start: Sample, render: Render,
                 stack: seq<StackFrame>)
      ensures Valid() && names == [] && profilers == []
      ensures this.buffered == buffered && this.start == start && this.render == render
      ensures Delivers([], [], StartupMessages(attach, installed, stack))
    {
      this.buffered := buffered;
      this.start := start;
      this.render := render;
      buffer := [];
      names := [];
      profilers := [];
      log := [];
      new;
      if attach {
        if !installed {
          Debug(Error, Plain("Could not attach to error_handler"), None, None, Location(BaseFile, 92), stack);
        } else {
          Debug(Level.Debug, Plain("Attached to error handler, using error messages of type E_ALL | E_STRICT"),
                None, None, Location(BaseFile, 96), stack);
        }
      }
    }

    /**
     * debug(): a missing file or line is taken from `caller`; the message is buffered
     * or written; an ERROR is followed by a stack trace of the frames in `stack`.
     */
    method Debug(level: Level, body: Body, file: Option<string>, line: Option<int>,
                 caller: Location, stack: seq<StackFrame>)
      requires Valid()
      modifies this`buffer, this`log
      ensures Valid()
      ensures Delivers(old(buffer), old(log),
                       DebugMessages(level, body, Location(file.GetOr(caller.file), line.GetOr(caller.line)), stack))
      decreases if level == Error then 4 else 0
    {
      var m := Message(level, body, Location(file.GetOr(caller.file), line.GetOr(caller.line)));
      if !buffered {
        log := log + [Write(m)];
        assert Writes([m]) == [Write(m)];
      } else {
        buffer := buffer + [m];
      }
      if level == Error {
        ghost var buffer1, log1 := buffer, log;
        var _ := DumpStackTrace(5, 2, stack);
        DeliveredChain(buffered, old(buffer), old(log), buffer1, log1, buffer, log, [m], TraceMessages(stack, 5, 2));
      } else {
        assert [m] + [] == [m];
      }
    }

    /** dumpStackTrace(limit, stackLevel): one DEBUG message per visited frame. */
    method DumpStackTrace(limit: int, stackLevel: int, stack: seq<StackFrame>) returns (r: Outcome<Failure>)
      requires Valid()
      modifies this`buffer, this`log
      ensures Valid()
      ensures stackLevel < 0 ==> r == Fail(NegativeStackLevel) && buffer == old(buffer) && log == old(log)
      ensures stackLevel >= 0 ==> r == Pass && Delivers(old(buffer), old(log), TraceMessages(stack, limit, stackLevel))
      decreases 3
    {
      if stackLevel < 0 {
        return Fail(NegativeStackLevel);
      }
      var lastFrame := if limit > 0 then stackLevel + limit else |stack|;
      var anchor := Anchor(stack, stackLevel);
      ghost var trace := TraceMessages(stack, limit, stackLevel);
      var current := stackLevel;
      while current < lastFrame
        invariant stackLevel <= current
        invariant current == stackLevel || (current <= lastFrame && current <= |stack|)
        invariant current - stackLevel <= |trace|
        invariant Valid()
        invariant Delivers(old(buffer), old(log), trace[..current - stackLevel])
        decreases lastFrame - current
      {
        if current >= |stack| {
          break;
        }
        TraceAt(stack, limit, stackLevel, current);
        TraceStep(stack, limit, stackLevel, current, anchor, old(buffer), old(log));
        current := current + 1;
      }
      TraceDone(stack, limit, stackLevel, current);
      assert trace[..current - stackLevel] == trace;
      r := Pass;
    }

    /** One iteration of dumpStackTrace's loop: frame `current` extends the logged part of the trace by its message. */
    method TraceStep(stack: seq<StackFrame>, limit: int, stackLevel: nat, current: nat, anchor: Location,
                     ghost buffer0: seq<Message>, ghost log0: seq<SinkCall>)
      requires Valid()
      requires stackLevel <= current < |stack| && current - stackLevel < |TraceMessages(stack, limit, stackLevel)|
      requires anchor == Anchor(stack, stackLevel)
      requires Delivers(buffer0, log0, TraceMessages(stack, limit, stackLevel)[..current - stackLevel])
      modifies this`buffer, this`log
      ensures Valid()
      ensures Delivers(buffer0, log0, TraceMessages(stack, limit, stackLevel)[..current + 1 - stackLevel])
      decreases 2
    {
      ghost var trace := TraceMessages(stack, limit, stackLevel);
      ghost var done := trace[..current - stackLevel];
      ghost var buffer1, log1 := buffer, log;
      LogFrame(current - stackLevel, stack[current], anchor);
      DeliveredChain(buffered, buffer0, log0, buffer1, log1, buffer, log, done, [trace[current - stackLevel]]);
      assert trace[..current + 1 - stackLevel] == done + [trace[current - stackLevel]];
    }

    /** One pass of dumpStackTrace's loop: the frame's description, logged at DEBUG at `anchor`. */
    method LogFrame(index: nat, frame: StackFrame, anchor: Location)
      requires Valid()
      modifies this`buffer, this`log
      ensures Valid()
      ensures Delivers(old(buffer), old(log), [Message(Level.Debug, Plain(FrameText(index, frame)), anchor)])
      decreases 1
    {
      var text := DescribeFrame(index, frame);
      Debug(Level.Debug, Plain(text), Some(anchor.file), Some(anchor.line), anchor, []);
      assert DebugMessages(Level.Debug, Plain(text), anchor, []) == [Message(Level.Debug, Plain(text), anchor)];
    }

    /** errorHandler: logs "[tag:errno]: message" at the mapped level and reports the error as handled. */
    method ErrorHandler(errno: int, message: string, file: string, line: int, stack: seq<StackFrame>)
      returns (handled: bool)
      requires Valid()
      modifies this`buffer, this`log
      ensures Valid()
      ensures handled
      ensures Delivers(old(buffer), old(log), ErrorMessages(errno, message, file, line, stack))
    {
      var (level, _) := ConvertPhpError(errno);
      Debug(level, Plain(ErrorText(errno, message)), Some(file), Some(line), Location(file, line), stack);
      handled := true;
    }

    /** newProfiler: a fresh open profiler, stored under the raw name, replacing any profiler stored there. */
    method NewProfiler(name: string, now: Sample, caller: Location) returns (p: Profiler)
      requires Valid()
      modifies this`names, this`profilers
      ensures Valid() && fresh(p)
      ensures p.View() == Created(name, now, caller)
      ensures names == if name in old(names) then old(names) else old(names) + [name]
      ensures forall i :: 0 <= i < |names| ==> profilers[i] == if names[i] == name then p else old(profilers)[i]
    {
      p := new Profiler(name, now, caller);
      var k := IndexOf(names, name);
      if k < |names| {
        profilers := profilers[k := p];
      } else {
        names := names + [name];
        profilers := profilers + [p];
      }
    }

    /** The first loop of flush(): every buffered message goes to write(), in order. */
    method DrainBuffer()
      requires Valid()
      modifies this`buffer, this`log
      ensures Valid()
      ensures buffer == [] && log == old(log) + Writes(old(buffer))
    {
      var buf := buffer;
      var i := 0;
      while i < |buf|
        invariant 0 <= i <= |buf|
        invariant log == old(log) + Writes(buf[..i])
        modifies this`log
      {
        log := log + [Write(buf[i])];
        assert buf[..i + 1] == buf[..i] + [buf[i]];
        WritesAppend(buf[..i], [buf[i]]);
        i := i + 1;
      }
      assert buf[..i] == buf;
      buffer := [];
    }

    /** One step of flush()'s second loop: end `p` if still open (with a WARNING), then writeProfiler(p). */
    method SettleProfiler(p: Profiler, now: Sample)
      requires p.Valid()
      modifies this`log, p
      ensures p.Valid()
      ensures p.View() == Settle(old(p.View()), now)
      ensures log == old(log) + SettleCalls(old(p.View()), now)
    {
      var isOpen := p.IsOpen();
      if isOpen {
        p.End(now, ForcedEndAt);
        log := log + [Write(ForcedEndWarning(p.name))];
      }
      log := log + [WriteProfiler(p.View())];
    }

    /**
     * The second loop of flush(): each registered profiler `ps[i]`, whose view is
     * `views[i]`, in registry order, is ended if still open (with a WARNING) and
     * handed to writeProfiler().
     */
    method SettleRegistry(ps: seq<Profiler>, ghost views: seq<ProfilerView>, now: Sample)
      requires forall i, j :: 0 <= i < j < |ps| ==> ps[i] != ps[j]
      requires |views| == |ps| && forall i :: 0 <= i < |ps| ==> ps[i].Valid() && ps[i].View() == views[i]
      modifies this`log, ps
      ensures log == old(log) + ProfilerCalls(views, now)
      ensures forall i :: 0 <= i < |ps| ==> ps[i].Valid() && ps[i].View() == Settle(views[i], now)
    {
      var j := 0;
      assert ProfilerCalls(views[..0], now) == [] by {
        assert views[..0] == [];
      }
      while j < |ps|
        invariant 0 <= j <= |ps|
        invariant log == old(log) + ProfilerCalls(views[..j], now)
        invariant forall k :: 0 <= k < j ==> ps[k].View() == Settle(views[k], now)
        invariant forall k :: j <= k < |ps| ==> ps[k].View() == views[k]
        invariant forall k :: 0 <= k < |ps| ==> ps[k].Valid()
      {
        SettleProfiler(ps[j], now);
        ProfilerCallsStep(views, j, now);
        Seqs.Concat3(old(log), ProfilerCalls(views[..j], now), SettleCalls(views[j], now));
        j := j + 1;
      }
      assert views[..j] == views;
    }

    /**
     * flush(): writes the buffer in order and empties it, ends every open profiler
     * (with a WARNING), passes every profiler to writeProfiler, empties the
     * registry, and writes the summary.
     */
    method Flush(now: Sample, peak: int)
      requires Valid()
      modifies this`buffer, this`log, this`names, this`profilers, profilers
      ensures Valid()
      ensures buffer == [] && names == [] && profilers == []
      ensures log == old(log) + FlushCalls(start, render, old(buffer), old(Views(profilers)), now, peak)
      ensures forall i :: 0 <= i < |old(profilers)| ==> old(profilers)[i].View() == Settle(old(Views(profilers))[i], now)
    {
      ghost var views := Views(profilers);
      ghost var buffer0, log0 := buffer, log;
      DrainBuffer();
      assert Views(profilers) == views;
      SettleRegistry(profilers, views, now);
      names := [];
      profilers := [];
      log := log + [Write(Summary(start, render, now, peak))];
      Seqs.Concat3(log0, Writes(buffer0), ProfilerCalls(views, now));
      Seqs.Concat3(log0, Writes(buffer0) + ProfilerCalls(views, now), [Write(Summary(start, render, now, peak))]);
    }

    /** shutdownHandler: for a fatal last error, log it and flush; always returns false. */
    method ShutdownHandler(last: Option<HostError>, stack: seq<StackFrame>, now: Sample, peak: int)
      returns (r: bool)
      requires Valid()
      modifies this`buffer, this`log, this`names, this`profilers, profilers
      ensures Valid()
      ensures !r
      ensures !(last.Some? && IsFatal(last.value.kind)) ==>
        buffer == old(buffer) && log == old(log) && names == old(names) && profilers == old(profilers)
      ensures last.Some? && IsFatal(last.value.kind) ==>
        var e := last.value;
        && buffer == [] && names == [] && profilers == []
        && log == old(log) + FlushCalls(start, render,
             old(buffer) + ErrorMessages(e.kind, e.message, e.file, e.line, stack), old(Views(profilers)), now, peak)
      ensures forall i :: 0 <= i < |old(profilers)| ==>
        old(profilers)[i].View()
          == if last.Some? && IsFatal(last.value.kind) then Settle(old(Views(profilers))[i], now) else old(profilers[i].View())
    {
      if last.Some? && IsFatal(last.value.kind) {
        var e := last.value;
        ghost var views := Views(profilers);
        ghost var log0, buffer0 := log, buffer;
        var _ := ErrorHandler(e.kind, e.message, e.file, e.line, stack);
        assert Views(profilers) == views;
        ghost var buffer1, log1 := buffer, log;
        Flush(now, peak);
        DeliveredThenFlushed(buffered, buffer0, log0, buffer1, log1, ErrorMessages(e.kind, e.message, e.file, e.line, stack),
                             log, start, render, views, now, peak);
      }
      r := false;
    }
  }
}
