/**
 * RDS_Network: the sink that sends every write() and writeProfiler() of the core
 * over a TCP link, opening the link lazily. The socket is `connected` (non-null or
 * null); `sent` is every socket_write() made on it, across connections, in order.
 * Whether socket_connect succeeds is the `connectOk` parameter.
 */
module Network {
  import opened Wrappers
  import opened Host
  import opened Levels
  import opened Profiling
  import opened StackTrace
  import opened PhpErrors
  import opened Wire
  import M = Messages
  import Base
  import Seqs

  /** What the sink sends for `calls`: their frames over a live socket, nothing over a null one. */
  function Sends(connected: bool, calls: seq<M.SinkCall>): (r: seq<Frame>)
    ensures !connected ==> r == []
    ensures connected ==> r == EncodeAll(calls)
  {
    if connected then EncodeAll(calls) else []
  }

  /** What openSocket() sends: the handshake when the connect succeeds, else nothing. */
  function Opening(session: string, connectOk: bool): (r: seq<Frame>)
    ensures connectOk ==> r == Handshake(session)
    ensures !connectOk ==> r == []
  {
    if connectOk then Handshake(session) else []
  }

  /** The DEBUG message the destructor logs before its final flush. */
  const Closing: M.Message := M.Message(Level.Debug, M.Plain("Closing debug link."), Location(NetworkFile, 101))

  class NetworkSink {
    /** The debug session name sent in the handshake. */
    const session: string
    /** The RDS_Base part: buffer, registry and the calls made on this sink. */
    const core: Base.Core
    var connected: bool
    var sent: seq<Frame>
    /** Where the current connection's handshake starts in `sent`. */
    ghost var connectedAt: nat

    /**
     * The core's invariant, and: a live socket began with the handshake, and since
     * then only session frames went out: no handshake line and no close.
     */
    ghost predicate Valid()
      reads this, core, core.profilers
    {
      core.Valid() && LinkValid()
    }

    /** The socket part of the invariant. */
    ghost predicate LinkValid()
      reads this
    {
      connected ==>
        && connectedAt + 3 <= |sent|
        && sent[connectedAt] == Hello(session) && sent[connectedAt + 1] == Version && sent[connectedAt + 2] == Ready
        && forall k :: connectedAt + 3 <= k < |sent| ==> sent[k].IsPayload()
    }

    /**
     * parent::__construct, then, when unbuffered, openSocket() at once. Whatever the
     * core wrote during its own construction met a null socket and was dropped.
     */
    constructor (session: string, attach: bool, buffered: bool, installed: bool, start: Sample, render: Render,
                 stack: seq<StackFrame>, connectOk: bool)
      ensures Valid() && fresh(core)
      ensures this.session == session
      ensures core.buffered == buffered && core.start == start && core.render == render
      ensures core.names == [] && core.profilers == []
      ensures core.Delivers([], [], Base.StartupMessages(attach, installed, stack))
      ensures connected == (!buffered && connectOk)
      ensures sent == (if buffered then [] else Opening(session, connectOk))
    {
      this.session := session;
      core := new Base.Core(attach, buffered, installed, start, render, stack);
      connected := false;
      sent := [];
      connectedAt := 0;
      new;
      if !buffered {
        OpenSocket(connectOk);
      }
    }

    /** openSocket(): on a successful connect, the three handshake lines; otherwise the socket is null. */
    method OpenSocket(connectOk: bool)
      requires Valid()
      modifies this`connected, this`sent, this`connectedAt
      ensures Valid()
      ensures connected == connectOk
      ensures sent == old(sent) + Opening(session, connectOk)
    {
      if connectOk {
        connectedAt := |sent|;
        sent := sent + Handshake(session);
        connected := true;
      } else {
        connected := false;
      }
    }

    /** closeSocket(): a live socket gets a bare terminator and becomes null; a null one is left alone. */
    method CloseSocket()
      requires Valid()
      modifies this`connected, this`sent
      ensures Valid()
      ensures !connected
      ensures sent == old(sent) + (if old(connected) then [Close] else [])
    {
      if connected {
        sent := sent + [Close];
        connected := false;
      }
    }

    /** write(): one message frame over a live socket, nothing over a null one. */
    method Write(m: M.Message)
      requires LinkValid()
      modifies this`sent
      ensures LinkValid()
      ensures connected ==> sent == old(sent) + [Data(m)]
      ensures !connected ==> sent == old(sent)
    {
      if connected {
        sent := sent + [Data(m)];
      }
    }

    /**
     * writeProfiler(): over a live socket, the start frame, one frame per event in
     * event order, then the end frame; nothing over a null one.
     */
    method WriteProfiler(v: ProfilerView)
      requires LinkValid()
      modifies this`sent
      ensures LinkValid()
      ensures connected ==> sent == old(sent) + ProfilerFrames(v)
      ensures !connected ==> sent == old(sent)
    {
      if connected {
        ghost var sent0 := sent;
        sent := sent + [ProfilerStart(v)];
        SendEvents(v.name, v.events);
        Seqs.Concat3(sent0, [ProfilerStart(v)], EventFrames(v.name, v.events));
        sent := sent + [ProfilerEnd(v)];
      }
    }

    /** The loop of writeProfiler(): one event frame per event, in order, over a live socket. */
    method SendEvents(name: string, events: seq<Event>)
      requires connected && LinkValid()
      modifies this`sent
      ensures LinkValid()
      ensures sent == old(sent) + EventFrames(name, events)
    {
      var i := 0;
      while i < |events|
        invariant 0 <= i <= |events|
        invariant sent == old(sent) + EventFrames(name, events[..i])
        invariant LinkValid()
      {
        EventFramesStep(name, events, i);
        Seqs.Concat3(old(sent), EventFrames(name, events[..i]), [ProfilerEvent(name, events[i])]);
        sent := sent + [ProfilerEvent(name, events[i])];
        i := i + 1;
      }
      assert events[..i] == events;
    }

    /**
     * Hands the core's calls from position `from` on to write()/writeProfiler(), in
     * order: how the core's calls on its abstract sink reach this one.
     */
    method Forward(from: nat)
      requires LinkValid() && from <= |core.log|
      modifies this`sent
      ensures LinkValid()
      ensures sent == old(sent) + Sends(connected, core.log[from..])
    {
      if !connected {
        return;
      }
      var calls := core.log[from..];
      ghost var sent0 := sent;
      ghost var acc: seq<Frame> := [];
      var i := 0;
      while i < |calls|
        invariant 0 <= i <= |calls|
        invariant connected && LinkValid()
        invariant acc == EncodeAll(calls[..i])
        invariant sent == sent0 + acc
      {
        EncodeAllStep(calls, i);
        Send(calls[i]);
        Seqs.Concat3(sent0, acc, Encode(calls[i]));
        acc := acc + Encode(calls[i]);
        i := i + 1;
      }
      assert calls[..i] == calls;
    }

    /** One call of the core on its sink: write() or writeProfiler(). */
    method Send(call: M.SinkCall)
      requires LinkValid()
      modifies this`sent
      ensures LinkValid()
      ensures connected ==> sent == old(sent) + Encode(call)
      ensures !connected ==> sent == old(sent)
    {
      match call {
        case Write(m) => Write(m);
        case WriteProfiler(v) => WriteProfiler(v);
      }
    }

    /** debug(), as the core does it, each write going over the link. */
    method Debug(level: Level, body: M.Body, file: Option<string>, line: Option<int>,
                 caller: Location, stack: seq<StackFrame>)
      requires Valid()
      modifies this`sent, core`buffer, core`log
      ensures Valid()
      ensures core.Delivers(old(core.buffer), old(core.log),
                            Base.DebugMessages(level, body, Location(file.GetOr(caller.file), line.GetOr(caller.line)), stack))
      ensures sent == old(sent) + Sends(connected, core.log[|old(core.log)|..])
    {
      var from := |core.log|;
      core.Debug(level, body, file, line, caller, stack);
      Forward(from);
    }

    /** dumpStackTrace(), as the core does it, each write going over the link. */
    method DumpStackTrace(limit: int, stackLevel: int, stack: seq<StackFrame>) returns (r: Outcome<Failures.Failure>)
      requires Valid()
      modifies this`sent, core`buffer, core`log
      ensures Valid()
      ensures stackLevel < 0 ==>
        r == Fail(Failures.NegativeStackLevel) && core.buffer == old(core.buffer) && core.log == old(core.log)
      ensures stackLevel >= 0 ==>
        r == Pass && core.Delivers(old(core.buffer), old(core.log), TraceMessages(stack, limit, stackLevel))
      ensures sent == old(sent) + Sends(connected, core.log[|old(core.log)|..])
    {
      var from := |core.log|;
      r := core.DumpStackTrace(limit, stackLevel, stack);
      Forward(from);
    }

    /** errorHandler(), as the core does it, each write going over the link. */
    method ErrorHandler(errno: int, message: string, file: string, line: int, stack: seq<StackFrame>)
      returns (handled: bool)
      requires Valid()
      modifies this`sent, core`buffer, core`log
      ensures Valid() && handled
      ensures core.Delivers(old(core.buffer), old(core.log), Base.ErrorMessages(errno, message, file, line, stack))
      ensures sent == old(sent) + Sends(connected, core.log[|old(core.log)|..])
    {
      var from := |core.log|;
      handled := core.ErrorHandler(errno, message, file, line, stack);
      Forward(from);
    }

    /** newProfiler(): registry only, nothing is sent. */
    method NewProfiler(name: string, now: Sample, caller: Location) returns (p: Profiler)
      requires Valid()
      modifies core`names, core`profilers
      ensures Valid() && fresh(p)
      ensures p.View() == Created(name, now, caller)
      ensures core.names == if name in old(core.names) then old(core.names) else old(core.names) + [name]
      ensures forall i :: 0 <= i < |core.names| ==>
        core.profilers[i] == if core.names[i] == name then p else old(core.profilers)[i]
    {
      p := core.NewProfiler(name, now, caller);
    }

    /**
     * flush(): opens the socket if it is null, then the core's flush, whose buffer,
     * profiler and summary frames go over the link if it is live.
     */
    method Flush(connectOk: bool, now: Sample, peak: int)
      requires Valid()
      modifies this`connected, this`sent, this`connectedAt
      modifies core`buffer, core`log, core`names, core`profilers, core.profilers
      ensures Valid()
      ensures connected == (old(connected) || connectOk)
      ensures core.buffer == [] && core.names == [] && core.profilers == []
      ensures core.log == old(core.log)
        + Base.FlushCalls(core.start, core.render, old(core.buffer), old(Base.Views(core.profilers)), now, peak)
      ensures sent == old(sent) + (if old(connected) then [] else Opening(session, connectOk))
        + Sends(connected, Base.FlushCalls(core.start, core.render, old(core.buffer),
                                           old(Base.Views(core.profilers)), now, peak))
      ensures forall i :: 0 <= i < |old(core.profilers)| ==>
        old(core.profilers)[i].View() == Base.Settle(old(Base.Views(core.profilers))[i], now)
    {
      ghost var views := Base.Views(core.profilers);
      ghost var sent0 := sent;
      if !connected {
        OpenSocket(connectOk);
      }
      assert Base.Views(core.profilers) == views;
      ghost var sent1 := sent;
      assert sent1 == sent0 + (if old(connected) then [] else Opening(session, connectOk));
      var from := |core.log|;
      core.Flush(now, peak);
      ghost var calls := Base.FlushCalls(core.start, core.render, old(core.buffer), views, now, peak);
      assert core.log[from..] == calls;
      Forward(from);
    }

    /**
     * shutdownHandler(): a fatal last error is handled as errorHandler() would, then
     * everything is flushed over the link; any other last error changes nothing.
     */
    method ShutdownHandler(last: Option<HostError>, stack: seq<StackFrame>, now: Sample, peak: int, connectOk: bool)
      returns (r: bool)
      requires Valid()
      modifies this`connected, this`sent, this`connectedAt
      modifies core`buffer, core`log, core`names, core`profilers, core.profilers
      ensures Valid() && !r
      ensures !(last.Some? && IsFatal(last.value.kind)) ==>
        && sent == old(sent) && connected == old(connected)
        && core.buffer == old(core.buffer) && core.log == old(core.log)
        && core.names == old(core.names) && core.profilers == old(core.profilers)
      ensures last.Some? && IsFatal(last.value.kind) ==>
        var e := last.value;
        var msgs := Base.ErrorMessages(e.kind, e.message, e.file, e.line, stack);
        var live := old(connected) || connectOk;
        && connected == live
        && core.buffer == [] && core.names == [] && core.profilers == []
        && core.log == old(core.log) + Base.FlushCalls(core.start, core.render, old(core.buffer) + msgs,
                                                       old(Base.Views(core.profilers)), now, peak)
        && sent == old(sent)
             + (if core.buffered then [] else Sends(old(connected), M.Writes(msgs)))
             + (if old(connected) then [] else Opening(session, connectOk))
             + Sends(live, Base.FlushCalls(core.start, core.render, old(core.buffer) + (if core.buffered then msgs else []),
                                           old(Base.Views(core.profilers)), now, peak))
      ensures forall i :: 0 <= i < |old(core.profilers)| ==>
        old(core.profilers)[i].View()
          == if last.Some? && IsFatal(last.value.kind) then Base.Settle(old(Base.Views(core.profilers))[i], now)
             else old(core.profilers[i].View())
    {
      if last.Some? && IsFatal(last.value.kind) {
        var e := last.value;
        ghost var views := Base.Views(core.profilers);
        ghost var buffer0, log0, sent0 := core.buffer, core.log, sent;
        ghost var msgs := Base.ErrorMessages(e.kind, e.message, e.file, e.line, stack);
        var _ := ErrorHandler(e.kind, e.message, e.file, e.line, stack);
        assert Base.Views(core.profilers) == views;
        ghost var buffer1, log1 := core.buffer, core.log;
        assert core.log[|log0|..] == if core.buffered then [] else M.Writes(msgs);
        Flush(connectOk, now, peak);
        Base.DeliveredThenFlushed(core.buffered, buffer0, log0, buffer1, log1, msgs, core.log,
                                  core.start, core.render, views, now, peak);
      }
      r := false;
    }

    /**
     * __destruct(): logs "Closing debug link.", flushes (opening the socket if it is
     * null) and closes the socket, which ends the session with a bare terminator.
     */
    method Destruct(connectOk: bool, now: Sample, peak: int)
      requires Valid()
      modifies this`connected, this`sent, this`connectedAt
      modifies core`buffer, core`log, core`names, core`profilers, core.profilers
      ensures Valid() && !connected
      ensures core.buffer == [] && core.names == [] && core.profilers == []
      ensures core.log == old(core.log)
        + Base.FlushCalls(core.start, core.render, old(core.buffer) + [Closing], old(Base.Views(core.profilers)), now, peak)
      ensures var live := old(connected) || connectOk;
        var flushed := Base.FlushCalls(core.start, core.render, old(core.buffer) + (if core.buffered then [Closing] else []),
                                       old(Base.Views(core.profilers)), now, peak);
        sent == old(sent)
          + (if core.buffered then [] else Sends(old(connected), [M.Write(Closing)]))
          + (if old(connected) then [] else Opening(session, connectOk))
          + Sends(live, flushed)
          + (if live then [Close] else [])
      ensures forall i :: 0 <= i < |old(core.profilers)| ==>
        old(core.profilers)[i].View() == Base.Settle(old(Base.Views(core.profilers))[i], now)
    {
      ghost var views := Base.Views(core.profilers);
      ghost var buffer0, log0, sent0, connected0 := core.buffer, core.log, sent, connected;
      Debug(Level.Debug, Closing.body, Some(NetworkFile), Some(101), Closing.origin, []);
      assert Base.DebugMessages(Level.Debug, Closing.body, Closing.origin, []) == [Closing];
      assert Base.Views(core.profilers) == views;
      ghost var buffer1, log1 := core.buffer, core.log;
      ghost var said := if core.buffered then [] else Sends(connected0, [M.Write(Closing)]);
      assert sent == sent0 + said by {
        if !core.buffered {
          assert core.log[|log0|..] == [M.Write(Closing)];
        } else {
          assert core.log[|log0|..] == [];
        }
      }
      Flush(connectOk, now, peak);
      Base.DeliveredThenFlushed(core.buffered, buffer0, log0, buffer1, log1, [Closing], core.log,
                                core.start, core.render, views, now, peak);
      CloseSocket();
    }
  }
}
