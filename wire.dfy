/**
 * The RDS network protocol as RDS_Network writes it: the handshake lines, the
 * message frame, the profiler frames and the bare terminator that ends a session.
 * Each socket_write() call is one `Frame`; `Bytes` is the exact string it writes.
 * iconv transcoding is the identity here.
 */
module Wire {
  import opened Wrappers
  import opened Host
  import opened Levels
  import opened Profiling
  import opened Messages
  import Text
  import Base
  import Seqs

  /** MESSAGE_TERMINATOR: ends every frame; sent alone, it ends the session. */
  const Terminator: string := "$%$%$%"
  /** NET_NEW_LINE: stands for a newline inside a message. */
  const NetNewLine: string := "$#$#$#"
  /** HANDSHAKE_PROTOCOL_VERSION. */
  const ProtocolVersion: int := 1

  /** One socket_write() call of RDS_Network. */
  datatype Frame =
    | Hello(session: string)                  // handshake: the session name
    | Version                                 // handshake: the protocol version
    | Ready                                   // handshake: end of handshake
    | Data(message: Message)                  // write(): one log message
    | ProfilerStart(profiler: ProfilerView)   // writeProfiler(): start of a profiler
    | ProfilerEvent(name: string, event: Event) // writeProfiler(): one event
    | ProfilerEnd(profiler: ProfilerView)     // writeProfiler(): end of a profiler
    | Close                                   // closeSocket(): end of the session
  {
    /** A frame of the session proper, after the handshake and before the close. */
    predicate IsPayload() {
      Data? || ProfilerStart? || ProfilerEvent? || ProfilerEnd?
    }
  }

  /** openSocket()'s three handshake lines, in order. */
  function Handshake(session: string): (r: seq<Frame>)
    ensures |r| == 3 && forall i :: 0 <= i < 3 ==> !r[i].IsPayload() && !r[i].Close?
  {
    [Hello(session), Version, Ready]
  }

  /** Newlines inside a message become NET_NEW_LINE. */
  function Escape(s: string): (r: string)
    ensures '\n' !in r
    ensures '\n' !in s ==> r == s
  {
    Text.ReplaceBy(s, '\n', NetNewLine)
  }

  /** What a receiver does with an escaped message: every NET_NEW_LINE back to a newline. */
  function Unescape(t: string): string
    decreases |t|
  {
    if t == [] then []
    else if |t| >= |NetNewLine| && t[..|NetNewLine|] == NetNewLine then "\n" + Unescape(t[|NetNewLine|..])
    else [t[0]] + Unescape(t[1..])
  }

  /** Escaping loses nothing for a message without '$': the receiver gets the text back. */
  lemma {:induction false} EscapeRoundTrip(s: string)
    requires '$' !in s
    ensures Unescape(Escape(s)) == s
    decreases |s|
  {
    if s != [] {
      var rest := Escape(s[1..]);
      assert Escape(s) == (if s[0] == '\n' then NetNewLine else [s[0]]) + rest;
      EscapeRoundTrip(s[1..]);
      if s[0] == '\n' {
        assert (NetNewLine + rest)[..|NetNewLine|] == NetNewLine;
        assert (NetNewLine + rest)[|NetNewLine|..] == rest;
      } else {
        var t := [s[0]] + rest;
        assert t[0] == s[0] && t[0] != NetNewLine[0];
        assert t[1..] == rest;
      }
      assert [s[0]] + s[1..] == s;
    }
  }

  /** Unescaping reads an escaped '$'-free text back and then carries on with what follows. */
  lemma {:induction false} UnescapeEscaped(s: string, rest: string)
    requires '$' !in s
    ensures Unescape(Escape(s) + rest) == s + Unescape(rest)
    decreases |s|
  {
    if s == [] {
      assert Escape(s) + rest == rest;
    } else {
      var tail := Escape(s[1..]) + rest;
      var head := if s[0] == '\n' then NetNewLine else [s[0]];
      assert Escape(s) == head + Escape(s[1..]);
      Seqs.Concat3(head, Escape(s[1..]), rest);
      UnescapeEscaped(s[1..], rest);
      var t := head + tail;
      if s[0] == '\n' {
        assert t[..|NetNewLine|] == NetNewLine;
        assert t[|NetNewLine|..] == tail;
        assert Unescape(t) == "\n" + Unescape(tail);
      } else {
        assert t[0] == s[0] && t[0] != NetNewLine[0];
        assert t[1..] == tail;
        assert Unescape(t) == [s[0]] + Unescape(tail);
      }
      assert [s[0]] + s[1..] == s;
      Seqs.Concat3([s[0]], s[1..], Unescape(rest));
    }
  }

  /** Escaping a join with NET_NEW_LINE escapes the first line and keeps the separator. */
  lemma EscapeJoinStep(lines: seq<string>)
    requires |lines| > 1
    ensures Escape(Text.Join(lines, NetNewLine))
      == Escape(lines[0]) + (NetNewLine + Escape(Text.Join(lines[1..], NetNewLine)))
  {
    var rest := Text.Join(lines[1..], NetNewLine);
    assert Text.Join(lines, NetNewLine) == lines[0] + (NetNewLine + rest);
    Text.ReplaceByAppend(lines[0], NetNewLine + rest, '\n', NetNewLine);
    Text.ReplaceByAppend(NetNewLine, rest, '\n', NetNewLine);
    assert Escape(NetNewLine) == NetNewLine;
  }

  /**
   * An array message is joined with NET_NEW_LINE and escaped; a collector that
   * unescapes it gets its lines back separated by newlines, when no line holds '$'.
   */
  lemma {:induction false} PayloadLinesRoundTrip(lines: seq<string>)
    requires forall i :: 0 <= i < |lines| ==> '$' !in lines[i]
    ensures Unescape(Payload(Lines(lines))) == Text.Join(lines, "\n")
    decreases |lines|
  {
    if |lines| == 1 {
      UnescapeEscaped(lines[0], "");
      assert Escape(lines[0]) + "" == Escape(lines[0]);
    } else if |lines| > 1 {
      var tail := Escape(Text.Join(lines[1..], NetNewLine));
      var t := NetNewLine + tail;
      EscapeJoinStep(lines);
      UnescapeEscaped(lines[0], t);
      assert t[..|NetNewLine|] == NetNewLine && t[|NetNewLine|..] == tail;
      assert Unescape(t) == "\n" + Unescape(tail);
      PayloadLinesRoundTrip(lines[1..]);
      assert Unescape(tail) == Text.Join(lines[1..], "\n");
      Seqs.Concat3(lines[0], "\n", Text.Join(lines[1..], "\n"));
    }
  }

  /** Spaces in a file name become '_' so that the name stays one field of the frame. */
  function WireFile(file: string): (r: string)
    ensures |r| == |file|
    ensures forall i :: 0 <= i < |file| ==> r[i] == (if file[i] == ' ' then '_' else file[i])
    ensures ' ' !in r
  {
    Text.ReplaceChar(file, ' ', '_')
  }

  /** The message text of a frame: an array is first joined with NET_NEW_LINE, then escaped. */
  function Payload(body: Body): (r: string)
    ensures '\n' !in r
    ensures body.Plain? ==> r == Escape(body.text)
  {
    match body
    case Plain(text) => Escape(text)
    case Lines(lines) => Escape(Text.Join(lines, NetNewLine))
  }

  /** A session frame: its tag, a space, its fields, then the terminator. */
  function Framed(tag: char, fields: string): (r: string)
    ensures |r| == 2 + |fields| + |Terminator|
    ensures r[0] == tag && r[1] == ' '
    ensures r[2..|r| - |Terminator|] == fields && r[|r| - |Terminator|..] == Terminator
  {
    [tag, ' '] + fields + Terminator
  }

  /** The frame write() sends: "1 file line level message", then the terminator. */
  function MessageText(m: Message): string {
    Framed('1', WireFile(m.origin.file) + " " + Text.IntToString(m.origin.line)
      + " " + Text.IntToString(m.level.Code()) + " " + Payload(m.body))
  }

  /** How a receiver reads a message frame: file, line, level code and message. */
  function ParseMessageFrame(frame: string): Option<(string, int, int, string)> {
    if |frame| < 2 + |Terminator| || frame[..2] != "1 " || frame[|frame| - |Terminator|..] != Terminator then None
    else
      match Text.SplitFirst(frame[2..|frame| - |Terminator|], ' ')
      case None => None
      case Some((file, rest)) =>
        match Text.SplitFirst(rest, ' ')
        case None => None
        case Some((lineText, rest')) =>
          match Text.SplitFirst(rest', ' ')
          case None => None
          case Some((levelText, text)) =>
            match (Text.ParseInt(lineText), Text.ParseInt(levelText))
            case (Some(line), Some(code)) => Some((file, line, code, text))
            case _ => None
  }

  /**
   * A message frame carries its fields intact: the file (spaces as '_'), the line,
   * the level code and the escaped message, whatever the message contains.
   */
  lemma MessageTextRoundTrip(m: Message)
    ensures ParseMessageFrame(MessageText(m))
      == Some((WireFile(m.origin.file), m.origin.line, m.level.Code(), Payload(m.body)))
  {
    var file, lineText, levelText, text :=
      WireFile(m.origin.file), Text.IntToString(m.origin.line), Text.IntToString(m.level.Code()), Payload(m.body);
    var frame := MessageText(m);
    var inner := file + [' '] + (lineText + [' '] + (levelText + [' '] + text));
    assert frame[..2] == "1 ";
    assert frame[2..|frame| - |Terminator|] == inner;
    Text.SplitFirstConcat(file, lineText + [' '] + (levelText + [' '] + text), ' ');
    Text.SplitFirstConcat(lineText, levelText + [' '] + text, ' ');
    Text.SplitFirstConcat(levelText, text, ' ');
    Text.IntToStringRoundTrip(m.origin.line);
    Text.IntToStringRoundTrip(m.level.Code());
  }

  /** PHP interpolates a missing (null) reading as the empty string. */
  function FloatOrEmpty(render: Render, x: Option<real>): string {
    if x.Some? then render.float(x.value) else ""
  }

  /** The "2" frame: profiler name, start time, start file and line, start memory. */
  function StartText(v: ProfilerView, render: Render): string {
    Framed('2', v.name + " " + StartFields(v, render))
  }

  /** The fields of the start frame after the profiler name. */
  function StartFields(v: ProfilerView, render: Render): string {
    render.float(v.startTime) + " " + WireFile(v.startAt.file)
      + " " + Text.IntToString(v.startAt.line) + " Memory: " + Base.HumanSize(render, v.startMemory) + "."
  }

  /** A "4" frame for one event; its message is neither escaped nor rounded. */
  function EventText(name: string, e: Event, render: Render): string {
    var endMemory := e.endMemory.GetOr(0);
    Framed('4', name + " " + render.float(e.startTime) + " " + FloatOrEmpty(render, e.endTime)
      + " " + WireFile(e.origin.file) + " " + Text.IntToString(e.origin.line)
      + " [" + Base.HumanSize(render, e.startMemory) + " -> " + Base.HumanSize(render, endMemory)
      + " (" + Base.HumanSize(render, endMemory - e.startMemory) + " delta)] " + e.message + ".")
  }

  /** The "3" frame: end time, end file and line, end memory and the delta since the start. */
  function EndText(v: ProfilerView, render: Render): string {
    Framed('3', v.name + " " + FloatOrEmpty(render, v.endTime)
      + " " + (if v.endAt.Some? then WireFile(v.endAt.value.file) else "")
      + " " + (if v.endAt.Some? then Text.IntToString(v.endAt.value.line) else "")
      + " Memory: " + Base.HumanSize(render, v.endMemory)
      + " (" + Base.HumanSize(render, v.endMemory - v.startMemory) + " delta).")
  }

  /** The string one frame writes to the socket. */
  function Bytes(f: Frame, render: Render): string {
    match f
    case Hello(session) => "2 " + session + "\n"
    case Version => "3 " + Text.IntToString(ProtocolVersion) + "\n"
    case Ready => "1\n"
    case Data(m) => MessageText(m)
    case ProfilerStart(v) => StartText(v, render)
    case ProfilerEvent(name, e) => EventText(name, e, render)
    case ProfilerEnd(v) => EndText(v, render)
    case Close => Terminator
  }

  /** The leading tag of a session frame: 1 message, 2 profiler start, 3 profiler end, 4 event. */
  function Tag(f: Frame): char
    requires f.IsPayload()
  {
    match f
    case Data(_) => '1'
    case ProfilerStart(_) => '2'
    case ProfilerEnd(_) => '3'
    case ProfilerEvent(_, _) => '4'
  }

  /**
   * Each session frame starts with its tag and ends with the terminator, so it is
   * never the bare terminator; each handshake line ends with a newline.
   */
  lemma BytesShape(f: Frame, render: Render)
    ensures var b := Bytes(f, render);
      && (f.IsPayload() ==>
            |b| > |Terminator| && b[0] == Tag(f) && b[1] == ' ' && b[|b| - |Terminator|..] == Terminator)
      && (!f.IsPayload() && !f.Close? ==> |b| > 0 && b[|b| - 1] == '\n' && b[0] != '$')
      && (f.Close? ==> b == Terminator)
  {
  }

  /** The handshake on the wire: "2 <session>\n3 1\n1\n". */
  lemma HandshakeBytes(session: string, render: Render)
    ensures var h := Handshake(session);
      Bytes(h[0], render) + Bytes(h[1], render) + Bytes(h[2], render) == "2 " + session + "\n3 1\n1\n"
  {
    assert Text.IntToString(ProtocolVersion) == "1";
  }

  /** One ProfilerEvent frame per event, in event order. */
  function EventFrames(name: string, events: seq<Event>): (r: seq<Frame>)
    ensures |r| == |events|
    ensures forall i :: 0 <= i < |events| ==> r[i] == ProfilerEvent(name, events[i])
  {
    if events == [] then []
    else EventFrames(name, events[..|events| - 1]) + [ProfilerEvent(name, events[|events| - 1])]
  }

  lemma EventFramesStep(name: string, events: seq<Event>, i: nat)
    requires i < |events|
    ensures EventFrames(name, events[..i + 1]) == EventFrames(name, events[..i]) + [ProfilerEvent(name, events[i])]
  {
    assert events[..i + 1][..i] == events[..i];
  }

  /** Everything writeProfiler() sends for one profiler. */
  function ProfilerFrames(v: ProfilerView): seq<Frame> {
    [ProfilerStart(v)] + EventFrames(v.name, v.events) + [ProfilerEnd(v)]
  }

  /**
   * writeProfiler() sends n + 2 frames for n events: the start frame, one event
   * frame per event in event order, then the end frame, all session frames.
   */
  lemma ProfilerFramesShape(v: ProfilerView)
    ensures var fs := ProfilerFrames(v);
      && |fs| == |v.events| + 2
      && fs[0] == ProfilerStart(v)
      && (forall i :: 0 <= i < |v.events| ==> fs[i + 1] == ProfilerEvent(v.name, v.events[i]))
      && fs[|fs| - 1] == ProfilerEnd(v)
      && (forall i :: 0 <= i < |fs| ==> fs[i].IsPayload())
  {
    var fs := ProfilerFrames(v);
    forall i | 0 <= i < |fs|
      ensures fs[i].IsPayload()
    {
      if 0 < i < |fs| - 1 {
        assert fs[i] == EventFrames(v.name, v.events)[i - 1];
      }
    }
  }

  /** A normalised profiler name (no spaces) is the first field of the start frame. */
  lemma StartTextNamesProfiler(v: ProfilerView, render: Render)
    requires ' ' !in v.name
    ensures var f := StartText(v, render);
      && f[..2] == "2 "
      && Text.SplitFirst(f[2..], ' ').Some? && Text.SplitFirst(f[2..], ' ').value.0 == v.name
  {
    var f := StartText(v, render);
    var rest := StartFields(v, render) + Terminator;
    assert f == "2 " + (v.name + [' '] + rest);
    assert f[2..] == v.name + [' '] + rest;
    Text.SplitFirstConcat(v.name, rest, ' ');
  }

  /** The frames one sink call sends over a live socket. */
  function Encode(call: SinkCall): seq<Frame> {
    match call
    case Write(m) => [Data(m)]
    case WriteProfiler(v) => ProfilerFrames(v)
  }

  /** The frames a sequence of sink calls sends, in order. */
  function EncodeAll(calls: seq<SinkCall>): seq<Frame> {
    if calls == [] then []
    else EncodeAll(calls[..|calls| - 1]) + Encode(calls[|calls| - 1])
  }

  /** Encoding one more call appends its frames. */
  lemma EncodeAllStep(calls: seq<SinkCall>, i: nat)
    requires i < |calls|
    ensures EncodeAll(calls[..i + 1]) == EncodeAll(calls[..i]) + Encode(calls[i])
  {
    assert calls[..i + 1][..i] == calls[..i];
  }

  /** Whatever the sink is asked to write goes out as session frames: no handshake line, no close. */
  lemma {:induction false} EncodeAllPayload(calls: seq<SinkCall>)
    ensures forall i :: 0 <= i < |EncodeAll(calls)| ==> EncodeAll(calls)[i].IsPayload()
    decreases |calls|
  {
    if calls != [] {
      EncodeAllPayload(calls[..|calls| - 1]);
      if calls[|calls| - 1].WriteProfiler? {
        ProfilerFramesShape(calls[|calls| - 1].profiler);
      }
    }
  }
}
