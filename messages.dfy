/** Debug messages and the calls the core makes on its output sink. */
module Messages {
  import opened Levels
  import opened Host
  import opened Profiling

  /** A message is a string, or an array of lines that a sink joins itself. */
  datatype Body = Plain(text: string) | Lines(lines: seq<string>)

  /** The (level, message, file_name, file_line) tuple of the buffer. */
  datatype Message = Message(level: Level, body: Body, origin: Location)

  /** One call of write() or writeProfiler() on the sink, in the order made. */
  datatype SinkCall = Write(message: Message) | WriteProfiler(profiler: ProfilerView)

  /** One write() per message, in order. */
  function Writes(msgs: seq<Message>): (r: seq<SinkCall>)
    ensures |r| == |msgs|
    ensures forall i :: 0 <= i < |msgs| ==> r[i] == Write(msgs[i])
  {
    seq(|msgs|, i requires 0 <= i < |msgs| => Write(msgs[i]))
  }

  lemma WritesAppend(a: seq<Message>, b: seq<Message>)
    ensures Writes(a + b) == Writes(a) + Writes(b)
  {
  }
}
