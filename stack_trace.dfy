/** The stack-trace dump of RDS_Base: one DEBUG message per stack frame. */
module StackTrace {
  import opened Wrappers
  import opened Host
  import opened Levels
  import opened Messages
  import Text

  /** How one call argument is shown in a frame's description. */
  function ArgSummary(a: Arg): string {
    match a
    case ObjectArg(t) => "object [" + t + "]"
    case StringArg(s) => "'" + s + "'"
    case ArrayArg(n) => "array [size " + Text.NatToString(n) + "]"
    case IntArg(i) => Text.IntToString(i)
    case BoolArg(b) => if b then "1" else ""
    case NullArg => ""
    case FloatArg(t) => t
  }

  /** The argument list of a frame, each argument summarised, in order, joined by ", ". */
  function ArgsText(args: seq<Arg>): string {
    Text.Join(seq(|args|, i requires 0 <= i < |args| => ArgSummary(args[i])), ", ")
  }

  /** Summarising a longer argument list: the two parts' summaries separated by ", ". */
  lemma ArgsTextAppend(a: seq<Arg>, b: seq<Arg>)
    requires |a| > 0 && |b| > 0
    ensures ArgsText(a + b) == ArgsText(a) + ", " + ArgsText(b)
  {
    var pa := seq(|a|, i requires 0 <= i < |a| => ArgSummary(a[i]));
    var pb := seq(|b|, i requires 0 <= i < |b| => ArgSummary(b[i]));
    assert seq(|a + b|, i requires 0 <= i < |a + b| => ArgSummary((a + b)[i])) == pa + pb;
    Text.JoinAppend(pa, pb, ", ");
  }

  /**
   * The argument loop of dumpStackTrace: each argument's summary is pushed onto a
   * list, in order, and the list is imploded with ", ".
   */
  method SummariseArgs(args: seq<Arg>) returns (text: string)
    ensures text == ArgsText(args)
    ensures |args| > 0 ==> ArgSummary(args[0]) <= text
  {
    var parts: seq<string> := [];
    for i := 0 to |args|
      invariant |parts| == i
      invariant forall k :: 0 <= k < i ==> parts[k] == ArgSummary(args[k])
    {
      parts := parts + [ArgSummary(args[i])];
    }
    assert parts == seq(|args|, i requires 0 <= i < |args| => ArgSummary(args[i]));
    text := Text.Join(parts, ", ");
  }

  /** "Class::function(args)", each part present only when the frame has it. */
  function Origin(f: StackFrame): string {
    (if f.className.Some? then f.className.value + "::" else "")
    + (if f.functionName.Some? then
         f.functionName.value + "(" + (if f.args.Some? then ArgsText(f.args.value) else "") + ")"
       else "")
  }

  /** "[index] --> file(line): origin", with "unknown" and 0 for a missing file and line. */
  function FrameText(index: nat, f: StackFrame): (r: string)
    ensures var tag := "[" + Text.NatToString(index) + "] --> ";
      |r| > |tag| && r[..|tag|] == tag
  {
    var origin := Origin(f);
    "[" + Text.NatToString(index) + "] --> " + f.file.GetOr("unknown")
      + "(" + Text.IntToString(f.line.GetOr(0)) + ")"
      + (if origin == "" then "" else ": " + origin)
  }

  /**
   * The body of dumpStackTrace's frame loop: the origin is built from the class,
   * then the function with its summarised arguments, and prefixed with ": " if not empty.
   */
  method DescribeFrame(index: nat, f: StackFrame) returns (text: string)
    ensures text == FrameText(index, f)
  {
    var origin := "";
    if f.className.Some? {
      origin := origin + f.className.value + "::";
    }
    if f.functionName.Some? {
      var call := f.functionName.value + "(";
      if f.args.Some? {
        var argsText := SummariseArgs(f.args.value);
        call := call + argsText;
      } else {
        assert call + "" == call;
      }
      call := call + ")";
      origin := origin + call;
    }
    assert origin == Origin(f);
    if origin != "" {
      origin := ": " + origin;
    }
    text := "[" + Text.NatToString(index) + "] --> " + f.file.GetOr("unknown")
      + "(" + Text.IntToString(f.line.GetOr(0)) + ")" + origin;
  }

  /** The file and line every trace message is logged at: those of the starting frame. */
  function Anchor(stack: seq<StackFrame>, level: nat): Location {
    if level < |stack| then Location(stack[level].file.GetOr("unknown"), stack[level].line.GetOr(0))
    else Location("unknown", 0)
  }

  /** One past the last frame visited: the limit, or the whole stack when the limit is not positive. */
  function LastFrame(stack: seq<StackFrame>, limit: int, level: nat): int {
    if limit > 0 then level + limit else |stack|
  }

  /** How many frames are described: those from `level` up to the limit that exist. */
  function TraceLength(stack: seq<StackFrame>, limit: int, level: nat): (n: nat)
    ensures limit > 0 ==> n <= limit
    ensures n > 0 ==> level + n <= |stack|
  {
    var last := LastFrame(stack, limit, level);
    var stop := if last < |stack| then last else |stack|;
    if level < stop then stop - level else 0
  }

  /** The messages dumpStackTrace(limit, level) logs, one per visited frame. */
  function TraceMessages(stack: seq<StackFrame>, limit: int, level: nat): seq<Message> {
    var n := TraceLength(stack, limit, level);
    seq(n, i requires 0 <= i < n => Message(Debug, Plain(FrameText(i, stack[level + i])), Anchor(stack, level)))
  }

  /**
   * The trace is made of DEBUG messages, all anchored at the starting frame,
   * numbered from 0, one per visited frame and at most `limit` of them.
   */
  lemma TraceMessagesShape(stack: seq<StackFrame>, limit: int, level: nat)
    ensures var r := TraceMessages(stack, limit, level);
      && |r| == TraceLength(stack, limit, level)
      && (limit > 0 ==> |r| <= limit)
      && (forall i :: 0 <= i < |r| ==> r[i].level == Debug && r[i].origin == Anchor(stack, level))
      && (forall i :: 0 <= i < |r| ==>
            var tag := "[" + Text.NatToString(i) + "] --> ";
            r[i].body.Plain? && |r[i].body.text| > |tag| && r[i].body.text[..|tag|] == tag)
  {
    var r := TraceMessages(stack, limit, level);
    forall i | 0 <= i < |r|
      ensures var tag := "[" + Text.NatToString(i) + "] --> ";
        r[i].body.Plain? && |r[i].body.text| > |tag| && r[i].body.text[..|tag|] == tag
    {
      assert r[i].body.text == FrameText(i, stack[level + i]);
    }
  }

  /** A frame the loop reaches, before the limit and within the stack, has its message in the trace. */
  lemma TraceAt(stack: seq<StackFrame>, limit: int, level: nat, current: int)
    requires level <= current < |stack| && current < LastFrame(stack, limit, level)
    ensures current - level < |TraceMessages(stack, limit, level)|
    ensures TraceMessages(stack, limit, level)[current - level]
      == Message(Debug, Plain(FrameText(current - level, stack[current])), Anchor(stack, level))
  {
  }

  /** Where the loop stops, at the limit or at the end of the stack, the whole trace has been logged. */
  lemma TraceDone(stack: seq<StackFrame>, limit: int, level: nat, current: int)
    requires level <= current
    requires current == level || (current <= LastFrame(stack, limit, level) && current <= |stack|)
    requires current >= |stack| || current >= LastFrame(stack, limit, level)
    ensures current - level == |TraceMessages(stack, limit, level)|
  {
  }
}
