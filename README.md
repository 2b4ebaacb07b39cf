# RDS debug library: a verified model of its core

RDS is a PHP debugging and instrumentation library. This project models three of its parts in Dafny and proves what each of them promises.

- **Profilers (`RDS_Profiler`).** A profiler is a named timeline that is OPEN until `end()` and CLOSED for ever after. Its events live in an append-only list and are addressed by position. `endEvent` stamps an event's end memory and time. `end()` closes the profiler and back-fills every event that has no end yet.
- **Buffering and dispatch (`RDS_Base`).**
  - `debug()` either buffers a message or hands it straight to the output sink.
  - An ERROR also dumps a stack trace of at most five frames.
  - `newProfiler()` registers profilers.
  - `flush()` drains the buffer, force-ends and hands over every profiler, then writes one summary.
  - `errorHandler()` and `shutdownHandler()` route PHP errors through a fixed code table.
  - `levelToString` and `convertSizeToHuman` are pure helpers.
- **The network sink (`RDS_Network`).**
  - The socket is opened lazily: at `flush()`, or at construction when unbuffered.
  - Each connection starts with a three-line handshake.
  - A message becomes one frame, `1 file line level message$%$%$%`, with newlines escaped as `$#$#$#`.
  - A profiler becomes a `2` frame, one `4` frame per event, then a `3` frame.
  - A bare `$%$%$%` ends the session.

The four message levels of `RDS.php` are the datatype `Levels.Level`.

How the source maps onto the model:

- **The sink as a log.** `RDS_Base` is abstract over `write()` and `writeProfiler()`. In the model (`Base.Core`), every such call is appended, in order, to `log`, a sequence of `SinkCall`s. Ordering and "exactly once" are stated over that log.
- **The network sink owns a core.** `Network.NetworkSink` holds a `Base.Core`. After each core operation it hands the new calls to `Write` or `WriteProfiler`. The socket cannot change during a core operation, so this sends the same frames as PHP's dispatch.
- **The socket.** It is `connected` (null or not) plus `sent`, the list of every `socket_write()` made, across connections. Each write is one `Wire.Frame`, and `Wire.Bytes` gives the exact string it puts on the wire.
- **Host calls become parameters:**
  - `microtime`/`memory_get_usage` are a `Sample`;
  - `debug_backtrace` is a caller `Location` or a `seq<StackFrame>`;
  - `error_get_last()` is an `Option<HostError>`;
  - `installed` is the constructor's test `set_error_handler(...) !== false` (RDS_Base.php:89-90). PHP returns the previous handler or null, never false, so the source never takes its "Could not attach" branch. The model keeps that branch for `installed == false`;
  - the success of `socket_connect` is `connectOk`;
  - `memory_get_peak_usage()` is `peak`.
- **Number rendering.** `number_format` and PHP's float-to-string conversion stay in the host. They are the two functions of `Host.Render`.
- **Profilers are objects.** Each `Profiling.Profiler` has the source's fields, and its methods change them in place. The value `ProfilerView` and the functions `Created`, `StartedEvent`, `EndedEvent` and `Ended` are the specification each method is proved against. Properties of runs of operations are lemmas over those functions.
- **Exceptions are results.** The three exceptions of the source are `Failures.Failure` values, returned as `Result`/`Outcome`, each with its message text.

## Model

| member | source | states |
|---|---|---|
| Levels.Level.Code | RDS.php:39-51 | every level has a code between 1 and 4 |
| Levels.FromCode | RDS.php:39-51 | an integer names a level exactly when it is 1 to 4, and the level found has that code |
| Levels.CodeRoundTrip | RDS.php:39-51 | the level codes are distinct, and reading a level's code back gives the level |
| Profiling.NormalizeName | RDS_Profiler.php:85 | the stored name has the input's length; each character is the input's, with a space as `_`, upper-cased; the result has no space |
| Profiling.CreatedIsOpen | RDS_Profiler.php:83-98 | a new profiler is open, has no events, keeps the profiler invariant and carries the normalised name |
| Profiling.Profiler.constructor | RDS_Profiler.php:83-98 | the new object satisfies the invariant and is in the `Created` state: start and end memory from the same reading, no end time, open |
| Profiling.StartedEventSpec | RDS_Profiler.php:105-125 | start succeeds iff the profiler is open; then it appends exactly one event with the given message, place and start readings and null ends, returns the former count as its index, and changes nothing else; on a closed profiler it fails with "Profiler NAME is closed." and changes nothing |
| Profiling.Profiler.StartEvent | RDS_Profiler.php:105-125 | the new fields and the result are those of `StartedEvent` on the old state, and the invariant is kept |
| Profiling.EndedEventSpec | RDS_Profiler.php:131-146 | endEvent succeeds iff the profiler is open and the id names an event; a closed profiler fails with "closed" for any id; an open one with a bad id fails with "Event N not found."; a failure changes nothing; a success sets only that event's end memory and end time |
| Profiling.Profiler.EndEvent | RDS_Profiler.php:131-146 | the new fields and the outcome are those of `EndedEvent` on the old state, and the invariant is kept |
| Profiling.LastEndEventWins | RDS_Profiler.php:133-137 | ending the same event twice leaves the readings of the second call |
| Profiling.CloseAll | RDS_Profiler.php:160-170 | back-filling keeps the number of events and treats each event on its own |
| Profiling.EndedBackfills | RDS_Profiler.php:150-172 | end() on an open profiler closes it with the given end readings and place; every event ends; an end field set by endEvent is kept, and a missing one takes the profiler's own value, each field independently |
| Profiling.Profiler.End | RDS_Profiler.php:150-172 | the loop leaves the fields equal to `Ended` of the old state, and the invariant is kept |
| Profiling.EndIdempotent | RDS_Profiler.php:152 | a second end() is a no-op |
| Profiling.ApplyWellFormed | RDS_Profiler.php:105-172 | each of startEvent, endEvent and end keeps the invariant: end time and place are set exactly when closed, and a closed profiler has no unended event |
| Profiling.RunWellFormed | RDS_Profiler.php:105-172 | any sequence of operations keeps that invariant |
| Profiling.ClosedIsTerminal | RDS_Profiler.php:105-172 | once closed, no sequence of operations changes the profiler |
| Profiling.RunKeepsEvents | RDS_Profiler.php:105-172 | events are never removed, and an event's message, place and start readings never change |
| Profiling.Profiler.IsOpen | RDS_Profiler.php:178-181 | reports the profiler's state |
| Profiling.Profiler.GetEvents | RDS_Profiler.php:187-190 | returns the current event list, in index order |
| Messages.Writes | RDS_Base.php:134-136 | one write() per message, in the messages' order |
| Base.LevelToString | RDS_Base.php:462-477 | "ERROR", "WARNING", "NOTICE" and "DEBUG" exactly for the codes of those levels, and "UNKNOWN" exactly for every other integer |
| Base.LevelToStringInjective | RDS_Base.php:462-477 | different level codes get different names |
| PhpErrors.ConvertPhpError | RDS_Base.php:230-266 | NOTICE iff a notice code; WARNING iff E_WARNING, E_USER_WARNING or E_CORE_WARNING; never DEBUG; the tag is PHP_NOTICE iff NOTICE and PHP_WARNING iff WARNING; PHP_PARSE iff E_PARSE, PHP_FATAL iff one of the five fatal codes, PHP_STRICT iff E_STRICT, PHP_DEPRECATED iff one of the two deprecation codes, and PHP_UNKNOWN iff any other code; ERROR iff one of the last five tags |
| PhpErrors.TagDeterminesLevel | RDS_Base.php:230-266 | two codes with the same tag get the same level |
| PhpErrors.IsFatal | RDS_Base.php:190-195 | each of the four codes shutdownHandler acts on is reported as PHP_FATAL at ERROR |
| Base.Core.constructor | RDS_Base.php:81-100 | empty registry; when attaching, the attach result is delivered as one message: ERROR with its stack trace on failure, DEBUG on success |
| Base.Core.Debug | RDS_Base.php:277-305 | the message, with a missing file or line taken from the caller, is appended to the buffer when buffered, else written once with the buffer untouched; an ERROR is followed by the stack trace from frame 2, at most 5 frames, under the same rule |
| Base.DeliveredChain | RDS_Base.php:293-304 | two deliveries in a row deliver the concatenation of their messages, in order |
| StackTrace.ArgsTextAppend | RDS_Base.php:381-405 | the summary of a list split in two non-empty parts is the two parts' summaries separated by ", " |
| StackTrace.SummariseArgs | RDS_Base.php:380-406 | the loop that pushes each argument's summary and implodes the list yields the argument text, starting with the first argument's summary |
| StackTrace.DescribeFrame | RDS_Base.php:369-419 | the loop body's description of a frame, class, function and summarised arguments included, is the frame's text |
| StackTrace.FrameText | RDS_Base.php:410-419 | each frame's description starts with "[i] --> " |
| StackTrace.TraceLength | RDS_Base.php:351-368 | no more frames than `limit` when `limit` is positive, and never past the end of the stack |
| StackTrace.TraceMessagesShape | RDS_Base.php:342-421 | the trace holds one DEBUG message per visited frame, at most `limit` of them; all are anchored at the starting frame's file and line, and they are numbered from 0 |
| StackTrace.TraceAt | RDS_Base.php:363-419 | each frame the loop reaches has its message at its position in the trace |
| StackTrace.TraceDone | RDS_Base.php:363-368 | where the loop stops, at the limit or the end of the stack, the whole trace has been emitted |
| Base.Core.DumpStackTrace | RDS_Base.php:342-421 | a negative stack level fails with "stack_level should be positive or zero." and changes nothing; otherwise the loop delivers exactly the trace messages |
| Base.Core.TraceStep | RDS_Base.php:363-419 | one pass of the frame loop: the messages already logged grow by exactly the next frame's trace message |
| Base.Core.LogFrame | RDS_Base.php:415-419 | a frame's description is logged once, at DEBUG, at the starting frame's file and line |
| Base.Core.ErrorHandler | RDS_Base.php:215-222 | delivers "[tag:errno]: message" at the mapped level, at the error's file and line, and reports the error as handled |
| Base.Core.NewProfiler | RDS_Base.php:428-437 | returns a fresh open profiler stored under the raw name; an existing entry under that name is replaced in place, a new name is appended, and every other entry is unchanged |
| Base.Core.DrainBuffer | RDS_Base.php:132-139 | every buffered message is written exactly once, in insertion order, and the buffer is left empty |
| Base.Core.SettleProfiler | RDS_Base.php:143-155 | an open profiler is ended and a WARNING is written before it; then the profiler is handed to writeProfiler |
| Base.Core.SettleRegistry | RDS_Base.php:141-158 | the registry is walked in order, and each profiler ends in its settled state |
| Base.SettleCloses | RDS_Base.php:145-147 | a settled profiler is closed and keeps the profiler invariant |
| Base.SettleCallsWritten | RDS_Base.php:143-155 | each registered profiler gives one writeProfiler call, preceded by one WARNING exactly when it was open |
| Base.ProfilerCallsCorrect | RDS_Base.php:141-158 | every registered profiler reaches writeProfiler exactly once, in registry order, closed; there is one forced-end WARNING per profiler that was open, and nothing else |
| Base.ProfilersWrittenClosed | RDS_Base.php:141-158 | every profiler handed over is closed and keeps the invariant |
| Base.FlushCallsCorrect | RDS_Base.php:129-177 | one flush makes the buffered writes first, in order, then the profiler calls as above, and ends with exactly one DEBUG summary |
| Base.SecondFlushWritesOnlySummary | RDS_Base.php:160-176 | with the buffer and the registry empty, as after a flush, a flush writes only the summary |
| Base.Core.Flush | RDS_Base.php:129-177 | the calls made are the flush calls of the old buffer and registry; buffer and registry end empty; each old profiler ends in its settled state |
| Base.FlushCallsPrepend | RDS_Base.php:129-139 | messages written just before a flush come out as if they had led the buffer |
| Base.DeliveredThenFlushed | RDS_Base.php:196-197 | messages delivered just before a flush reach the sink at the head of that flush, buffered or not |
| Base.Core.ShutdownHandler | RDS_Base.php:186-202 | always returns false; for a fatal last error, the error is logged as errorHandler would, everything is flushed, and each registered profiler object ends in its settled state; otherwise the buffer, log, registry and every profiler object are unchanged |
| Sizes.UnitIndexIsLargest | RDS_Base.php:484-527 | the reference unit index is the largest k for which the size exceeds 1024^j for every j up to k |
| Sizes.ScaleSizeCorrect | RDS_Base.php:484-527 | convertSizeToHuman picks the reference unit, and the value times 1024^k is the input, sign included |
| Sizes.ScaleSizeUnit | RDS_Base.php:484-527 | the chosen unit k is the one with size > 1024^j for all j up to k and size <= 1024^(k+1) below Tbyte |
| Sizes.ScaleSizeExamples | RDS_Base.php:496-497 | 1023 and 1024 stay in bytes; 1025 is Kbyte; 2048 is 2 Kbyte and -2048 is -2 Kbyte |
| Wire.Handshake | RDS_Network.php:191-195 | three lines, none of them a session frame or the close |
| Wire.HandshakeBytes | RDS_Network.php:185-201 | on the wire the handshake is exactly "2 NAME\n3 1\n1\n" |
| Wire.Escape | RDS_Network.php:133 | the escaped message holds no newline, and a message without one is unchanged |
| Wire.EscapeRoundTrip | RDS_Network.php:133 | turning every `$#$#$#` back into a newline restores a message that holds no `$` |
| Wire.WireFile | RDS_Network.php:137 | the file name keeps its length; each space becomes `_` and every other character is kept; the result holds no space |
| Wire.Payload | RDS_Network.php:128-133 | the message text of a frame holds no newline, for a string or an array message; a string message is escaped as it is |
| Wire.UnescapeEscaped | RDS_Network.php:133 | a collector reading an escaped `$`-free text followed by more gets the text back, then reads on |
| Wire.PayloadLinesRoundTrip | RDS_Network.php:128-133 | an array message, joined with `$#$#$#` and escaped, is read back by a collector as its lines separated by newlines, when no line holds `$` |
| Wire.MessageTextRoundTrip | RDS_Network.php:126-141 | a reader splitting the message frame at its first three spaces gets back the file (spaces as `_`), the line, the level code and the escaped message |
| Wire.BytesShape | RDS_Network.php:140-209 | each session frame starts with its tag (1, 2, 3 or 4) and a space and ends with the terminator; each handshake line ends with a newline; the close is the bare terminator |
| Wire.EventFrames | RDS_Network.php:159-171 | one event frame per event, in event order |
| Wire.ProfilerFramesShape | RDS_Network.php:148-180 | n + 2 frames for n events: the start frame, the event frames in order, the end frame, all session frames |
| Wire.StartTextNamesProfiler | RDS_Network.php:158 | the normalised profiler name is the first field of the start frame |
| Wire.EncodeAllPayload | RDS_Network.php:126-180 | whatever the core writes goes out as session frames: no handshake line and no close |
| Network.NetworkSink.constructor | RDS_Network.php:81-95 | the core is built as RDS_Base builds it; the socket is opened at once only when unbuffered, so what the core wrote while being built met a null socket and was dropped |
| Network.NetworkSink.OpenSocket | RDS_Network.php:185-201 | on a successful connect exactly the three handshake lines are sent and the socket is live; otherwise nothing is sent and the socket is null |
| Network.NetworkSink.CloseSocket | RDS_Network.php:205-213 | a live socket gets a bare terminator and becomes null; a null socket is left alone |
| Network.NetworkSink.Write | RDS_Network.php:126-141 | a live socket gets exactly one message frame; a null one gets nothing |
| Network.NetworkSink.WriteProfiler | RDS_Network.php:148-181 | a live socket gets the profiler's frames; a null one gets nothing |
| Network.NetworkSink.SendEvents | RDS_Network.php:159-171 | the loop sends one event frame per event, in event order |
| Network.NetworkSink.Send | RDS_Network.php:126-180 | one sink call sends its frames over a live socket and nothing over a null one |
| Network.NetworkSink.Forward | RDS_Network.php:126-180 | the core's calls reach the socket as their frames, in call order, while the socket is live |
| Network.NetworkSink.Debug | RDS_Base.php:277-305 | debug() on the network sink: delivered as in the core, and each write reaches a live socket as a frame |
| Network.NetworkSink.DumpStackTrace | RDS_Base.php:342-421 | dumpStackTrace() called on the network sink: as in the core, and each write reaches a live socket as a frame |
| Network.NetworkSink.ErrorHandler | RDS_Base.php:215-222 | errorHandler() on the network sink, as above |
| Network.NetworkSink.NewProfiler | RDS_Base.php:428-437 | newProfiler() on the network sink: registry only, nothing is sent |
| Network.NetworkSink.Flush | RDS_Network.php:108-115 | a null socket is opened first; a live one is not reopened; then the base flush runs: its calls go out as frames when the socket is live, the registry empties, and each old profiler object ends in its settled state |
| Network.NetworkSink.ShutdownHandler | RDS_Base.php:186-202 | a fatal last error is logged, sent at once when unbuffered, and then flushed over the link, opening it if null, and each old profiler object ends in its settled state; any other last error sends nothing and changes nothing, the profiler objects included |
| Network.NetworkSink.Destruct | RDS_Network.php:99-104 | "Closing debug link." is logged, everything is flushed over the link (opening it if null), each old profiler object ends in its settled state, and a live socket ends with the bare terminator and becomes null |

## Left out

- RDS_Console.php, RDS_Html.php, RDS_Dummy.php and RDS_Profiler_Dummy.php, the other sinks, are not part of this model. They only present output or do nothing.
- Host calls are parameters, as listed above. Each operation takes one `Sample`, so the forced `end()` calls and the summary of one flush share a single clock and memory reading.
- `number_format` and PHP's float-to-string conversion are the host functions of `Host.Render`. Sizes are proved over exact reals before rendering.
- `round($x, 3)` is `Base.Round3`, which rounds halves away from zero over exact reals. PHP's rounding of binary floats is not modelled: its pre-rounding, and inputs such as 1.0005 whose binary value lies just below the half.
- `iconv` transcoding is the identity.
- `__FILE__` is the base name of the file, `RDS_Base.php` or `RDS_Network.php`.
- The socket's host, port and charset are not modelled. The outcome of `socket_connect` is the parameter `connectOk`. A failed `socket_write` is not modelled, because the source ignores its result.
- `dump()` and `var_export`, `getProfilers()` and `getMessageBuffer()` are not modelled.
- The destructors' `restore_error_handler`, `set_error_handler`'s saved handler and `register_shutdown_function` are not modelled. They are process-level; only the flush and close of the destructors are.
- Level codes outside 1..4 passed to `debug()` are not representable: a message carries a `Level`. `LevelToString` takes any integer.
- The registry, a PHP array keyed by name, is the pair of sequences `names` and `profilers`, kept in insertion order. `flush()` sets the buffer to null; the model sets it to `[]`.
- PHP version: the model follows PHP 5 up to 7.1. Runtime diagnostics raised by the library's own code are not modelled, nor are the further messages its attached error handler would log for them:
  - reading `$stack[$stack_level]` past the end of a short stack (RDS_Base.php:360-361), as `debug(RDS::ERROR, ...)` from top-level code does, raises two undefined-offset NOTICEs and two `array_key_exists()` WARNINGs, one of each per line in PHP 5 and 7, and a TypeError in PHP 8; the model anchors the (empty) trace at ("unknown", 0) and logs nothing else;
  - `count(null)` at RDS_Base.php:132, on a flush after one that drained a non-empty buffer, raises a WARNING from PHP 7.2 and throws in PHP 8; the model's empty buffer is `[]`.
- A resource argument of a stack frame, which PHP shows as `Resource id #N`, has no case in `Host.Arg`.
- `strtoupper` is modelled as ASCII upper-casing, which is PHP 8.2's behaviour; earlier versions follow the locale.
- Wire.EscapeRoundTrip: proved only for messages that contain no `$`. A message holding the literal text `$#$#$#` is read back with a newline in its place, and one holding `$%$%$%` ends its frame early; the protocol has no escape for either.
- A stack frame's scalar argument is summarised by PHP's own string conversion. Floats arrive already rendered, in `Arg.FloatArg`.

## Where the library's description and its code differ

The model follows the code in each case.

- **Attach failure.** Failing to attach the error handler is logged at ERROR (RDS_Base.php:92), with a stack trace. It is described as a WARNING.
- **1024 bytes.** `convertSizeToHuman(1024)` stays in bytes, because the step-up test is a strict `> 1` (RDS_Base.php:496-497). The description gives "1,000 Kbyte(s)" for it.
- **Registry keys.** The registry is keyed by the raw name (RDS_Base.php:435), not the normalised one, while the profiler stores the normalised name (RDS_Profiler.php:85). Two names that normalise alike therefore get two registry entries.
- **Name collisions.** A second `newProfiler` with the same raw name replaces the first in the registry. The first is then never force-ended or written. The model keeps this behaviour; the description calls it a leak to fix.
- **Event frames.** They are neither newline-escaped nor rounded (RDS_Network.php:165,170). The description says their times are rounded to three decimals.
- **Forced-end WARNING.** It is written straight to the sink after the buffer has been drained (RDS_Base.php:148), never buffered.
