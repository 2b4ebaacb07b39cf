/** The exceptions the core throws; everything else it absorbs. */
module Failures {
  import Text

  datatype Failure =
    | ProfilerClosed(name: string)  // a profiler operation after end()
    | EventNotFound(id: int)        // endEvent with an id no event has
    | NegativeStackLevel            // dumpStackTrace with stack_level < 0
  {
    /** The exception's message. */
    function Message(): string {
      match this
      case ProfilerClosed(name) => "Profiler " + name + " is closed."
      case EventNotFound(id) => "Event " + Text.IntToString(id) + " not found."
      case NegativeStackLevel => "stack_level should be positive or zero."
    }
  }
}
