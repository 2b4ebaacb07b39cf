/**
 * What the host PHP runtime hands to the core: source locations, clock and memory
 * readings, stack frames as debug_backtrace reports them, the last error at exit,
 * and the number rendering the core delegates to PHP.
 */
module Host {
  import opened Wrappers

  /** A file name and line, as debug_backtrace, __FILE__ and __LINE__ give them. */
  datatype Location = Location(file: string, line: int)

  /** One reading of microtime(true) and memory_get_usage(). */
  datatype Sample = Sample(time: real, memory: int)

  /** One argument of a stack frame, by PHP type. */
  datatype Arg =
    | ObjectArg(className: string)
    | StringArg(text: string)
    | ArrayArg(size: nat)
    | IntArg(value: int)
    | BoolArg(flag: bool)
    | NullArg
    | FloatArg(rendered: string)  // PHP's own float-to-string text

  /** One frame of debug_backtrace(); every key may be missing. */
  datatype StackFrame = StackFrame(
    file: Option<string>,
    line: Option<int>,
    className: Option<string>,
    functionName: Option<string>,
    args: Option<seq<Arg>>)

  /** What error_get_last() returns when an error occurred. */
  datatype HostError = HostError(kind: int, message: string, file: string, line: int)

  /**
   * Number rendering that stays in PHP: `number` is number_format(x, 3, ',', '.'),
   * `float` is the conversion of a float to a string in an interpolation.
   */
  datatype Render = Render(number: real -> string, float: real -> string)

  /** The paths __FILE__ yields in the two core classes, by base name. */
  const BaseFile: string := "RDS_Base.php"
  const NetworkFile: string := "RDS_Network.php"
}
