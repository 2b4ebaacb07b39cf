/** PHP's error codes and the fixed mapping of a code to a message level and a tag. */
module PhpErrors {
  import opened Levels
  import Text

  const E_ERROR: int := 1
  const E_WARNING: int := 2
  const E_PARSE: int := 4
  const E_NOTICE: int := 8
  const E_CORE_ERROR: int := 16
  const E_CORE_WARNING: int := 32
  const E_COMPILE_ERROR: int := 64
  const E_COMPILE_WARNING: int := 128
  const E_USER_ERROR: int := 256
  const E_USER_WARNING: int := 512
  const E_USER_NOTICE: int := 1024
  const E_STRICT: int := 2048
  const E_RECOVERABLE_ERROR: int := 4096
  const E_DEPRECATED: int := 8192
  const E_USER_DEPRECATED: int := 16384

  /** convertPhpError: the level and tag an error code is reported with. */
  function ConvertPhpError(errno: int): (r: (Level, string))
    ensures r.0 == Notice <==> errno == E_NOTICE || errno == E_USER_NOTICE
    ensures r.0 == Warning <==> errno == E_WARNING || errno == E_USER_WARNING || errno == E_CORE_WARNING
    ensures r.0 != Debug
    ensures r.0 == Error <==>
      r.1 in {"PHP_PARSE", "PHP_FATAL", "PHP_STRICT", "PHP_DEPRECATED", "PHP_UNKNOWN"}
    ensures r.1 == "PHP_NOTICE" <==> r.0 == Notice
    ensures r.1 == "PHP_WARNING" <==> r.0 == Warning
    ensures r.1 == "PHP_PARSE" <==> errno == E_PARSE
    ensures r.1 == "PHP_FATAL" <==>
      errno in {E_RECOVERABLE_ERROR, E_ERROR, E_COMPILE_ERROR, E_CORE_ERROR, E_USER_ERROR}
    ensures r.1 == "PHP_STRICT" <==> errno == E_STRICT
    ensures r.1 == "PHP_DEPRECATED" <==> errno in {E_DEPRECATED, E_USER_DEPRECATED}
    ensures r.1 == "PHP_UNKNOWN" <==>
      errno !in {E_NOTICE, E_USER_NOTICE, E_WARNING, E_USER_WARNING, E_CORE_WARNING, E_PARSE,
                 E_RECOVERABLE_ERROR, E_ERROR, E_COMPILE_ERROR, E_CORE_ERROR, E_USER_ERROR,
                 E_STRICT, E_DEPRECATED, E_USER_DEPRECATED}
  {
    if errno == E_NOTICE || errno == E_USER_NOTICE then (Notice, "PHP_NOTICE")
    else if errno == E_WARNING || errno == E_USER_WARNING || errno == E_CORE_WARNING then (Warning, "PHP_WARNING")
    else if errno == E_PARSE then (Error, "PHP_PARSE")
    else if errno == E_RECOVERABLE_ERROR || errno == E_ERROR || errno == E_COMPILE_ERROR
         || errno == E_CORE_ERROR || errno == E_USER_ERROR then (Error, "PHP_FATAL")
    else if errno == E_STRICT then (Error, "PHP_STRICT")
    else if errno == E_DEPRECATED || errno == E_USER_DEPRECATED then (Error, "PHP_DEPRECATED")
    else (Error, "PHP_UNKNOWN")
  }

  /** The tag alone determines the level a code is reported with. */
  lemma TagDeterminesLevel(a: int, b: int)
    ensures ConvertPhpError(a).1 == ConvertPhpError(b).1 ==> ConvertPhpError(a).0 == ConvertPhpError(b).0
  {
  }

  /** The text errorHandler logs: "[tag:errno]: message". */
  function ErrorText(errno: int, message: string): string {
    "[" + ConvertPhpError(errno).1 + ":" + Text.IntToString(errno) + "]: " + message
  }

  /** The codes shutdownHandler acts on; each of them is reported as PHP_FATAL at ERROR. */
  predicate IsFatal(kind: int)
    ensures IsFatal(kind) ==> ConvertPhpError(kind) == (Error, "PHP_FATAL")
  {
    kind == E_ERROR || kind == E_CORE_ERROR || kind == E_COMPILE_ERROR || kind == E_USER_ERROR
  }
}
