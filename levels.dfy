/** The four message levels and their integer codes (class RDS). */
module Levels {
  import opened Wrappers

  datatype Level = Error | Warning | Notice | Debug {
    /** The integer constant the source uses for the level. */
    function Code(): (c: int)
      ensures 1 <= c <= 4
    {
      match this
      case Error => 1
      case Warning => 2
      case Notice => 3
      case Debug => 4
    }
  }

  /** The level an integer code stands for, if any. */
  function FromCode(code: int): (r: Option<Level>)
    ensures r.Some? <==> 1 <= code <= 4
    ensures r.Some? ==> r.value.Code() == code
  {
    if code == 1 then Some(Error)
    else if code == 2 then Some(Warning)
    else if code == 3 then Some(Notice)
    else if code == 4 then Some(Debug)
    else None
  }

  /** Distinct levels have distinct codes, and FromCode undoes Code. */
  lemma CodeRoundTrip(l: Level, m: Level)
    ensures FromCode(l.Code()) == Some(l)
    ensures l.Code() == m.Code() ==> l == m
  {
  }
}
