/** `libs/logs.go`: the mapping from a configured string to a log level,
    and the pause the commands take between steps. The logger itself is
    library code; only its level field is modelled. */
module Logs {
  import opened Text

  /** The levels of the logging library, in increasing severity. */
  datatype Level = Debug | Info | Warn | Error | Fatal

  /** `Level.String()`: the lower-case name of a level. */
  function Name(l: Level): string {
    match l
    case Debug => "debug"
    case Info => "info"
    case Warn => "warn"
    case Error => "error"
    case Fatal => "fatal"
  }

  /** A logger; `SetLevel` replaces its level. */
  class Logger {
    var level: Level

    constructor (l: Level)
      ensures level == l
    {
      level := l;
    }
  }

  /** The level `SetLogLevel` chooses: the lowered string names Debug, Warn
      or Error; anything else, "info" and "fatal" included, gives Info. */
  function LevelOf(s: string): (r: Level)
    ensures r == Debug <==> ToLower(s) == "debug"
    ensures r == Warn <==> ToLower(s) == "warn"
    ensures r == Error <==> ToLower(s) == "error"
    ensures r != Fatal
  {
    var t := ToLower(s);
    if t == Name(Debug) then Debug
    else if t == Name(Warn) then Warn
    else if t == Name(Error) then Error
    else Info
  }

  /** `SetLogLevel(l, s)`: sets exactly one level, the one `s` names. */
  method SetLogLevel(l: Logger, s: string)
    modifies l
    ensures l.level == LevelOf(s)
  {
    var t := ToLower(s);
    if t == Name(Debug) {
      l.level := Debug;
    } else if t == Name(Warn) {
      l.level := Warn;
    } else if t == Name(Error) {
      l.level := Error;
    } else {
      l.level := Info;
    }
  }

  /** Case does not matter: a string and its lower-case form give the same
      level. */
  lemma LevelOfIgnoresCase(s: string)
    ensures LevelOf(s) == LevelOf(ToLower(s))
  {
    ToLowerIdempotent(s);
  }

  /** Every level but Fatal is chosen by its own name; "fatal" gives Info. */
  lemma LevelOfName(l: Level)
    ensures l != Fatal ==> LevelOf(Name(l)) == l
    ensures l == Fatal ==> LevelOf(Name(l)) == Info
  {
    var n := Name(l);
    assert ToLower(n) == n;
  }

  /** `Pause(l)`: no wait at Debug level, half a second otherwise. The
      sleep itself is the clock; the milliseconds waited are returned. */
  method Pause(l: Level) returns (waited: nat)
    ensures waited == 0 <==> l == Debug
    ensures l != Debug ==> waited == 500
  {
    if l == Debug {
      return 0;
    }
    waited := 500;
  }
}
