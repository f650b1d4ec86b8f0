/**
 * The plugin's name and its severity levels: the `Level` enumeration, the bit
 * each level owns in a level mask, and the mapping from a level's name.
 */
module Plugin {
  import opened Wrappers

  const PluginName: string := "k8s_event"

  /**
   * A log severity. The declaration order, and so the ordinal, is alphabetical
   * (Debug = 0, Error = 1, Fatal = 2, Info = 3, Warning = 4), not by severity.
   */
  datatype Level = Debug | Error | Fatal | Info | Warning {
    function Ordinal(): (i: nat)
      ensures i < 5
    {
      match this
      case Debug => 0
      case Error => 1
      case Fatal => 2
      case Info => 3
      case Warning => 4
    }
  }

  /** A set of enabled levels, as the Go `int` that holds it (64 bits wide). */
  type Mask = bv64

  /** `1 << level`, written out per level (see BitIsShift). */
  function Bit(l: Level): Mask {
    match l
    case Debug => 1
    case Error => 2
    case Fatal => 4
    case Info => 8
    case Warning => 16
  }

  lemma BitIsShift(l: Level)
    ensures Bit(l) == 1 << l.Ordinal()
  {
  }

  /** Whether the severity's bit is set: `levels&(1<<level) > 0`. */
  predicate Allowed(levels: Mask, l: Level) {
    levels & Bit(l) != 0
  }

  /** The lower-case configuration name of a level. */
  function Name(l: Level): string {
    match l
    case Debug => "debug"
    case Error => "error"
    case Fatal => "fatal"
    case Info => "info"
    case Warning => "warning"
  }

  /** `levelFromString`: exactly the five lower-case names are recognised. */
  function LevelFromString(s: string): (r: Option<Level>)
    ensures r.Some? <==> exists l: Level :: Name(l) == s
    ensures r.Some? ==> Name(r.value) == s
  {
    if s == "debug" then assert Name(Debug) == s; Some(Debug)
    else if s == "error" then assert Name(Error) == s; Some(Error)
    else if s == "fatal" then assert Name(Fatal) == s; Some(Fatal)
    else if s == "info" then assert Name(Info) == s; Some(Info)
    else if s == "warning" then assert Name(Warning) == s; Some(Warning)
    else None
  }

  /** Different levels own different bits. */
  lemma BitsDistinct(a: Level, b: Level)
    ensures Bit(a) == Bit(b) <==> a == b
    ensures Allowed(Bit(a), b) <==> a == b
  {
  }

  /** Setting one level's bit enables that level and leaves the others as they were. */
  lemma OrBit(m: Mask, a: Level, b: Level)
    ensures Allowed(m | Bit(a), b) <==> Allowed(m, b) || a == b
    ensures m < 32 ==> m | Bit(a) < 32
  {
    var x, y := Bit(a), Bit(b);
    assert x == 1 || x == 2 || x == 4 || x == 8 || x == 16;
    assert y == 1 || y == 2 || y == 4 || y == 8 || y == 16;
    assert x == y <==> a == b by {
      BitsDistinct(a, b);
    }
  }
}
