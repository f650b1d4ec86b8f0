/**
 * Kubernetes object references and events, the recorder that collects them, and
 * the table that turns a severity into an event type and a reason.
 */
module Events {
  import opened Wrappers
  import opened Plugin
  import GoText

  /** The fields of `corev1.ObjectReference` that the plugin sets. */
  datatype ObjectRef = ObjectRef(kind: string, name: string, namespace: string)

  const EventTypeNormal: string := "Normal"
  const EventTypeWarning: string := "Warning"

  /** One call of `Eventf`; `target` is `None` for a nil reference. */
  datatype Event = Event(target: Option<ObjectRef>, eventType: string, reason: string, message: string)

  /**
   * An event recorder that keeps every event it is given, in order, as the
   * recorder in listener_test.go does.
   */
  class Recorder {
    const component: string
    var events: seq<Event>

    constructor (component: string)
      ensures this.component == component && events == []
    {
      this.component := component;
      events := [];
    }

    method Eventf(target: Option<ObjectRef>, eventType: string, reason: string, message: string)
      modifies this
      ensures events == old(events) + [Event(target, eventType, reason, message)]
    {
      events := events + [Event(target, eventType, reason, message)];
    }
  }

  /** Debug and Info are reported as Normal events, the other three as Warning events. */
  function EventType(l: Level): (t: string)
    ensures t == EventTypeNormal <==> l == Debug || l == Info
    ensures t == EventTypeWarning <==> l == Warning || l == Error || l == Fatal
  {
    match l
    case Debug => EventTypeNormal
    case Info => EventTypeNormal
    case Warning => EventTypeWarning
    case Error => EventTypeWarning
    case Fatal => EventTypeWarning
  }

  function Reason(l: Level): string {
    match l
    case Debug => "CoreDNSDebug"
    case Info => "CoreDNSInfo"
    case Warning => "CoreDNSWarning"
    case Error => "CoreDNSError"
    case Fatal => "CoreDNSFatal"
  }

  /**
   * A reason is "CoreDNS" followed by the level's name with its first letter
   * upper-cased and the rest as in the name.
   */
  lemma ReasonNamesLevel(l: Level)
    ensures |Name(l)| > 0 && 'a' <= Name(l)[0] <= 'z'
    ensures Reason(l) == "CoreDNS" + [(Name(l)[0] as int - 32) as char] + Name(l)[1..]
  {
    match l
    case Debug => assert Name(l)[1..] == "ebug";
    case Info => assert Name(l)[1..] == "nfo";
    case Warning => assert Name(l)[1..] == "arning";
    case Error => assert Name(l)[1..] == "rror";
    case Fatal => assert Name(l)[1..] == "atal";
  }

  /** Distinct levels give distinct reasons. */
  lemma ReasonsDistinct(a: Level, b: Level)
    ensures Reason(a) == Reason(b) <==> a == b
  {
    ReasonNamesLevel(a);
    ReasonNamesLevel(b);
  }

  /**
   * What one severity method hands to the recorder: one event with the level's
   * type and reason when the level's bit is set, nothing otherwise.
   */
  function Emitted(levels: Mask, ref: Option<ObjectRef>, l: Level, message: string): (r: seq<Event>)
    ensures |r| == Count(Allowed(levels, l))
  {
    if Allowed(levels, l) then [Event(ref, EventType(l), Reason(l), message)] else []
  }

  /** 1 for true, 0 for false. */
  function Count(b: bool): nat {
    if b then 1 else 0
  }

  /** The number of set bits among the lowest n bits of a mask. */
  function CountBits(m: Mask, n: nat): nat
    requires n <= 64
  {
    if n == 0 then 0 else CountBits(m, n - 1) + Count(m & (1 << (n - 1)) != 0)
  }

  /**
   * The events of one plain and one formatted call for each of the five
   * severities, in the order Debug, Info, Warning, Error, Fatal. `plain` is the
   * message of a plain call (`plugin + Sprint(v)`), `formatted` that of a
   * formatted one (`plugin + Sprintf(format, v)`).
   */
  function AllSeverities(levels: Mask, ref: Option<ObjectRef>, plain: string, formatted: string): seq<Event> {
    Emitted(levels, ref, Debug, plain) + Emitted(levels, ref, Debug, formatted)
    + Emitted(levels, ref, Info, plain) + Emitted(levels, ref, Info, formatted)
    + Emitted(levels, ref, Warning, plain) + Emitted(levels, ref, Warning, formatted)
    + Emitted(levels, ref, Error, plain) + Emitted(levels, ref, Error, formatted)
    + Emitted(levels, ref, Fatal, plain) + Emitted(levels, ref, Fatal, formatted)
  }

  /** A log that extends e0 by done, extended by one more piece, extends e0 by done and that piece. */
  lemma AppendStep<T>(e0: seq<T>, done: seq<T>, before: seq<T>, piece: seq<T>, after: seq<T>)
    requires before == e0 + done && after == before + piece
    ensures after == e0 + (done + piece)
  {
  }

  /** The number of levels whose bit is set, counted level by level. */
  function EnabledLevels(levels: Mask): nat {
    Count(Allowed(levels, Debug)) + Count(Allowed(levels, Error)) + Count(Allowed(levels, Fatal))
    + Count(Allowed(levels, Info)) + Count(Allowed(levels, Warning))
  }

  /** Counting levels is counting the set bits among bits 0..4, since ordinals are 0..4. */
  lemma EnabledLevelsAreLowBits(levels: Mask)
    ensures EnabledLevels(levels) == CountBits(levels, 5)
  {
    assert CountBits(levels, 1) == Count(Allowed(levels, Debug));
    assert CountBits(levels, 2) == CountBits(levels, 1) + Count(Allowed(levels, Error));
    assert CountBits(levels, 3) == CountBits(levels, 2) + Count(Allowed(levels, Fatal));
    assert CountBits(levels, 4) == CountBits(levels, 3) + Count(Allowed(levels, Info));
    assert CountBits(levels, 5) == CountBits(levels, 4) + Count(Allowed(levels, Warning));
  }

  /** Ten calls forward two events per level bit set among bits 0..4. */
  lemma AllSeveritiesCount(levels: Mask, ref: Option<ObjectRef>, plain: string, formatted: string)
    ensures |AllSeverities(levels, ref, plain, formatted)| == 2 * CountBits(levels, 5)
  {
    EnabledLevelsAreLowBits(levels);
  }

  /** Every event of one severity call carries the emitter's reference. */
  lemma EmittedCarriesRef(levels: Mask, ref: Option<ObjectRef>, l: Level, message: string)
    ensures forall e :: e in Emitted(levels, ref, l, message) ==> e.target == ref
  {
  }

  /** Every forwarded event carries the given reference. */
  lemma AllSeveritiesCarryRef(levels: Mask, ref: Option<ObjectRef>, plain: string, formatted: string)
    ensures forall e :: e in AllSeverities(levels, ref, plain, formatted) ==> e.target == ref
  {
    forall l: Level, m: string | m == plain || m == formatted {
      EmittedCarriesRef(levels, ref, l, m);
    }
  }

  /** Level l's event with message m' is forwarded by the call for level k with message m exactly when they are the same call and l is enabled. */
  lemma ReportedBy(levels: Mask, ref: Option<ObjectRef>, l: Level, k: Level, m: string, m': string)
    ensures Event(ref, EventType(l), Reason(l), m') in Emitted(levels, ref, k, m) <==> Allowed(levels, l) && k == l && m == m'
  {
    ReasonsDistinct(k, l);
  }

  /**
   * The ten calls report a level, with both the plain and the formatted message,
   * exactly when that level is enabled.
   */
  lemma AllSeveritiesReportEnabledLevels(levels: Mask, ref: Option<ObjectRef>, plain: string, formatted: string, l: Level)
    ensures Event(ref, EventType(l), Reason(l), plain) in AllSeverities(levels, ref, plain, formatted) <==> Allowed(levels, l)
    ensures Event(ref, EventType(l), Reason(l), formatted) in AllSeverities(levels, ref, plain, formatted) <==> Allowed(levels, l)
  {
    ReportedBy(levels, ref, l, Debug, plain, plain);
    ReportedBy(levels, ref, l, Debug, plain, formatted);
    ReportedBy(levels, ref, l, Debug, formatted, plain);
    ReportedBy(levels, ref, l, Debug, formatted, formatted);
    ReportedBy(levels, ref, l, Info, plain, plain);
    ReportedBy(levels, ref, l, Info, plain, formatted);
    ReportedBy(levels, ref, l, Info, formatted, plain);
    ReportedBy(levels, ref, l, Info, formatted, formatted);
    ReportedBy(levels, ref, l, Warning, plain, plain);
    ReportedBy(levels, ref, l, Warning, plain, formatted);
    ReportedBy(levels, ref, l, Warning, formatted, plain);
    ReportedBy(levels, ref, l, Warning, formatted, formatted);
    ReportedBy(levels, ref, l, Error, plain, plain);
    ReportedBy(levels, ref, l, Error, plain, formatted);
    ReportedBy(levels, ref, l, Error, formatted, plain);
    ReportedBy(levels, ref, l, Error, formatted, formatted);
    ReportedBy(levels, ref, l, Fatal, plain, plain);
    ReportedBy(levels, ref, l, Fatal, plain, formatted);
    ReportedBy(levels, ref, l, Fatal, formatted, plain);
    ReportedBy(levels, ref, l, Fatal, formatted, formatted);
  }

  /** The masks of listener_test.go forward 10, 4 and 2 events. */
  lemma ListenerTestCounts(ref: Option<ObjectRef>, plain: string, formatted: string)
    ensures |AllSeverities(Bit(Debug) | Bit(Info) | Bit(Warning) | Bit(Error) | Bit(Fatal), ref, plain, formatted)| == 10
    ensures |AllSeverities(Bit(Debug) | Bit(Error), ref, plain, formatted)| == 4
    ensures |AllSeverities(Bit(Debug), ref, plain, formatted)| == 2
  {
    AllSeveritiesCount(Bit(Debug) | Bit(Info) | Bit(Warning) | Bit(Error) | Bit(Fatal), ref, plain, formatted);
    AllSeveritiesCount(Bit(Debug) | Bit(Error), ref, plain, formatted);
    AllSeveritiesCount(Bit(Debug), ref, plain, formatted);
  }

  /** The plain message that listener_test.go expects: "plugin1args". */
  lemma ListenerTestPlainMessage()
    ensures "plugin1" + GoText.Sprint([GoText.Value("args", true)]) == "plugin1args"
  {
    var v := [GoText.Value("args", true)];
    assert v[..0] == [];
  }

  /** The formatted message that listener_test.go expects: "plugin1fmt args". */
  lemma ListenerTestFormattedMessage()
    ensures "plugin1" + GoText.Sprintf("fmt %s", [GoText.Value("args", true)]) == "plugin1fmt args"
  {
    var v := [GoText.Value("args", true)];
    var f := "fmt %s";
    assert f[0] == 'f' && f[1..] == "mt %s";
    assert f[1..][0] == 'm' && f[1..][1..] == "t %s";
    assert f[2..][0] == 't' && f[2..][1..] == " %s";
    assert f[3..][0] == ' ' && f[3..][1..] == "%s";
    assert f[4..][2..] == [] && v[1..] == [];
    assert GoText.Sprintf("%s", v) == "args";
    assert GoText.Sprintf(" %s", v) == " args";
    assert GoText.Sprintf("t %s", v) == "t args";
    assert GoText.Sprintf("mt %s", v) == "mt args";
  }
}
