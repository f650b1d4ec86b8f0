/**
 * The `k8s_event` configuration stanza: its defaults and bounds, the meaning of
 * the `level` and `rate` directives, and the parser that folds a stanza's
 * directives into the plugin's settings.
 *
 * The stanza arrives already split into directives, each a name and its
 * arguments; the number parsers of `strconv` are parameters.
 */
module Setup {
  import opened Wrappers
  import opened Plugin
  import GoText
  import K = K8sEvent

  const DefaultRateCacheSize: int := 4096
  const MinRateCacheSize: int := 1
  const MaxRateCacheSize: int := 65535
  const DefaultRateBurst: int := 25
  const MinRateBurst: int := 1
  const MaxRateBurst: int := 256
  const DefaultRateQPS: real := 1.0 / 300.0
  const MinRateQPS: real := 1.0 / 3600.0
  const MaxRateQPS: real := 1.0

  /** `1<<Error | 1<<Warning` */
  const DefaultLevel: Mask := Bit(Error) | Bit(Warning)

  /** A floating-point value as `strconv.ParseFloat` may return it. */
  datatype Float = Finite(value: real) | PosInf | NegInf | NaN

  /**
   * `strconv.ParseFloat(s, 32)` and `strconv.Atoi(s)`; `None` stands for the
   * error they return on a malformed or out-of-range number.
   */
  datatype Strconv = Strconv(parseFloat: string -> Option<Float>, atoi: string -> Option<int>)

  /** One line of the stanza's block: a directive name and its arguments. */
  datatype Directive = Directive(name: string, args: seq<string>)

  type Stanza = seq<Directive>

  datatype Error =
    | DuplicateStanza                 // plugin.ErrOnce
    | WrongArgCount                   // c.ArgErr()
    | InvalidLevel(name: string)      // "invalid Level: <name>"
    | BadFloat(arg: string)           // strconv.ParseFloat failed
    | BadInt(arg: string)             // strconv.Atoi failed
    | QpsOutOfRange(qps: Float)
    | BurstOutOfRange(burst: int)
    | CacheSizeOutOfRange(cacheSize: int)
    | UnknownProperty(name: string)   // "unknown property '<name>'"

  /** The settings a stanza starts from. */
  const Defaults: K.Settings := K.Settings(DefaultLevel, DefaultRateQPS, DefaultRateBurst, DefaultRateCacheSize)

  /** Every setting within its closed range, and only level bits 0..4 set. */
  predicate InRange(s: K.Settings) {
    && s.levels < 32
    && MinRateQPS <= s.qps <= MaxRateQPS
    && MinRateBurst <= s.burst <= MaxRateBurst
    && MinRateCacheSize <= s.cacheSize <= MaxRateCacheSize
  }

  /** With no directives the stanza gives the defaults: Error and Warning, 1/300 qps, burst 25, cache 4096. */
  lemma EmptyStanzaGivesDefaults(conv: Strconv)
    ensures StanzaSettings([], conv) == Ok(Defaults)
    ensures InRange(Defaults)
    ensures forall l :: Allowed(Defaults.levels, l) <==> l == Error || l == Warning
    ensures Defaults.qps == 1.0 / 300.0 && Defaults.burst == 25 && Defaults.cacheSize == 4096
  {
    forall l ensures Allowed(Defaults.levels, l) <==> l == Error || l == Warning {
      OrBit(Bit(Error), Warning, l);
      BitsDistinct(Error, l);
    }
  }

  // ---------------------------------------------------------------- level

  /** `levelFromString(strings.ToLower(arg))` */
  function ParseLevelArg(arg: string): Option<Level> {
    LevelFromString(GoText.ToLower(arg))
  }

  /** A level argument names a level exactly when its lower-case form is that level's name. */
  lemma LevelArgCaseInsensitive(arg: string, l: Level)
    ensures ParseLevelArg(arg) == Some(l) <==> GoText.ToLower(arg) == Name(l)
  {
    var r := ParseLevelArg(arg);
    if GoText.ToLower(arg) == Name(l) {
      assert Name(r.value) == Name(l);
      match l
      case Debug =>
      case Error =>
      case Fatal =>
      case Info =>
      case Warning =>
    }
  }

  /** The rune c is the ASCII letter x in either case, or the non-ASCII capital that lower-cases to x. */
  predicate CaseVariant(c: char, x: char) {
    c == x || c as int == x as int - 32 || (x == 'i' && c == '\U{130}') || (x == 'k' && c == '\U{212A}')
  }

  lemma LowerRuneTo(c: char, x: char)
    requires 'a' <= x <= 'z'
    ensures GoText.LowerRune(c) == x <==> CaseVariant(c, x)
  {
  }

  /**
   * The level match of `parseStanza` without lower-casing: an argument names a
   * level exactly when, rune by rune, it spells the level's name in either case
   * (with U+0130 standing for `i` and the Kelvin sign for `k`).
   */
  lemma LevelArgMatchesName(arg: string, l: Level)
    ensures ParseLevelArg(arg) == Some(l) <==>
      |arg| == |Name(l)| && forall i :: 0 <= i < |arg| ==> CaseVariant(arg[i], Name(l)[i])
  {
    LevelArgCaseInsensitive(arg, l);
    var n, r := Name(l), GoText.ToLower(arg);
    assert forall i :: 0 <= i < |n| ==> 'a' <= n[i] <= 'z';
    if |arg| == |n| {
      forall i | 0 <= i < |arg| ensures r[i] == n[i] <==> CaseVariant(arg[i], n[i]) {
        LowerRuneTo(arg[i], n[i]);
      }
      if forall i :: 0 <= i < |arg| ==> r[i] == n[i] {
        assert r == n;
      }
    }
  }

  lemma LevelArgExamples()
    ensures ParseLevelArg("debug") == Some(Debug)
    ensures ParseLevelArg("DEBUG") == Some(Debug)
    ensures ParseLevelArg("Warning") == Some(Warning)
    ensures ParseLevelArg("err") == None
  {
    assert GoText.ToLower("DEBUG") == "debug";
    assert GoText.ToLower("Warning") == "warning";
    assert GoText.ToLower("err") == "err";
  }

  /**
   * The OR of the bits of the named levels, accumulated left to right; the
   * first argument that names no level is the error.
   */
  function LevelMask(args: seq<string>): Result<Mask, Error>
    decreases |args|
  {
    if args == [] then Ok(0)
    else
      match LevelMask(args[..|args| - 1])
      case Err(e) => Err(e)
      case Ok(m) =>
        match ParseLevelArg(args[|args| - 1])
        case None => Err(InvalidLevel(GoText.ToLower(args[|args| - 1])))
        case Some(l) => Ok(m | Bit(l))
  }

  /** The `level` directive: at least one name, then the mask of the names. */
  function LevelDirective(args: seq<string>): Result<Mask, Error> {
    if |args| == 0 then Err(WrongArgCount) else LevelMask(args)
  }

  /** Some argument names level l. */
  predicate Named(args: seq<string>, l: Level) {
    exists i :: 0 <= i < |args| && ParseLevelArg(args[i]) == Some(l)
  }

  lemma NamedSnoc(args: seq<string>, l: Level)
    requires args != []
    ensures Named(args, l) <==> Named(args[..|args| - 1], l) || ParseLevelArg(args[|args| - 1]) == Some(l)
  {
    var init := args[..|args| - 1];
    if Named(init, l) {
      var i :| 0 <= i < |init| && ParseLevelArg(init[i]) == Some(l);
      assert args[i] == init[i];
    }
    if Named(args, l) {
      var i :| 0 <= i < |args| && ParseLevelArg(args[i]) == Some(l);
      if i < |init| {
        assert init[i] == args[i];
      }
    }
  }

  /** A mask built from names has exactly the named levels enabled, and nothing above bit 4. */
  lemma {:induction false} LevelMaskNamesExactly(args: seq<string>, m: Mask)
    requires LevelMask(args) == Ok(m)
    ensures m < 32
    ensures forall l :: Allowed(m, l) <==> Named(args, l)
    decreases |args|
  {
    if args != [] {
      var init := args[..|args| - 1];
      var m0 := LevelMask(init).value;
      LevelMaskNamesExactly(init, m0);
      var l0 := ParseLevelArg(args[|args| - 1]).value;
      assert m == m0 | Bit(l0);
      OrBit(m0, l0, Debug);
      forall l ensures Allowed(m, l) <==> Named(args, l) {
        OrBit(m0, l0, l);
        NamedSnoc(args, l);
      }
    }
  }

  /** Every argument names a level. */
  predicate AllLevels(args: seq<string>) {
    forall i :: 0 <= i < |args| ==> ParseLevelArg(args[i]).Some?
  }

  lemma AllLevelsSnoc(args: seq<string>)
    requires args != []
    ensures AllLevels(args) <==> AllLevels(args[..|args| - 1]) && ParseLevelArg(args[|args| - 1]).Some?
  {
    var init := args[..|args| - 1];
    assert forall i :: 0 <= i < |init| ==> init[i] == args[i];
  }

  /** The names are accepted exactly when every one of them names a level. */
  lemma {:induction false} LevelMaskAcceptsOnlyLevelNames(args: seq<string>)
    ensures LevelMask(args).Ok? <==> AllLevels(args)
    decreases |args|
  {
    if args != [] {
      var n := |args| - 1;
      LevelMaskAcceptsOnlyLevelNames(args[..n]);
      LevelMaskStep(args, n);
      AllLevelsSnoc(args);
      assert args[..n + 1] == args;
    }
  }

  /** One more name: the mask of a prefix extended by the next argument. */
  lemma LevelMaskStep(args: seq<string>, j: nat)
    requires j < |args|
    ensures LevelMask(args[..j]).Err? ==> LevelMask(args[..j + 1]) == LevelMask(args[..j])
    ensures LevelMask(args[..j]).Ok? && ParseLevelArg(args[j]).None? ==>
      LevelMask(args[..j + 1]) == Err(InvalidLevel(GoText.ToLower(args[j])))
    ensures LevelMask(args[..j]).Ok? && ParseLevelArg(args[j]).Some? ==>
      LevelMask(args[..j + 1]) == Ok(LevelMask(args[..j]).value | Bit(ParseLevelArg(args[j]).value))
  {
    var prefix := args[..j + 1];
    assert prefix[..|prefix| - 1] == args[..j] && prefix[|prefix| - 1] == args[j];
  }

  /** Once a prefix of the names has failed, the whole list fails with the same error. */
  lemma {:induction false} LevelMaskErrorPersists(args: seq<string>, j: nat)
    requires j <= |args| && LevelMask(args[..j]).Err?
    ensures LevelMask(args) == LevelMask(args[..j])
    decreases |args| - j
  {
    if j < |args| {
      assert args[..j + 1][..j] == args[..j];
      LevelMaskErrorPersists(args, j + 1);
    } else {
      assert args[..j] == args;
    }
  }

  // ---------------------------------------------------------------- rate

  /** IEEE `<` of a parsed value against a number: false for NaN. */
  predicate FloatLess(q: Float, c: real) {
    match q
    case Finite(x) => x < c
    case NegInf => true
    case PosInf => false
    case NaN => false
  }

  /** IEEE `>` of a parsed value against a number: false for NaN. */
  predicate FloatGreater(q: Float, c: real) {
    match q
    case Finite(x) => x > c
    case PosInf => true
    case NegInf => false
    case NaN => false
  }

  /** The qps check as written: `qps < minRateQPS || qps > maxRateQPS`. */
  predicate QpsRejectedAsWritten(q: Float) {
    FloatLess(q, MinRateQPS) || FloatGreater(q, MaxRateQPS)
  }

  /** The qps check as intended: a number within [1/3600, 1]. */
  predicate QpsInRange(q: Float) {
    q.Finite? && MinRateQPS <= q.value <= MaxRateQPS
  }

  /** The written check lets NaN through although NaN lies in no range. */
  lemma NaNPassesQpsCheckAsWritten()
    ensures !QpsRejectedAsWritten(NaN) && !QpsInRange(NaN)
  {
  }

  /** On every value other than NaN the written and the intended check agree. */
  lemma QpsChecksAgreeExceptNaN(q: Float)
    requires q != NaN
    ensures QpsRejectedAsWritten(q) <==> !QpsInRange(q)
  {
  }

  /** The qps argument as written: whatever the range test does not reject is stored. */
  function CheckQpsAsWritten(arg: string, conv: Strconv): Result<Float, Error> {
    match conv.parseFloat(arg)
    case None => Err(BadFloat(arg))
    case Some(q) => if QpsRejectedAsWritten(q) then Err(QpsOutOfRange(q)) else Ok(q)
  }

  /** The qps argument: parsed, then required to lie within its range. */
  function CheckQps(arg: string, conv: Strconv): (r: Result<real, Error>)
    ensures r.Ok? <==> conv.parseFloat(arg).Some? && QpsInRange(conv.parseFloat(arg).value)
    ensures r.Ok? ==> MinRateQPS <= r.value <= MaxRateQPS && conv.parseFloat(arg) == Some(Finite(r.value))
    ensures conv.parseFloat(arg).None? ==> r == Err(BadFloat(arg))
    ensures conv.parseFloat(arg).Some? && !QpsInRange(conv.parseFloat(arg).value) ==> r == Err(QpsOutOfRange(conv.parseFloat(arg).value))
  {
    match conv.parseFloat(arg)
    case None => Err(BadFloat(arg))
    case Some(q) => if !QpsInRange(q) then Err(QpsOutOfRange(q)) else Ok(q.value)
  }

  /** `rate NaN`, with `ParseFloat` accepting "NaN" as Go's does: stored as written, refused as intended. */
  lemma RateNaNExample(conv: Strconv)
    requires conv.parseFloat("NaN") == Some(NaN)
    ensures CheckQpsAsWritten("NaN", conv) == Ok(NaN)
    ensures CheckQps("NaN", conv) == Err(QpsOutOfRange(NaN))
  {
  }

  function CheckBurst(arg: string, conv: Strconv): (r: Result<int, Error>)
    ensures r.Ok? <==> conv.atoi(arg).Some? && MinRateBurst <= conv.atoi(arg).value <= MaxRateBurst
    ensures r.Ok? ==> conv.atoi(arg) == Some(r.value)
    ensures conv.atoi(arg).None? ==> r == Err(BadInt(arg))
    ensures conv.atoi(arg).Some? && !(MinRateBurst <= conv.atoi(arg).value <= MaxRateBurst) ==> r == Err(BurstOutOfRange(conv.atoi(arg).value))
  {
    match conv.atoi(arg)
    case None => Err(BadInt(arg))
    case Some(b) => if b < MinRateBurst || b > MaxRateBurst then Err(BurstOutOfRange(b)) else Ok(b)
  }

  function CheckCacheSize(arg: string, conv: Strconv): (r: Result<int, Error>)
    ensures r.Ok? <==> conv.atoi(arg).Some? && MinRateCacheSize <= conv.atoi(arg).value <= MaxRateCacheSize
    ensures r.Ok? ==> conv.atoi(arg) == Some(r.value)
    ensures conv.atoi(arg).None? ==> r == Err(BadInt(arg))
    ensures conv.atoi(arg).Some? && !(MinRateCacheSize <= conv.atoi(arg).value <= MaxRateCacheSize) ==> r == Err(CacheSizeOutOfRange(conv.atoi(arg).value))
  {
    match conv.atoi(arg)
    case None => Err(BadInt(arg))
    case Some(c) => if c < MinRateCacheSize || c > MaxRateCacheSize then Err(CacheSizeOutOfRange(c)) else Ok(c)
  }

  /**
   * The `rate <qps> [<burst> [<cacheSize>]]` directive: one to three arguments,
   * checked in order; an absent argument leaves its setting as it was.
   */
  function RateDirective(s: K.Settings, args: seq<string>, conv: Strconv): Result<K.Settings, Error> {
    if |args| == 0 || |args| > 3 then Err(WrongArgCount)
    else
      match CheckQps(args[0], conv)
      case Err(e) => Err(e)
      case Ok(qps) =>
        if |args| == 1 then Ok(s.(qps := qps))
        else
          match CheckBurst(args[1], conv)
          case Err(e) => Err(e)
          case Ok(burst) =>
            if |args| == 2 then Ok(s.(qps := qps, burst := burst))
            else
              match CheckCacheSize(args[2], conv)
              case Err(e) => Err(e)
              case Ok(cacheSize) => Ok(s.(qps := qps, burst := burst, cacheSize := cacheSize))
  }

  /** The argument-count error comes exactly from zero or more than three arguments. */
  lemma RateArgCount(s: K.Settings, args: seq<string>, conv: Strconv)
    ensures RateDirective(s, args, conv) == Err(WrongArgCount) <==> |args| == 0 || |args| > 3
  {
  }

  /** Present arguments set their settings, absent ones and the levels are left alone. */
  lemma RateSetsPresentFields(s: K.Settings, args: seq<string>, conv: Strconv, s': K.Settings)
    requires RateDirective(s, args, conv) == Ok(s')
    ensures 1 <= |args| <= 3 && s'.levels == s.levels
    ensures conv.parseFloat(args[0]) == Some(Finite(s'.qps))
    ensures if |args| >= 2 then conv.atoi(args[1]) == Some(s'.burst) else s'.burst == s.burst
    ensures if |args| == 3 then conv.atoi(args[2]) == Some(s'.cacheSize) else s'.cacheSize == s.cacheSize
  {
  }

  /** The first argument that fails decides the error, whatever follows it. */
  lemma RateFirstFailureDecides(s: K.Settings, args: seq<string>, conv: Strconv)
    requires 1 <= |args| <= 3
    ensures CheckQps(args[0], conv).Err? ==>
      RateDirective(s, args, conv) == Err(CheckQps(args[0], conv).error)
    ensures CheckQps(args[0], conv).Ok? && |args| >= 2 && CheckBurst(args[1], conv).Err? ==>
      RateDirective(s, args, conv) == Err(CheckBurst(args[1], conv).error)
    ensures CheckQps(args[0], conv).Ok? && |args| == 3 && CheckBurst(args[1], conv).Ok? && CheckCacheSize(args[2], conv).Err? ==>
      RateDirective(s, args, conv) == Err(CheckCacheSize(args[2], conv).error)
  {
  }

  // ---------------------------------------------------------------- stanza

  /** One directive of the block: `level`, `rate`, or an unknown property. */
  function ApplyDirective(s: K.Settings, d: Directive, conv: Strconv): Result<K.Settings, Error> {
    if d.name == "level" then
      match LevelDirective(d.args)
      case Err(e) => Err(e)
      case Ok(m) => Ok(s.(levels := m))
    else if d.name == "rate" then RateDirective(s, d.args, conv)
    else Err(UnknownProperty(d.name))
  }

  /** The directives of a block, applied in order until one fails. */
  function ApplyDirectives(s: K.Settings, dirs: Stanza, conv: Strconv): Result<K.Settings, Error>
    decreases |dirs|
  {
    if dirs == [] then Ok(s)
    else
      match ApplyDirective(s, dirs[0], conv)
      case Err(e) => Err(e)
      case Ok(s1) => ApplyDirectives(s1, dirs[1..], conv)
  }

  /** `parseStanza`, as a function of the stanza's directives. */
  function StanzaSettings(dirs: Stanza, conv: Strconv): Result<K.Settings, Error> {
    ApplyDirectives(Defaults, dirs, conv)
  }

  /**
   * `level` needs a name; with valid names it replaces the mask by exactly the
   * named levels, whatever was enabled before, and changes nothing else.
   */
  lemma LevelDirectiveReplacesMask(s: K.Settings, args: seq<string>, conv: Strconv)
    ensures |args| == 0 ==> ApplyDirective(s, Directive("level", args), conv) == Err(WrongArgCount)
    ensures ApplyDirective(s, Directive("level", args), conv).Ok? ==>
      var s' := ApplyDirective(s, Directive("level", args), conv).value;
      && s'.(levels := s.levels) == s
      && s'.levels < 32
      && forall l :: Allowed(s'.levels, l) <==> Named(args, l)
  {
    if ApplyDirective(s, Directive("level", args), conv).Ok? {
      LevelMaskNamesExactly(args, LevelMask(args).value);
    }
  }

  /** Any directive other than `level` and `rate` is an unknown property. */
  lemma UnknownDirectiveRejected(s: K.Settings, d: Directive, conv: Strconv)
    requires d.name != "level" && d.name != "rate"
    ensures ApplyDirective(s, d, conv) == Err(UnknownProperty(d.name))
  {
  }

  /** A block that holds an unknown directive anywhere fails. */
  lemma {:induction false} UnknownDirectiveFailsBlock(s: K.Settings, dirs: Stanza, conv: Strconv, k: nat)
    requires k < |dirs| && dirs[k].name != "level" && dirs[k].name != "rate"
    ensures ApplyDirectives(s, dirs, conv).Err?
    decreases k
  {
    if k > 0 && ApplyDirective(s, dirs[0], conv).Ok? {
      UnknownDirectiveFailsBlock(ApplyDirective(s, dirs[0], conv).value, dirs[1..], conv, k - 1);
    }
  }

  /** Every directive that succeeds keeps the settings in range. */
  lemma ApplyDirectiveKeepsRange(s: K.Settings, d: Directive, conv: Strconv)
    requires InRange(s) && ApplyDirective(s, d, conv).Ok?
    ensures InRange(ApplyDirective(s, d, conv).value)
  {
    if d.name == "level" {
      LevelMaskNamesExactly(d.args, LevelMask(d.args).value);
    }
  }

  lemma {:induction false} ApplyDirectivesKeepsRange(s: K.Settings, dirs: Stanza, conv: Strconv)
    requires InRange(s) && ApplyDirectives(s, dirs, conv).Ok?
    ensures InRange(ApplyDirectives(s, dirs, conv).value)
    decreases |dirs|
  {
    if dirs != [] {
      ApplyDirectiveKeepsRange(s, dirs[0], conv);
      ApplyDirectivesKeepsRange(ApplyDirective(s, dirs[0], conv).value, dirs[1..], conv);
    }
  }

  /** Every stanza that parses gives settings within their ranges. */
  lemma StanzaSettingsInRange(dirs: Stanza, conv: Strconv)
    requires StanzaSettings(dirs, conv).Ok?
    ensures InRange(StanzaSettings(dirs, conv).value)
  {
    EmptyStanzaGivesDefaults(conv);
    ApplyDirectivesKeepsRange(Defaults, dirs, conv);
  }

  /** The stanzas of setup_test.go, with number parsers that read their numerals as Go does. */
  lemma SetupTestExamples(conv: Strconv)
    requires conv.parseFloat("0.01") == Some(Finite(0.01)) && conv.parseFloat("10") == Some(Finite(10.0))
    requires conv.atoi("16") == Some(16) && conv.atoi("2048") == Some(2048)
    requires conv.atoi("1024") == Some(1024) && conv.atoi("256") == Some(256) && conv.atoi("65536") == Some(65536)
    ensures StanzaSettings([Directive("level", ["debug", "error"]), Directive("rate", ["0.01", "16", "2048"])], conv)
      == Ok(K.Settings(Bit(Debug) | Bit(Error), 0.01, 16, 2048))
    ensures StanzaSettings([Directive("level", ["err"])], conv) == Err(InvalidLevel("err"))
    ensures StanzaSettings([Directive("rate", [])], conv) == Err(WrongArgCount)
    ensures StanzaSettings([Directive("rate", ["10"])], conv) == Err(QpsOutOfRange(Finite(10.0)))
    ensures StanzaSettings([Directive("rate", ["0.01", "1024"])], conv) == Err(BurstOutOfRange(1024))
    ensures StanzaSettings([Directive("rate", ["0.01", "256", "65536"])], conv) == Err(CacheSizeOutOfRange(65536))
  {
    LevelArgExamples();
    assert GoText.ToLower("error") == "error";
    assert GoText.ToLower("err") == "err";
    var names := ["debug", "error"];
    assert names[..1] == ["debug"] && names[..1][..0] == [];
    assert LevelMask(["debug"]) == Ok(0 | Bit(Debug));
    assert ["err"][..0] == [];
  }

  // ---------------------------------------------------------------- parse

  /** `parse`: no stanza gives no settings; a second stanza is refused. */
  function ParseSettings(stanzas: seq<Stanza>, conv: Strconv): Result<Option<K.Settings>, Error> {
    if |stanzas| == 0 then Ok(None)
    else
      match StanzaSettings(stanzas[0], conv)
      case Err(e) => Err(e)
      case Ok(s) => if |stanzas| > 1 then Err(DuplicateStanza) else Ok(Some(s))
  }

  /** At most one stanza is accepted, and what it gives is in range. */
  lemma ParseAcceptsAtMostOneStanza(stanzas: seq<Stanza>, conv: Strconv)
    ensures |stanzas| == 0 ==> ParseSettings(stanzas, conv) == Ok(None)
    ensures |stanzas| >= 2 ==> ParseSettings(stanzas, conv).Err?
    ensures |stanzas| >= 2 && StanzaSettings(stanzas[0], conv).Ok? ==> ParseSettings(stanzas, conv) == Err(DuplicateStanza)
    ensures ParseSettings(stanzas, conv).Ok? && ParseSettings(stanzas, conv).value.Some? ==>
      |stanzas| == 1 && InRange(ParseSettings(stanzas, conv).value.value)
  {
    if |stanzas| == 1 && StanzaSettings(stanzas[0], conv).Ok? {
      StanzaSettingsInRange(stanzas[0], conv);
    }
  }

  /** The `level` arm of `parseStanza`: the mask is accumulated name by name. */
  method ReadLevels(levelsArgs: seq<string>) returns (levels: Mask, err: Option<Error>)
    ensures LevelDirective(levelsArgs) == if err == None then Ok(levels) else Err(err.value)
  {
    if |levelsArgs| == 0 {
      return 0, Some(WrongArgCount);
    }
    levels := 0;
    var j := 0;
    while j < |levelsArgs|
      invariant 0 <= j <= |levelsArgs|
      invariant LevelMask(levelsArgs[..j]) == Ok(levels)
    {
      LevelMaskStep(levelsArgs, j);
      var level := LevelFromString(GoText.ToLower(levelsArgs[j]));
      if level.None? {
        LevelMaskErrorPersists(levelsArgs, j + 1);
        return 0, Some(InvalidLevel(GoText.ToLower(levelsArgs[j])));
      }
      BitIsShift(level.value);
      var bit: Mask := 1 << level.value.Ordinal();
      assert bit == Bit(level.value);
      levels := levels | bit;
      j := j + 1;
    }
    assert levelsArgs[..j] == levelsArgs;
    err := None;
  }

  /**
   * The `rate` arm of `parseStanza`: each present argument is checked and stored
   * before the next is looked at, counting the arguments down.
   */
  method ApplyRate(ke: K.K8sEvent, args: seq<string>, conv: Strconv) returns (err: Option<Error>)
    modifies ke`qps, ke`burst, ke`cacheSize
    ensures RateDirective(old(ke.CurrentSettings()), args, conv).Ok? ==>
      err == None && ke.CurrentSettings() == RateDirective(old(ke.CurrentSettings()), args, conv).value
    ensures RateDirective(old(ke.CurrentSettings()), args, conv).Err? ==>
      err == Some(RateDirective(old(ke.CurrentSettings()), args, conv).error)
  {
    var argsLen := |args|;
    if argsLen == 0 || argsLen > 3 {
      return Some(WrongArgCount);
    }
    var qps := conv.parseFloat(args[0]);
    if qps.None? {
      return Some(BadFloat(args[0]));
    }
    if !QpsInRange(qps.value) {
      return Some(QpsOutOfRange(qps.value));
    }
    ke.qps := qps.value.value;
    argsLen := argsLen - 1;
    if argsLen != 0 {
      var burst := conv.atoi(args[1]);
      if burst.None? {
        return Some(BadInt(args[1]));
      }
      if burst.value < MinRateBurst || burst.value > MaxRateBurst {
        return Some(BurstOutOfRange(burst.value));
      }
      ke.burst := burst.value;
      argsLen := argsLen - 1;
      if argsLen != 0 {
        var cacheSize := conv.atoi(args[2]);
        if cacheSize.None? {
          return Some(BadInt(args[2]));
        }
        if cacheSize.value < MinRateCacheSize || cacheSize.value > MaxRateCacheSize {
          return Some(CacheSizeOutOfRange(cacheSize.value));
        }
        ke.cacheSize := cacheSize.value;
      }
    }
    err := None;
  }

  /** `parseStanza`: defaults, then each directive of the block updates the settings in place. */
  method ParseStanza(dirs: Stanza, conv: Strconv) returns (ke: K.K8sEvent?, err: Option<Error>)
    ensures StanzaSettings(dirs, conv).Ok? ==>
      (&& err == None && ke != null && fresh(ke) && ke.Unstarted()
       && ke.CurrentSettings() == StanzaSettings(dirs, conv).value)
    ensures StanzaSettings(dirs, conv).Err? ==> ke == null && err == Some(StanzaSettings(dirs, conv).error)
  {
    ke := new K.K8sEvent(Defaults);
    var i := 0;
    while i < |dirs|
      invariant 0 <= i <= |dirs|
      invariant fresh(ke) && ke.Unstarted()
      invariant ApplyDirectives(ke.CurrentSettings(), dirs[i..], conv) == StanzaSettings(dirs, conv)
    {
      var d := dirs[i];
      assert dirs[i..][0] == d && dirs[i..][1..] == dirs[i + 1..];
      if d.name == "level" {
        var levels, e := ReadLevels(d.args);
        if e.Some? {
          return null, e;
        }
        ke.levels := levels;
      } else if d.name == "rate" {
        var e := ApplyRate(ke, d.args, conv);
        if e.Some? {
          return null, e;
        }
      } else {
        return null, Some(UnknownProperty(d.name));
      }
      i := i + 1;
    }
    err := None;
  }

  /** `parse`: the first stanza is parsed; meeting a second one is an error. */
  method Parse(stanzas: seq<Stanza>, conv: Strconv) returns (ke: K.K8sEvent?, err: Option<Error>)
    ensures ParseSettings(stanzas, conv) == Ok(None) ==> ke == null && err == None
    ensures ParseSettings(stanzas, conv).Ok? && ParseSettings(stanzas, conv).value.Some? ==>
      (&& err == None && ke != null && fresh(ke) && ke.Unstarted()
       && ke.CurrentSettings() == ParseSettings(stanzas, conv).value.value)
    ensures ParseSettings(stanzas, conv).Err? ==> ke == null && err == Some(ParseSettings(stanzas, conv).error)
  {
    ke, err := null, None;
    var i := 0;
    var next := 0;
    while next < |stanzas|
      invariant 0 <= next <= |stanzas| && next <= 1 && i == next
      invariant next == 0 ==> ke == null && err == None
      invariant next == 1 ==>
        (&& StanzaSettings(stanzas[0], conv).Ok? && err == None
         && ke != null && fresh(ke) && ke.Unstarted()
         && ke.CurrentSettings() == StanzaSettings(stanzas[0], conv).value)
    {
      if i > 0 {
        return null, Some(DuplicateStanza);
      }
      i := i + 1;
      ke, err := ParseStanza(stanzas[next], conv);
      if err.Some? {
        return ke, err;
      }
      next := next + 1;
    }
  }
}
