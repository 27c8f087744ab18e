/**
 * GameConfig (GameConfig.h, GameConfig.cpp): the game's settings with their
 * defaults, the overlay of the values read from the INI map, and the console
 * line width derived from them. `std::stoi` and `std::stof` are parameters:
 * None stands for the exception they throw, which leaves loadFromConfig with
 * the fields already assigned before it.
 */
module Config {
  import opened Wrappers
  import opened CppInt

  /** The fields of struct GameConfig, in declaration order. */
  datatype Settings = Settings(
    screenWidth: int, screenHeight: int,
    playerSpeed: real, friction: real, maxSpeed: real, spritePath: string,
    showFPS: bool, consoleEnabled: bool,
    consoleFontSize: int, consoleWidth: int, consoleHeight: int)

  /** The in-class initialisers of GameConfig.h. */
  const DEFAULTS: Settings := Settings(
    800, 450,
    200.0, 10.0, 200.0, "resources/test/testsprite.png",
    false, false,
    14, 450, 280)

  /** The eleven keys loadFromConfig reads, one per field. */
  datatype Key =
    | WindowWidth | WindowHeight
    | PlayerSpeed | PlayerFriction | PlayerMaxSpeed
    | ShowFps | ShowConsole
    | ConsoleFontSize | ConsoleWidth | ConsoleHeight
    | PlayerSprite

  /** The INI key naming each setting. */
  function Name(k: Key): string {
    match k
    case WindowWidth => "window_width"
    case WindowHeight => "window_height"
    case PlayerSpeed => "player_speed"
    case PlayerFriction => "player_friction"
    case PlayerMaxSpeed => "player_max_speed"
    case ShowFps => "show_fps"
    case ShowConsole => "show_console"
    case ConsoleFontSize => "console_font_size"
    case ConsoleWidth => "console_width"
    case ConsoleHeight => "console_height"
    case PlayerSprite => "player_sprite"
  }

  /** A setting's value, whatever its C++ type. */
  datatype Value = IntV(i: int) | RealV(r: real) | BoolV(b: bool) | TextV(s: string)

  /** Both values have the same C++ type. */
  predicate SameType(a: Value, b: Value) {
    (a.IntV? && b.IntV?) || (a.RealV? && b.RealV?) || (a.BoolV? && b.BoolV?) || (a.TextV? && b.TextV?)
  }

  /** The field of s that key k sets. */
  function Get(s: Settings, k: Key): Value {
    match k
    case WindowWidth => IntV(s.screenWidth)
    case WindowHeight => IntV(s.screenHeight)
    case PlayerSpeed => RealV(s.playerSpeed)
    case PlayerFriction => RealV(s.friction)
    case PlayerMaxSpeed => RealV(s.maxSpeed)
    case ShowFps => BoolV(s.showFPS)
    case ShowConsole => BoolV(s.consoleEnabled)
    case ConsoleFontSize => IntV(s.consoleFontSize)
    case ConsoleWidth => IntV(s.consoleWidth)
    case ConsoleHeight => IntV(s.consoleHeight)
    case PlayerSprite => TextV(s.spritePath)
  }

  /** The only texts a boolean setting accepts as true; the match is exact and case-sensitive. */
  predicate IsTrueText(v: string) {
    v == "true" || v == "1" || v == "yes"
  }

  /**
   * What the text v of key k denotes: an integer through stoi, a float
   * through stof, a boolean by exact match, the sprite path verbatim.
   * None when the conversion throws.
   */
  function Decode(k: Key, v: string, stoi: string -> Option<int>, stof: string -> Option<real>): (r: Option<Value>)
    // a decoded value has the type of the key's field
    ensures r.Some? ==> SameType(r.value, Get(DEFAULTS, k))
    // only the numeric conversions can throw
    ensures r.None? <==> (Get(DEFAULTS, k).IntV? && stoi(v).None?) || (Get(DEFAULTS, k).RealV? && stof(v).None?)
    ensures Get(DEFAULTS, k).IntV? && stoi(v).Some? ==> r == Some(IntV(stoi(v).value))
    ensures Get(DEFAULTS, k).RealV? && stof(v).Some? ==> r == Some(RealV(stof(v).value))
    // a boolean is true exactly for "true", "1" and "yes"; the sprite path is taken verbatim
    ensures Get(DEFAULTS, k).BoolV? ==> r == Some(BoolV(IsTrueText(v)))
    ensures Get(DEFAULTS, k).TextV? ==> r == Some(TextV(v))
  {
    match k
    case WindowWidth | WindowHeight | ConsoleFontSize | ConsoleWidth | ConsoleHeight =>
      if stoi(v).Some? then Some(IntV(stoi(v).value)) else None
    case PlayerSpeed | PlayerFriction | PlayerMaxSpeed =>
      if stof(v).Some? then Some(RealV(stof(v).value)) else None
    case ShowFps | ShowConsole => Some(BoolV(IsTrueText(v)))
    case PlayerSprite => Some(TextV(v))
  }

  /** The boolean match is case-sensitive: "True" and "YES" are false. */
  lemma BooleanTextIsExact()
    ensures Decode(ShowFps, "True", x => None, x => None) == Some(BoolV(false))
    ensures Decode(ShowConsole, "YES", x => None, x => None) == Some(BoolV(false))
    ensures Decode(ShowConsole, "yes", x => None, x => None) == Some(BoolV(true))
  {
  }

  /**
   * One `if (config.count(key)) field = convert(config.at(key));` of
   * loadFromConfig for a present key with text v: the field of k takes the
   * decoded value and every other field is kept; None when the conversion
   * throws.
   */
  function Assign(s: Settings, k: Key, v: string, stoi: string -> Option<int>, stof: string -> Option<real>)
    : (r: Option<Settings>)
    ensures r.Some? <==> Decode(k, v, stoi, stof).Some?
    ensures r.Some? ==> Decode(k, v, stoi, stof) == Some(Get(r.value, k))
  {
    match k
    case WindowWidth => if stoi(v).Some? then Some(s.(screenWidth := stoi(v).value)) else None
    case WindowHeight => if stoi(v).Some? then Some(s.(screenHeight := stoi(v).value)) else None
    case PlayerSpeed => if stof(v).Some? then Some(s.(playerSpeed := stof(v).value)) else None
    case PlayerFriction => if stof(v).Some? then Some(s.(friction := stof(v).value)) else None
    case PlayerMaxSpeed => if stof(v).Some? then Some(s.(maxSpeed := stof(v).value)) else None
    case ShowFps => Some(s.(showFPS := IsTrueText(v)))
    case ShowConsole => Some(s.(consoleEnabled := IsTrueText(v)))
    case ConsoleFontSize => if stoi(v).Some? then Some(s.(consoleFontSize := stoi(v).value)) else None
    case ConsoleWidth => if stoi(v).Some? then Some(s.(consoleWidth := stoi(v).value)) else None
    case ConsoleHeight => if stoi(v).Some? then Some(s.(consoleHeight := stoi(v).value)) else None
    case PlayerSprite => Some(s.(spritePath := v))
  }

  /** The settings so far and whether a conversion has thrown. */
  datatype Loading = Loading(settings: Settings, thrown: bool)

  /**
   * One statement of loadFromConfig: nothing happens once an exception is
   * in flight or when the key is absent; otherwise the key is assigned or
   * the exception starts.
   */
  function Step(r: Loading, k: Key, config: map<string, string>,
                stoi: string -> Option<int>, stof: string -> Option<real>): (r': Loading)
    ensures r.thrown ==> r' == r
    ensures r'.thrown ==> r'.settings == r.settings
  {
    if r.thrown || Name(k) !in config then r
    else match Assign(r.settings, k, config[Name(k)], stoi, stof)
      case None => Loading(r.settings, true)
      case Some(s') => Loading(s', false)
  }

  /**
   * A statement is skipped once an exception is in flight or when its key
   * is absent; otherwise it throws exactly when the text fails to convert,
   * and else its field holds the decoded text.
   */
  lemma StepOutcome(r: Loading, k: Key, config: map<string, string>,
                    stoi: string -> Option<int>, stof: string -> Option<real>)
    ensures r.thrown || Name(k) !in config ==> Step(r, k, config, stoi, stof) == r
    ensures !r.thrown && Name(k) in config ==>
      (Step(r, k, config, stoi, stof).thrown <==> Decode(k, config[Name(k)], stoi, stof).None?)
    ensures !Step(r, k, config, stoi, stof).thrown && !r.thrown && Name(k) in config ==>
      Decode(k, config[Name(k)], stoi, stof) == Some(Get(Step(r, k, config, stoi, stof).settings, k))
  {
  }

  /** Assigning one key keeps every other field. */
  lemma AssignFrame(s: Settings, k: Key, v: string, stoi: string -> Option<int>, stof: string -> Option<real>, other: Key)
    requires other != k && Assign(s, k, v, stoi, stof).Some?
    ensures Get(Assign(s, k, v, stoi, stof).value, other) == Get(s, other)
  {
  }

  /** One statement touches only the field of its own key. */
  lemma StepFrame(r: Loading, k: Key, config: map<string, string>,
                  stoi: string -> Option<int>, stof: string -> Option<real>, other: Key)
    requires other != k
    ensures Get(Step(r, k, config, stoi, stof).settings, other) == Get(r.settings, other)
  {
    if !r.thrown && Name(k) in config && Assign(r.settings, k, config[Name(k)], stoi, stof).Some? {
      AssignFrame(r.settings, k, config[Name(k)], stoi, stof, other);
    }
  }

  /** The keys in the order loadFromConfig tests them. */
  const KEYS: seq<Key> := [
    WindowWidth, WindowHeight,
    PlayerSpeed, PlayerFriction, PlayerMaxSpeed,
    ShowFps, ShowConsole,
    ConsoleFontSize, ConsoleWidth, ConsoleHeight,
    PlayerSprite]

  /** The position of k in KEYS: every key is tested, and exactly once. */
  function Index(k: Key): (i: nat)
    ensures i < |KEYS| && KEYS[i] == k
  {
    match k
    case WindowWidth => 0
    case WindowHeight => 1
    case PlayerSpeed => 2
    case PlayerFriction => 3
    case PlayerMaxSpeed => 4
    case ShowFps => 5
    case ShowConsole => 6
    case ConsoleFontSize => 7
    case ConsoleWidth => 8
    case ConsoleHeight => 9
    case PlayerSprite => 10
  }

  predicate Distinct(keys: seq<Key>) {
    forall i, j :: 0 <= i < j < |keys| ==> keys[i] != keys[j]
  }

  /** No key is tested twice. */
  lemma KeysDistinct()
    ensures Distinct(KEYS)
  {
    forall i, j | 0 <= i < j < |KEYS|
      ensures KEYS[i] != KEYS[j]
    {
      assert i == 0 || i == 1 || i == 2 || i == 3 || i == 4 || i == 5 || i == 6 || i == 7 || i == 8 || i == 9;
      assert Index(KEYS[i]) == i;
    }
  }

  /** The statements for keys, in order, from state r. */
  function LoadKeys(r: Loading, keys: seq<Key>, config: map<string, string>,
                    stoi: string -> Option<int>, stof: string -> Option<real>): Loading
    decreases |keys|
  {
    if keys == [] then r
    else LoadKeys(Step(r, keys[0], config, stoi, stof), keys[1..], config, stoi, stof)
  }

  /** The statements from position j on, from state r. */
  function LoadFrom(r: Loading, j: nat, config: map<string, string>,
                    stoi: string -> Option<int>, stof: string -> Option<real>): Loading
    decreases |KEYS| - j
  {
    if j >= |KEYS| then r
    else LoadFrom(Step(r, KEYS[j], config, stoi, stof), j + 1, config, stoi, stof)
  }

  /** Indexing into the key list and walking its suffix agree. */
  lemma {:induction false} LoadFromKeys(r: Loading, j: nat, config: map<string, string>,
                                        stoi: string -> Option<int>, stof: string -> Option<real>)
    requires j <= |KEYS|
    ensures LoadFrom(r, j, config, stoi, stof) == LoadKeys(r, KEYS[j..], config, stoi, stof)
    decreases |KEYS| - j
  {
    if j < |KEYS| {
      assert KEYS[j..][1..] == KEYS[j + 1..];
      LoadFromKeys(Step(r, KEYS[j], config, stoi, stof), j + 1, config, stoi, stof);
    }
  }

  /** loadFromConfig from settings s. */
  function Load(s: Settings, config: map<string, string>,
                stoi: string -> Option<int>, stof: string -> Option<real>): (r: Loading)
    ensures r == LoadKeys(Loading(s, false), KEYS, config, stoi, stof)
  {
    LoadFromKeys(Loading(s, false), 0, config, stoi, stof);
    assert KEYS[0..] == KEYS;
    LoadFrom(Loading(s, false), 0, config, stoi, stof)
  }

  /** Once an exception is in flight, the remaining statements change nothing. */
  lemma {:induction false} ThrownStays(r: Loading, keys: seq<Key>, config: map<string, string>,
                                       stoi: string -> Option<int>, stof: string -> Option<real>)
    requires r.thrown
    ensures LoadKeys(r, keys, config, stoi, stof) == r
    decreases |keys|
  {
    if keys != [] {
      ThrownStays(r, keys[1..], config, stoi, stof);
    }
  }

  /**
   * Without an exception, the field of a key tested once holds its decoded
   * text when the key is present, and every other field is kept.
   */
  lemma {:induction false} LoadKeysField(r: Loading, keys: seq<Key>, config: map<string, string>,
                                         stoi: string -> Option<int>, stof: string -> Option<real>, k: Key)
    requires Distinct(keys) && !LoadKeys(r, keys, config, stoi, stof).thrown
    ensures !r.thrown
    ensures k in keys && Name(k) in config ==>
      Decode(k, config[Name(k)], stoi, stof) == Some(Get(LoadKeys(r, keys, config, stoi, stof).settings, k))
    ensures k !in keys || Name(k) !in config ==>
      Get(LoadKeys(r, keys, config, stoi, stof).settings, k) == Get(r.settings, k)
    decreases |keys|
  {
    if keys != [] {
      var r1 := Step(r, keys[0], config, stoi, stof);
      var rest := keys[1..];
      assert Distinct(rest) by {
        forall i, j | 0 <= i < j < |rest|
          ensures rest[i] != rest[j]
        {
          assert rest[i] == keys[i + 1] && rest[j] == keys[j + 1];
        }
      }
      LoadKeysField(r1, rest, config, stoi, stof, k);
      StepOutcome(r, keys[0], config, stoi, stof);
      assert k in keys <==> k == keys[0] || k in rest;
      if k != keys[0] {
        StepFrame(r, keys[0], config, stoi, stof, k);
      } else {
        assert k !in rest by {
          forall i | 0 <= i < |rest|
            ensures rest[i] != k
          {
            assert rest[i] == keys[i + 1];
          }
        }
      }
    }
  }

  /**
   * When no conversion throws, a present key's field holds its decoded
   * text and an absent key's field keeps its value from before.
   */
  lemma LoadField(s: Settings, config: map<string, string>,
                  stoi: string -> Option<int>, stof: string -> Option<real>, k: Key)
    requires !Load(s, config, stoi, stof).thrown
    ensures Name(k) in config ==> Decode(k, config[Name(k)], stoi, stof) == Some(Get(Load(s, config, stoi, stof).settings, k))
    ensures Name(k) !in config ==> Get(Load(s, config, stoi, stof).settings, k) == Get(s, k)
  {
    KeysDistinct();
    assert k in KEYS by {
      assert KEYS[Index(k)] == k;
    }
    LoadKeysField(Loading(s, false), KEYS, config, stoi, stof, k);
  }

  /** The statements throw exactly when some tested, present key's text fails to convert. */
  lemma {:induction false} LoadKeysThrows(r: Loading, keys: seq<Key>, config: map<string, string>,
                                          stoi: string -> Option<int>, stof: string -> Option<real>)
    requires !r.thrown
    ensures LoadKeys(r, keys, config, stoi, stof).thrown <==>
      exists k :: k in keys && Name(k) in config && Decode(k, config[Name(k)], stoi, stof).None?
    decreases |keys|
  {
    if keys != [] {
      var k0 := keys[0];
      var r1 := Step(r, k0, config, stoi, stof);
      var rest := keys[1..];
      StepOutcome(r, k0, config, stoi, stof);
      assert forall k :: k in keys <==> k == k0 || k in rest;
      if r1.thrown {
        ThrownStays(r1, rest, config, stoi, stof);
        assert k0 in keys && Name(k0) in config && Decode(k0, config[Name(k0)], stoi, stof).None?;
      } else {
        LoadKeysThrows(r1, rest, config, stoi, stof);
      }
    }
  }

  /** loadFromConfig throws exactly when some present key's text fails to convert. */
  lemma LoadThrows(s: Settings, config: map<string, string>,
                   stoi: string -> Option<int>, stof: string -> Option<real>)
    ensures Load(s, config, stoi, stof).thrown <==>
      exists k :: Name(k) in config && Decode(k, config[Name(k)], stoi, stof).None?
  {
    LoadKeysThrows(Loading(s, false), KEYS, config, stoi, stof);
    forall k
      ensures k in KEYS
    {
      assert KEYS[Index(k)] == k;
    }
  }

  /** Statements over maps that agree on the tested keys behave alike. */
  lemma {:induction false} LoadKeysAgree(r: Loading, keys: seq<Key>, c1: map<string, string>, c2: map<string, string>,
                                         stoi: string -> Option<int>, stof: string -> Option<real>)
    requires forall k :: (Name(k) in c1 <==> Name(k) in c2) && (Name(k) in c1 ==> c1[Name(k)] == c2[Name(k)])
    ensures LoadKeys(r, keys, c1, stoi, stof) == LoadKeys(r, keys, c2, stoi, stof)
    decreases |keys|
  {
    if keys != [] {
      var k0 := keys[0];
      assert (Name(k0) in c1 <==> Name(k0) in c2) && (Name(k0) in c1 ==> c1[Name(k0)] == c2[Name(k0)]);
      assert Step(r, k0, c1, stoi, stof) == Step(r, k0, c2, stoi, stof);
      LoadKeysAgree(Step(r, k0, c1, stoi, stof), keys[1..], c1, c2, stoi, stof);
    }
  }

  /** Only the eleven keys are read: maps that agree on them load alike. */
  lemma OnlyListedKeys(s: Settings, c1: map<string, string>, c2: map<string, string>,
                       stoi: string -> Option<int>, stof: string -> Option<real>)
    requires forall k :: (Name(k) in c1 <==> Name(k) in c2) && (Name(k) in c1 ==> c1[Name(k)] == c2[Name(k)])
    ensures Load(s, c1, stoi, stof) == Load(s, c2, stoi, stof)
  {
    LoadKeysAgree(Loading(s, false), KEYS, c1, c2, stoi, stof);
  }

  /** A key outside the eleven has no effect, whatever its text. */
  lemma UnknownKeyIgnored(s: Settings, config: map<string, string>, x: string, v: string,
                          stoi: string -> Option<int>, stof: string -> Option<real>)
    requires forall k :: Name(k) != x
    ensures Load(s, config[x := v], stoi, stof) == Load(s, config, stoi, stof)
  {
    OnlyListedKeys(s, config[x := v], config, stoi, stof);
  }

  /** An empty map, as parseINI gives for a missing file, leaves every setting as it was. */
  lemma EmptyConfigKeepsSettings(s: Settings, stoi: string -> Option<int>, stof: string -> Option<real>)
    ensures Load(s, map[], stoi, stof) == Loading(s, false)
  {
    LoadThrows(s, map[], stoi, stof);
    forall k
      ensures Get(Load(s, map[], stoi, stof).settings, k) == Get(s, k)
    {
      LoadField(s, map[], stoi, stof, k);
    }
    GetDetermines(Load(s, map[], stoi, stof).settings, s);
  }

  /** Settings that agree on every key are equal. */
  lemma GetDetermines(a: Settings, b: Settings)
    requires forall k :: Get(a, k) == Get(b, k)
    ensures a == b
  {
    assert Get(a, WindowWidth) == Get(b, WindowWidth) && Get(a, WindowHeight) == Get(b, WindowHeight);
    assert Get(a, PlayerSpeed) == Get(b, PlayerSpeed) && Get(a, PlayerFriction) == Get(b, PlayerFriction);
    assert Get(a, PlayerMaxSpeed) == Get(b, PlayerMaxSpeed) && Get(a, PlayerSprite) == Get(b, PlayerSprite);
    assert Get(a, ShowFps) == Get(b, ShowFps) && Get(a, ShowConsole) == Get(b, ShowConsole);
    assert Get(a, ConsoleFontSize) == Get(b, ConsoleFontSize) && Get(a, ConsoleWidth) == Get(b, ConsoleWidth);
    assert Get(a, ConsoleHeight) == Get(b, ConsoleHeight);
  }

  /**
   * The width of a console line in pixels after the side padding:
   * consoleWidth less padding twice, where padding is half the font size
   * rounded toward zero.
   */
  function TextWidth(s: Settings): (w: int)
    ensures s.consoleFontSize >= 0 ==>
      s.consoleWidth - s.consoleFontSize <= w <= s.consoleWidth - s.consoleFontSize + 1
    ensures w == s.consoleWidth - s.consoleFontSize
      + (if s.consoleFontSize % 2 == 0 then 0 else if s.consoleFontSize > 0 then 1 else -1)
  {
    s.consoleWidth - Quot(s.consoleFontSize, 2) * 2
  }

  /**
   * The estimated character width `static_cast<int>(consoleFontSize * 0.6f)`:
   * three fifths of the font size, rounded toward zero.
   */
  function CharWidth(s: Settings): (w: int)
    ensures s.consoleFontSize >= 0 ==> 0 <= w && 5 * w <= 3 * s.consoleFontSize < 5 * (w + 1)
    ensures s.consoleFontSize < 0 ==> w <= 0 && 5 * (w - 1) < 3 * s.consoleFontSize <= 5 * w
  {
    var x := s.consoleFontSize as real * 0.6;
    var w := TruncReal(x);
    assert 5.0 * x == (3 * s.consoleFontSize) as real;
    w
  }

  /**
   * calculateMaxDisplayChars: the text width divided by the estimated
   * character width, rounded toward zero; for a positive character width and
   * a non-negative text width, the count of whole characters that fit. A
   * zero character width (font sizes -1 to 1) is a division by zero in the
   * source and is excluded.
   */
  function MaxDisplayChars(s: Settings): (n: int)
    requires CharWidth(s) != 0
    ensures CharWidth(s) > 0 && TextWidth(s) >= 0 ==>
      n >= 0 && n * CharWidth(s) <= TextWidth(s) < (n + 1) * CharWidth(s)
  {
    QuotFloor(TextWidth(s), CharWidth(s));
    Quot(TextWidth(s), CharWidth(s))
  }

  /** With the defaults (width 450, font size 14) a console line holds 54 characters. */
  lemma DefaultMaxDisplayChars()
    ensures CharWidth(DEFAULTS) == 8 && TextWidth(DEFAULTS) == 436
    ensures MaxDisplayChars(DEFAULTS) == 54
  {
    assert TruncReal(14 as real * 0.6) == 8;
  }

  /** struct GameConfig: the settings, overwritten in place by loadFromConfig. */
  class GameConfig {
    var settings: Settings

    /** Every field starts at its in-class default. */
    constructor ()
      ensures settings == DEFAULTS
    {
      settings := DEFAULTS;
    }

    /**
     * One `if (config.count(key)) field = convert(config.at(key));`
     * statement of loadFromConfig (the shape GameConfig.h declares as
     * setConfigValue and setBoolConfig): when the map has the key, convert
     * its text and overwrite the key's field; report a failing conversion.
     */
    method LoadKey(k: Key, config: map<string, string>,
                 stoi: string -> Option<int>, stof: string -> Option<real>)
      returns (thrown: bool)
      modifies this
      ensures Loading(settings, thrown) == Step(Loading(old(settings), false), k, config, stoi, stof)
    {
      thrown := false;
      if Name(k) in config {
        var updated := Assign(settings, k, config[Name(k)], stoi, stof);
        if updated.None? {
          thrown := true;
          return;
        }
        settings := updated.value;
      }
    }

    /**
     * loadFromConfig: the eleven statements in order; a failing conversion
     * throws out of it, leaving the fields assigned so far.
     */
    method LoadFromConfig(config: map<string, string>,
                          stoi: string -> Option<int>, stof: string -> Option<real>)
      returns (thrown: bool)
      modifies this
      ensures Loading(settings, thrown) == Load(old(settings), config, stoi, stof)
    {
      ghost var goal := Load(settings, config, stoi, stof);
      ghost var before := settings;
      thrown := LoadKey(WindowWidth, config, stoi, stof);
      Carry(goal, before, Loading(settings, thrown), 0, config, stoi, stof);
      if thrown { return; }
      before := settings;
      thrown := LoadKey(WindowHeight, config, stoi, stof);
      Carry(goal, before, Loading(settings, thrown), 1, config, stoi, stof);
      if thrown { return; }
      before := settings;
      thrown := LoadKey(PlayerSpeed, config, stoi, stof);
      Carry(goal, before, Loading(settings, thrown), 2, config, stoi, stof);
      if thrown { return; }
      before := settings;
      thrown := LoadKey(PlayerFriction, config, stoi, stof);
      Carry(goal, before, Loading(settings, thrown), 3, config, stoi, stof);
      if thrown { return; }
      before := settings;
      thrown := LoadKey(PlayerMaxSpeed, config, stoi, stof);
      Carry(goal, before, Loading(settings, thrown), 4, config, stoi, stof);
      if thrown { return; }
      before := settings;
      thrown := LoadKey(ShowFps, config, stoi, stof);
      Carry(goal, before, Loading(settings, thrown), 5, config, stoi, stof);
      if thrown { return; }
      before := settings;
      thrown := LoadKey(ShowConsole, config, stoi, stof);
      Carry(goal, before, Loading(settings, thrown), 6, config, stoi, stof);
      if thrown { return; }
      before := settings;
      thrown := LoadKey(ConsoleFontSize, config, stoi, stof);
      Carry(goal, before, Loading(settings, thrown), 7, config, stoi, stof);
      if thrown { return; }
      before := settings;
      thrown := LoadKey(ConsoleWidth, config, stoi, stof);
      Carry(goal, before, Loading(settings, thrown), 8, config, stoi, stof);
      if thrown { return; }
      before := settings;
      thrown := LoadKey(ConsoleHeight, config, stoi, stof);
      Carry(goal, before, Loading(settings, thrown), 9, config, stoi, stof);
      if thrown { return; }
      before := settings;
      thrown := LoadKey(PlayerSprite, config, stoi, stof);
      Carry(goal, before, Loading(settings, thrown), 10, config, stoi, stof);
      if thrown { return; }
    }
  }

  /**
   * Running the statements from position j from settings s0 gives goal, and
   * statement j from s0 gives r1: either r1 has thrown and is the outcome,
   * or the statements after j from r1's settings give goal.
   */
  lemma Carry(goal: Loading, s0: Settings, r1: Loading, j: nat, config: map<string, string>,
              stoi: string -> Option<int>, stof: string -> Option<real>)
    requires j < |KEYS|
    requires LoadFrom(Loading(s0, false), j, config, stoi, stof) == goal
    requires r1 == Step(Loading(s0, false), KEYS[j], config, stoi, stof)
    ensures r1.thrown ==> r1 == goal
    ensures !r1.thrown ==> LoadFrom(Loading(r1.settings, false), j + 1, config, stoi, stof) == goal
  {
    if r1.thrown {
      ThrownFrom(r1, j + 1, config, stoi, stof);
    }
  }

  lemma {:induction false} ThrownFrom(r: Loading, j: nat, config: map<string, string>,
                                      stoi: string -> Option<int>, stof: string -> Option<real>)
    requires r.thrown
    ensures LoadFrom(r, j, config, stoi, stof) == r
    decreases |KEYS| - j
  {
    if j < |KEYS| {
      ThrownFrom(r, j + 1, config, stoi, stof);
    }
  }
}
