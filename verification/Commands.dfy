/**
 * The developer-console command dispatcher (Commands.cpp): every input line
 * is echoed to the scrollback, split into whitespace-separated tokens as a
 * `std::stringstream` extracts them, looked up by exact name in the
 * registry, and either rejected or handed to the speed command, which
 * rescales the player's speeds from their base values.
 *
 * `std::stof` is a parameter of type `string -> FloatParse`: the model does
 * not fix which texts parse or to what value, only what each outcome leads to.
 */
module Commands {
  import opened Wrappers
  import opened CppInt
  import Scrollback

  const ILLEGAL_COMMAND: string := "CL: Illegal command"
  const SPEED_USAGE: string := "SPEED: No arguments"
  const NOT_A_NUMBER: string := "CL: NUMERS BABY NUMBERS"
  const SPEED_SET: string := "CL: Speed set to "

  /** What the stream extractor skips: space and '\t' through '\r' in the C locale. */
  predicate IsSpace(c: char) {
    c == ' ' || '\t' <= c <= '\r'
  }

  predicate IsToken(w: string) {
    w != [] && forall i :: 0 <= i < |w| ==> !IsSpace(w[i])
  }

  /** Length of the run of non-space characters at the start of s. */
  function TokenLength(s: string): (n: nat)
    ensures n <= |s|
    ensures forall i :: 0 <= i < n ==> !IsSpace(s[i])
    ensures n < |s| ==> IsSpace(s[n])
  {
    if s == [] || IsSpace(s[0]) then 0 else 1 + TokenLength(s[1..])
  }

  /**
   * The tokens successive `>>` extractions read from s, in order: maximal
   * runs of non-space characters. No token is empty or holds a space.
   */
  function Words(s: string): (ws: seq<string>)
    ensures forall i :: 0 <= i < |ws| ==> IsToken(ws[i])
    decreases |s|
  {
    if s == [] then []
    else if IsSpace(s[0]) then Words(s[1..])
    else
      var n := TokenLength(s);
      [s[..n]] + Words(s[n..])
  }

  /** The tokens joined with single spaces. */
  function Join(ws: seq<string>): string {
    if ws == [] then "" else if |ws| == 1 then ws[0] else ws[0] + " " + Join(ws[1..])
  }

  /** A run of non-space characters followed by a space or the end is one whole token. */
  lemma {:induction false} TokenLengthOf(w: string, t: string)
    requires forall i :: 0 <= i < |w| ==> !IsSpace(w[i])
    requires t == [] || IsSpace(t[0])
    ensures TokenLength(w + t) == |w|
    decreases |w|
  {
    if w != [] {
      assert (w + t)[1..] == w[1..] + t;
      TokenLengthOf(w[1..], t);
    } else {
      assert w + t == t;
    }
  }

  /** Splitting a space-joined list of tokens gives the list back. */
  lemma {:induction false} WordsOfJoin(ws: seq<string>)
    requires forall i :: 0 <= i < |ws| ==> IsToken(ws[i])
    ensures Words(Join(ws)) == ws
    decreases |ws|
  {
    if |ws| == 1 {
      var w := ws[0];
      TokenLengthOf(w, "");
      assert w + "" == w;
      assert w[|w|..] == [];
    } else if |ws| > 1 {
      var w := ws[0];
      var rest := Join(ws[1..]);
      var s := w + " " + rest;
      assert s == w + (" " + rest);
      TokenLengthOf(w, " " + rest);
      assert s[..|w|] == w;
      assert s[|w|..] == " " + rest;
      assert (" " + rest)[1..] == rest;
      WordsOfJoin(ws[1..]);
    }
  }

  /** A space at the front does not change the tokens. */
  lemma WordsSkipSpace(s: string, j: nat)
    requires j < |s| && IsSpace(s[j])
    ensures Words(s[j..]) == Words(s[j + 1..])
  {
    assert s[j..][1..] == s[j + 1..];
  }

  /** A token starting at `start` and ending at `j` is the first of the tokens from `start`. */
  lemma WordsAtToken(s: string, start: nat, j: nat)
    requires start < j <= |s|
    requires forall k :: start <= k < j ==> !IsSpace(s[k])
    requires j == |s| || IsSpace(s[j])
    ensures Words(s[start..]) == [s[start..j]] + Words(s[j..])
  {
    var t := s[start..];
    assert t == s[start..j] + s[j..];
    TokenLengthOf(s[start..j], s[j..]);
    assert t[..j - start] == s[start..j];
    assert t[j - start..] == s[j..];
  }

  /**
   * One `ss >> token` from position i: skip spaces, then read one token.
   * When no token is left the result is empty and the whole input is used up.
   */
  method ReadToken(s: string, i: nat) returns (token: string, j: nat)
    requires i <= |s|
    ensures i <= j <= |s|
    ensures Words(s[i..]) == [] ==> token == "" && j == |s|
    ensures Words(s[i..]) != [] ==>
      token == Words(s[i..])[0] && Words(s[j..]) == Words(s[i..])[1..] && i < j
  {
    j := i;
    while j < |s| && IsSpace(s[j])
      invariant i <= j <= |s|
      invariant Words(s[j..]) == Words(s[i..])
    {
      WordsSkipSpace(s, j);
      j := j + 1;
    }
    if j == |s| {
      assert s[j..] == [];
      return "", j;
    }
    var start := j;
    while j < |s| && !IsSpace(s[j])
      invariant start <= j <= |s|
      invariant forall k :: start <= k < j ==> !IsSpace(s[k])
    {
      j := j + 1;
    }
    WordsAtToken(s, start, j);
    token := s[start..j];
  }

  /** The command name parseAndExecute extracts: the first token, or "" for a blank line. */
  function CommandName(input: string): (name: string)
    ensures name == "" <==> Words(input) == []
    ensures name != "" ==> IsToken(name) && name == Words(input)[0]
  {
    var ws := Words(input);
    if ws == [] then "" else ws[0]
  }

  /** The arguments: every token after the name, in order. */
  function CommandArgs(input: string): (args: seq<string>)
    ensures |args| == if Words(input) == [] then 0 else |Words(input)| - 1
    ensures forall k :: 0 <= k < |args| ==> IsToken(args[k]) && args[k] == Words(input)[k + 1]
  {
    var ws := Words(input);
    if ws == [] then [] else ws[1..]
  }

  /** Name and arguments put back together are all the tokens of the input. */
  lemma NameAndArgs(input: string)
    ensures Words(input) == if CommandName(input) == "" then [] else [CommandName(input)] + CommandArgs(input)
  {
  }

  /**
   * The tokenising part of parseAndExecute: one extraction for the name,
   * then extractions into the argument list until one fails.
   */
  method Tokenize(input: string) returns (name: string, args: seq<string>)
    ensures name == CommandName(input) && args == CommandArgs(input)
    ensures forall k :: 0 <= k < |args| ==> IsToken(args[k])
  {
    assert input[0..] == input;
    var i;
    name, i := ReadToken(input, 0);
    args := [];
    while true
      invariant i <= |input|
      invariant name == CommandName(input)
      invariant name == "" ==> Words(input[i..]) == [] && args == []
      invariant name != "" ==> Words(input) == [name] + args + Words(input[i..])
      decreases |input| - i
    {
      var arg, j := ReadToken(input, i);
      if arg == "" {
        break;
      }
      args := args + [arg];
      i := j;
    }
    assert name != "" ==> args == Words(input)[1..];
  }

  /** The handlers the registry can hold; the source registers only the speed command. */
  datatype CommandKind = Speed

  /** The registry the CommandParser constructor builds (Commands.cpp:39). */
  const REGISTRY: map<string, CommandKind> := map["speed" := Speed]

  /** How `std::stof` ends: a value, or one of the two exceptions it throws. */
  datatype FloatParse = Parsed(value: real) | InvalidArgument | OutOfRange

  datatype Speeds = Speeds(speed: real, maxSpeed: real)

  /** Both speeds multiplied by m. */
  function Scaled(base: Speeds, m: real): Speeds {
    Speeds(base.speed * m, base.maxSpeed * m)
  }

  /**
   * What one console line does: the lines appended to the scrollback, in
   * order, the player's new speeds (None when they are left alone) and
   * whether an exception escapes parseAndExecute.
   */
  datatype Reply = Reply(log: seq<string>, speeds: Option<Speeds>, thrown: bool)

  /** SpeedCommand::execute from base speeds `base`. */
  function SpeedReply(args: seq<string>, base: Speeds, stof: string -> FloatParse): (r: Reply)
    ensures r.thrown <==> |args| == 1 && stof(args[0]).OutOfRange?
    ensures r.speeds.Some? <==> |args| == 1 && stof(args[0]).Parsed?
    ensures |r.log| == if r.thrown then 0 else 1
    ensures r.speeds.Some? ==> r.speeds.value == Scaled(base, stof(args[0]).value)
    ensures |args| != 1 ==> r.log == [SPEED_USAGE]
    ensures |args| == 1 && stof(args[0]).InvalidArgument? ==> r.log == [NOT_A_NUMBER]
    ensures |args| == 1 && stof(args[0]).Parsed? ==>
      r.log == [SPEED_SET + IntToString(TruncReal(Scaled(base, stof(args[0]).value).speed))]
  {
    if |args| != 1 then Reply([SPEED_USAGE], None, false)
    else match stof(args[0])
      case Parsed(m) =>
        var s := Scaled(base, m);
        Reply([SPEED_SET + IntToString(TruncReal(s.speed))], Some(s), false)
      case InvalidArgument => Reply([NOT_A_NUMBER], None, false)
      case OutOfRange => Reply([], None, true)
  }

  /**
   * CommandParser::parseAndExecute on one input line: the echo comes first,
   * then exactly one result line unless `stof` overflows, and the player's
   * speeds change only on a successful speed command, to the base speeds
   * scaled by the argument.
   */
  function Respond(commands: map<string, CommandKind>, input: string, base: Speeds, stof: string -> FloatParse): (r: Reply)
    ensures |r.log| == (if r.thrown then 1 else 2) && r.log[0] == "> " + input
    ensures CommandName(input) !in commands ==>
      !r.thrown && r.log[1] == ILLEGAL_COMMAND && r.speeds == None
    ensures CommandName(input) in commands && |CommandArgs(input)| != 1 ==>
      !r.thrown && r.log[1] == SPEED_USAGE && r.speeds == None
    ensures CommandName(input) in commands && |CommandArgs(input)| == 1 ==>
      match stof(CommandArgs(input)[0])
      case InvalidArgument => !r.thrown && r.log[1] == NOT_A_NUMBER && r.speeds == None
      case OutOfRange => r.thrown && r.speeds == None
      case Parsed(m) =>
        && !r.thrown
        && r.speeds == Some(Scaled(base, m))
        && r.log[1] == SPEED_SET + IntToString(TruncReal(Scaled(base, m).speed))
  {
    var name := CommandName(input);
    var result :=
      if name in commands then
        match commands[name]
        case Speed => SpeedReply(CommandArgs(input), base, stof)
      else Reply([ILLEGAL_COMMAND], None, false);
    result.(log := ["> " + input] + result.log)
  }

  /** Only "speed", spelt exactly so, reaches a handler; anything else is an illegal command. */
  lemma OnlySpeedIsRegistered(input: string, base: Speeds, stof: string -> FloatParse)
    requires CommandName(input) != "speed"
    ensures Respond(REGISTRY, input, base, stof) == Reply(["> " + input, ILLEGAL_COMMAND], None, false)
  {
  }

  /**
   * "speed 2" with base speeds 200 (the configured default) doubles both
   * speeds and reports the new speed as a whole number.
   */
  lemma SpeedTwoExample(stof: string -> FloatParse)
    requires stof("2") == Parsed(2.0)
    ensures Respond(REGISTRY, "speed 2", Speeds(200.0, 200.0), stof)
      == Reply(["> " + "speed 2", SPEED_SET + "400"], Some(Speeds(400.0, 400.0)), false)
  {
    SpeedTwoTokens();
    FourHundredText();
    assert Scaled(Speeds(200.0, 200.0), 2.0) == Speeds(400.0, 400.0);
    assert TruncReal(400.0) == 400;
  }

  lemma SpeedTwoTokens()
    ensures CommandName("speed 2") == "speed" && CommandArgs("speed 2") == ["2"]
  {
    assert IsToken("speed") && IsToken("2");
    WordsOfJoin(["speed", "2"]);
    assert Join(["speed", "2"]) == "speed 2";
  }

  lemma FourHundredText()
    ensures IntToString(400) == "400"
  {
    assert NatToString(4) == "4" && NatToString(40) == "40";
  }

  /** A blank line has no command name and is an illegal command. */
  lemma BlankIsIllegal(input: string, base: Speeds, stof: string -> FloatParse)
    requires forall i :: 0 <= i < |input| ==> IsSpace(input[i])
    ensures Respond(REGISTRY, input, base, stof) == Reply(["> " + input, ILLEGAL_COMMAND], None, false)
  {
    BlankHasNoWords(input);
  }

  lemma {:induction false} BlankHasNoWords(s: string)
    requires forall i :: 0 <= i < |s| ==> IsSpace(s[i])
    ensures Words(s) == []
    decreases |s|
  {
    if s != [] {
      BlankHasNoWords(s[1..]);
    }
  }

  /** The player fields the speed command reads and writes. */
  class Player {
    var speed: real
    var maxSpeed: real
    var baseSpeed: real
    var baseMaxSpeed: real

    constructor (speed: real, maxSpeed: real, baseSpeed: real, baseMaxSpeed: real)
      ensures this.speed == speed && this.maxSpeed == maxSpeed
      ensures this.baseSpeed == baseSpeed && this.baseMaxSpeed == baseMaxSpeed
    {
      this.speed := speed;
      this.maxSpeed := maxSpeed;
      this.baseSpeed := baseSpeed;
      this.baseMaxSpeed := baseMaxSpeed;
    }

    function Base(): Speeds
      reads this
    {
      Speeds(baseSpeed, baseMaxSpeed)
    }
  }

  /**
   * SpeedCommand::execute: logs SpeedReply's line and applies its speeds;
   * the base speeds are never written. Returns whether `stof`'s
   * out_of_range escapes.
   */
  method ExecuteSpeed(args: seq<string>, player: Player, console: Scrollback.ConsoleCapture,
                      stof: string -> FloatParse)
    returns (thrown: bool)
    requires console.Valid()
    modifies player, console
    ensures console.Valid() && console.maxDisplayChars == old(console.maxDisplayChars)
    ensures var r := SpeedReply(args, old(player.Base()), stof);
      && console.lines == Scrollback.Logged(old(console.lines), r.log, old(console.maxDisplayChars))
      && thrown == r.thrown
      && (r.speeds.Some? ==> player.speed == r.speeds.value.speed && player.maxSpeed == r.speeds.value.maxSpeed)
      && (r.speeds.None? ==> player.speed == old(player.speed) && player.maxSpeed == old(player.maxSpeed))
    ensures player.Base() == old(player.Base())
  {
    ghost var before := console.lines;
    ghost var maxChars := console.maxDisplayChars;
    thrown := false;
    if |args| != 1 {
      console.AddLine(SPEED_USAGE);
      Scrollback.LoggedOne(before, SPEED_USAGE, maxChars);
      return;
    }
    match stof(args[0]) {
      case Parsed(m) =>
        var scaled := Scaled(player.Base(), m);
        player.speed := scaled.speed;
        player.maxSpeed := scaled.maxSpeed;
        var line := SPEED_SET + IntToString(TruncReal(player.speed));
        console.AddLine(line);
        Scrollback.LoggedOne(before, line, maxChars);
      case InvalidArgument =>
        console.AddLine(NOT_A_NUMBER);
        Scrollback.LoggedOne(before, NOT_A_NUMBER, maxChars);
      case OutOfRange =>
        thrown := true;
    }
  }

  /** The dispatcher with its registry of named commands. */
  class CommandParser {
    const commands: map<string, CommandKind>

    /** Registers the speed command under "speed" and nothing else. */
    constructor ()
      ensures commands == REGISTRY
    {
      commands := REGISTRY;
    }

    /**
     * parseAndExecute: the scrollback receives exactly Respond's lines and
     * the player takes Respond's speeds; the base speeds never change.
     */
    method ParseAndExecute(input: string, player: Player, console: Scrollback.ConsoleCapture,
                           stof: string -> FloatParse)
      returns (thrown: bool)
      requires console.Valid()
      modifies player, console
      ensures console.Valid() && console.maxDisplayChars == old(console.maxDisplayChars)
      ensures var r := Respond(commands, input, old(player.Base()), stof);
        && console.lines == Scrollback.Logged(old(console.lines), r.log, old(console.maxDisplayChars))
        && thrown == r.thrown
        && (r.speeds.Some? ==> player.speed == r.speeds.value.speed && player.maxSpeed == r.speeds.value.maxSpeed)
        && (r.speeds.None? ==> player.speed == old(player.speed) && player.maxSpeed == old(player.maxSpeed))
      ensures player.Base() == old(player.Base())
    {
      ghost var r := Respond(commands, input, player.Base(), stof);
      ghost var before := console.lines;
      console.AddLine("> " + input);
      Scrollback.LoggedCons(before, "> " + input, r.log[1..], console.maxDisplayChars);
      assert r.log == ["> " + input] + r.log[1..];
      var name, args := Tokenize(input);
      if name in commands {
        match commands[name] {
          case Speed =>
            thrown := ExecuteSpeed(args, player, console, stof);
        }
      } else {
        console.AddLine(ILLEGAL_COMMAND);
        Scrollback.LoggedCons(console.lines, ILLEGAL_COMMAND, [], console.maxDisplayChars);
        thrown := false;
      }
    }
  }
}
