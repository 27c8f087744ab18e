# Developer console, game state and configuration of a small raylib game, in Dafny

This project is a Dafny model of the logic core of a small 2D raylib game.
It covers:

- the developer console's scrollback buffer (`ConsoleCapture`);
- the console layout cache and the window of lines `DrawConsole` shows, plus
  the input-box geometry of `DrawConsoleInputBox`;
- the command dispatcher (`CommandParser`) and its one command, `speed`;
- the screen state machine (`GameState`);
- the INI reader (`parseINI`);
- the settings overlay (`GameConfig::loadFromConfig`) and the console line
  width derived from the settings (`calculateMaxDisplayChars`).

Every member is proved by the Dafny verifier.

Modules, one per source component:

- `Wrappers`: `Option`.
- `CppInt`: C++ integer semantics that differ from Dafny's.
  - `/` truncates toward zero.
  - `static_cast<int>` of a floating value truncates toward zero.
  - `std::to_string` of an `int`.
- `Scrollback`: `ConsoleCapture`, a class over a `seq<string>`.
  - `Logged` and `Newest` describe what a whole series of `addLine` calls
    leaves in the buffer.
- `Layout`: the `ConsoleLayout` cache class.
  - `Compute` gives the geometry as a function of the four display
    parameters.
  - The `for` loop of `DrawConsole` is the method `VisibleRows`.
  - `InputBoxOf` gives the input box.
- `Commands`:
  - tokenising as `std::stringstream >>` does it (`Words`, with the loops
    `ReadToken` and `Tokenize`);
  - the reply of one console line (`Respond`, `SpeedReply`);
  - the `Player` fields that the speed command touches;
  - the `CommandParser` class.
- `GameFlow`:
  - the `GameState` class;
  - the same three handlers stated outright as functions on a snapshot of its
    fields;
  - runs of many calls (`Run`).
- `IniParser`:
  - the per-line parse (`ParseLine`, built from `find_first_not_of`,
    `find_last_not_of` and `find` as functions);
  - the map a list of lines yields (`ParseLines`);
  - the loop itself (`ParseIni`, with its body `ReadEntry`).
- `Config`:
  - the `GameConfig` settings and their defaults;
  - each `if (config.count(key)) …` statement as one `Step` on a `Loading`
    value (settings plus "an exception is in flight");
  - `Load`, which runs the eleven statements in source order;
  - the `GameConfig` class, whose `LoadFromConfig` is proved to end in
    `Load`'s result.

The process-wide `consoleCapture` object of the source is passed explicitly
to every operation that logs.

Two models of the source's callbacks:

- Key polling becomes a `Keys` value, with one flag per key a handler reads.
- `std::stoi` and `std::stof` become function parameters.
  - In `Config`, they return `Option`; `None` is the exception.
  - In `Commands`, `std::stof` returns `FloatParse`, which distinguishes
    `invalid_argument`, which is caught, from `out_of_range`, which escapes.

## Model

| member | source | states |
|---|---|---|
| CppInt.Quot | UIRenderer.cpp:21 | the C++ quotient: it equals Dafny's `/` for a non-negative dividend and a positive divisor, and its sign is that of the operands' product |
| CppInt.QuotMagnitude | GameConfig.cpp:27 | the magnitude of a C++ quotient is the quotient of the magnitudes |
| CppInt.QuotFloor | GameConfig.cpp:27 | for a non-negative dividend and a positive divisor, the quotient q satisfies q·b ≤ a < (q+1)·b |
| CppInt.TruncReal | Commands.cpp:27 | `static_cast<int>` drops the fraction: the result is within one of x, on the side of zero |
| CppInt.NatToString | Commands.cpp:27 | decimal digits only, with no leading zero except for 0 itself |
| CppInt.IntToString | Commands.cpp:27 | `std::to_string`: non-empty, and it starts with '-' exactly for negative values |
| CppInt.NatToStringValue | Commands.cpp:27 | reading the printed digits back gives the number |
| CppInt.IntToStringInjective | Commands.cpp:27 | different integers print differently |
| Scrollback.Truncate | ConsoleCapture.cpp:15-18 | a line no longer than the threshold, or any line under a negative threshold, is stored unchanged; for threshold m ≥ 3 a longer line becomes its first m-3 characters plus "..." and is exactly m long; for m in 0..2 a longer line is kept whole with "..." appended |
| Scrollback.Pushed | ConsoleCapture.cpp:19-22 | the new line is last; below capacity the old lines are an unchanged prefix; at capacity exactly the oldest line is dropped and the rest keep their order; the size never exceeds 15 |
| Scrollback.Logged | ConsoleCapture.cpp:14-23 | a series of addLine calls under one threshold: it keeps the 15-line bound and ends with the last message's stored form; no messages leave the buffer as it was |
| Scrollback.LoggedKeepsNewest | ConsoleCapture.cpp:14-23 | after any series of addLine calls the buffer is the newest 15 of the old lines followed by the stored forms of the new ones, in order |
| Scrollback.ConsoleCapture.constructor | ConsoleCapture.h:12-20 | a new buffer is empty, with threshold 50 |
| Scrollback.ConsoleCapture.SetMaxDisplayChars | ConsoleCapture.cpp:10-12 | sets the threshold and leaves the stored lines untouched |
| Scrollback.ConsoleCapture.AddLine | ConsoleCapture.cpp:14-23 | the lines become `Pushed(old, Truncate(line, threshold))`, the threshold is kept, and the 15-line bound is preserved |
| Scrollback.ConsoleCapture.GetLines | ConsoleCapture.h:28 | returns the stored lines, oldest first, and changes nothing |
| Scrollback.ConsoleCapture.Clear | ConsoleCapture.h:30 | empties the lines and keeps the threshold |
| Layout.Compute | UIRenderer.cpp:12-25 | the derived geometry: at least one display line, width and height copied, and title block plus content area plus bottom padding add up to the height |
| Layout.ComputeFits | UIRenderer.cpp:23-25 | when the content area holds a line, maxDisplayLines is the largest number of line pitches that fit in it; otherwise it is 1 |
| Layout.FitsInHeight | UIRenderer.cpp:25 | the C++ quotient of a height by a positive pitch counts the whole pitches that fit, and is below 1 when not even one fits |
| Layout.ConsoleLayout.constructor | UIRenderer.cpp:9 | a fresh cache is consistent and asks for a recompute |
| Layout.ConsoleLayout.ShouldUpdate | UIRenderer.cpp:36-42 | a recompute is due exactly when one is pending or the parameters differ from the cached ones |
| Layout.ConsoleLayout.Update | UIRenderer.cpp:12-33 | the cached geometry becomes `Compute(p)` and p is cached; afterwards exactly the parameter sets other than p ask for a recompute |
| Layout.ShownCount | UIRenderer.cpp:69-70 | the number of lines drawn is min(N, maxDisplayLines): never more than N, and at least one when there are lines and maxDisplayLines ≥ 1 |
| Layout.VisibleRows | UIRenderer.cpp:68-81 | the rows drawn are the last ShownCount lines in chronological order, with every index inside the buffer and one line pitch between rows, starting under the title |
| Layout.InputBoxOf | UIRenderer.cpp:87-96 | the box is one text line plus padding above and below, spans the console width and is flush with the console's bottom edge |
| Layout.DrawConsole | UIRenderer.cpp:45-84 | afterwards the cache holds `Compute(p)` whether or not it was refreshed, and it is left untouched when no refresh was due; no rows and no input box for an empty buffer; otherwise the visible window (the newest lines in order, one line pitch apart from under the title) and the input box |
| Commands.TokenLength | Commands.cpp:49 | the run of non-space characters at the front ends at a space or at the end of the text |
| Commands.Words | Commands.cpp:46-56 | every token is non-empty and holds no whitespace |
| Commands.WordsOfJoin | Commands.cpp:46-56 | tokenising tokens joined by single spaces gives the tokens back |
| Commands.ReadToken | Commands.cpp:54 | one `>>` extraction yields the first remaining token and consumes it, or yields "" and consumes everything when no token is left |
| Commands.NameAndArgs | Commands.cpp:47-56 | the name followed by the arguments is exactly the input's tokens |
| Commands.CommandName | Commands.cpp:49 | the name is "" exactly when the input has no tokens, and otherwise the first token |
| Commands.CommandArgs | Commands.cpp:52-56 | the arguments are the tokens after the first, one fewer than the tokens (none for blank input), each a whole token |
| Commands.Tokenize | Commands.cpp:46-56 | the name is the first token, or "" for blank input; the arguments are the remaining tokens, in order |
| Commands.SpeedReply | Commands.cpp:14-32 | an argument count other than 1 gives the usage line; an unparsable argument gives the numbers line; out-of-range throws and logs nothing; a parsed multiplier m scales both base speeds by m; exactly one line unless it throws |
| Commands.Respond | Commands.cpp:43-67 | the echo "> input" comes first and then exactly one result line unless stof throws; an unknown name gives "CL: Illegal command"; the speeds change only on success, to the base speeds times m, and the line reports the truncated new speed |
| Commands.OnlySpeedIsRegistered | Commands.cpp:59-66 | with the registry the constructor builds, any name other than exactly "speed" is an illegal command that leaves the player alone |
| Commands.SpeedTwoExample | Commands.cpp:24-27 | "speed 2" from base speeds 200 sets both speeds to 400 and logs "CL: Speed set to 400" |
| Commands.BlankIsIllegal | Commands.cpp:49-66 | a blank line has no command name and is an illegal command |
| Commands.Player.constructor | Player.cpp:3-7 | the four speed fields take the given values |
| Commands.ExecuteSpeed | Commands.cpp:14-32 | the buffer receives SpeedReply's lines; the player takes its speeds or keeps them; the base speeds never change |
| Commands.CommandParser.constructor | Commands.cpp:37-40 | the registry holds "speed" and nothing else |
| Commands.CommandParser.ParseAndExecute | Commands.cpp:43-67 | the buffer receives exactly Respond's lines; the player takes Respond's speeds or keeps them; the base speeds never change; the out-of-range exception is reported |
| GameFlow.AfterSetState | GameState.cpp:47-54 | the state becomes the target; the title screen hides the console; other targets keep the console flag; quit is untouched |
| GameFlow.TitleStep | GameState.cpp:5-15 | SPACE starts play, ESC sets quit, and with neither key nothing changes; the console flag is never touched |
| GameFlow.EscapeToggled | GameState.cpp:25-31 | ESC turns PLAYING into PAUSED and PAUSED into PLAYING, and leaves TITLE_SCREEN as it is |
| GameFlow.GameStep | GameState.cpp:18-44 | quit is never undone and is set only by Q while paused; ESC swaps play and pause and does nothing on the title screen; Q and T count only in the state after ESC, and there PAUSED with Q sets quit, PAUSED with T goes to the title screen and hides the console, and PAUSED without T stays paused; in any other state after ESC, Q and T do nothing: that state is kept and quit is untouched; GRAVE toggles the console only when it is enabled |
| GameFlow.EscapeTwiceRestores | GameState.cpp:25-31 | pressing ESC alone twice in play or pause returns to the starting snapshot |
| GameFlow.QuitIsFinal | GameState.cpp:5-54 | no sequence of calls clears shouldQuit once it is set |
| GameFlow.GameInputKeepsTitle | GameState.cpp:18-44 | handleGameInput calls alone never leave the title screen and never set quit |
| GameFlow.RunAppend | GameState.cpp:5-54 | running calls to GameState in two batches is running them all in order, so per-frame facts compose over runs |
| GameFlow.GameState.constructor | GameState.h:13-15 | a new GameState is on the title screen, with the console hidden and no quit |
| GameFlow.GameState.IsInGame | GameState.h:25 | holds exactly in PLAYING |
| GameFlow.GameState.IsPaused | GameState.h:26 | holds exactly in PAUSED |
| GameFlow.GameState.IsOnTitleScreen | GameState.h:27 | holds exactly on TITLE_SCREEN |
| GameFlow.GameState.ExactlyOneState | GameState.h:25-27 | exactly one of the three state predicates holds |
| GameFlow.GameState.SetState | GameState.cpp:47-54 | the fields become AfterSetState of the old fields |
| GameFlow.GameState.HandleTitleInput | GameState.cpp:5-15 | the fields become TitleStep of the old fields |
| GameFlow.GameState.HandleGameInput | GameState.cpp:18-44 | the step-by-step handler ends in GameStep of the old fields |
| IniParser.FirstNotOf | ConfigParser.cpp:18 | `find_first_not_of`: every character before the result is in the set, and the one at the result is not |
| IniParser.EndNotOf | ConfigParser.cpp:19 | one past `find_last_not_of`: every character from the result on is in the set, and the one before it is not |
| IniParser.Trim | ConfigParser.cpp:18-19 | neither end of the trimmed text is in the set |
| IniParser.TrimKeeps | ConfigParser.cpp:32-35 | trimming removes no character outside the set |
| IniParser.TrimPadded | ConfigParser.cpp:18-19 | trimming padding + core + padding gives back a core that has no padding of its own |
| IniParser.Find | ConfigParser.cpp:25 | `find('=')` gives the first occurrence, or None exactly when there is none |
| IniParser.ParseLine | ConfigParser.cpp:17-37 | an entry's key holds no '=', and neither key nor value has padding at its ends |
| IniParser.ParseLineSkips | ConfigParser.cpp:18-26 | a line yields no entry exactly when it is blank, its first non-blank character is '#', or it has no '=' |
| IniParser.SkippedIffTrimmed | ConfigParser.cpp:18-22 | the trimmed line is empty or starts with '#' exactly when the raw line is blank or a comment |
| IniParser.ParseLineSplit | ConfigParser.cpp:25-35 | a content line splits at its first '=' into the trimmed text before and the quote-and-blank-trimmed text after, so the value may contain '=' |
| IniParser.FormatParse | ConfigParser.cpp:18-35 | a line written as padding, key, padding, '=', blanks or quotes, value, blanks or quotes parses back to that key and value |
| IniParser.InlineCommentKept | ConfigParser.cpp:32-35 | `player_speed = "250.5"  # comment` yields the value `250.5"  # comment`: there is no inline-comment stripping |
| IniParser.ParsedKeys | ConfigParser.cpp:37 | a key is in the map exactly when some line yields an entry for it |
| IniParser.LastDefinitionWins | ConfigParser.cpp:37 | a key's value is the one from the last line that defines it |
| IniParser.ParseLinesSnoc | ConfigParser.cpp:16-38 | one more line either leaves the map as it is or inserts its entry over an earlier one |
| IniParser.Collect | ConfigParser.cpp:37 | the map built from the entries: every entry's key is in it, and every value in it is that of some entry for its key |
| IniParser.ReadEntry | ConfigParser.cpp:17-35 | the in-place erase steps of one iteration yield ParseLine's entry |
| IniParser.ParseIni | ConfigParser.cpp:6-40 | a file that cannot be opened gives the empty map and logs "Failed to open " + path; otherwise the result is ParseLines of the lines and nothing is logged |
| Config.Assign | GameConfig.cpp:5-21 | a present key's statement succeeds exactly when its text decodes, and then the key's field holds the decoded value |
| Config.Decode | GameConfig.cpp:5-21 | a decoded value has its field's type; only the numeric conversions can throw; integers and floats take the conversion's value; a boolean is true exactly for "true", "1" or "yes"; the sprite path is taken verbatim |
| Config.BooleanTextIsExact | GameConfig.cpp:10-17 | the boolean match is case-sensitive: "True" and "YES" give false and "yes" gives true |
| Config.Step | GameConfig.cpp:5-21 | once an exception is in flight the statement does nothing, and a throwing statement leaves the settings as they were |
| Config.StepOutcome | GameConfig.cpp:5-21 | a statement is skipped when an exception is in flight or its key is absent; otherwise it throws exactly when the conversion fails, and else sets its field to the decoded value |
| Config.StepFrame | GameConfig.cpp:5-21 | a statement touches only its own key's field |
| Config.Index | GameConfig.cpp:5-21 | every key is tested by some statement |
| Config.KeysDistinct | GameConfig.cpp:5-21 | no key is tested twice |
| Config.Load | GameConfig.cpp:3-22 | running the statements by index is the fold over the key list |
| Config.LoadField | GameConfig.cpp:5-21 | when nothing throws, a present key's field holds its decoded text (booleans true exactly for "true", "1" or "yes", and the sprite path verbatim), and an absent key's field keeps its prior value |
| Config.LoadThrows | GameConfig.cpp:5-20 | loadFromConfig throws exactly when some present key's text fails to convert |
| Config.OnlyListedKeys | GameConfig.cpp:3-22 | maps that agree on the eleven keys load alike |
| Config.UnknownKeyIgnored | GameConfig.cpp:3-22 | adding any other key, with any text, changes nothing |
| Config.EmptyConfigKeepsSettings | GameConfig.cpp:3-22 | an empty map leaves every setting as it was and throws nothing |
| Config.GameConfig.constructor | GameConfig.h:11-27 | every field starts at its in-class default |
| Config.GameConfig.LoadKey | GameConfig.cpp:5 | one statement: the new settings and the thrown flag are Step's result |
| Config.GameConfig.LoadFromConfig | GameConfig.cpp:3-22 | the statements in order end in Load's result: the settings reached and whether a conversion threw |
| Config.CharWidth | GameConfig.cpp:25 | the estimated character width is three fifths of the font size, rounded toward zero |
| Config.TextWidth | GameConfig.cpp:26-27 | the line width after padding is the console width less the font size, adjusted by one toward the console width for an odd font size (plus one when positive, minus one when negative) |
| Config.MaxDisplayChars | GameConfig.cpp:24-28 | for a positive character width and a non-negative text width, the number of whole characters that fit in the text width |
| Config.DefaultMaxDisplayChars | GameConfig.cpp:24-28 | with the defaults, a console line holds 54 characters |

## Left out

- Drawing and text measurement. Every raylib call is left out: rectangles, text, `Fade`, `DrawFPS`, `MeasureText` and key polling. The model keeps only the integer geometry and which lines go where.
- The cursor position of the input box (UIRenderer.cpp:99-104) depends on `MeasureText`.
- The title and pause screens depend on a `sin`-based pulse and on `MeasureText`.
- TextureLoader.cpp is texture I/O.
- main.cpp is the frame loop and I/O glue.
  - It calls parseINI, then loadFromConfig, then setMaxDisplayChars with calculateMaxDisplayChars.
  - That composition is not modelled as one operation; its three parts are.
- Player movement, friction, clamping and `ScreenBounds` are floating-point kinematics.
- Player.constructor: the source's constructor never initialises `baseSpeed` and `baseMaxSpeed`. The model's constructor takes them as parameters, because reading an uninitialised float has no defined value to model.
- Console text editing (insert, backspace) is not in any of these source files.
- Floating point is modelled as `real`.
  - The speed products are exact.
  - CharWidth computes `consoleFontSize * 0.6f` as the exact product with 3/5. Font sizes are small integers, so 3n/5 lies at least 1/5 from the next integer, and the float product truncates to the same value.
- `std::stoi` and `std::stof` are function parameters. The model does not fix which texts they accept or what those texts denote.
- 32-bit `int` overflow is not modelled; Dafny integers are unbounded.
- Scrollback.Truncate and Commands.Words count characters, while `std::string` counts bytes. For non-ASCII text, `length()` and `substr` in addLine count UTF-8 bytes and may cut a multi-byte character, and the `>>` whitespace test looks at single bytes. The model treats every character as one unit.
- Layout.Computable and Config.MaxDisplayChars exclude the inputs where the source divides by zero: a console font size of -4 (zero line pitch), and font sizes -1 to 1 (zero character width). The source's behaviour there is undefined.
- An out-of-range `static_cast<int>` of the new speed is not modelled.
- Writing the open failure to `std::cerr` is not modelled; only the scrollback line is.
- Duplicate definitions of `ConsoleCapture`'s constructor, `getLines` and `clear` appear in both ConsoleCapture.h and ConsoleCapture.cpp; they are modelled once.
- The declaration of struct `ConsoleLayout` is not part of this model.
  - The fresh cache is taken to ask for a recompute (`needsUpdate` initially true).
  - Its sixteen scalar fields are grouped into `geometry` and `last`.
- The `GameConfig` fields are grouped into one `Settings` value.
- Both `parseINI` and `loadFromConfig` are factored:
  - In `parseINI`, the loop body is the method `ReadEntry`; it returns None where the source uses `continue`.
  - Each `if (config.count(key)) …` statement of `loadFromConfig` is the method `LoadKey`.

## Where the code and its documentation differ

The model follows the code in both cases:

- **Scrollback truncation.** The documentation promises that a stored line is never longer than the threshold.
  - The code compares against the threshold cast to `size_t`, so a negative threshold never truncates.
  - For a threshold of 0, 1 or 2, `substr(0, max - 3)` is given a count that wraps to a huge value. The whole line is kept, and "..." is appended to it.
  - `Scrollback.Truncate` states all three cases. Its length bound holds only for thresholds of at least 3.
- **INI inline comments.** The documented example expects `player_speed = "250.5"  # comment` to give `250.5`.
  - The code has no inline-comment stripping. The value is `250.5"  # comment`: the quote before the comment is not at an end, so it is not trimmed.
  - `IniParser.InlineCommentKept` states this.
