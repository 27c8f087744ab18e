/**
 * The game's screen state machine (struct GameState): the title screen,
 * play and pause, plus the console-visibility and quit flags, driven once
 * per frame by the keys pressed in that frame. Key polling is replaced by a
 * `Keys` value holding one flag per key the handlers look at.
 */
module GameFlow {

  datatype GameStateType = TitleScreen | Playing | Paused

  /** Which of the keys the handlers read were pressed this frame. */
  datatype Keys = Keys(space: bool, escape: bool, grave: bool, q: bool, t: bool)

  /** The three fields of GameState. */
  datatype Snapshot = Snapshot(state: GameStateType, consoleVisible: bool, shouldQuit: bool)

  /** A new GameState: on the title screen, console hidden, not quitting. */
  const INITIAL: Snapshot := Snapshot(TitleScreen, false, false)

  /**
   * GameState::setState: the new state is taken as given, and going to the
   * title screen also hides the console; nothing else changes.
   */
  function AfterSetState(s: Snapshot, target: GameStateType): (r: Snapshot)
    ensures r.state == target && r.shouldQuit == s.shouldQuit
    ensures target == TitleScreen ==> !r.consoleVisible
    ensures target != TitleScreen ==> r.consoleVisible == s.consoleVisible
  {
    Snapshot(target, if target == TitleScreen then false else s.consoleVisible, s.shouldQuit)
  }

  /**
   * GameState::handleTitleInput: SPACE starts play, ESC asks to quit, and
   * with neither key nothing changes. The console flag is never touched.
   */
  function TitleStep(s: Snapshot, keys: Keys): (r: Snapshot)
    ensures !keys.space && !keys.escape ==> r == s
    ensures r.state == (if keys.space then Playing else s.state)
    ensures r.shouldQuit <==> s.shouldQuit || keys.escape
    ensures r.consoleVisible == s.consoleVisible
  {
    var started := if keys.space then AfterSetState(s, Playing) else s;
    if keys.escape then started.(shouldQuit := true) else started
  }

  /** ESC's swap of play and pause; the title screen is left as it is. */
  function EscapeToggled(state: GameStateType): (r: GameStateType)
    ensures r == Paused <==> state == Playing
    ensures r == Playing <==> state == Paused
    ensures r == TitleScreen <==> state == TitleScreen
  {
    match state
    case Playing => Paused
    case Paused => Playing
    case TitleScreen => TitleScreen
  }

  /**
   * GameState::handleGameInput with the console enabled or not, stated
   * outright rather than step by step: the state after ESC decides whether
   * Q and T are honoured (only when it is Paused), T returns to the title
   * screen and hides the console, and GRAVE flips the console when it is
   * enabled.
   */
  function GameStep(s: Snapshot, consoleEnabled: bool, keys: Keys): (r: Snapshot)
    // quitting is never undone, and only Q while paused starts it
    ensures s.shouldQuit ==> r.shouldQuit
    ensures r.shouldQuit && !s.shouldQuit ==>
      keys.q && (r.state == Paused || (keys.t && r.state == TitleScreen))
    // on the title screen nothing here moves the state or sets quit
    ensures s.state == TitleScreen ==> r.state == TitleScreen && r.shouldQuit == s.shouldQuit
    // ESC swaps play and pause; without ESC or T the state stays
    ensures keys.escape && s.state == Paused ==> r.state == Playing && r.shouldQuit == s.shouldQuit
    ensures keys.escape && !keys.t && s.state == Playing ==> r.state == Paused
    ensures !keys.escape && !keys.t ==> r.state == s.state
    // leaving play or pause for the title screen takes T and hides the console
    ensures r.state == TitleScreen && s.state != TitleScreen ==> keys.t && !r.consoleVisible
    // otherwise the console flag changes only by GRAVE with the console enabled
    ensures r.state != TitleScreen || s.state == TitleScreen ==>
      (r.consoleVisible <==> s.consoleVisible != (consoleEnabled && keys.grave))
    // in the state after ESC, PAUSED with Q quits, and PAUSED with T goes to the title screen
    ensures (if keys.escape then EscapeToggled(s.state) else s.state) == Paused && keys.q ==> r.shouldQuit
    ensures (if keys.escape then EscapeToggled(s.state) else s.state) == Paused && keys.t ==>
      r.state == TitleScreen && !r.consoleVisible
    ensures (if keys.escape then EscapeToggled(s.state) else s.state) == Paused && !keys.t ==> r.state == Paused
    // in any other state after ESC, Q and T do nothing: that state stays and quit is untouched
    ensures (if keys.escape then EscapeToggled(s.state) else s.state) != Paused ==>
      r.state == (if keys.escape then EscapeToggled(s.state) else s.state) && r.shouldQuit == s.shouldQuit
  {
    var toggled := if consoleEnabled && keys.grave then !s.consoleVisible else s.consoleVisible;
    var afterEscape := if keys.escape then EscapeToggled(s.state) else s.state;
    var paused := afterEscape == Paused;
    var toTitle := paused && keys.t;
    Snapshot(
      if toTitle then TitleScreen else afterEscape,
      if toTitle then false else toggled,
      s.shouldQuit || (paused && keys.q))
  }

  /** Pressing only ESC twice in play or pause returns to where it started. */
  lemma EscapeTwiceRestores(s: Snapshot, consoleEnabled: bool)
    requires s.state != TitleScreen
    ensures var esc := Keys(false, true, false, false, false);
      GameStep(GameStep(s, consoleEnabled, esc), consoleEnabled, esc) == s
  {
  }

  /** One frame's call into GameState. */
  datatype Call = HandleTitle(keys: Keys) | HandleGame(consoleEnabled: bool, keys: Keys) | SetState(target: GameStateType)

  function Apply(s: Snapshot, c: Call): Snapshot {
    match c
    case HandleTitle(keys) => TitleStep(s, keys)
    case HandleGame(consoleEnabled, keys) => GameStep(s, consoleEnabled, keys)
    case SetState(target) => AfterSetState(s, target)
  }

  /** The fields after a sequence of calls, first call first. */
  function Run(s: Snapshot, calls: seq<Call>): Snapshot
    decreases |calls|
  {
    if calls == [] then s else Run(Apply(s, calls[0]), calls[1..])
  }

  /** Running calls in two batches is running them all, in order. */
  lemma {:induction false} RunAppend(s: Snapshot, first: seq<Call>, rest: seq<Call>)
    ensures Run(s, first + rest) == Run(Run(s, first), rest)
    decreases |first|
  {
    if first == [] {
      assert first + rest == rest;
    } else {
      assert (first + rest)[0] == first[0];
      assert (first + rest)[1..] == first[1..] + rest;
      RunAppend(Apply(s, first[0]), first[1..], rest);
    }
  }

  /** No sequence of calls ever clears shouldQuit once it is set. */
  lemma {:induction false} QuitIsFinal(s: Snapshot, calls: seq<Call>)
    requires s.shouldQuit
    ensures Run(s, calls).shouldQuit
    decreases |calls|
  {
    if calls != [] {
      QuitIsFinal(Apply(s, calls[0]), calls[1..]);
    }
  }

  /** Calls to handleGameInput alone never leave the title screen and never set quit. */
  lemma {:induction false} GameInputKeepsTitle(s: Snapshot, calls: seq<Call>)
    requires s.state == TitleScreen
    requires forall i :: 0 <= i < |calls| ==> calls[i].HandleGame?
    ensures Run(s, calls).state == TitleScreen && Run(s, calls).shouldQuit == s.shouldQuit
    decreases |calls|
  {
    if calls != [] {
      GameInputKeepsTitle(Apply(s, calls[0]), calls[1..]);
    }
  }

  class GameState {
    var currentState: GameStateType
    var consoleVisible: bool
    var shouldQuit: bool

    function Fields(): Snapshot
      reads this
    {
      Snapshot(currentState, consoleVisible, shouldQuit)
    }

    constructor ()
      ensures Fields() == INITIAL
    {
      currentState := TitleScreen;
      consoleVisible := false;
      shouldQuit := false;
    }

    predicate IsInGame(): (b: bool)
      reads this
      ensures b <==> currentState == Playing
    {
      currentState == Playing
    }

    predicate IsPaused(): (b: bool)
      reads this
      ensures b <==> currentState == Paused
    {
      currentState == Paused
    }

    predicate IsOnTitleScreen(): (b: bool)
      reads this
      ensures b <==> currentState == TitleScreen
    {
      currentState == TitleScreen
    }

    /** Exactly one of the three state predicates holds. */
    lemma ExactlyOneState()
      ensures IsInGame() <==> !IsPaused() && !IsOnTitleScreen()
      ensures IsPaused() <==> !IsInGame() && !IsOnTitleScreen()
      ensures IsOnTitleScreen() <==> !IsInGame() && !IsPaused()
    {
    }

    method SetState(newState: GameStateType)
      modifies this
      ensures Fields() == AfterSetState(old(Fields()), newState)
    {
      currentState := newState;
      if newState == TitleScreen {
        consoleVisible := false;
      }
    }

    method HandleTitleInput(keys: Keys)
      modifies this
      ensures Fields() == TitleStep(old(Fields()), keys)
    {
      if keys.space {
        SetState(Playing);
      }
      if keys.escape {
        shouldQuit := true;
      }
    }

    /** The step-by-step handler meets the outright description GameStep. */
    method HandleGameInput(consoleEnabled: bool, keys: Keys)
      modifies this
      ensures Fields() == GameStep(old(Fields()), consoleEnabled, keys)
    {
      if consoleEnabled && keys.grave {
        consoleVisible := !consoleVisible;
      }
      if keys.escape {
        if currentState == Playing {
          SetState(Paused);
        } else if currentState == Paused {
          SetState(Playing);
        }
      }
      if currentState == Paused {
        if keys.q {
          shouldQuit := true;
        }
        if keys.t {
          SetState(TitleScreen);
        }
      }
    }
  }
}
