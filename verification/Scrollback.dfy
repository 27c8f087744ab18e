/**
 * The console scrollback buffer (class ConsoleCapture): a FIFO of at most
 * MAX_LINES display lines, each truncated to the display threshold when it
 * is appended. The process-wide instance of the source is an ordinary object
 * here, handed to every producer explicitly.
 */
module Scrollback {

  /** Capacity of the buffer (ConsoleCapture.h:14). */
  const MAX_LINES: nat := 15
  /** Truncation threshold before any SetMaxDisplayChars (ConsoleCapture.h:16). */
  const DEFAULT_MAX_DISPLAY_CHARS: int := 50
  const ELLIPSIS: string := "..."

  /**
   * The line AddLine stores for `line` under threshold `maxChars`.
   * The length test compares against maxChars converted to size_t, so a
   * negative threshold never truncates; a threshold of 0, 1 or 2 makes the
   * substr count negative, which converts to a huge size_t and keeps the
   * whole line before the ellipsis.
   */
  function Truncate(line: string, maxChars: int): (r: string)
    ensures maxChars < 0 || |line| <= maxChars ==> r == line
    ensures maxChars >= 3 && |line| > maxChars ==>
      |r| == maxChars && r[..maxChars - 3] == line[..maxChars - 3] && r[maxChars - 3..] == ELLIPSIS
    ensures 0 <= maxChars < 3 && |line| > maxChars ==> r == line + ELLIPSIS
    ensures maxChars >= 3 ==> |r| <= maxChars
  {
    if 0 <= maxChars < |line| then
      (if maxChars >= 3 then line[..maxChars - 3] else line) + ELLIPSIS
    else
      line
  }

  /** The buffer after one push_back of `s` and the conditional pop_front. */
  function Pushed(lines: seq<string>, s: string): (r: seq<string>)
    ensures |lines| <= MAX_LINES ==> |r| <= MAX_LINES
    ensures |r| > 0 && r[|r| - 1] == s
    ensures |lines| < MAX_LINES ==> r == lines + [s]
    ensures |lines| >= MAX_LINES ==> r == lines[1..] + [s] && |r| == |lines|
  {
    var grown := lines + [s];
    if |grown| > MAX_LINES then grown[1..] else grown
  }

  /** The buffer after AddLine(msgs[0]), ..., AddLine(msgs[|msgs|-1]) under a fixed threshold. */
  function Logged(lines: seq<string>, msgs: seq<string>, maxChars: int): (r: seq<string>)
    ensures |lines| <= MAX_LINES ==> |r| <= MAX_LINES
    ensures msgs != [] ==> |r| > 0 && r[|r| - 1] == Truncate(msgs[|msgs| - 1], maxChars)
    ensures msgs == [] ==> r == lines
    decreases |msgs|
  {
    if msgs == [] then lines
    else Logged(Pushed(lines, Truncate(msgs[0], maxChars)), msgs[1..], maxChars)
  }

  /** Logging a first message and then the rest is logging them all. */
  lemma LoggedCons(lines: seq<string>, msg: string, rest: seq<string>, maxChars: int)
    ensures Logged(lines, [msg] + rest, maxChars) == Logged(Pushed(lines, Truncate(msg, maxChars)), rest, maxChars)
  {
    assert ([msg] + rest)[1..] == rest;
  }

  /** Logging one message is one AddLine. */
  lemma LoggedOne(lines: seq<string>, msg: string, maxChars: int)
    ensures Logged(lines, [msg], maxChars) == Pushed(lines, Truncate(msg, maxChars))
  {
    assert [msg][1..] == [];
  }

  /** Each message as AddLine would store it. */
  function TruncateAll(msgs: seq<string>, maxChars: int): (r: seq<string>)
    ensures |r| == |msgs|
    decreases |msgs|
  {
    if msgs == [] then [] else [Truncate(msgs[0], maxChars)] + TruncateAll(msgs[1..], maxChars)
  }

  /** The last min(n, |s|) elements of s, oldest first. */
  function Newest<T>(s: seq<T>, n: nat): (r: seq<T>)
    ensures |r| == if |s| < n then |s| else n
  {
    if |s| <= n then s else s[|s| - n..]
  }

  /** Keeping the newest n of a suffix t of u that is at least that long is keeping the newest n of u. */
  lemma NewestOfLongSuffix<T>(t: seq<T>, u: seq<T>, v: seq<T>, n: nat)
    requires |t| <= |u| && t == u[|u| - |t|..]
    requires |t| >= n || |t| == |u|
    ensures Newest(t + v, n) == Newest(u + v, n)
  {
    if |t| == |u| {
      assert t == u;
    } else {
      assert (t + v) == (u + v)[|u| - |t|..];
    }
  }

  /**
   * Whatever is logged, the buffer ends up holding the MAX_LINES newest
   * stored lines in chronological order.
   */
  lemma {:induction false} LoggedKeepsNewest(lines: seq<string>, msgs: seq<string>, maxChars: int)
    requires |lines| <= MAX_LINES
    ensures Logged(lines, msgs, maxChars) == Newest(lines + TruncateAll(msgs, maxChars), MAX_LINES)
    decreases |msgs|
  {
    var all := TruncateAll(msgs, maxChars);
    if msgs == [] {
      assert lines + all == lines;
    } else {
      var head := Truncate(msgs[0], maxChars);
      var p := Pushed(lines, head);
      var rest := TruncateAll(msgs[1..], maxChars);
      var u := lines + [head];
      assert Logged(lines, msgs, maxChars) == Logged(p, msgs[1..], maxChars);
      LoggedKeepsNewest(p, msgs[1..], maxChars);
      assert all == [head] + rest;
      assert lines + all == u + rest;
      assert p == u[|u| - |p|..] && (|p| >= MAX_LINES || |p| == |u|);
      NewestOfLongSuffix(p, u, rest, MAX_LINES);
    }
  }

  class ConsoleCapture {
    /** Stored lines, oldest first (the source's deque). */
    var lines: seq<string>
    var maxDisplayChars: int

    ghost predicate Valid()
      reads this
    {
      |lines| <= MAX_LINES
    }

    /** A new buffer is empty and uses the default threshold. */
    constructor ()
      ensures Valid()
      ensures lines == [] && maxDisplayChars == DEFAULT_MAX_DISPLAY_CHARS
    {
      lines := [];
      maxDisplayChars := DEFAULT_MAX_DISPLAY_CHARS;
    }

    /** Changes the threshold for later appends only. */
    method SetMaxDisplayChars(maxChars: int)
      modifies this
      ensures maxDisplayChars == maxChars
      ensures lines == old(lines)
    {
      maxDisplayChars := maxChars;
    }

    /** Appends the truncated line, evicting the oldest line on overflow. */
    method AddLine(line: string)
      requires Valid()
      modifies this
      ensures Valid()
      ensures lines == Pushed(old(lines), Truncate(line, old(maxDisplayChars)))
      ensures maxDisplayChars == old(maxDisplayChars)
    {
      var truncated := line;
      if 0 <= maxDisplayChars && |truncated| > maxDisplayChars {
        if maxDisplayChars >= 3 {
          truncated := truncated[..maxDisplayChars - 3] + ELLIPSIS;
        } else {
          // a negative substr count wraps to a huge size_t: the whole line is kept
          truncated := truncated + ELLIPSIS;
        }
      }
      lines := lines + [truncated];
      if |lines| > MAX_LINES {
        lines := lines[1..];
      }
    }

    /** The stored lines, oldest first; nothing is changed. */
    method GetLines() returns (r: seq<string>)
      ensures r == lines
    {
      r := lines;
    }

    /** Empties the buffer and keeps the threshold. */
    method Clear()
      modifies this
      ensures Valid()
      ensures lines == [] && maxDisplayChars == old(maxDisplayChars)
    {
      lines := [];
    }
  }
}
