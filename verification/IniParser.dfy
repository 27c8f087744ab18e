/**
 * The INI reader parseINI (ConfigParser.cpp): each line of the file is
 * trimmed, blank lines and `#` comment lines are skipped, the rest is split
 * at its first `=`, the key is trimmed of blanks and the value of blanks and
 * double quotes, and the pair is stored, a later line overwriting an earlier
 * one with the same key. The file is given as its sequence of lines, or None
 * when it cannot be opened.
 */
module IniParser {
  import opened Wrappers
  import Scrollback

  /** The characters trimmed from lines and keys: " \t\r\n". */
  const BLANKS: set<char> := {' ', '\t', '\r', '\n'}
  /** The characters trimmed from values: the blanks and '"'. */
  const VALUE_STRIP: set<char> := BLANKS + {'"'}

  predicate AllIn(s: string, chars: set<char>) {
    forall i :: 0 <= i < |s| ==> s[i] in chars
  }

  /** Neither end of s is one of chars. */
  predicate NoPad(s: string, chars: set<char>) {
    s == [] || (s[0] !in chars && s[|s| - 1] !in chars)
  }

  /** The first position from k on whose character is not in chars, or |s| when there is none. */
  function FirstNotOfFrom(s: string, chars: set<char>, k: nat): (n: nat)
    requires k <= |s|
    ensures k <= n <= |s|
    ensures forall i :: k <= i < n ==> s[i] in chars
    ensures n < |s| ==> s[n] !in chars
    decreases |s| - k
  {
    if k == |s| || s[k] !in chars then k else FirstNotOfFrom(s, chars, k + 1)
  }

  /** `find_first_not_of`, with npos given as |s| (erasing up to npos empties the string). */
  function FirstNotOf(s: string, chars: set<char>): (n: nat)
    ensures n <= |s|
    ensures forall i :: 0 <= i < n ==> s[i] in chars
    ensures n < |s| ==> s[n] !in chars
  {
    FirstNotOfFrom(s, chars, 0)
  }

  /** The end of the last character before k that is not in chars, or 0 when there is none. */
  function EndNotOfBefore(s: string, chars: set<char>, k: nat): (n: nat)
    requires k <= |s|
    ensures n <= k
    ensures forall i :: n <= i < k ==> s[i] in chars
    ensures n > 0 ==> s[n - 1] !in chars
  {
    if k == 0 || s[k - 1] !in chars then k else EndNotOfBefore(s, chars, k - 1)
  }

  /** `find_last_not_of + 1`: the end of the last character not in chars, 0 when there is none. */
  function EndNotOf(s: string, chars: set<char>): (n: nat)
    ensures n <= |s|
    ensures forall i :: n <= i < |s| ==> s[i] in chars
    ensures n > 0 ==> s[n - 1] !in chars
  {
    EndNotOfBefore(s, chars, |s|)
  }

  /**
   * The two erase calls: drop the leading, then the trailing characters of
   * chars. The result has no such character at either end, and only such
   * characters were removed.
   */
  function Trim(s: string, chars: set<char>): (r: string)
    ensures NoPad(r, chars)
  {
    var a := FirstNotOf(s, chars);
    var t := s[a..];
    t[..EndNotOf(t, chars)]
  }

  /** Trimming removes only characters of chars: any other character is kept. */
  lemma {:induction false} TrimKeeps(s: string, chars: set<char>, c: char)
    requires c !in chars
    ensures c in Trim(s, chars) <==> c in s
  {
    var a := FirstNotOf(s, chars);
    var t := s[a..];
    var b := EndNotOf(t, chars);
    assert s == s[..a] + t[..b] + t[b..];
    assert c !in s[..a] && c !in t[b..];
  }

  /** No position other than FirstNotOf's answer meets its description. */
  lemma {:induction false} FirstNotOfUnique(s: string, n: nat, chars: set<char>)
    requires n <= |s| && (forall i :: 0 <= i < n ==> s[i] in chars) && (n < |s| ==> s[n] !in chars)
    ensures FirstNotOf(s, chars) == n
  {
  }

  lemma {:induction false} FirstNotOfPrefix(a: string, x: string, chars: set<char>)
    requires AllIn(a, chars)
    ensures FirstNotOf(a + x, chars) == |a| + FirstNotOf(x, chars)
  {
    var f := FirstNotOf(x, chars);
    assert forall i :: 0 <= i < |a| ==> (a + x)[i] == a[i];
    assert forall i :: 0 <= i <= |x| ==> (a + x)[|a| + i..] == x[i..];
    FirstNotOfUnique(a + x, |a| + f, chars);
  }

  lemma {:induction false} EndNotOfSuffix(x: string, b: string, chars: set<char>)
    requires AllIn(b, chars)
    ensures EndNotOf(x + b, chars) == EndNotOf(x, chars)
  {
    var e := EndNotOf(x, chars);
    var e' := EndNotOf(x + b, chars);
    assert forall i :: 0 <= i < |x| ==> (x + b)[i] == x[i];
    assert forall i :: |x| <= i < |x + b| ==> (x + b)[i] == b[i - |x|];
  }

  /** Characters of chars in front of a string do not survive trimming. */
  lemma {:induction false} TrimPrefix(a: string, x: string, chars: set<char>)
    requires AllIn(a, chars)
    ensures Trim(a + x, chars) == Trim(x, chars)
  {
    FirstNotOfPrefix(a, x, chars);
    assert (a + x)[|a| + FirstNotOf(x, chars)..] == x[FirstNotOf(x, chars)..];
  }

  /** Characters of chars after a string do not survive trimming. */
  lemma {:induction false} TrimSuffix(x: string, b: string, chars: set<char>)
    requires AllIn(b, chars)
    ensures Trim(x + b, chars) == Trim(x, chars)
  {
    var f := FirstNotOf(x, chars);
    if f < |x| {
      assert forall i :: 0 <= i < |x| ==> (x + b)[i] == x[i];
      FirstNotOfUnique(x + b, f, chars);
      var y := x[f..];
      assert (x + b)[f..] == y + b;
      EndNotOfSuffix(y, b, chars);
      assert (y + b)[..EndNotOf(y, chars)] == y[..EndNotOf(y, chars)];
    } else {
      FirstNotOfPrefix(x, b, chars);
      assert Trim(x, chars) == [];
      assert Trim(x + b, chars) == [];
    }
  }

  /** A string without padding is its own trim. */
  lemma {:induction false} TrimNoPad(x: string, chars: set<char>)
    requires NoPad(x, chars)
    ensures Trim(x, chars) == x
  {
    assert x[0..] == x;
  }

  /** Trimming recovers the core from any padding of characters of chars. */
  lemma {:induction false} TrimPadded(a: string, core: string, b: string, chars: set<char>)
    requires AllIn(a, chars) && AllIn(b, chars) && NoPad(core, chars)
    ensures Trim(a + core + b, chars) == core
  {
    assert a + core + b == a + (core + b);
    TrimPrefix(a, core + b, chars);
    TrimSuffix(core, b, chars);
    TrimNoPad(core, chars);
  }

  /** The first position from k on that holds c. */
  function FindFrom(s: string, c: char, k: nat): (r: Option<nat>)
    requires k <= |s|
    ensures r.None? ==> forall j :: k <= j < |s| ==> s[j] != c
    ensures r.Some? ==> k <= r.value < |s| && s[r.value] == c
    ensures r.Some? ==> forall j :: k <= j < r.value ==> s[j] != c
    decreases |s| - k
  {
    if k == |s| then None else if s[k] == c then Some(k) else FindFrom(s, c, k + 1)
  }

  /** The position of the first occurrence of c (std::string::find). */
  function Find(s: string, c: char): (r: Option<nat>)
    ensures r.None? <==> c !in s
    ensures r.Some? ==> r.value < |s| && s[r.value] == c
    ensures r.Some? ==> forall j :: 0 <= j < r.value ==> s[j] != c
  {
    FindFrom(s, c, 0)
  }

  /** No position other than Find's answer holds the first c. */
  lemma {:induction false} FindUnique(s: string, c: char, n: nat)
    requires n < |s| && s[n] == c && forall j :: 0 <= j < n ==> s[j] != c
    ensures Find(s, c) == Some(n)
  {
  }

  /** A line parseINI skips before looking for '=': only blanks, or '#' after leading blanks. */
  predicate Skipped(line: string) {
    AllIn(line, BLANKS)
    || exists k :: 0 <= k < |line| && line[k] == '#' && forall j :: 0 <= j < k ==> line[j] in BLANKS
  }

  datatype Entry = Entry(key: string, value: string)

  /**
   * One iteration of the parseINI loop: the entry a line yields, if any.
   * Its key holds no '=' and neither key nor value keeps padding at its ends.
   */
  function ParseLine(line: string): (r: Option<Entry>)
    ensures r.Some? ==> '=' !in r.value.key
    ensures r.Some? ==> NoPad(r.value.key, BLANKS) && NoPad(r.value.value, VALUE_STRIP)
  {
    var t := Trim(line, BLANKS);
    if t == [] || t[0] == '#' then None
    else match Find(t, '=')
      case None => None
      case Some(eq) =>
        TrimKeeps(t[..eq], BLANKS, '=');
        Some(Entry(Trim(t[..eq], BLANKS), Trim(t[eq + 1..], VALUE_STRIP)))
  }

  /** A line yields no entry exactly when it is blank, a comment or has no '='. */
  lemma {:induction false} ParseLineSkips(line: string)
    ensures ParseLine(line).None? <==> Skipped(line) || '=' !in line
  {
    SkippedIffTrimmed(line);
  }

  /** The trimmed line is empty or starts with '#' exactly for the skipped lines. */
  lemma {:induction false} SkippedIffTrimmed(line: string)
    ensures var t := Trim(line, BLANKS); t == [] || t[0] == '#' <==> Skipped(line)
  {
    var t := Trim(line, BLANKS);
    var f := FirstNotOf(line, BLANKS);
    var u := line[f..];
    assert t == u[..EndNotOf(u, BLANKS)];
    if t == [] {
      forall i | 0 <= i < |line|
        ensures line[i] in BLANKS
      {
        assert line[i] in line;
      }
    } else if t[0] == '#' {
      assert line[f] == '#';
    } else {
      assert line[f] == t[0];
      forall k | 0 <= k < |line| && line[k] == '#'
        ensures exists j :: 0 <= j < k && line[j] !in BLANKS
      {
        assert f < k && line[f] !in BLANKS;
      }
    }
  }

  /** When s holds a character outside chars, the trim starts at the first such character. */
  lemma {:induction false} TrimFront(s: string, chars: set<char>)
    requires FirstNotOf(s, chars) < |s|
    ensures Trim(s, chars) != [] && Trim(s, chars)[0] == s[FirstNotOf(s, chars)]
  {
    var t := s[FirstNotOf(s, chars)..];
    assert t[0] !in chars;
  }

  /** A line that is neither blank nor a comment once trimmed. */
  predicate HasContent(line: string) {
    Trim(line, BLANKS) != [] && Trim(line, BLANKS)[0] != '#'
  }

  /** Cutting a line at i, inside the window of length q starting at p. */
  lemma {:induction false} CutInsideWindow(line: string, p: nat, q: nat, i: nat)
    requires p <= i < p + q <= |line|
    ensures line[..i] == line[..p] + line[p..][..q][..i - p]
    ensures line[i + 1..] == line[p..][..q][i - p + 1..] + line[p..][q..]
  {
  }

  /** Where the trim of a line starts (p) and how long it is (q). */
  predicate TrimWindow(line: string, p: nat, q: nat) {
    p == FirstNotOf(line, BLANKS) && q == EndNotOf(line[p..], BLANKS)
  }

  /** The first '=' of a line with content lies in its trimmed part, and is the first '=' there too. */
  lemma {:induction false} EqualsInTrimmed(line: string, i: nat, p: nat, q: nat)
    requires Find(line, '=') == Some(i) && TrimWindow(line, p, q)
    ensures p <= i < p + q && Find(line[p..][..q], '=') == Some(i - p)
  {
    var u := line[p..];
    assert line[i] !in BLANKS;
    assert p <= i;
    assert u[i - p] == '=';
    assert i - p < q;
    assert forall j :: 0 <= j < i - p ==> u[..q][j] == line[p + j];
    FindUnique(u[..q], '=', i - p);
  }

  /** Trimming the key taken from the trimmed line is trimming it taken from the raw line. */
  lemma {:induction false} KeyAgrees(line: string, i: nat, p: nat, q: nat, t: string)
    requires TrimWindow(line, p, q) && p <= i < p + q && t == line[p..][..q]
    ensures Trim(t[..i - p], BLANKS) == Trim(line[..i], BLANKS)
  {
    CutInsideWindow(line, p, q, i);
    assert forall j :: 0 <= j < p ==> line[..p][j] == line[j];
    TrimPrefix(line[..p], line[p..][..q][..i - p], BLANKS);
  }

  /** Trimming the value taken from the trimmed line is trimming it taken from the raw line. */
  lemma {:induction false} ValueAgrees(line: string, i: nat, p: nat, q: nat, t: string)
    requires TrimWindow(line, p, q) && p <= i < p + q && t == line[p..][..q]
    ensures Trim(t[i - p + 1..], VALUE_STRIP) == Trim(line[i + 1..], VALUE_STRIP)
  {
    var u := line[p..];
    CutInsideWindow(line, p, q, i);
    assert forall j :: 0 <= j < |u| - q ==> u[q..][j] == u[q + j];
    TrimSuffix(u[..q][i - p + 1..], u[q..], VALUE_STRIP);
  }

  /**
   * Trimming the whole line first changes nothing: the entry is the part
   * before the first '=' trimmed of blanks and the part after it trimmed of
   * blanks and quotes.
   */
  lemma {:induction false} ParseLineSplit(line: string, i: nat)
    requires HasContent(line) && Find(line, '=') == Some(i)
    ensures ParseLine(line) == Some(Entry(Trim(line[..i], BLANKS), Trim(line[i + 1..], VALUE_STRIP)))
  {
    var p := FirstNotOf(line, BLANKS);
    var q := EndNotOf(line[p..], BLANKS);
    var t := line[p..][..q];
    EqualsInTrimmed(line, i, p, q);
    KeyAgrees(line, i, p, q, t);
    ValueAgrees(line, i, p, q, t);
    ParseTrimmed(line, t, i - p, Trim(line[..i], BLANKS), Trim(line[i + 1..], VALUE_STRIP));
  }

  /** ParseLine once the trimmed line, its first '=' and the trimmed key and value are known. */
  lemma {:induction false} ParseTrimmed(line: string, t: string, k: nat, key: string, value: string)
    requires t == Trim(line, BLANKS) && t != [] && t[0] != '#' && Find(t, '=') == Some(k)
    requires Trim(t[..k], BLANKS) == key && Trim(t[k + 1..], VALUE_STRIP) == value
    ensures ParseLine(line) == Some(Entry(key, value))
  {
  }

  /** A line whose trim is empty or starts with '#' yields nothing. */
  lemma {:induction false} SkipTrimmed(line: string, t: string)
    requires t == Trim(line, BLANKS) && (t == [] || t[0] == '#')
    ensures ParseLine(line) == None
  {
  }

  /** A line whose trim has no '=' yields nothing. */
  lemma {:induction false} NoEqualsTrimmed(line: string, t: string)
    requires t == Trim(line, BLANKS) && t != [] && t[0] != '#' && Find(t, '=') == None
    ensures ParseLine(line) == None
  {
  }

  /** ParseLineSplit, with the two halves of the line and their trims given. */
  lemma {:induction false} ParseSplitAs(line: string, i: nat, left: string, rest: string, key: string, value: string)
    requires HasContent(line) && Find(line, '=') == Some(i)
    requires line[..i] == left && line[i + 1..] == rest
    requires Trim(left, BLANKS) == key && Trim(rest, VALUE_STRIP) == value
    ensures ParseLine(line) == Some(Entry(key, value))
  {
    ParseLineSplit(line, i);
  }

  /** The halves of a line built around '='. */
  lemma {:induction false} Halves(line: string, left: string, rest: string)
    requires line == left + "=" + rest
    ensures |left| < |line| && line[|left|] == '='
    ensures line[..|left|] == left && line[|left| + 1..] == rest
  {
  }

  /** The first '=' of a line built around '=' from a left part without one. */
  lemma {:induction false} FirstEquals(line: string, left: string, rest: string)
    requires line == left + "=" + rest && '=' !in left
    ensures Find(line, '=') == Some(|left|)
  {
    Halves(line, left, rest);
    assert forall j :: 0 <= j < |left| ==> line[j] == left[j];
    FindUnique(line, '=', |left|);
  }

  /** Blanks around a key without '=' leave no '=' in the left part. */
  lemma {:induction false} NoEqualsLeft(a: string, key: string, b: string)
    requires AllIn(a, BLANKS) && AllIn(b, BLANKS) && '=' !in key
    ensures '=' !in a + key + b
  {
    assert '=' !in a && '=' !in b;
  }

  /** A line made of blanks, a key not starting with '#', blanks, and '=' onwards is not skipped. */
  lemma {:induction false} FormattedHasContent(a: string, key: string, b: string, rest: string, line: string)
    requires AllIn(a, BLANKS) && AllIn(b, BLANKS) && NoPad(key, BLANKS) && (key != [] ==> key[0] != '#')
    requires line == a + key + b + "=" + rest
    ensures HasContent(line)
  {
    FirstNotOfPrefix(a, key + b + "=" + rest, BLANKS);
    assert line == a + (key + b + "=" + rest);
    if key == [] {
      assert key + b + "=" + rest == b + ("=" + rest);
      FirstNotOfPrefix(b, "=" + rest, BLANKS);
      assert line[|a| + |b|] == '=';
    } else {
      assert line[|a|] == key[0];
    }
    TrimFront(line, BLANKS);
  }

  /**
   * Writing an entry as a line and reading it back gives the entry again,
   * whatever blanks surround the key and whatever blanks and quotes surround
   * the value.
   */
  lemma {:induction false} FormatParse(a: string, key: string, b: string, c: string, value: string, d: string)
    requires AllIn(a, BLANKS) && AllIn(b, BLANKS) && AllIn(c, VALUE_STRIP) && AllIn(d, VALUE_STRIP)
    requires NoPad(key, BLANKS) && '=' !in key && (key != [] ==> key[0] != '#')
    requires NoPad(value, VALUE_STRIP)
    ensures ParseLine(a + key + b + "=" + c + value + d) == Some(Entry(key, value))
  {
    var left := a + key + b;
    var rest := c + value + d;
    var line := left + "=" + rest;
    assert a + key + b + "=" + c + value + d == line;
    Halves(line, left, rest);
    NoEqualsLeft(a, key, b);
    FirstEquals(line, left, rest);
    FormattedHasContent(a, key, b, rest, line);
    TrimPadded(a, key, b, BLANKS);
    TrimPadded(c, value, d, VALUE_STRIP);
    ParseSplitAs(line, |left|, left, rest, key, value);
  }

  /** The entry, if any, that each line yields. */
  function ParseAll(lines: seq<string>): (rs: seq<Option<Entry>>)
    ensures |rs| == |lines|
    ensures forall i :: 0 <= i < |lines| ==> rs[i] == ParseLine(lines[i])
  {
    seq(|lines|, i requires 0 <= i < |lines| => ParseLine(lines[i]))
  }

  /** Storing the entries in order, a later entry overwriting an earlier one with the same key. */
  function Collect(rs: seq<Option<Entry>>): (m: map<string, string>)
    // every entry's key is in the map
    ensures forall i :: 0 <= i < |rs| && rs[i].Some? ==> rs[i].value.key in m
    // every key in the map holds the value of some entry for it
    ensures forall key :: key in m ==>
      exists i :: 0 <= i < |rs| && IsFor(rs[i], key) && rs[i].value.value == m[key]
    decreases |rs|
  {
    if rs == [] then map[]
    else
      var init := rs[..|rs| - 1];
      var before := Collect(init);
      assert forall i :: 0 <= i < |init| ==> init[i] == rs[i];
      match rs[|rs| - 1]
      case None => before
      case Some(e) => before[e.key := e.value]
  }

  /** The map the loop has built after the given lines. */
  function ParseLines(lines: seq<string>): map<string, string> {
    Collect(ParseAll(lines))
  }

  /** Entry r is for key. */
  predicate IsFor(r: Option<Entry>, key: string) {
    r.Some? && r.value.key == key
  }

  /** Line `line` yields an entry for key. */
  predicate Defines(line: string, key: string) {
    IsFor(ParseLine(line), key)
  }

  /** The keys collected are exactly the keys of the entries. */
  lemma {:induction false} CollectedKeys(rs: seq<Option<Entry>>, key: string)
    ensures key in Collect(rs) <==> exists i :: 0 <= i < |rs| && IsFor(rs[i], key)
    decreases |rs|
  {
    if rs != [] {
      var n := |rs| - 1;
      var init := rs[..n];
      CollectedKeys(init, key);
      if key in Collect(rs) {
        if !IsFor(rs[n], key) {
          var i :| 0 <= i < |init| && IsFor(init[i], key);
          assert IsFor(rs[i], key);
        }
      }
      if exists i :: 0 <= i < |rs| && IsFor(rs[i], key) {
        var i :| 0 <= i < |rs| && IsFor(rs[i], key);
        if i < n {
          assert IsFor(init[i], key);
        }
      }
    }
  }

  /** A key's collected value is that of the last entry for it. */
  lemma {:induction false} CollectedLast(rs: seq<Option<Entry>>, i: nat, key: string)
    requires i < |rs| && IsFor(rs[i], key)
    requires forall j :: i < j < |rs| ==> !IsFor(rs[j], key)
    ensures key in Collect(rs) && Collect(rs)[key] == rs[i].value.value
    decreases |rs|
  {
    var init := rs[..|rs| - 1];
    if i < |rs| - 1 {
      forall j | i < j < |init|
        ensures !IsFor(init[j], key)
      {
        assert init[j] == rs[j];
      }
      CollectedLast(init, i, key);
      assert !IsFor(rs[|rs| - 1], key);
    }
  }

  /** The keys of the map are exactly the keys some line defines. */
  lemma {:induction false} ParsedKeys(lines: seq<string>, key: string)
    ensures key in ParseLines(lines) <==> exists i :: 0 <= i < |lines| && Defines(lines[i], key)
  {
    var rs := ParseAll(lines);
    CollectedKeys(rs, key);
    if key in ParseLines(lines) {
      var i :| 0 <= i < |rs| && IsFor(rs[i], key);
      assert Defines(lines[i], key);
    }
    if exists i :: 0 <= i < |lines| && Defines(lines[i], key) {
      var i :| 0 <= i < |lines| && Defines(lines[i], key);
      assert IsFor(rs[i], key);
    }
  }

  /** A key's value is the one given by the last line that defines it. */
  lemma {:induction false} LastDefinitionWins(lines: seq<string>, i: nat, key: string)
    requires i < |lines| && Defines(lines[i], key)
    requires forall j :: i < j < |lines| ==> !Defines(lines[j], key)
    ensures key in ParseLines(lines) && ParseLines(lines)[key] == ParseLine(lines[i]).value.value
  {
    var rs := ParseAll(lines);
    forall j | i < j < |rs|
      ensures !IsFor(rs[j], key)
    {
      assert !Defines(lines[j], key);
    }
    CollectedLast(rs, i, key);
  }

  /** Reading one more line: the map changes only by that line's entry. */
  lemma {:induction false} ParseLinesSnoc(lines: seq<string>, line: string)
    ensures ParseLine(line).None? ==> ParseLines(lines + [line]) == ParseLines(lines)
    ensures ParseLine(line).Some? ==>
      ParseLines(lines + [line]) == ParseLines(lines)[ParseLine(line).value.key := ParseLine(line).value.value]
  {
    var rs := ParseAll(lines + [line]);
    assert rs[..|lines|] == ParseAll(lines);
  }

  /**
   * The line `player_speed = "250.5"  # comment`: the quotes around the
   * number are not a pair, so only the opening one is stripped, and the
   * trailing comment stays in the value.
   */
  lemma {:induction false} InlineCommentKept()
    ensures ParseLine("player_speed = \"250.5\"  # comment")
      == Some(Entry("player_speed", "250.5\"  # comment"))
  {
    var key := "player_speed";
    var value := "250.5\"  # comment";
    assert "player_speed = \"250.5\"  # comment" == [] + key + " " + "=" + " \"" + value + [];
    assert NoPad(key, BLANKS) && '=' !in key;
    assert NoPad(value, VALUE_STRIP);
    FormatParse([], key, " ", " \"", value, []);
  }

  /**
   * The body of the parseINI loop for one raw line: trim it, skip it when
   * blank or a comment, find its first '=', skip it when there is none, and
   * trim the key and the value. The entry is the one ParseLine gives.
   */
  method ReadEntry(raw: string) returns (r: Option<Entry>)
    ensures r == ParseLine(raw)
  {
    var line := raw[FirstNotOf(raw, BLANKS)..];
    line := line[..EndNotOf(line, BLANKS)];
    if line == [] || line[0] == '#' {
      SkipTrimmed(raw, line);
      return None;
    }
    var eq := Find(line, '=');
    if eq.None? {
      NoEqualsTrimmed(raw, line);
      return None;
    }
    var key := line[..eq.value];
    var value := line[eq.value + 1..];
    key := key[FirstNotOf(key, BLANKS)..];
    key := key[..EndNotOf(key, BLANKS)];
    value := value[FirstNotOf(value, VALUE_STRIP)..];
    value := value[..EndNotOf(value, VALUE_STRIP)];
    ParseTrimmed(raw, line, eq.value, key, value);
    return Some(Entry(key, value));
  }

  /**
   * parseINI: with no file, logs "Failed to open " and the path and gives
   * the empty map; otherwise reads every line in order into the map and logs
   * nothing.
   */
  method ParseIni(file: Option<seq<string>>, path: string, console: Scrollback.ConsoleCapture)
    returns (result: map<string, string>)
    requires console.Valid()
    modifies console
    ensures console.Valid() && console.maxDisplayChars == old(console.maxDisplayChars)
    ensures file.None? ==>
      && result == map[]
      && console.lines == Scrollback.Pushed(old(console.lines),
                                            Scrollback.Truncate("Failed to open " + path, old(console.maxDisplayChars)))
    ensures file.Some? ==> result == ParseLines(file.value) && console.lines == old(console.lines)
  {
    result := map[];
    if file.None? {
      var errorMsg := "Failed to open " + path;
      console.AddLine(errorMsg);
      return;
    }
    var lines := file.value;
    var i := 0;
    while i < |lines|
      invariant 0 <= i <= |lines|
      invariant result == ParseLines(lines[..i])
      invariant unchanged(console)
    {
      var raw := lines[i];
      assert lines[..i + 1] == lines[..i] + [raw];
      ParseLinesSnoc(lines[..i], raw);
      i := i + 1;
      var entry := ReadEntry(raw);
      if entry.Some? {
        result := result[entry.value.key := entry.value.value];
      }
    }
    assert lines[..|lines|] == lines;
  }
}
