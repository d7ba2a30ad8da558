/**
  user/grep.c: the `^ . * $` matcher against the language a pattern denotes, and the
  line-splitting loop for every way `read` may cut the input. A C string is modelled by the
  characters before its NUL.
 */
module Grep {

  // ---------------------------------------------------------------- patterns and their language

  datatype Item = One(c: char) | Any | Star(c: char)

  /** A pattern after any leading '^': a row of items and whether '$' ends it. */
  datatype Pattern = Pattern(items: seq<Item>, toEnd: bool)

  predicate Fits(c: char, x: char) {
    c == '.' || c == x
  }

  /** '*' applies to the character before it, '$' is special only at the very end,
      anything else stands for itself or, for '.', for any character. */
  function Parse(re: string): Pattern {
    if re == [] then Pattern([], false)
    else if |re| > 1 && re[1] == '*' then
      var p := Parse(re[2..]);
      p.(items := [Star(re[0])] + p.items)
    else if re == "$" then Pattern([], true)
    else
      var p := Parse(re[1..]);
      p.(items := [if re[0] == '.' then Any else One(re[0])] + p.items)
  }

  predicate ItemMatches(item: Item, s: string) {
    match item
    case One(c) => s == [c]
    case Any => |s| == 1
    case Star(c) => forall i :: 0 <= i < |s| ==> Fits(c, s[i])
  }

  function Flatten(parts: seq<string>): string {
    if parts == [] then "" else parts[0] + Flatten(parts[1..])
  }

  ghost predicate Splits(items: seq<Item>, s: string, parts: seq<string>) {
    && |parts| == |items|
    && Flatten(parts) == s
    && forall i :: 0 <= i < |items| ==> ItemMatches(items[i], parts[i])
  }

  /** s is a row of pieces, one for each item. */
  ghost predicate InLanguage(items: seq<Item>, s: string) {
    exists parts :: Splits(items, s, parts)
  }

  /** Some prefix of s, all of s for patterns ending in '$', is in the language. */
  ghost predicate MatchesHere(p: Pattern, s: string) {
    if p.toEnd then InLanguage(p.items, s)
    else exists k :: 0 <= k <= |s| && InLanguage(p.items, s[..k])
  }

  ghost predicate Matches(re: string, text: string) {
    if re != [] && re[0] == '^' then MatchesHere(Parse(re[1..]), text)
    else exists k :: 0 <= k <= |text| && MatchesHere(Parse(re), text[k..])
  }

  // ---------------------------------------------------------------- decomposing a match

  lemma InLanguageNil(s: string)
    ensures InLanguage([], s) <==> s == ""
  {
    if s == "" { assert Splits([], s, []); }
  }

  lemma InLanguageCons(item: Item, rest: seq<Item>, s: string)
    ensures InLanguage([item] + rest, s) <==>
            exists k :: 0 <= k <= |s| && ItemMatches(item, s[..k]) && InLanguage(rest, s[k..])
  {
    var items := [item] + rest;
    if InLanguage(items, s) {
      var parts :| Splits(items, s, parts);
      var k := |parts[0]|;
      assert s[..k] == parts[0] && s[k..] == Flatten(parts[1..]);
      assert ItemMatches(items[0], parts[0]);
      forall i | 0 <= i < |rest| ensures ItemMatches(rest[i], parts[1..][i]) {
        assert items[i + 1] == rest[i];
      }
      assert Splits(rest, s[k..], parts[1..]);
    }
    if k :| 0 <= k <= |s| && ItemMatches(item, s[..k]) && InLanguage(rest, s[k..]) {
      var parts :| Splits(rest, s[k..], parts);
      assert ([s[..k]] + parts)[1..] == parts;
      assert Splits(items, s, [s[..k]] + parts);
    }
  }

  lemma ConsSplits(item: Item, rest: Pattern, s: string)
    requires MatchesHere(rest.(items := [item] + rest.items), s)
    ensures exists k :: 0 <= k <= |s| && ItemMatches(item, s[..k]) && MatchesHere(rest, s[k..])
  {
    var p := rest.(items := [item] + rest.items);
    if rest.toEnd {
      InLanguageCons(item, rest.items, s);
    } else {
      var n :| 0 <= n <= |s| && InLanguage(p.items, s[..n]);
      InLanguageCons(item, rest.items, s[..n]);
      var k :| 0 <= k <= n && ItemMatches(item, s[..n][..k]) && InLanguage(rest.items, s[..n][k..]);
      assert s[..n][..k] == s[..k] && s[..n][k..] == s[k..][..n - k];
    }
  }

  lemma ConsJoins(item: Item, rest: Pattern, s: string, k: nat)
    requires k <= |s| && ItemMatches(item, s[..k]) && MatchesHere(rest, s[k..])
    ensures MatchesHere(rest.(items := [item] + rest.items), s)
  {
    if rest.toEnd {
      InLanguageCons(item, rest.items, s);
    } else {
      var n :| 0 <= n <= |s[k..]| && InLanguage(rest.items, s[k..][..n]);
      assert s[..k + n][..k] == s[..k] && s[..k + n][k..] == s[k..][..n];
      InLanguageCons(item, rest.items, s[..k + n]);
    }
  }

  lemma ConsMatchesHere(item: Item, rest: Pattern, s: string)
    ensures MatchesHere(rest.(items := [item] + rest.items), s) <==>
            exists k :: 0 <= k <= |s| && ItemMatches(item, s[..k]) && MatchesHere(rest, s[k..])
  {
    if MatchesHere(rest.(items := [item] + rest.items), s) { ConsSplits(item, rest, s); }
    if k :| 0 <= k <= |s| && ItemMatches(item, s[..k]) && MatchesHere(rest, s[k..]) { ConsJoins(item, rest, s, k); }
  }

  /** The unfolding of a match that begins with a single-character item. */
  lemma SingleMatchesHere(item: Item, rest: Pattern, s: string)
    requires !item.Star?
    ensures MatchesHere(rest.(items := [item] + rest.items), s) <==>
            s != [] && ItemMatches(item, s[..1]) && MatchesHere(rest, s[1..])
  {
    ConsMatchesHere(item, rest, s);
    forall k | 0 <= k <= |s| && ItemMatches(item, s[..k]) ensures k == 1 { assert |s[..k]| == k; }
  }

  lemma EmptyMatchesHere(s: string)
    ensures MatchesHere(Pattern([], false), s)
    ensures MatchesHere(Pattern([], true), s) <==> s == ""
  {
    InLanguageNil("");
    InLanguageNil(s);
    assert s[..0] == "";
  }

  // ---------------------------------------------------------------- the matcher

  /** matchhere: does re match at the beginning of text? */
  method MatchHere(re: string, text: string) returns (r: bool)
    ensures r <==> MatchesHere(Parse(re), text)
    decreases |re|, 0
  {
    if re == [] {
      EmptyMatchesHere(text);
      return true;
    }
    if |re| > 1 && re[1] == '*' {
      r := MatchStar(re[0], re[2..], text);
      return;
    }
    if re == "$" {
      EmptyMatchesHere(text);
      return text == "";
    }
    SingleMatchesHere(if re[0] == '.' then Any else One(re[0]), Parse(re[1..]), text);
    if text != [] && (re[0] == '.' || re[0] == text[0]) {
      r := MatchHere(re[1..], text[1..]);
    } else {
      r := false;
    }
  }

  /** matchstar: does c*re match at the beginning of text? */
  method MatchStar(c: char, re: string, text: string) returns (r: bool)
    ensures r <==> MatchesHere(Parse(re).(items := [Star(c)] + Parse(re).items), text)
    decreases |re|, 1
  {
    ConsMatchesHere(Star(c), Parse(re), text);
    var i := 0;
    while true
      invariant 0 <= i <= |text|
      invariant ItemMatches(Star(c), text[..i])
      invariant forall k :: 0 <= k < i ==> !MatchesHere(Parse(re), text[k..])
      decreases |text| - i
    {
      r := MatchHere(re, text[i..]);
      if r { return; }
      if i == |text| { return; }
      if !(text[i] == c || c == '.') {
        forall k | i < k <= |text| ensures !ItemMatches(Star(c), text[..k]) {
          assert text[..k][i] == text[i];
        }
        return;
      }
      i := i + 1;
    }
  }

  /** match: returns 1 exactly when the text contains a match of the pattern. */
  method Match(re: string, text: string) returns (r: bool)
    ensures r <==> Matches(re, text)
  {
    if re != [] && re[0] == '^' {
      r := MatchHere(re[1..], text);
      return;
    }
    var i := 0;
    while true
      invariant 0 <= i <= |text|
      invariant forall k :: 0 <= k < i ==> !MatchesHere(Parse(re), text[k..])
      decreases |text| - i
    {
      r := MatchHere(re, text[i..]);
      if r || i == |text| { return; }
      i := i + 1;
    }
  }

  // ---------------------------------------------------------------- the line loop

  const BUFSIZE: nat := 1024

  /** Where strchr(s + i, '\n') stops: at a newline, or -1 when a NUL or the end comes first. */
  function NewlineFrom(s: string, i: nat): (k: int)
    requires i <= |s|
    ensures k == -1 || (i <= k < |s| && s[k] == '\n')
    decreases |s| - i
  {
    if i == |s| || s[i] == '\0' then -1
    else if s[i] == '\n' then i
    else NewlineFrom(s, i + 1)
  }

  /** What grep prints from position i on, for the lines that `hit` accepts: those lines, in order,
      up to the first line that is longer than BUFSIZE - 1 characters with its newline, contains a
      NUL, or lacks a newline. */
  function Selected(hit: string -> bool, s: string, i: nat): string
    requires i <= |s|
    decreases |s| - i
  {
    var k := NewlineFrom(s, i);
    if k < 0 || k - i + 1 >= BUFSIZE then ""
    else (if hit(s[i..k]) then s[i..k] + "\n" else "") + Selected(hit, s, k + 1)
  }

  // What Selected is, in terms of the lines of the input.

  /** A line that fits into the buffer with its newline. */
  predicate ShortLine(line: string) {
    '\n' !in line && '\0' !in line && |line| + 1 < BUFSIZE
  }

  predicate ShortLines(lines: seq<string>) {
    forall i :: 0 <= i < |lines| ==> ShortLine(lines[i])
  }

  /** Input at which grep gets stuck: no newline before the end, before a NUL or in the buffer. */
  predicate Stuck(s: string) {
    NewlineFrom(s, 0) < 0 || NewlineFrom(s, 0) + 1 >= BUFSIZE
  }

  function Joined(lines: seq<string>): string {
    if lines == [] then "" else lines[0] + "\n" + Joined(lines[1..])
  }

  function Hits(hit: string -> bool, lines: seq<string>): seq<string> {
    if lines == [] then [] else (if hit(lines[0]) then [lines[0]] else []) + Hits(hit, lines[1..])
  }

  lemma {:induction false} NewlineShift(a: string, s: string, i: nat)
    requires i <= |s|
    ensures NewlineFrom(a + s, |a| + i) == if NewlineFrom(s, i) < 0 then -1 else |a| + NewlineFrom(s, i)
    decreases |s| - i
  {
    if i < |s| {
      assert (a + s)[|a| + i] == s[i];
      NewlineShift(a, s, i + 1);
    }
  }

  /** What comes before position i does not matter. */
  lemma {:induction false} SelectedShift(hit: string -> bool, a: string, s: string, i: nat)
    requires i <= |s|
    ensures Selected(hit, a + s, |a| + i) == Selected(hit, s, i)
    decreases |s| - i
  {
    NewlineShift(a, s, i);
    var k, t := NewlineFrom(s, i), a + s;
    if k >= 0 && k - i + 1 < BUFSIZE {
      var line := if hit(s[i..k]) then s[i..k] + "\n" else "";
      assert t[|a| + i..|a| + k] == s[i..k];
      SelectedShift(hit, a, s, k + 1);
      assert Selected(hit, t, |a| + i) == line + Selected(hit, t, |a| + (k + 1));
      assert Selected(hit, s, i) == line + Selected(hit, s, k + 1);
    }
  }

  lemma {:induction false} LineEnd(line: string, rest: string, i: nat)
    requires ShortLine(line) && i <= |line|
    ensures NewlineFrom(line + "\n" + rest, i) == |line|
    decreases |line| - i
  {
    var s := line + "\n" + rest;
    if i < |line| {
      assert s[i] == line[i] && line[i] in line;
      LineEnd(line, rest, i + 1);
    } else {
      assert s[i] == '\n';
    }
  }

  /** grep prints the matching lines among the short ones, up to where it gets stuck. */
  lemma {:induction false} SelectedLines(hit: string -> bool, lines: seq<string>, rest: string)
    requires ShortLines(lines) && Stuck(rest)
    ensures Selected(hit, Joined(lines) + rest, 0) == Joined(Hits(hit, lines))
  {
    if lines == [] {
      assert Joined(lines) + rest == rest;
    } else {
      var line, tail := lines[0], Joined(lines[1..]) + rest;
      var s := line + "\n" + tail;
      assert Joined(lines) + rest == s;
      LineEnd(line, tail, 0);
      assert s[0..|line|] == line;
      SelectedShift(hit, line + "\n", tail, 0);
      SelectedLines(hit, lines[1..], rest);
      var more := Hits(hit, lines[1..]);
      assert Selected(hit, s, 0) == (if hit(line) then line + "\n" else "") + Joined(more);
      if hit(line) { assert ([line] + more)[1..] == more; } else { assert [] + more == more; }
    }
  }

  /** And every input is short lines followed by a place where grep is stuck. */
  lemma {:induction false} Decomposes(s: string) returns (lines: seq<string>, rest: string)
    ensures ShortLines(lines) && Stuck(rest) && s == Joined(lines) + rest
    decreases |s|
  {
    lines, rest := [], s;
    var k := NewlineFrom(s, 0);
    if !Stuck(s) {
      lines, rest := Decomposes(s[k + 1..]);
      FirstNewline(s, 0);
      assert s == s[..k] + "\n" + s[k + 1..];
      lines := [s[..k]] + lines;
    }
  }

  lemma {:induction false} FirstNewline(s: string, i: nat)
    requires i <= |s| && NewlineFrom(s, i) >= 0
    ensures forall j :: i <= j < NewlineFrom(s, i) ==> s[j] != '\n' && s[j] != '\0'
    decreases |s| - i
  {
    if s[i] != '\n' { FirstNewline(s, i + 1); }
  }

  /** The same, appended to what has been printed already. */
  function Printed(hit: string -> bool, s: string, i: nat, out: string): string
    requires i <= |s|
    decreases |s| - i
  {
    var k := NewlineFrom(s, i);
    if k < 0 || k - i + 1 >= BUFSIZE then out
    else Printed(hit, s, k + 1, out + if hit(s[i..k]) then s[i..k] + "\n" else "")
  }

  lemma Associates(a: string, b: string, c: string)
    ensures a + b + c == a + (b + c)
  {}

  lemma {:induction false} PrintedIsSelected(hit: string -> bool, s: string, i: nat, out: string)
    requires i <= |s|
    ensures Printed(hit, s, i, out) == out + Selected(hit, s, i)
    decreases |s| - i
  {
    var k := NewlineFrom(s, i);
    if k >= 0 && k - i + 1 < BUFSIZE {
      var line := if hit(s[i..k]) then s[i..k] + "\n" else "";
      PrintedIsSelected(hit, s, k + 1, out + line);
      Associates(out, line, Selected(hit, s, k + 1));
    }
  }

  /** buf[..m] is a window of the input at position `at`. */
  ghost predicate Window(buf: array<char>, lo: nat, m: nat, s: string, at: nat)
    reads buf
  {
    lo <= m < buf.Length && at + m <= |s| && forall i :: lo <= i < m ==> buf[i] == s[at + i]
  }

  /** strchr(p, '\n') over buf: what it finds is the next newline of the input, and when it finds
      none the input has none in the window either. */
  method FindNewline(buf: array<char>, p: nat, m: nat, ghost s: string, ghost at: nat) returns (q: int)
    requires Window(buf, p, m, s, at) && buf[m] == '\0'
    ensures q >= 0 ==> p <= q < m && buf[q] == '\n' && NewlineFrom(s, at + p) == at + q
    ensures q < 0 ==> NewlineFrom(s, at + p) == -1 || NewlineFrom(s, at + p) >= at + m
  {
    q := p;
    while buf[q] != '\0'
      invariant p <= q <= m
      invariant NewlineFrom(s, at + p) == NewlineFrom(s, at + q)
      decreases m - q
    {
      if buf[q] == '\n' { return; }
      q := q + 1;
    }
    q := -1;
  }

  /** hit is the pattern's own notion of a matching line. */
  ghost predicate Decides(hit: string -> bool, re: string) {
    forall t {:trigger Matches(re, t)} :: hit(t) <==> Matches(re, t)
  }

  /** Cut the line p..q out, match it, print it if it matches. */
  method PrintLine(re: string, buf: array<char>, p: nat, q: nat, ghost hit: string -> bool, ghost line: string)
    returns (out: string)
    requires p <= q < buf.Length && buf[q] == '\n' && Decides(hit, re) && line == buf[p..q]
    modifies buf
    ensures out == if hit(line) then line + "\n" else ""
    ensures forall i :: q < i < buf.Length ==> buf[i] == old(buf[i])
  {
    buf[q] := '\0';
    assert buf[p..q] == line;
    var found := Match(re, buf[p..q]);
    if found {
      buf[q] := '\n';
      out := buf[p..q + 1];
    } else {
      out := "";
    }
  }

  /** Process the complete lines of buf[..m] in place; p is where the unfinished line begins. */
  method PrintLines(re: string, buf: array<char>, m: nat, out: string, ghost hit: string -> bool, ghost s: string,
                    ghost at: nat)
    returns (out': string, p: nat)
    requires Window(buf, 0, m, s, at) && buf.Length == BUFSIZE && buf[m] == '\0' && Decides(hit, re)
    modifies buf
    ensures Window(buf, p, m, s, at)
    ensures NewlineFrom(s, at + p) == -1 || NewlineFrom(s, at + p) >= at + m
    ensures Printed(hit, s, at, out) == Printed(hit, s, at + p, out')
  {
    out', p := out, 0;
    while true
      invariant Window(buf, p, m, s, at) && buf[m] == '\0'
      invariant Printed(hit, s, at, out) == Printed(hit, s, at + p, out')
      decreases m - p
    {
      var q := FindNewline(buf, p, m, s, at);
      if q < 0 { return; }
      assert buf[p..q] == s[at + p..at + q];
      var line := PrintLine(re, buf, p, q, hit, s[at + p..at + q]);
      out' := out' + line;
      p := q + 1;
    }
  }

  /** read: some bytes of the input, 0 only without room or at its end. */
  method Read(input: string, pos: nat, buf: array<char>, m: nat) returns (n: nat)
    requires buf.Length == BUFSIZE && m <= pos <= |input| && Window(buf, 0, m, input, pos - m)
    modifies buf
    ensures m + n < BUFSIZE && pos + n <= |input| && (n == 0 ==> m == BUFSIZE - 1 || pos == |input|)
    ensures Window(buf, 0, m + n, input, pos - m)
  {
    var room := BUFSIZE - m - 1;
    n :| 0 <= n <= room && n <= |input| - pos && (n == 0 ==> room == 0 || pos == |input|);
    forall i | 0 <= i < n { buf[m + i] := input[pos + i]; }
  }

  /** memmove of the unfinished line to the start of the buffer. */
  method MoveDown(buf: array<char>, p: nat, m: nat, ghost s: string, ghost at: nat)
    requires Window(buf, p, m, s, at)
    modifies buf
    ensures Window(buf, 0, m - p, s, at + p)
  {
    forall i | 0 <= i < m - p { buf[i] := buf[p + i]; }
  }

  /** grep: whatever the sizes of the reads, the output is what the input as a whole selects. */
  method Grep(re: string, input: string, buf: array<char>, ghost hit: string -> bool) returns (out: string)
    requires buf.Length == BUFSIZE && Decides(hit, re)
    modifies buf
    ensures out == Selected(hit, input, 0)
  {
    out := "";
    var m: nat, pos: nat := 0, 0;
    PrintedIsSelected(hit, input, 0, "");
    while true
      invariant 0 <= m <= pos <= |input| && Window(buf, 0, m, input, pos - m)
      invariant NewlineFrom(input, pos - m) == -1 || NewlineFrom(input, pos - m) >= pos
      invariant Printed(hit, input, 0, "") == Printed(hit, input, pos - m, out)
      decreases |input| - pos
    {
      var n := Read(input, pos, buf, m);
      if n == 0 { return; }
      m, pos := m + n, pos + n;
      buf[m] := '\0';
      var p;
      out, p := PrintLines(re, buf, m, out, hit, input, pos - m);
      MoveDown(buf, p, m, input, pos - m);
      m := m - p;
    }
  }
}
