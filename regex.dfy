/**
 * The regular expressions of the pgbench log parsers, and Python's `re.match` on them.
 *
 * Every pattern the parsers compile is a literal text with capture groups in it, anchored
 * at the start of the line by `^`.  A pattern is written here as a sequence of tokens: one
 * token per literal character (the escaped `\(` and `\)` are the characters `(` and `)`),
 * and one token per capture group.  Four group shapes occur:
 *   `(\d+.\d+)`      Decimal        digits, one character other than a newline, digits
 *   `(\d+.)`         DigitsAny      digits, one character other than a newline
 *   `(\d+)`          Digits         digits
 *   `(\d+.\d+|NaN)`  DecimalOrNaN   only as the last token of a pattern
 *
 * `Matches` says what `re.match(pattern, line)` accepts and which substrings its groups
 * capture; `Match` computes it.  `re.match` is a prefix match, so anything may follow the
 * matched text.  A backtracking engine returns the first way of matching it finds; when
 * every group but a trailing one is followed by a space and then a character that is
 * neither a digit nor a space (`WellFormed`), there is only one way, so which one the
 * engine finds first does not matter.  For the trailing `(\d+.\d+|NaN)` the left
 * alternative is tried first and its greedy `\d+` loops make it the longest prefix of
 * that shape; "NaN" is captured only when no such prefix exists.
 */
module Regex {
  import opened Wrappers

  /** What `\d` accepts (ASCII digits). */
  predicate IsDigit(c: char) { '0' <= c <= '9' }

  /** What `.` accepts: any character but a newline. */
  predicate IsAny(c: char) { c != '\n' }

  /** Every index in [i, j) is a position of s that holds a digit. */
  ghost predicate DigitsIn(s: string, i: int, j: int) {
    forall t :: i <= t < j ==> 0 <= t < |s| && IsDigit(s[t])
  }

  /** The strings `\d+.\d+` accepts. */
  ghost predicate IsDecimal(g: string) {
    exists m :: 1 <= m < |g| - 1 && DigitsIn(g, 0, m) && IsAny(g[m]) && DigitsIn(g, m + 1, |g|)
  }

  /** The strings `\d+.` accepts. */
  ghost predicate IsDigitsAny(g: string) {
    |g| >= 2 && DigitsIn(g, 0, |g| - 1) && IsAny(g[|g| - 1])
  }

  /** The strings `\d+` accepts. */
  ghost predicate IsDigits(g: string) {
    |g| >= 1 && DigitsIn(g, 0, |g|)
  }

  datatype Token =
    | Char(c: char)
    | Decimal
    | DigitsAny
    | Digits
    | DecimalOrNaN

  type Pattern = seq<Token>

  /** The tokens of a literal text. */
  function Text(s: string): (p: Pattern)
    ensures |p| == |s| && forall i :: 0 <= i < |s| ==> p[i] == Char(s[i])
  {
    seq(|s|, i requires 0 <= i < |s| => Char(s[i]))
  }

  /** The tokens of two texts written one after the other, as Python joins adjacent string literals. */
  lemma TextConcat(a: string, b: string)
    ensures Text(a + b) == Text(a) + Text(b)
  {
  }

  /** The number of capture groups of a pattern, which is the length of `match.groups()`. */
  function GroupCount(p: Pattern): nat
  {
    if p == [] then 0 else (if p[0].Char? then 0 else 1) + GroupCount(p[1..])
  }

  /** The substrings a group accepts on its own. */
  ghost predicate Captures(t: Token, g: string) {
    match t
    case Char(_) => false
    case Decimal => IsDecimal(g)
    case DigitsAny => IsDigitsAny(g)
    case Digits => IsDigits(g)
    case DecimalOrNaN => IsDecimal(g) || g == "NaN"
  }

  /**
   * What a trailing `(\d+.\d+|NaN)` captures at the start of `line`: the longest prefix of
   * shape `\d+.\d+`, or "NaN" when the line has no prefix of that shape.
   */
  ghost predicate LongestDecimalOrNaN(line: string, g: string) {
    g <= line &&
    if IsDecimal(g) then forall e :: 0 <= e <= |line| && IsDecimal(line[..e]) ==> e <= |g|
    else g == "NaN" && forall e :: 0 <= e <= |line| ==> !IsDecimal(line[..e])
  }

  /** `re.match(p, line)` succeeds and `match.groups()` is `caps`. */
  ghost predicate Matches(p: Pattern, line: string, caps: seq<string>)
    decreases |p|
  {
    if p == [] then caps == []
    else if p[0].Char? then |line| > 0 && line[0] == p[0].c && Matches(p[1..], line[1..], caps)
    else
      |caps| > 0 && caps[0] <= line &&
      (if p[0] == DecimalOrNaN then LongestDecimalOrNaN(line, caps[0]) else Captures(p[0], caps[0])) &&
      Matches(p[1..], line[|caps[0]|..], caps[1..])
  }

  /** A character that may follow the space after a group: neither a digit nor a space. */
  predicate Stop(x: char) { !IsDigit(x) && x != ' ' }

  /**
   * Every group but a trailing `(\d+.\d+|NaN)` is followed by a space and a `Stop`
   * character, and `(\d+.\d+|NaN)` comes last.
   */
  predicate WellFormed(p: Pattern)
    decreases |p|
  {
    if p == [] then true
    else if p[0].Char? then WellFormed(p[1..])
    else if p[0] == DecimalOrNaN then |p| == 1
    else |p| >= 3 && p[1] == Char(' ') && p[2].Char? && Stop(p[2].c) && WellFormed(p[1..])
  }

  /** The line continues at e with a space and then x. */
  predicate Follows(line: string, e: nat, x: char) {
    e + 2 <= |line| && line[e] == ' ' && line[e + 1] == x
  }

  /** The end of the run of digits that starts at i. */
  function RunEnd(s: string, i: nat): (k: nat)
    requires i <= |s|
    ensures i <= k <= |s| && DigitsIn(s, i, k)
    ensures k < |s| ==> !IsDigit(s[k])
    decreases |s| - i
  {
    if i < |s| && IsDigit(s[i]) then RunEnd(s, i + 1) else i
  }

  lemma RunEndCovers(s: string, i: nat, j: nat)
    requires i <= j <= |s| && DigitsIn(s, i, j)
    ensures j <= RunEnd(s, i)
  {
  }

  lemma RunEndStops(s: string, i: nat, j: nat)
    requires i <= j <= |s| && DigitsIn(s, i, j) && (j < |s| ==> !IsDigit(s[j]))
    ensures RunEnd(s, i) == j
  {
    RunEndCovers(s, i, j);
  }

  /** A witness split of a decimal prefix, stated on the line itself. */
  lemma DecimalSplit(line: string, e: nat) returns (m: nat)
    requires e <= |line| && IsDecimal(line[..e])
    ensures 1 <= m && m + 2 <= e
    ensures DigitsIn(line, 0, m) && IsAny(line[m]) && DigitsIn(line, m + 1, e)
  {
    var g := line[..e];
    m :| 1 <= m < |g| - 1 && DigitsIn(g, 0, m) && IsAny(g[m]) && DigitsIn(g, m + 1, |g|);
    assert forall t :: 0 <= t < e ==> line[t] == g[t];
  }

  lemma DecimalOf(line: string, m: nat, e: nat)
    requires 1 <= m && m + 2 <= e <= |line|
    requires DigitsIn(line, 0, m) && IsAny(line[m]) && DigitsIn(line, m + 1, e)
    ensures IsDecimal(line[..e])
  {
    var g := line[..e];
    assert DigitsIn(g, 0, m) && IsAny(g[m]) && DigitsIn(g, m + 1, |g|);
  }

  /** A string of digits, one character other than a newline at m, and digits has the shape `\d+.\d+`. */
  lemma DecimalText(g: string, m: nat)
    requires 1 <= m && m + 2 <= |g| && DigitsIn(g, 0, m) && IsAny(g[m]) && DigitsIn(g, m + 1, |g|)
    ensures IsDecimal(g)
  {
    DecimalOf(g, m, |g|);
    assert g[..|g|] == g;
  }

  /** The two ways a prefix of the line can have the shape `\d+.\d+`, given where its digits end. */
  predicate SplitAfterRun(line: string) {
    var k := RunEnd(line, 0);
    1 <= k && k + 1 < |line| && IsAny(line[k]) && IsDigit(line[k + 1])
  }

  lemma DecimalPrefixShape(line: string, e: nat)
    requires e <= |line| && IsDecimal(line[..e])
    ensures SplitAfterRun(line) || 3 <= RunEnd(line, 0)
    ensures SplitAfterRun(line) ==> e <= RunEnd(line, RunEnd(line, 0) + 1)
    ensures !SplitAfterRun(line) ==> e <= RunEnd(line, 0)
  {
    var m := DecimalSplit(line, e);
    var k := RunEnd(line, 0);
    RunEndCovers(line, 0, m);
    if m == k {
      assert IsDigit(line[k + 1]);
      RunEndCovers(line, k + 1, e);
    } else {
      assert IsDigit(line[m]);
      assert DigitsIn(line, 0, e);
      RunEndCovers(line, 0, e);
    }
  }

  lemma CandidatesAreDecimal(line: string)
    ensures SplitAfterRun(line) ==>
      var k := RunEnd(line, 0);
      k + 2 <= RunEnd(line, k + 1) && IsDecimal(line[..RunEnd(line, k + 1)])
    ensures 3 <= RunEnd(line, 0) ==> IsDecimal(line[..RunEnd(line, 0)])
  {
    var k := RunEnd(line, 0);
    if SplitAfterRun(line) {
      RunEndCovers(line, k + 1, k + 2);
      DecimalOf(line, k, RunEnd(line, k + 1));
    }
    if 3 <= k {
      DecimalOf(line, 1, k);
    }
  }

  /** Where a group that is followed by a space and x ends, if it matches at the start of the line. */
  function GroupEnd(t: Token, line: string, x: char): (r: Option<nat>)
    requires t == Decimal || t == DigitsAny || t == Digits
    ensures r.Some? ==> r.value <= |line| && Captures(t, line[..r.value]) && Follows(line, r.value, x)
  {
    var k := RunEnd(line, 0);
    if t == Decimal then
      if SplitAfterRun(line) then
        var e := RunEnd(line, k + 1);
        CandidatesAreDecimal(line);
        if Follows(line, e, x) then Some(e) else None
      else if 3 <= k && Follows(line, k, x) then
        CandidatesAreDecimal(line);
        Some(k)
      else None
    else if t == DigitsAny then
      if 1 <= k < |line| && IsAny(line[k]) && Follows(line, k + 1, x) then
        assert line[..k + 1][..k] == line[..k];
        Some(k + 1)
      else if 2 <= k && Follows(line, k, x) then Some(k)
      else None
    else
      if 1 <= k && Follows(line, k, x) then Some(k) else None
  }

  lemma GroupEndComplete(t: Token, line: string, x: char, e: nat)
    requires t == Decimal || t == DigitsAny || t == Digits
    requires Stop(x) && e <= |line| && Captures(t, line[..e]) && Follows(line, e, x)
    ensures GroupEnd(t, line, x) == Some(e)
  {
    var k := RunEnd(line, 0);
    if t == Decimal {
      var m := DecimalSplit(line, e);
      RunEndCovers(line, 0, m);
      if m == k {
        assert IsDigit(line[k + 1]);
        RunEndStops(line, k + 1, e);
      } else {
        assert IsDigit(line[m]);
        assert DigitsIn(line, 0, e);
        RunEndStops(line, 0, e);
      }
    } else if t == DigitsAny {
      var g := line[..e];
      assert forall i :: 0 <= i < e ==> line[i] == g[i];
      if IsDigit(line[e - 1]) {
        RunEndStops(line, 0, e);
      } else {
        RunEndStops(line, 0, e - 1);
      }
    } else {
      var g := line[..e];
      assert forall i :: 0 <= i < e ==> line[i] == g[i];
      RunEndStops(line, 0, e);
    }
  }

  /** Where a trailing `(\d+.\d+|NaN)` ends, if it matches at the start of the line. */
  function LongestEnd(line: string): (r: Option<nat>)
    ensures r.Some? ==> r.value <= |line| && LongestDecimalOrNaN(line, line[..r.value])
  {
    var k := RunEnd(line, 0);
    CandidatesAreDecimal(line);
    if SplitAfterRun(line) then
      var e := RunEnd(line, k + 1);
      LongestBound(line, e);
      Some(e)
    else if 3 <= k then
      LongestBound(line, k);
      Some(k)
    else if "NaN" <= line then
      NoDecimalPrefix(line);
      Some(3)
    else None
  }

  lemma LongestBound(line: string, e0: nat)
    requires e0 == if SplitAfterRun(line) then RunEnd(line, RunEnd(line, 0) + 1) else RunEnd(line, 0)
    ensures forall e :: 0 <= e <= |line| && IsDecimal(line[..e]) ==> e <= e0
  {
    forall e | 0 <= e <= |line| && IsDecimal(line[..e]) ensures e <= e0 {
      DecimalPrefixShape(line, e);
    }
  }

  lemma NoDecimalPrefix(line: string)
    requires !SplitAfterRun(line) && RunEnd(line, 0) < 3
    ensures forall e :: 0 <= e <= |line| ==> !IsDecimal(line[..e])
  {
    forall e | 0 <= e <= |line| ensures !IsDecimal(line[..e]) {
      DecimalPrefixNeeds(line, e);
    }
  }

  lemma DecimalPrefixNeeds(line: string, e: nat)
    requires e <= |line|
    ensures IsDecimal(line[..e]) ==> SplitAfterRun(line) || 3 <= RunEnd(line, 0)
  {
    if IsDecimal(line[..e]) {
      DecimalPrefixShape(line, e);
    }
  }

  lemma LongestEndComplete(line: string, g: string)
    requires LongestDecimalOrNaN(line, g)
    ensures LongestEnd(line) == Some(|g|)
  {
    CandidatesAreDecimal(line);
    if IsDecimal(g) {
      assert line[..|g|] == g;
      DecimalPrefixShape(line, |g|);
      var r := LongestEnd(line);
      assert IsDecimal(line[..r.value]);
    }
  }

  /**
   * The matcher: `Some(caps)` when `re.match(p, line)` succeeds with groups `caps`.
   * `MatchComplete` is the converse, so `Match` and `Matches` agree on every line.
   */
  function Match(p: Pattern, line: string): (r: Option<seq<string>>)
    requires WellFormed(p)
    ensures r.Some? ==> Matches(p, line, r.value) && |r.value| == GroupCount(p)
    decreases |p|
  {
    if p == [] then Some([])
    else if p[0].Char? then
      if |line| > 0 && line[0] == p[0].c then Match(p[1..], line[1..]) else None
    else if p[0] == DecimalOrNaN then
      match LongestEnd(line)
      case None => None
      case Some(e) => Some([line[..e]])
    else
      match GroupEnd(p[0], line, p[2].c)
      case None => None
      case Some(e) =>
        match Match(p[1..], line[e..])
        case None => None
        case Some(rest) => Some([line[..e]] + rest)
  }

  lemma {:induction false} MatchComplete(p: Pattern, line: string, caps: seq<string>)
    requires WellFormed(p) && Matches(p, line, caps)
    ensures Match(p, line) == Some(caps)
    decreases |p|
  {
    if p == [] {
    } else if p[0].Char? {
      MatchComplete(p[1..], line[1..], caps);
    } else if p[0] == DecimalOrNaN {
      LongestEndComplete(line, caps[0]);
      assert p[1..] == [] && caps[1..] == [];
      assert line[..|caps[0]|] == caps[0];
      assert |caps| == 1;
      assert caps == [line[..|caps[0]|]];
    } else {
      var e := |caps[0]|;
      assert line[..e] == caps[0];
      var q := p[1..];
      assert q[0] == Char(' ') && q[1] == p[2];
      assert Matches(q[1..], line[e..][1..], caps[1..]);
      assert Follows(line, e, p[2].c);
      GroupEndComplete(p[0], line, p[2].c, e);
      MatchComplete(q, line[e..], caps[1..]);
      assert GroupEnd(p[0], line, p[2].c) == Some(e);
      assert Match(q, line[e..]) == Some(caps[1..]);
      assert caps == [line[..e]] + caps[1..];
    }
  }

  /* Lemmas for patterns built from literal texts and groups. */

  lemma {:induction false} TextPrefix(s: string, rest: Pattern)
    ensures WellFormed(Text(s) + rest) == WellFormed(rest)
    ensures GroupCount(Text(s) + rest) == GroupCount(rest)
    decreases |s|
  {
    if s == [] {
      assert Text(s) + rest == rest;
    } else {
      assert (Text(s) + rest)[1..] == Text(s[1..]) + rest;
      TextPrefix(s[1..], rest);
    }
  }

  lemma {:induction false} MatchesText(s: string, rest: Pattern, line: string, caps: seq<string>)
    ensures Matches(Text(s) + rest, line, caps) <==> s <= line && Matches(rest, line[|s|..], caps)
    decreases |s|
  {
    if s == [] {
      assert Text(s) + rest == rest;
    } else {
      var p := Text(s) + rest;
      assert p[0] == Char(s[0]);
      assert p[1..] == Text(s[1..]) + rest;
      if |line| > 0 && line[0] == s[0] {
        MatchesText(s[1..], rest, line[1..], caps);
        if |s| <= |line| {
          assert line[1..][|s| - 1..] == line[|s|..];
          assert s <= line <==> s[1..] <= line[1..];
        }
      }
    }
  }

  /** A group other than the trailing one, followed by a space and a `Stop` character. */
  predicate InnerGroup(t: Token) { t == Decimal || t == DigitsAny || t == Digits }

  lemma GroupPrefix(t: Token, rest: Pattern, line: string, caps: seq<string>)
    requires InnerGroup(t)
    ensures Matches([t] + rest, line, caps) <==>
      |caps| > 0 && caps[0] <= line && Captures(t, caps[0]) && Matches(rest, line[|caps[0]|..], caps[1..])
    ensures GroupCount([t] + rest) == 1 + GroupCount(rest)
    ensures |rest| >= 2 && rest[0] == Char(' ') && rest[1].Char? && Stop(rest[1].c) ==>
      WellFormed([t] + rest) == WellFormed(rest)
  {
    assert ([t] + rest)[1..] == rest;
  }

  /**
   * A pattern with one group between two literal texts matches exactly the lines that
   * begin with the first text, a substring the group accepts, and the second text.
   */
  lemma OneGroup(a: string, t: Token, b: string, line: string, cap: string)
    requires InnerGroup(t) && |b| >= 2 && b[0] == ' ' && Stop(b[1])
    ensures WellFormed(Text(a) + ([t] + Text(b)))
    ensures GroupCount(Text(a) + ([t] + Text(b))) == 1
    ensures Match(Text(a) + ([t] + Text(b)), line) == Some([cap]) <==> Captures(t, cap) && a + cap + b <= line
  {
    var seps := [a, b];
    assert Separated(seps, [t]);
    assert Interleave(seps, [t], []) == Text(a) + ([t] + Text(b)) by {
      assert seps[1..] == [b] && [t][1..] == [];
      assert Interleave([b], [], []) == Text(b) + [];
    }
    InterleaveMatch(seps, [t], line, [cap]);
    assert Fill(seps, [cap]) == a + cap + b by {
      assert seps[1..] == [b] && [cap][1..] == [];
    }
  }

  /** Text after a match does not change it, when the pattern has no trailing `(\d+.\d+|NaN)`. */
  lemma {:induction false} MatchesExtend(p: Pattern, line: string, suffix: string, caps: seq<string>)
    requires forall i :: 0 <= i < |p| ==> p[i] != DecimalOrNaN
    requires Matches(p, line, caps)
    ensures Matches(p, line + suffix, caps)
    decreases |p|
  {
    if p != [] {
      if p[0].Char? {
        assert (line + suffix)[1..] == line[1..] + suffix;
        MatchesExtend(p[1..], line[1..], suffix, caps);
      } else {
        var e := |caps[0]|;
        assert (line + suffix)[e..] == line[e..] + suffix;
        MatchesExtend(p[1..], line[e..], suffix, caps[1..]);
      }
    }
  }

  /* Patterns with several groups: texts and groups taking turns. */

  /** `seps[0] (g0) seps[1] (g1) ... seps[n]`, followed by the tokens `rest`. */
  function Interleave(seps: seq<string>, groups: seq<Token>, rest: Pattern): Pattern
    requires |seps| == |groups| + 1
    decreases |groups|
  {
    if groups == [] then Text(seps[0]) + rest
    else Text(seps[0]) + ([groups[0]] + Interleave(seps[1..], groups[1..], rest))
  }

  /** The text `seps[0] caps[0] seps[1] ... seps[n]` such a pattern matches. */
  function Fill(seps: seq<string>, caps: seq<string>): string
    requires |seps| == |caps| + 1
    decreases |caps|
  {
    if caps == [] then seps[0] else seps[0] + caps[0] + Fill(seps[1..], caps[1..])
  }

  /** Every group is an inner one, and every text after a group opens with a space and a `Stop` character. */
  predicate Separated(seps: seq<string>, groups: seq<Token>) {
    (forall i :: 0 <= i < |groups| ==> InnerGroup(groups[i])) &&
    (forall i :: 1 <= i < |seps| ==> |seps[i]| >= 2 && seps[i][0] == ' ' && Stop(seps[i][1]))
  }

  lemma PrefixConcat(a: string, b: string, line: string)
    ensures a + b <= line <==> a <= line && b <= line[|a|..]
  {
    if a + b <= line {
      assert line[..|a|] == (a + b)[..|a|] == a;
      assert line[|a|..][..|b|] == (a + b)[|a|..] == b;
    }
    if a <= line && b <= line[|a|..] {
      assert line[..|a| + |b|] == line[..|a|] + line[|a|..][..|b|];
    }
  }

  lemma {:induction false} InterleaveShape(seps: seq<string>, groups: seq<Token>, rest: Pattern)
    requires |seps| == |groups| + 1 && Separated(seps, groups)
    ensures WellFormed(Interleave(seps, groups, rest)) == WellFormed(rest)
    ensures GroupCount(Interleave(seps, groups, rest)) == |groups| + GroupCount(rest)
    decreases |groups|
  {
    TextPrefix(seps[0], if groups == [] then rest else [groups[0]] + Interleave(seps[1..], groups[1..], rest));
    if groups != [] {
      var x := Interleave(seps[1..], groups[1..], rest);
      assert Separated(seps[1..], groups[1..]) by {
        assert forall i :: 1 <= i < |seps| - 1 ==> seps[1..][i] == seps[i + 1];
      }
      InterleaveShape(seps[1..], groups[1..], rest);
      assert x[0] == Char(seps[1][0]) && x[1] == Char(seps[1][1]) by {
        if groups[1..] == [] {
          assert x == Text(seps[1]) + rest;
        } else {
          assert x == Text(seps[1]) + ([groups[1]] + Interleave(seps[2..], groups[2..], rest));
        }
      }
      GroupPrefix(groups[0], x, [], []);
    }
  }

  /** Each group accepts the capture in its place. */
  ghost predicate AllCapture(groups: seq<Token>, caps: seq<string>)
    requires |caps| >= |groups|
  {
    forall i :: 0 <= i < |groups| ==> Captures(groups[i], caps[i])
  }

  lemma AllCaptureCons(groups: seq<Token>, caps: seq<string>)
    requires |caps| >= |groups| >= 1
    ensures AllCapture(groups, caps) <==> Captures(groups[0], caps[0]) && AllCapture(groups[1..], caps[1..])
  {
    if Captures(groups[0], caps[0]) && AllCapture(groups[1..], caps[1..]) {
      forall i | 0 <= i < |groups| ensures Captures(groups[i], caps[i]) {
        if i > 0 {
          assert groups[1..][i - 1] == groups[i] && caps[1..][i - 1] == caps[i];
        }
      }
    }
  }

  lemma FillCons(seps: seq<string>, caps: seq<string>, n: nat)
    requires |seps| == n + 1 && |caps| >= n >= 1
    ensures Fill(seps, caps[..n]) == seps[0] + caps[0] + Fill(seps[1..], caps[1..][..n - 1])
    ensures caps[1..][n - 1..] == caps[n..]
  {
    assert caps[..n][1..] == caps[1..][..n - 1];
  }

  lemma SeparatedTail(seps: seq<string>, groups: seq<Token>)
    requires |seps| == |groups| + 1 && |groups| >= 1 && Separated(seps, groups)
    ensures Separated(seps[1..], groups[1..])
  {
    assert forall i :: 1 <= i < |seps| - 1 ==> seps[1..][i] == seps[i + 1];
  }

  /**
   * Such a pattern matches exactly the lines that begin with its texts and, between them,
   * substrings its groups accept; the rest of the line is matched against `rest`.
   */
  lemma {:induction false} InterleaveMatches(seps: seq<string>, groups: seq<Token>, rest: Pattern,
                                             line: string, caps: seq<string>)
    requires |seps| == |groups| + 1 && Separated(seps, groups)
    ensures Matches(Interleave(seps, groups, rest), line, caps) <==>
      |caps| >= |groups| && AllCapture(groups, caps) &&
      Fill(seps, caps[..|groups|]) <= line &&
      Matches(rest, line[|Fill(seps, caps[..|groups|])|..], caps[|groups|..])
    decreases |groups|
  {
    var n := |groups|;
    if groups == [] {
      MatchesText(seps[0], rest, line, caps);
      assert caps[..0] == [] && caps[0..] == caps;
    } else {
      var x := Interleave(seps[1..], groups[1..], rest);
      MatchesText(seps[0], [groups[0]] + x, line, caps);
      SeparatedTail(seps, groups);
      if |caps| >= n {
        AllCaptureCons(groups, caps);
        FillCons(seps, caps, n);
        var c0 := caps[0];
        var f' := Fill(seps[1..], caps[1..][..n - 1]);
        PrefixConcat(seps[0] + c0, f', line);
        PrefixConcat(seps[0], c0, line);
        if seps[0] <= line {
          var l1 := line[|seps[0]|..];
          GroupPrefix(groups[0], x, l1, caps);
          if c0 <= l1 {
            var l2 := l1[|c0|..];
            assert l2 == line[|seps[0] + c0|..];
            InterleaveMatches(seps[1..], groups[1..], rest, l2, caps[1..]);
            if f' <= l2 {
              assert line[|seps[0] + c0 + f'|..] == l2[|f'|..];
            }
          }
        }
      } else if seps[0] <= line {
        var l1 := line[|seps[0]|..];
        GroupPrefix(groups[0], x, l1, caps);
        if |caps| > 0 && caps[0] <= l1 {
          InterleaveMatches(seps[1..], groups[1..], rest, l1[|caps[0]|..], caps[1..]);
        }
      }
    }
  }

  /**
   * `re.match` on texts and groups taking turns: the match succeeds exactly on the lines
   * that begin with `Fill(seps, caps)`, the groups accepting `caps`, and returns `caps`.
   */
  lemma InterleaveMatch(seps: seq<string>, groups: seq<Token>, line: string, caps: seq<string>)
    requires |seps| == |groups| + 1 && Separated(seps, groups)
    ensures WellFormed(Interleave(seps, groups, [])) && GroupCount(Interleave(seps, groups, [])) == |groups|
    ensures Match(Interleave(seps, groups, []), line) == Some(caps) <==>
      |caps| == |groups| && AllCapture(groups, caps) && Fill(seps, caps) <= line
  {
    InterleaveShape(seps, groups, []);
    InterleaveMatches(seps, groups, [], line, caps);
    if |caps| >= |groups| {
      assert |caps[|groups|..]| == 0 <==> |caps| == |groups|;
      if |caps| == |groups| {
        assert caps[..|groups|] == caps;
      }
    }
    if Matches(Interleave(seps, groups, []), line, caps) {
      MatchComplete(Interleave(seps, groups, []), line, caps);
    }
  }
}
