/**
 * parse_init.py: finds the line in which `pgbench -i` reports how long initialisation took,
 *
 *   done in 1127.08 s (drop tables 0.00 s, create tables 0.01 s, client-side generate
 *   435.15 s, vacuum 332.26 s, primary keys 359.65 s).
 *
 * and turns its six timings into a dictionary of strings.  Every matching line overwrites
 * all six keys, so the last one wins; no matching line leaves the dictionary empty.
 */
module ParseInit {
  import opened Wrappers
  import opened Regex

  /** The literal texts of the pattern, between and around its six groups. */
  const InitSeps: seq<string> := [
    "done in ", " s (drop tables ", " s, create tables ", " s, client-side generate ",
    " s, vacuum ", " s, primary keys ", " s)"
  ]

  /** The six groups, each `(\d+.\d+)`. */
  const InitGroups: seq<Token> := [Decimal, Decimal, Decimal, Decimal, Decimal, Decimal]

  /** The keys the six captures are stored under, in the order of the groups. */
  const InitKeys: seq<string> := ["total", "drop_tables", "create_tables", "client-side_generate", "vacuum", "primary_keys"]

  const InitKeySet: set<string> := {"total", "drop_tables", "create_tables", "client-side_generate", "vacuum", "primary_keys"}

  /** `^done in (\d+.\d+) s \(drop tables (\d+.\d+) s, ... primary keys (\d+.\d+) s\)` */
  const InitPattern: Pattern := Interleave(InitSeps, InitGroups, [])

  lemma InitPatternShape()
    ensures Separated(InitSeps, InitGroups)
    ensures WellFormed(InitPattern) && GroupCount(InitPattern) == 6
  {
    InterleaveMatch(InitSeps, InitGroups, "", []);
  }

  /** `re_init_total.match(line)` and its six groups. */
  function InitMatch(line: string): (r: Option<seq<string>>)
    ensures r.Some? ==> |r.value| == 6 && AllCapture(InitGroups, r.value) && Fill(InitSeps, r.value) <= line
  {
    InitPatternShape();
    var r := Match(InitPattern, line);
    if r.Some? then
      InterleaveMatch(InitSeps, InitGroups, line, r.value);
      r
    else r
  }

  /** A line that begins with the six texts and, between them, six decimals is matched. */
  lemma InitMatchComplete(line: string, caps: seq<string>)
    requires |caps| == 6 && AllCapture(InitGroups, caps) && Fill(InitSeps, caps) <= line
    ensures InitMatch(line) == Some(caps)
  {
    InitPatternShape();
    InterleaveMatch(InitSeps, InitGroups, line, caps);
  }

  /** The dictionary one matching line produces: each key holds the value taken from its group. */
  function Record<T>(vals: seq<T>): (m: map<string, T>)
    requires |vals| == 6
    ensures m.Keys == InitKeySet
    ensures forall i :: 0 <= i < 6 ==> InitKeys[i] in m && m[InitKeys[i]] == vals[i]
  {
    map["total" := vals[0], "drop_tables" := vals[1], "create_tables" := vals[2],
        "client-side_generate" := vals[3], "vacuum" := vals[4], "primary_keys" := vals[5]]
  }

  /** The dictionary after the loop has read `lines`: decided by the last line read that matches. */
  function InitOutput(lines: seq<string>): (out: map<string, string>)
    ensures out == map[] || out.Keys == InitKeySet
  {
    if lines == [] then map[]
    else match InitMatch(lines[|lines| - 1])
      case Some(caps) => Record(caps)
      case None => InitOutput(lines[..|lines| - 1])
  }

  /** The six assignments of the loop body replace whatever an earlier line stored. */
  lemma Overwrite<T>(out: map<string, T>, vals: seq<T>)
    requires |vals| == 6 && out.Keys <= InitKeySet
    ensures out["total" := vals[0]]["drop_tables" := vals[1]]["create_tables" := vals[2]]
               ["client-side_generate" := vals[3]]["vacuum" := vals[4]]["primary_keys" := vals[5]] == Record(vals)
  {
  }

  /** The script's `parse_init`, over the lines of the file. */
  method ParseInit(lines: seq<string>) returns (output: map<string, string>)
    ensures output == InitOutput(lines)
  {
    output := map[];
    for n := 0 to |lines|
      invariant output == InitOutput(lines[..n])
    {
      var m := InitMatch(lines[n]);
      Step(lines, n);
      if m.Some? {
        var data := m.value;
        Overwrite(output, data);
        output := output["total" := data[0]];
        output := output["drop_tables" := data[1]];
        output := output["create_tables" := data[2]];
        output := output["client-side_generate" := data[3]];
        output := output["vacuum" := data[4]];
        output := output["primary_keys" := data[5]];
      }
    }
    assert lines[..|lines|] == lines;
  }

  /** One more line: a matching line decides the output, any other leaves it as it was. */
  lemma Step(lines: seq<string>, n: nat)
    requires n < |lines|
    ensures InitOutput(lines[..n + 1]) ==
      if InitMatch(lines[n]).Some? then Record(InitMatch(lines[n]).value) else InitOutput(lines[..n])
  {
    assert lines[..n + 1][..n] == lines[..n];
  }

  /* Properties of the output. */

  /** A line the pattern does not match leaves the output as it was. */
  lemma NonMatchingSkipped(lines: seq<string>, line: string)
    requires InitMatch(line).None?
    ensures InitOutput(lines + [line]) == InitOutput(lines)
  {
    assert (lines + [line])[..|lines|] == lines;
  }

  /**
   * The last matching line decides the output: when line n matches and no later line
   * does, the output is the record of line n.
   */
  lemma {:induction false} LastMatchWins(lines: seq<string>, n: nat)
    requires n < |lines| && InitMatch(lines[n]).Some?
    requires forall j :: n < j < |lines| ==> InitMatch(lines[j]).None?
    ensures InitOutput(lines) == Record(InitMatch(lines[n]).value)
    decreases |lines|
  {
    if n < |lines| - 1 {
      var front := lines[..|lines| - 1];
      assert forall j :: n < j < |front| ==> front[j] == lines[j];
      LastMatchWins(front, n);
    }
  }

  /** The output is empty exactly when no line matches. */
  lemma {:induction false} EmptyIffNoMatch(lines: seq<string>)
    ensures InitOutput(lines) == map[] <==> forall j :: 0 <= j < |lines| ==> InitMatch(lines[j]).None?
    decreases |lines|
  {
    if lines != [] {
      var front := lines[..|lines| - 1];
      EmptyIffNoMatch(front);
      assert forall j :: 0 <= j < |front| ==> front[j] == lines[j];
      if InitMatch(lines[|lines| - 1]).Some? {
        assert "total" in InitOutput(lines);
      }
    }
  }

  /** `re.match` only looks at the start of the line: text after the pattern does not change the captures. */
  lemma TrailingText(line: string, suffix: string)
    ensures InitMatch(line).Some? ==> InitMatch(line + suffix) == InitMatch(line)
  {
    if InitMatch(line).Some? {
      var caps := InitMatch(line).value;
      assert (line + suffix)[..|Fill(InitSeps, caps)|] == line[..|Fill(InitSeps, caps)|];
      InitMatchComplete(line + suffix, caps);
    }
  }

  /**
   * The six timings of the line quoted at the top of the file; that line is
   * `Fill(InitSeps, ExampleCaps)` followed by a full stop.
   */
  const ExampleCaps: seq<string> := ["1127.08", "0.00", "0.01", "435.15", "332.26", "359.65"]

  lemma ExampleCapsDecimal()
    ensures |ExampleCaps| == 6 && AllCapture(InitGroups, ExampleCaps)
  {
    ExampleDecimal("1127.08", 4);
    ExampleDecimal("0.00", 1);
    ExampleDecimal("0.01", 1);
    ExampleDecimal("435.15", 3);
    ExampleDecimal("332.26", 3);
    ExampleDecimal("359.65", 3);
  }

  /** A capture of digits, a full stop at m and digits has the shape `\d+.\d+`. */
  lemma ExampleDecimal(g: string, m: nat)
    requires 1 <= m && m + 2 <= |g| && g[m] == '.'
    requires forall i :: 0 <= i < |g| && i != m ==> IsDigit(g[i])
    ensures IsDecimal(g)
  {
    DecimalText(g, m);
  }

  /**
   * The documented line, whatever follows it (its full stop, the newline the file iterator
   * keeps), yields the six timings it shows.
   */
  lemma DocumentedExample(suffix: string)
    ensures InitMatch(Fill(InitSeps, ExampleCaps) + suffix) == Some(ExampleCaps)
    ensures Record(ExampleCaps) == map["total" := "1127.08", "drop_tables" := "0.00", "create_tables" := "0.01",
                                       "client-side_generate" := "435.15", "vacuum" := "332.26", "primary_keys" := "359.65"]
  {
    ExampleCapsDecimal();
    var f := Fill(InitSeps, ExampleCaps);
    assert (f + suffix)[..|f|] == f;
    InitMatchComplete(f + suffix, ExampleCaps);
  }
}
