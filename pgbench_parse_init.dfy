/**
 * pgbench_parse_init.py: the same search as parse_init.py for the "done in ..." line of
 * `pgbench -i`, with the pattern written as six adjacent string literals, one per timing,
 * and each of the six captures converted by `float`.  A capture `float` rejects raises and
 * ends the script.
 */
module PgbenchParseInit {
  import opened Wrappers
  import opened Regex
  import ParseInit

  /**
   * The texts around the six groups of `re_init_total`.  The pattern is six adjacent raw
   * literals, `^done in (\d+.\d+) s \(`, `drop tables (\d+.\d+) s, `, ..., which Python
   * joins into one; where one literal ends and the next begins is written here as `+`.
   */
  const ScriptSeps: seq<string> := [
    "done in ", " s (" + "drop tables ", " s, " + "create tables ", " s, " + "client-side generate ",
    " s, " + "vacuum ", " s, " + "primary keys ", " s)"
  ]

  /** The joined literals spell out the texts of parse_init.py's pattern. */
  lemma SameSeps()
    ensures ScriptSeps == ParseInit.InitSeps
  {
    JoinDropTables();
    JoinCreateTables();
    JoinClientSideGenerate();
    JoinVacuum();
    JoinPrimaryKeys();
  }

  /* Python's joining of the adjacent literals, one boundary at a time. */

  lemma JoinDropTables() ensures " s (" + "drop tables " == " s (drop tables " {}
  lemma JoinCreateTables() ensures " s, " + "create tables " == " s, create tables " {}
  lemma JoinClientSideGenerate() ensures " s, " + "client-side generate " == " s, client-side generate " {}
  lemma JoinVacuum() ensures " s, " + "vacuum " == " s, vacuum " {}
  lemma JoinPrimaryKeys() ensures " s, " + "primary keys " == " s, primary keys " {}

  /** The script's pattern, `re_init_total`: the six texts with a group `(\d+.\d+)` between each two. */
  const InitRegexp: Pattern := Interleave(ScriptSeps, ParseInit.InitGroups, [])

  /** The joined literals are, token for token, the pattern of parse_init.py. */
  lemma SamePattern()
    ensures InitRegexp == ParseInit.InitPattern
  {
    SameSeps();
  }

  /** So both scripts accept the same lines and capture the same six texts. */
  lemma SameLines(line: string)
    ensures WellFormed(InitRegexp) && Match(InitRegexp, line) == ParseInit.InitMatch(line)
  {
    SamePattern();
    ParseInit.InitPatternShape();
  }

  /**
   * `float(data[0])`, ..., `float(data[5])`, in that order: the six values, or the
   * ValueError of the first text `float` rejects.
   */
  function ConvertAll(toFloat: string -> Option<Float>, caps: seq<string>): (r: Result<seq<Float>, ConversionError>)
    ensures r.Ok? ==> |r.value| == |caps|
    decreases |caps|
  {
    if caps == [] then Ok([])
    else match toFloat(caps[0])
      case None => Err(ValueError(caps[0]))
      case Some(f) =>
        match ConvertAll(toFloat, caps[1..])
        case Err(e) => Err(e)
        case Ok(fs) => Ok([f] + fs)
  }

  /**
   * The conversion succeeds exactly when `float` accepts every text, and then gives the
   * value of each.
   */
  lemma {:induction false} ConvertAllValues(toFloat: string -> Option<Float>, caps: seq<string>)
    ensures ConvertAll(toFloat, caps).Ok? <==> forall i :: 0 <= i < |caps| ==> toFloat(caps[i]).Some?
    ensures ConvertAll(toFloat, caps).Ok? ==>
      forall i :: 0 <= i < |caps| ==> toFloat(caps[i]) == Some(ConvertAll(toFloat, caps).value[i])
    decreases |caps|
  {
    if caps != [] {
      ConvertAllValues(toFloat, caps[1..]);
      assert forall i :: 1 <= i < |caps| ==> caps[1..][i - 1] == caps[i];
    }
  }

  /** The error is the ValueError of the first text `float` rejects. */
  lemma {:induction false} ConvertAllFirstError(toFloat: string -> Option<Float>, caps: seq<string>, k: nat)
    requires k < |caps| && toFloat(caps[k]).None? && forall j :: 0 <= j < k ==> toFloat(caps[j]).Some?
    ensures ConvertAll(toFloat, caps) == Err(ValueError(caps[k]))
    decreases k
  {
    if k > 0 {
      assert forall j :: 0 <= j < k - 1 ==> caps[1..][j] == caps[j + 1];
      ConvertAllFirstError(toFloat, caps[1..], k - 1);
    }
  }

  /**
   * The dictionary after the loop has read `lines`, or the error that ended the script:
   * each matching line replaces the six values by the floats of its captures.
   */
  function InitFloats(toFloat: string -> Option<Float>, lines: seq<string>): (r: Result<map<string, Float>, ConversionError>)
    ensures r.Ok? ==> r.value == map[] || r.value.Keys == ParseInit.InitKeySet
  {
    if lines == [] then Ok(map[])
    else match InitFloats(toFloat, lines[..|lines| - 1])
      case Err(e) => Err(e)
      case Ok(out) =>
        match ParseInit.InitMatch(lines[|lines| - 1])
        case None => Ok(out)
        case Some(caps) =>
          match ConvertAll(toFloat, caps)
          case Err(e) => Err(e)
          case Ok(fs) => Ok(ParseInit.Record(fs))
  }

  /** Once the script has stopped, later lines do not matter. */
  lemma {:induction false} ErrorFinal(toFloat: string -> Option<Float>, lines: seq<string>, n: nat)
    requires n <= |lines| && InitFloats(toFloat, lines[..n]).Err?
    ensures InitFloats(toFloat, lines) == InitFloats(toFloat, lines[..n])
    decreases |lines| - n
  {
    if n < |lines| {
      assert lines[..n + 1][..n] == lines[..n];
      ErrorFinal(toFloat, lines, n + 1);
    } else {
      assert lines[..n] == lines;
    }
  }

  /** The six `float` calls of the loop body, in order; the first that raises ends the script. */
  method FloatsOf(toFloat: string -> Option<Float>, data: seq<string>) returns (r: Result<seq<Float>, ConversionError>)
    requires |data| == 6
    ensures r == ConvertAll(toFloat, data)
  {
    var v0 := toFloat(data[0]);
    if v0.None? {
      ConvertAllFirstError(toFloat, data, 0);
      return Err(ValueError(data[0]));
    }
    var v1 := toFloat(data[1]);
    if v1.None? {
      ConvertAllFirstError(toFloat, data, 1);
      return Err(ValueError(data[1]));
    }
    var v2 := toFloat(data[2]);
    if v2.None? {
      ConvertAllFirstError(toFloat, data, 2);
      return Err(ValueError(data[2]));
    }
    var v3 := toFloat(data[3]);
    if v3.None? {
      ConvertAllFirstError(toFloat, data, 3);
      return Err(ValueError(data[3]));
    }
    var v4 := toFloat(data[4]);
    if v4.None? {
      ConvertAllFirstError(toFloat, data, 4);
      return Err(ValueError(data[4]));
    }
    var v5 := toFloat(data[5]);
    if v5.None? {
      ConvertAllFirstError(toFloat, data, 5);
      return Err(ValueError(data[5]));
    }
    r := Ok([v0.value, v1.value, v2.value, v3.value, v4.value, v5.value]);
    ConvertAllValues(toFloat, data);
    ghost var c := ConvertAll(toFloat, data).value;
    assert c == [v0.value, v1.value, v2.value, v3.value, v4.value, v5.value];
  }

  /** The script, over the lines of the file. */
  method ParseInitFloats(lines: seq<string>, toFloat: string -> Option<Float>)
    returns (r: Result<map<string, Float>, ConversionError>)
    ensures r == InitFloats(toFloat, lines)
  {
    var output: map<string, Float> := map[];
    for n := 0 to |lines|
      invariant InitFloats(toFloat, lines[..n]) == Ok(output)
    {
      SameLines(lines[n]);
      var m := Match(InitRegexp, lines[n]);
      assert m == ParseInit.InitMatch(lines[n]);
      Step(toFloat, lines, n);
      if m.None? {
        continue;
      }
      var data := m.value;
      var values := FloatsOf(toFloat, data);
      if values.Err? {
        ErrorFinal(toFloat, lines, n + 1);
        return Err(values.error);
      }
      var v := values.value;
      ParseInit.Overwrite(output, v);
      output := output["total" := v[0]]["drop_tables" := v[1]]["create_tables" := v[2]];
      output := output["client-side_generate" := v[3]]["vacuum" := v[4]]["primary_keys" := v[5]];
      assert output == ParseInit.Record(v);
    }
    assert lines[..|lines|] == lines;
    r := Ok(output);
  }

  /** One more line: skipped when it does not match, else its values replace the old ones or its error ends the script. */
  lemma Step(toFloat: string -> Option<Float>, lines: seq<string>, n: nat)
    requires n < |lines| && InitFloats(toFloat, lines[..n]).Ok?
    ensures ParseInit.InitMatch(lines[n]).None? ==> InitFloats(toFloat, lines[..n + 1]) == InitFloats(toFloat, lines[..n])
    ensures ParseInit.InitMatch(lines[n]).Some? ==>
      InitFloats(toFloat, lines[..n + 1]) ==
        match ConvertAll(toFloat, ParseInit.InitMatch(lines[n]).value)
        case Err(e) => Err(e)
        case Ok(fs) => Ok(ParseInit.Record(fs))
  {
    assert lines[..n + 1][..n] == lines[..n];
  }

  /* Properties of the output. */

  /** A line the pattern does not match leaves the output as it was. */
  lemma NonMatchingSkipped(toFloat: string -> Option<Float>, lines: seq<string>, line: string)
    requires ParseInit.InitMatch(line).None?
    ensures InitFloats(toFloat, lines + [line]) == InitFloats(toFloat, lines)
  {
    assert (lines + [line])[..|lines|] == lines;
  }

  /**
   * When the script finishes, it has the keys of parse_init.py's dictionary for the same
   * lines, and each value is the `float` of the string parse_init.py stores.
   */
  lemma {:induction false} AgreesWithParseInit(toFloat: string -> Option<Float>, lines: seq<string>)
    ensures InitFloats(toFloat, lines).Ok? ==>
      var out := InitFloats(toFloat, lines).value;
      out.Keys == ParseInit.InitOutput(lines).Keys &&
      forall k :: k in out ==> toFloat(ParseInit.InitOutput(lines)[k]) == Some(out[k])
    decreases |lines|
  {
    if lines != [] {
      var front := lines[..|lines| - 1];
      AgreesWithParseInit(toFloat, front);
      var m := ParseInit.InitMatch(lines[|lines| - 1]);
      if m.Some? && ConvertAll(toFloat, m.value).Ok? {
        var fs := ConvertAll(toFloat, m.value).value;
        ConvertAllValues(toFloat, m.value);
        forall k | k in ParseInit.Record(fs)
          ensures toFloat(ParseInit.Record(m.value)[k]) == Some(ParseInit.Record(fs)[k])
        {
          var i :| 0 <= i < 6 && ParseInit.InitKeys[i] == k;
        }
      }
    }
  }

  /** The line matches and `float` rejects one of its captures. */
  ghost predicate Unconvertible(toFloat: string -> Option<Float>, line: string) {
    ParseInit.InitMatch(line).Some? && ConvertAll(toFloat, ParseInit.InitMatch(line).value).Err?
  }

  /** The script fails exactly when some matching line has a capture `float` rejects. */
  lemma {:induction false} FailsIffUnconvertible(toFloat: string -> Option<Float>, lines: seq<string>)
    ensures InitFloats(toFloat, lines).Err? <==> exists j :: 0 <= j < |lines| && Unconvertible(toFloat, lines[j])
    decreases |lines|
  {
    if lines != [] {
      var front := lines[..|lines| - 1];
      var last := |lines| - 1;
      FailsIffUnconvertible(toFloat, front);
      if InitFloats(toFloat, front).Err? {
        var j :| 0 <= j < |front| && Unconvertible(toFloat, front[j]);
        assert lines[j] == front[j];
      } else if Unconvertible(toFloat, lines[last]) {
      } else {
        forall j | 0 <= j < |lines|
          ensures !Unconvertible(toFloat, lines[j])
        {
          if j < last {
            assert lines[j] == front[j];
          }
        }
      }
    }
  }

  /**
   * The last matching line decides the output: when line n matches, no later line does,
   * and the script finishes, the six values are the floats of line n's captures.
   */
  lemma {:induction false} LastMatchWins(toFloat: string -> Option<Float>, lines: seq<string>, n: nat)
    requires n < |lines| && ParseInit.InitMatch(lines[n]).Some?
    requires forall j :: n < j < |lines| ==> ParseInit.InitMatch(lines[j]).None?
    ensures InitFloats(toFloat, lines).Ok? ==>
      ConvertAll(toFloat, ParseInit.InitMatch(lines[n]).value).Ok? &&
      InitFloats(toFloat, lines).value == ParseInit.Record(ConvertAll(toFloat, ParseInit.InitMatch(lines[n]).value).value)
    decreases |lines|
  {
    if n < |lines| - 1 {
      var front := lines[..|lines| - 1];
      assert forall j :: n < j < |front| ==> front[j] == lines[j];
      LastMatchWins(toFloat, front, n);
    }
  }
}
