/**
 * pgbench_parse_progress.py: collects the progress lines pgbench prints during a run,
 *
 *   progress: 560.0 s, 55376.5 tps, lat 0.866 ms stddev 0.268
 *
 * into a list with one record per matching line, in the order of the lines.  The time
 * stamp becomes an ISO 8601 date, the other three fields floats; stddev may be "NaN".
 */
module PgbenchParseProgress {
  import opened Wrappers
  import opened Regex

  /** The literal texts before and between the groups. */
  const ProgressSeps: seq<string> := ["progress: ", " s, ", " tps, lat ", " ms stddev "]

  /** ts, tps and lat, each `\d+.\d+`. */
  const InnerGroups: seq<Token> := [Decimal, Decimal, Decimal]

  /** `^progress: (?P<ts>\d+.\d+) s, (?P<tps>\d+.\d+) tps, lat (?P<lat>\d+.\d+) ms stddev (?P<stddev>\d+.\d+|NaN)` */
  const ProgressPattern: Pattern := Interleave(ProgressSeps, InnerGroups, [DecimalOrNaN])

  /** One element of the output list: the dictionary `match.groupdict()` after the conversions. */
  datatype Progress = Progress(ts: string, tps: Float, lat: Float, stddev: Float)

  lemma PatternShape()
    ensures Separated(ProgressSeps, InnerGroups)
    ensures WellFormed(ProgressPattern) && GroupCount(ProgressPattern) == 4
  {
    InterleaveShape(ProgressSeps, InnerGroups, [DecimalOrNaN]);
  }

  /** The captures of a matching line: the line begins with the texts and three decimals, then stddev. */
  ghost predicate ProgressShaped(line: string, caps: seq<string>) {
    |caps| == 4 && AllCapture(InnerGroups, caps[..3]) && Fill(ProgressSeps, caps[..3]) <= line &&
    LongestDecimalOrNaN(line[|Fill(ProgressSeps, caps[..3])|..], caps[3])
  }

  lemma ProgressMatches(line: string, caps: seq<string>)
    ensures Matches(ProgressPattern, line, caps) <==> ProgressShaped(line, caps)
  {
    PatternShape();
    InterleaveMatches(ProgressSeps, InnerGroups, [DecimalOrNaN], line, caps);
    if |caps| >= 3 {
      var f := Fill(ProgressSeps, caps[..3]);
      if f <= line {
        var l := line[|f|..];
        var c := caps[3..];
        assert Matches([DecimalOrNaN], l, c) <==> |c| > 0 && c[0] <= l && LongestDecimalOrNaN(l, c[0]) && c[1..] == [] by {
          assert [DecimalOrNaN][1..] == [];
        }
        if |caps| >= 4 {
          assert c[0] == caps[3];
          assert c[1..] == [] <==> |caps| == 4;
          assert caps[..4][..3] == caps[..3];
        }
      }
    }
  }

  /** `re_progress.match(line)` and its four groups, in the order ts, tps, lat, stddev. */
  function ProgressMatch(line: string): (r: Option<seq<string>>)
    ensures r.Some? ==> ProgressShaped(line, r.value)
  {
    PatternShape();
    var r := Match(ProgressPattern, line);
    if r.Some? then
      ProgressMatches(line, r.value);
      r
    else r
  }

  lemma ProgressMatchComplete(line: string, caps: seq<string>)
    requires ProgressShaped(line, caps)
    ensures ProgressMatch(line) == Some(caps)
  {
    PatternShape();
    ProgressMatches(line, caps);
    MatchComplete(ProgressPattern, line, caps);
  }

  /**
   * The conversions of the loop body, in order: `float(ts)` then the date of that many
   * seconds, then `float` of tps, lat and stddev.  The first that raises ends the script.
   */
  function ToRecord(caps: seq<string>, toFloat: string -> Option<Float>, isoTime: Float -> Option<string>)
    : (r: Result<Progress, ConversionError>)
    requires |caps| == 4
    ensures r.Ok? <==> toFloat(caps[0]).Some? && isoTime(toFloat(caps[0]).value).Some? &&
                       toFloat(caps[1]).Some? && toFloat(caps[2]).Some? && toFloat(caps[3]).Some?
    ensures r.Ok? ==> r.value == Progress(isoTime(toFloat(caps[0]).value).value, toFloat(caps[1]).value,
                                          toFloat(caps[2]).value, toFloat(caps[3]).value)
  {
    match toFloat(caps[0])
    case None => Err(ValueError(caps[0]))
    case Some(seconds) =>
      match isoTime(seconds)
      case None => Err(TimestampError(seconds))
      case Some(ts) =>
        match toFloat(caps[1])
        case None => Err(ValueError(caps[1]))
        case Some(tps) =>
          match toFloat(caps[2])
          case None => Err(ValueError(caps[2]))
          case Some(lat) =>
            match toFloat(caps[3])
            case None => Err(ValueError(caps[3]))
            case Some(stddev) => Ok(Progress(ts, tps, lat, stddev))
  }

  /**
   * The list after the loop has read `lines`, or the error that ended the script.  Each
   * line adds at most one record.
   */
  function ProgressOutput(lines: seq<string>, toFloat: string -> Option<Float>, isoTime: Float -> Option<string>)
    : (r: Result<seq<Progress>, ConversionError>)
    ensures r.Ok? ==> |r.value| <= |lines|
  {
    if lines == [] then Ok([])
    else match ProgressOutput(lines[..|lines| - 1], toFloat, isoTime)
      case Err(e) => Err(e)
      case Ok(out) =>
        match ProgressMatch(lines[|lines| - 1])
        case None => Ok(out)
        case Some(caps) =>
          match ToRecord(caps, toFloat, isoTime)
          case Err(e) => Err(e)
          case Ok(rec) => Ok(out + [rec])
  }

  lemma {:induction false} ErrorFinal(lines: seq<string>, toFloat: string -> Option<Float>,
                                      isoTime: Float -> Option<string>, n: nat)
    requires n <= |lines| && ProgressOutput(lines[..n], toFloat, isoTime).Err?
    ensures ProgressOutput(lines, toFloat, isoTime) == ProgressOutput(lines[..n], toFloat, isoTime)
    decreases |lines| - n
  {
    if n < |lines| {
      assert lines[..n + 1][..n] == lines[..n];
      ErrorFinal(lines, toFloat, isoTime, n + 1);
    } else {
      assert lines[..n] == lines;
    }
  }

  /** The body of the loop for one matching line: the converted record, or the error. */
  method Convert(caps: seq<string>, toFloat: string -> Option<Float>, isoTime: Float -> Option<string>)
    returns (r: Result<Progress, ConversionError>)
    requires |caps| == 4
    ensures r == ToRecord(caps, toFloat, isoTime)
  {
    var seconds := toFloat(caps[0]);
    if seconds.None? {
      return Err(ValueError(caps[0]));
    }
    var ts := isoTime(seconds.value);
    if ts.None? {
      return Err(TimestampError(seconds.value));
    }
    var tps := toFloat(caps[1]);
    if tps.None? {
      return Err(ValueError(caps[1]));
    }
    var lat := toFloat(caps[2]);
    if lat.None? {
      return Err(ValueError(caps[2]));
    }
    var stddev := toFloat(caps[3]);
    if stddev.None? {
      return Err(ValueError(caps[3]));
    }
    r := Ok(Progress(ts.value, tps.value, lat.value, stddev.value));
  }

  /** The script, over the lines of the file. */
  method ParseProgress(lines: seq<string>, toFloat: string -> Option<Float>, isoTime: Float -> Option<string>)
    returns (r: Result<seq<Progress>, ConversionError>)
    ensures r == ProgressOutput(lines, toFloat, isoTime)
  {
    var output: seq<Progress> := [];
    for n := 0 to |lines|
      invariant ProgressOutput(lines[..n], toFloat, isoTime) == Ok(output)
    {
      var m := ProgressMatch(lines[n]);
      Step(lines, toFloat, isoTime, n);
      if m.None? {
        continue;
      }
      var data := Convert(m.value, toFloat, isoTime);
      if data.Err? {
        ErrorFinal(lines, toFloat, isoTime, n + 1);
        return Err(data.error);
      }
      output := output + [data.value];
    }
    assert lines[..|lines|] == lines;
    r := Ok(output);
  }

  /** One more line: skipped when it does not match, else its record is appended or its error ends the script. */
  lemma Step(lines: seq<string>, toFloat: string -> Option<Float>, isoTime: Float -> Option<string>, n: nat)
    requires n < |lines| && ProgressOutput(lines[..n], toFloat, isoTime).Ok?
    ensures ProgressMatch(lines[n]).None? ==>
      ProgressOutput(lines[..n + 1], toFloat, isoTime) == ProgressOutput(lines[..n], toFloat, isoTime)
    ensures ProgressMatch(lines[n]).Some? ==>
      ProgressOutput(lines[..n + 1], toFloat, isoTime) ==
        match ToRecord(ProgressMatch(lines[n]).value, toFloat, isoTime)
        case Err(e) => Err(e)
        case Ok(rec) => Ok(ProgressOutput(lines[..n], toFloat, isoTime).value + [rec])
  {
    assert lines[..n + 1][..n] == lines[..n];
  }

  /* Properties of the output. */

  /** The captures of the matching lines, in the order of the lines. */
  function Matching(lines: seq<string>): (ms: seq<seq<string>>)
    ensures forall i :: 0 <= i < |ms| ==> |ms[i]| == 4
  {
    if lines == [] then []
    else
      var m := ProgressMatch(lines[|lines| - 1]);
      Matching(lines[..|lines| - 1]) + (if m.Some? then [m.value] else [])
  }

  /**
   * One record per matching line, in order: when the script finishes, record i is the
   * conversion of the i-th matching line.
   */
  lemma {:induction false} OneRecordPerMatch(lines: seq<string>, toFloat: string -> Option<Float>,
                                             isoTime: Float -> Option<string>)
    ensures ProgressOutput(lines, toFloat, isoTime).Ok? ==>
      var out := ProgressOutput(lines, toFloat, isoTime).value;
      |out| == |Matching(lines)| &&
      forall i :: 0 <= i < |out| ==> ToRecord(Matching(lines)[i], toFloat, isoTime) == Ok(out[i])
    decreases |lines|
  {
    if lines != [] {
      OneRecordPerMatch(lines[..|lines| - 1], toFloat, isoTime);
    }
  }

  /** The script fails exactly when the conversion of some matching line fails. */
  lemma {:induction false} FailsIffUnconvertible(lines: seq<string>, toFloat: string -> Option<Float>,
                                                 isoTime: Float -> Option<string>)
    ensures ProgressOutput(lines, toFloat, isoTime).Err? <==>
      exists i :: 0 <= i < |Matching(lines)| && ToRecord(Matching(lines)[i], toFloat, isoTime).Err?
    decreases |lines|
  {
    if lines != [] {
      var front := lines[..|lines| - 1];
      FailsIffUnconvertible(front, toFloat, isoTime);
      var ms := Matching(lines);
      var mf := Matching(front);
      assert forall i :: 0 <= i < |mf| ==> ms[i] == mf[i];
      var m := ProgressMatch(lines[|lines| - 1]);
      if m.Some? {
        assert ms == mf + [m.value] && ms[|mf|] == m.value;
        if (exists i :: 0 <= i < |ms| && ToRecord(ms[i], toFloat, isoTime).Err?) {
          var i :| 0 <= i < |ms| && ToRecord(ms[i], toFloat, isoTime).Err?;
          if i < |mf| {
            assert ToRecord(mf[i], toFloat, isoTime).Err?;
          }
        }
      } else {
        assert ms == mf;
      }
    }
  }

  /** A line the pattern does not match leaves the list as it was. */
  lemma NonMatchingSkipped(lines: seq<string>, line: string, toFloat: string -> Option<Float>,
                           isoTime: Float -> Option<string>)
    requires ProgressMatch(line).None?
    ensures ProgressOutput(lines + [line], toFloat, isoTime) == ProgressOutput(lines, toFloat, isoTime)
  {
    assert (lines + [line])[..|lines|] == lines;
  }

  /** The list only grows: the records of earlier lines are never changed by later ones. */
  lemma {:induction false} AppendOnly(a: seq<string>, b: seq<string>, toFloat: string -> Option<Float>,
                                      isoTime: Float -> Option<string>)
    ensures ProgressOutput(a + b, toFloat, isoTime).Ok? ==>
      ProgressOutput(a, toFloat, isoTime).Ok? &&
      ProgressOutput(a, toFloat, isoTime).value <= ProgressOutput(a + b, toFloat, isoTime).value
    decreases |b|
  {
    if b == [] {
      assert a + b == a;
    } else {
      var b' := b[..|b| - 1];
      assert (a + b)[..|a + b| - 1] == a + b';
      AppendOnly(a, b', toFloat, isoTime);
    }
  }

  /* The example at the top of the script. */

  const ExampleCaps: seq<string> := ["560.0", "55376.5", "0.866", "0.268"]

  /** A stddev of "0.268", followed by anything that does not begin with a digit, captures "0.268". */
  lemma ExampleStddev(suffix: string)
    requires suffix == [] || !IsDigit(suffix[0])
    ensures LongestDecimalOrNaN("0.268" + suffix, "0.268")
  {
    var l := "0.268" + suffix;
    DecimalText("0.268", 1);
    assert l[1] == '.' && l[2] == '2';
    RunEndStops(l, 0, 1);
    RunEndStops(l, 2, 5);
    LongestBound(l, 5);
  }

  /**
   * "progress: 560.0 s, 55376.5 tps, lat 0.866 ms stddev 0.268", followed by the newline
   * the file iterator keeps or any text that does not begin with a digit, yields
   * ts "560.0", tps "55376.5", lat "0.866" and stddev "0.268".
   */
  lemma DocumentedExample(suffix: string)
    requires suffix == [] || !IsDigit(suffix[0])
    ensures ProgressMatch(Fill(ProgressSeps, ExampleCaps[..3]) + "0.268" + suffix) == Some(ExampleCaps)
  {
    var c := ExampleCaps;
    DecimalText(c[0], 3);
    DecimalText(c[1], 5);
    DecimalText(c[2], 1);
    var f := Fill(ProgressSeps, c[..3]);
    assert AllCapture(InnerGroups, c[..3]);
    var line := f + "0.268" + suffix;
    assert line[..|f|] == f && line[|f|..] == "0.268" + suffix;
    ExampleStddev(suffix);
    ProgressMatchComplete(line, c);
  }

  /** stddev may be the literal "NaN": a line whose stddev field reads "NaN" matches, capturing "NaN". */
  lemma NaNStddev(caps: seq<string>, suffix: string)
    requires |caps| == 3 && AllCapture(InnerGroups, caps)
    ensures ProgressMatch(Fill(ProgressSeps, caps) + "NaN" + suffix) == Some(caps + ["NaN"])
  {
    var f := Fill(ProgressSeps, caps);
    var l := "NaN" + suffix;
    var line := f + l;
    assert f + "NaN" + suffix == line;
    assert line[..|f|] == f && line[|f|..] == l;
    assert (caps + ["NaN"])[..3] == caps;
    RunEndStops(l, 0, 0);
    NoDecimalPrefix(l);
    ProgressMatchComplete(line, caps + ["NaN"]);
  }
}
