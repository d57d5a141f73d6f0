/**
 * pgbench_parse_summary.py: reads the summary pgbench prints at the end of a run into a
 * dictionary.  Each line is tried against five anchored patterns in a fixed order; the
 * first that matches writes its key (converted by `int` or `float`) and the loop moves on
 * to the next line.  A line that matches none of them makes sure "duration" is present,
 * writing `None` when it is absent.
 */
module PgbenchParseSummary {
  import opened Wrappers
  import opened Regex

  /** A value of the output dictionary: the result of `int(...)`, of `float(...)`, or `None`. */
  datatype Value = IntValue(i: int) | FloatValue(f: Float) | NoneValue

  datatype Conversion = ToInt | ToFloat

  /**
   * One pattern of the cascade, `^<lead>(<group>)<tail>`, with the key a match writes and
   * the conversion applied to the captured text.
   */
  datatype Rule = Rule(key: string, lead: string, group: Token, tail: string, conversion: Conversion) {
    predicate Valid() {
      InnerGroup(group) && |tail| >= 2 && tail[0] == ' ' && Stop(tail[1])
    }

    function Regexp(): Pattern {
      Text(lead) + ([group] + Text(tail))
    }
  }

  /** The five patterns of the script, in the order the loop tries them. */
  const Rules: seq<Rule> := [
    Rule("duration", "duration: ", DigitsAny, " s", ToInt),
    Rule("lat_avg", "latency average = ", Decimal, " ms", ToFloat),
    Rule("lat_stddev", "latency stddev = ", Decimal, " ms", ToFloat),
    Rule("tps_excl", "tps = ", Decimal, " (without initial connection time)", ToFloat),
    Rule("connection_time", "initial connection time = ", Decimal, " ms", ToFloat)
  ]

  /** The keys the script can write. */
  const Keys: set<string> := {"duration", "lat_avg", "lat_stddev", "tps_excl", "connection_time"}

  predicate RulesOk(rules: seq<Rule>) {
    forall i :: 0 <= i < |rules| ==> rules[i].Valid()
  }

  lemma RulesValid()
    ensures RulesOk(Rules)
  {
  }

  lemma OneGroupAll(a: string, t: Token, b: string, line: string)
    requires InnerGroup(t) && |b| >= 2 && b[0] == ' ' && Stop(b[1])
    ensures WellFormed(Text(a) + ([t] + Text(b))) && GroupCount(Text(a) + ([t] + Text(b))) == 1
    ensures forall cap :: Match(Text(a) + ([t] + Text(b)), line) == Some([cap]) <==> Captures(t, cap) && a + cap + b <= line
  {
    OneGroup(a, t, b, line, "");
    forall cap
      ensures Match(Text(a) + ([t] + Text(b)), line) == Some([cap]) <==> Captures(t, cap) && a + cap + b <= line
    {
      OneGroup(a, t, b, line, cap);
    }
  }

  /** The line begins with the lead, then `cap`, which the group accepts, then the tail. */
  ghost predicate Shaped(rule: Rule, line: string, cap: string) {
    Captures(rule.group, cap) && rule.lead + cap + rule.tail <= line
  }

  /** `rule.Regexp().match(line)`, and the text its group captured. */
  function RuleMatch(rule: Rule, line: string): (r: Option<string>)
    requires rule.Valid()
    ensures r.Some? ==> Shaped(rule, line, r.value)
  {
    OneGroupAll(rule.lead, rule.group, rule.tail, line);
    match Match(rule.Regexp(), line)
    case None => None
    case Some(caps) =>
      assert caps == [caps[0]];
      Some(caps[0])
  }

  /** Conversely, a line of the rule's shape is matched, with the text between lead and tail captured. */
  lemma RuleMatchComplete(rule: Rule, line: string, cap: string)
    requires rule.Valid() && Shaped(rule, line, cap)
    ensures RuleMatch(rule, line) == Some(cap)
  {
    OneGroup(rule.lead, rule.group, rule.tail, line, cap);
  }

  /** The first rule that matches the line, with the text its group captured. */
  function FirstMatch(rules: seq<Rule>, line: string): (r: Option<(nat, string)>)
    requires RulesOk(rules)
    ensures r.Some? ==> r.value.0 < |rules| && RuleMatch(rules[r.value.0], line) == Some(r.value.1)
    ensures r.Some? ==> forall j :: 0 <= j < r.value.0 ==> RuleMatch(rules[j], line).None?
    ensures r.None? ==> forall j :: 0 <= j < |rules| ==> RuleMatch(rules[j], line).None?
    decreases |rules|
  {
    if rules == [] then None
    else match RuleMatch(rules[0], line)
      case Some(cap) => Some((0, cap))
      case None =>
        match FirstMatch(rules[1..], line)
        case None => None
        case Some((j, cap)) => Some((j + 1, cap))
  }

  /** `int(text)` or `float(text)`; a rejected text raises ValueError. */
  function Convert(c: Conversion, text: string, toInt: string -> Option<int>, toFloat: string -> Option<Float>)
    : (r: Result<Value, ConversionError>)
    ensures r.Err? <==> (if c == ToInt then toInt(text).None? else toFloat(text).None?)
    ensures r.Err? ==> r.error == ValueError(text)
    ensures r.Ok? ==> r.value == if c == ToInt then IntValue(toInt(text).value) else FloatValue(toFloat(text).value)
  {
    match c
    case ToInt => (match toInt(text) case Some(i) => Ok(IntValue(i)) case None => Err(ValueError(text)))
    case ToFloat => (match toFloat(text) case Some(f) => Ok(FloatValue(f)) case None => Err(ValueError(text)))
  }

  /**
   * One pass of the loop body.  A line that matches no pattern leaves the dictionary as it
   * is when "duration" is present, and adds "duration": None otherwise.
   */
  function Step(rules: seq<Rule>, toInt: string -> Option<int>, toFloat: string -> Option<Float>,
                data: map<string, Value>, line: string): (r: Result<map<string, Value>, ConversionError>)
    requires RulesOk(rules)
    ensures FirstMatch(rules, line).None? ==>
      r == Ok(if "duration" in data then data else data["duration" := NoneValue])
    ensures r.Ok? && FirstMatch(rules, line).Some? ==>
      var (i, cap) := FirstMatch(rules, line).value;
      r.value.Keys == data.Keys + {rules[i].key} &&
      Convert(rules[i].conversion, cap, toInt, toFloat) == Ok(r.value[rules[i].key]) &&
      forall k :: k in data && k != rules[i].key ==> r.value[k] == data[k]
    ensures FirstMatch(rules, line).Some? ==>
      var (i, cap) := FirstMatch(rules, line).value;
      (r.Err? <==> Convert(rules[i].conversion, cap, toInt, toFloat).Err?) &&
      (r.Err? ==> r.error == ValueError(cap))
  {
    match FirstMatch(rules, line)
    case Some((i, cap)) =>
      (match Convert(rules[i].conversion, cap, toInt, toFloat)
       case Err(e) => Err(e)
       case Ok(v) => Ok(data[rules[i].key := v]))
    case None =>
      var d := data["duration" := if "duration" in data then data["duration"] else NoneValue];
      assert "duration" in data ==> d == data;
      Ok(d)
  }

  /** The dictionary after the loop has run over `lines`, starting from `data`. */
  function Summary(rules: seq<Rule>, toInt: string -> Option<int>, toFloat: string -> Option<Float>,
                   data: map<string, Value>, lines: seq<string>): (r: Result<map<string, Value>, ConversionError>)
    requires RulesOk(rules)
    ensures r.Ok? ==> data.Keys <= r.value.Keys
    decreases |lines|
  {
    if lines == [] then Ok(data)
    else match Step(rules, toInt, toFloat, data, lines[0])
      case Err(e) => Err(e)
      case Ok(d) => Summary(rules, toInt, toFloat, d, lines[1..])
  }

  /** The script: the loop over the lines of the file, then the dictionary it dumps. */
  method ParseSummary(lines: seq<string>, toInt: string -> Option<int>, toFloat: string -> Option<Float>)
    returns (r: Result<map<string, Value>, ConversionError>)
    ensures RulesOk(Rules) && r == Summary(Rules, toInt, toFloat, map[], lines)
  {
    RulesValid();
    var data: map<string, Value> := map[];
    for n := 0 to |lines|
      invariant Summary(Rules, toInt, toFloat, data, lines[n..]) == Summary(Rules, toInt, toFloat, map[], lines)
    {
      Unroll(Rules, toInt, toFloat, data, lines, n);
      var line := lines[n];
      var m := FirstMatch(Rules, line);
      if m.Some? {
        var (i, cap) := m.value;
        var v := Convert(Rules[i].conversion, cap, toInt, toFloat);
        if v.Err? {
          return Err(v.error);
        }
        data := data[Rules[i].key := v.value];
        continue;
      }
      data := data["duration" := if "duration" in data then data["duration"] else NoneValue];
    }
    assert lines[|lines|..] == [];
    r := Ok(data);
  }

  /** One pass of the loop over the rest of the lines from n. */
  lemma Unroll(rules: seq<Rule>, toInt: string -> Option<int>, toFloat: string -> Option<Float>,
               data: map<string, Value>, lines: seq<string>, n: nat)
    requires RulesOk(rules) && n < |lines|
    ensures Summary(rules, toInt, toFloat, data, lines[n..]) ==
      match Step(rules, toInt, toFloat, data, lines[n])
      case Err(e) => Err(e)
      case Ok(d) => Summary(rules, toInt, toFloat, d, lines[n + 1..])
  {
    assert lines[n..][1..] == lines[n + 1..];
  }

  /* Properties of the loop. */

  /** Every key the loop writes is the key of a rule or "duration". */
  predicate KeysWithin(rules: seq<Rule>, keys: set<string>) {
    "duration" in keys && forall i :: 0 <= i < |rules| ==> rules[i].key in keys
  }

  lemma {:induction false} SummaryKeys(rules: seq<Rule>, toInt: string -> Option<int>, toFloat: string -> Option<Float>,
                                       data: map<string, Value>, lines: seq<string>, keys: set<string>)
    requires RulesOk(rules) && KeysWithin(rules, keys) && data.Keys <= keys
    ensures Summary(rules, toInt, toFloat, data, lines).Ok? ==>
      data.Keys <= Summary(rules, toInt, toFloat, data, lines).value.Keys <= keys
    decreases |lines|
  {
    if lines != [] {
      var s := Step(rules, toInt, toFloat, data, lines[0]);
      if s.Ok? {
        SummaryKeys(rules, toInt, toFloat, s.value, lines[1..], keys);
      }
    }
  }

  /** A line the loop cannot get past: a pattern matches it and `int` or `float` rejects the capture. */
  predicate Unconvertible(rules: seq<Rule>, toInt: string -> Option<int>, toFloat: string -> Option<Float>, line: string)
    requires RulesOk(rules)
  {
    FirstMatch(rules, line).Some? &&
    Convert(rules[FirstMatch(rules, line).value.0].conversion, FirstMatch(rules, line).value.1, toInt, toFloat).Err?
  }

  lemma StepFails(rules: seq<Rule>, toInt: string -> Option<int>, toFloat: string -> Option<Float>,
                  data: map<string, Value>, line: string)
    requires RulesOk(rules)
    ensures Step(rules, toInt, toFloat, data, line).Err? <==> Unconvertible(rules, toInt, toFloat, line)
  {
  }

  /** The script raises ValueError exactly when some line of the log is unconvertible. */
  lemma {:induction false} FailsIffUnconvertible(rules: seq<Rule>, toInt: string -> Option<int>, toFloat: string -> Option<Float>,
                                                 data: map<string, Value>, lines: seq<string>)
    requires RulesOk(rules)
    ensures Summary(rules, toInt, toFloat, data, lines).Err? <==>
      exists j :: 0 <= j < |lines| && Unconvertible(rules, toInt, toFloat, lines[j])
    decreases |lines|
  {
    if lines != [] {
      var s := Step(rules, toInt, toFloat, data, lines[0]);
      StepFails(rules, toInt, toFloat, data, lines[0]);
      if s.Ok? {
        var rest := lines[1..];
        assert Summary(rules, toInt, toFloat, data, lines) == Summary(rules, toInt, toFloat, s.value, rest);
        FailsIffUnconvertible(rules, toInt, toFloat, s.value, rest);
        assert forall j :: 0 <= j < |rest| ==> rest[j] == lines[j + 1];
        assert !Unconvertible(rules, toInt, toFloat, lines[0]);
      }
    }
  }

  /** The output of the script has no key but the five of `Keys`. */
  lemma OutputKeys(lines: seq<string>, toInt: string -> Option<int>, toFloat: string -> Option<Float>)
    ensures RulesOk(Rules)
    ensures Summary(Rules, toInt, toFloat, map[], lines).Ok? ==>
      Summary(Rules, toInt, toFloat, map[], lines).value.Keys <= Keys
  {
    RulesValid();
    SummaryKeys(Rules, toInt, toFloat, map[], lines, Keys);
  }

  /** The line sets `key`: a pattern matches and the first that does writes `key`. */
  predicate Writes(rules: seq<Rule>, line: string, key: string)
    requires RulesOk(rules)
  {
    FirstMatch(rules, line).Some? && rules[FirstMatch(rules, line).value.0].key == key
  }

  /** A key no later line writes keeps its value to the end. */
  lemma {:induction false} Persist(rules: seq<Rule>, toInt: string -> Option<int>, toFloat: string -> Option<Float>,
                                   data: map<string, Value>, lines: seq<string>, key: string)
    requires RulesOk(rules) && key in data
    requires forall j :: 0 <= j < |lines| ==> !Writes(rules, lines[j], key)
    ensures Summary(rules, toInt, toFloat, data, lines).Ok? ==>
      key in Summary(rules, toInt, toFloat, data, lines).value &&
      Summary(rules, toInt, toFloat, data, lines).value[key] == data[key]
    decreases |lines|
  {
    if lines != [] {
      assert !Writes(rules, lines[0], key);
      var s := Step(rules, toInt, toFloat, data, lines[0]);
      if s.Ok? {
        Persist(rules, toInt, toFloat, s.value, lines[1..], key);
      }
    }
  }

  lemma {:induction false} SummaryAppend(rules: seq<Rule>, toInt: string -> Option<int>, toFloat: string -> Option<Float>,
                                         data: map<string, Value>, a: seq<string>, b: seq<string>)
    requires RulesOk(rules)
    ensures Summary(rules, toInt, toFloat, data, a + b) ==
      match Summary(rules, toInt, toFloat, data, a)
      case Err(e) => Err(e)
      case Ok(d) => Summary(rules, toInt, toFloat, d, b)
    decreases |a|
  {
    if a == [] {
      assert a + b == b;
    } else {
      assert (a + b)[0] == a[0] && (a + b)[1..] == a[1..] + b;
      var s := Step(rules, toInt, toFloat, data, a[0]);
      if s.Ok? {
        SummaryAppend(rules, toInt, toFloat, s.value, a[1..], b);
      }
    }
  }

  /**
   * The last line that writes a key decides its value: when line n matches rule i and
   * no later line writes the same key, the output holds the converted capture of line n.
   */
  lemma LastMatchWins(rules: seq<Rule>, toInt: string -> Option<int>, toFloat: string -> Option<Float>,
                      data: map<string, Value>, lines: seq<string>, n: nat)
    requires RulesOk(rules) && n < |lines| && FirstMatch(rules, lines[n]).Some?
    requires forall j :: n < j < |lines| ==> !Writes(rules, lines[j], rules[FirstMatch(rules, lines[n]).value.0].key)
    ensures var (i, cap) := FirstMatch(rules, lines[n]).value;
      Summary(rules, toInt, toFloat, data, lines).Ok? ==>
        rules[i].key in Summary(rules, toInt, toFloat, data, lines).value &&
        Ok(Summary(rules, toInt, toFloat, data, lines).value[rules[i].key]) == Convert(rules[i].conversion, cap, toInt, toFloat)
  {
    var (i, cap) := FirstMatch(rules, lines[n]).value;
    var key := rules[i].key;
    var post := lines[n + 1..];
    assert lines == lines[..n] + ([lines[n]] + post);
    SummaryAppend(rules, toInt, toFloat, data, lines[..n], [lines[n]] + post);
    var before := Summary(rules, toInt, toFloat, data, lines[..n]);
    if before.Ok? {
      assert ([lines[n]] + post)[0] == lines[n] && ([lines[n]] + post)[1..] == post;
      var s := Step(rules, toInt, toFloat, before.value, lines[n]);
      if s.Ok? {
        assert forall j :: 0 <= j < |post| ==> post[j] == lines[n + 1 + j];
        Persist(rules, toInt, toFloat, s.value, post, key);
      }
    }
  }

  /** A rule matches only lines that begin with its lead: every pattern is anchored by `^`. */
  lemma LeadRequired(rule: Rule, line: string)
    requires rule.Valid()
    ensures RuleMatch(rule, line).Some? ==> rule.lead <= line
  {
    if RuleMatch(rule, line).Some? {
      var cap := RuleMatch(rule, line).value;
      assert (rule.lead + cap + rule.tail)[..|rule.lead|] == rule.lead;
    }
  }

  lemma PrefixesAgree(a: string, b: string, line: string, k: nat)
    requires a <= line && b <= line && k < |a| && k < |b|
    ensures a[k] == b[k]
  {
    assert a[k] == line[k] && b[k] == line[k];
  }

  /** The five patterns begin with different texts, so at most one of them matches a line. */
  lemma OnlyOneRuleMatches(line: string, i: nat, j: nat)
    requires i < |Rules| && j < |Rules|
    requires RulesOk(Rules) && RuleMatch(Rules[i], line).Some? && RuleMatch(Rules[j], line).Some?
    ensures i == j
  {
    LeadRequired(Rules[i], line);
    LeadRequired(Rules[j], line);
    LeadLetters();
    var k := if (i == 1 || i == 2) && (j == 1 || j == 2) then 8 else 0;
    PrefixesAgree(Rules[i].lead, Rules[j].lead, line, k);
  }

  /** The letters that tell the leads apart: the first, and the ninth of the two latency leads. */
  lemma LeadLetters()
    ensures forall i :: 0 <= i < |Rules| ==> |Rules[i].lead| > 0
    ensures |Rules[1].lead| > 8 && |Rules[2].lead| > 8
    ensures Rules[0].lead[0] == 'd' && Rules[1].lead[0] == 'l' && Rules[2].lead[0] == 'l'
    ensures Rules[3].lead[0] == 't' && Rules[4].lead[0] == 'i'
    ensures Rules[1].lead[8] == 'a' && Rules[2].lead[8] == 's'
  {
  }

  lemma FirstCharMissing(k: nat, line: string)
    requires k < |Rules| && |line| > 0 && line[0] != Rules[k].lead[0]
    ensures Rules[k].Valid() && RuleMatch(Rules[k], line).None?
  {
    LeadMissing(Rules[k], line);
  }

  lemma NoLeadFits(line: string)
    requires |line| > 0 && line[0] != 'd' && line[0] != 'l' && line[0] != 't' && line[0] != 'i'
    ensures RuleMatch(Rules[0], line).None? && RuleMatch(Rules[1], line).None? && RuleMatch(Rules[2], line).None?
    ensures RuleMatch(Rules[3], line).None? && RuleMatch(Rules[4], line).None?
  {
    FirstCharMissing(0, line);
    FirstCharMissing(1, line);
    FirstCharMissing(2, line);
    FirstCharMissing(3, line);
    FirstCharMissing(4, line);
  }

  /**
   * Every pattern is anchored at the start of the line: a line that begins with anything
   * but the first letter of a lead (text before "tps = ", say) matches none of the five
   * patterns, so the only key its step can set is the `duration` default.
   */
  lemma Unanchored(line: string)
    requires |line| > 0 && line[0] != 'd' && line[0] != 'l' && line[0] != 't' && line[0] != 'i'
    ensures RulesOk(Rules) && FirstMatch(Rules, line).None?
  {
    RulesValid();
    NoLeadFits(line);
    NoRuleMatches(line);
  }

  /** Only the fourth rule writes "tps_excl". */
  lemma TpsExclKey()
    ensures forall i :: 0 <= i < |Rules| ==> (Rules[i].key == "tps_excl" <==> i == 3)
  {
    forall i | 0 <= i < |Rules|
      ensures Rules[i].key == "tps_excl" <==> i == 3
    {
      if i == 0 {
      } else if i == 1 {
      } else if i == 2 {
      } else if i == 3 {
      } else {
        assert i == 4;
      }
    }
  }

  /** "tps_excl" is set only by a line that goes on with "(without initial connection time)" after the number. */
  lemma TpsExclNeedsQualifier(line: string)
    ensures RulesOk(Rules)
    ensures Writes(Rules, line, "tps_excl") ==>
      exists cap :: Captures(Decimal, cap) && "tps = " + cap + " (without initial connection time)" <= line
  {
    RulesValid();
    if Writes(Rules, line, "tps_excl") {
      var (i, cap) := FirstMatch(Rules, line).value;
      TpsExclKey();
      assert Shaped(Rules[3], line, cap);
    }
  }

  /** An empty log gives an empty dictionary. */
  lemma EmptyLog(toInt: string -> Option<int>, toFloat: string -> Option<Float>)
    ensures RulesOk(Rules) && Summary(Rules, toInt, toFloat, map[], []) == Ok(map[])
  {
  }

  /** The example of the script's comment: "duration: 100 s" captures "100". */
  lemma DurationExample()
    ensures Rules[0].Valid() && RuleMatch(Rules[0], "duration: 100 s") == Some("100")
  {
    var g := "100";
    assert DigitsIn(g, 0, |g| - 1) && IsAny(g[2]);
    assert Captures(DigitsAny, g);
    assert "duration: " + g + " s" == "duration: 100 s";
    RuleMatchComplete(Rules[0], "duration: 100 s", g);
  }

  /** A duration of one digit is not matched by `^duration: (\d+.) s`. */
  lemma ShortDurationIgnored(d: char)
    ensures Rules[0].Valid() && RuleMatch(Rules[0], "duration: " + [d] + " s").None?
  {
  }

  /** When no rule matches, the first match is missing. */
  lemma {:induction false} NoFirstMatch(rules: seq<Rule>, line: string)
    requires RulesOk(rules)
    requires forall j :: 0 <= j < |rules| ==> RuleMatch(rules[j], line).None?
    ensures FirstMatch(rules, line).None?
    decreases |rules|
  {
    if rules != [] {
      NoFirstMatch(rules[1..], line);
    }
  }

  lemma SummaryOfOne(rules: seq<Rule>, toInt: string -> Option<int>, toFloat: string -> Option<Float>,
                     data: map<string, Value>, line: string)
    requires RulesOk(rules)
    ensures Summary(rules, toInt, toFloat, data, [line]) == Step(rules, toInt, toFloat, data, line)
  {
    assert [line][1..] == [];
  }

  /** A rule does not match a line that does not begin with its lead. */
  lemma LeadMissing(rule: Rule, line: string)
    requires rule.Valid() && !(rule.lead <= line)
    ensures RuleMatch(rule, line).None?
  {
    LeadRequired(rule, line);
  }

  lemma NoRuleMatches(line: string)
    requires RulesOk(Rules)
    requires RuleMatch(Rules[0], line).None? && RuleMatch(Rules[1], line).None? && RuleMatch(Rules[2], line).None?
    requires RuleMatch(Rules[3], line).None? && RuleMatch(Rules[4], line).None?
    ensures FirstMatch(Rules, line).None?
  {
    forall j | 0 <= j < |Rules|
      ensures RuleMatch(Rules[j], line).None?
    {
      if j == 0 {
      } else if j == 1 {
      } else if j == 2 {
      } else if j == 3 {
      } else {
        assert j == 4;
      }
    }
    NoFirstMatch(Rules, line);
  }

  /** A line shorter than 18 characters that begins with 'd' has none of the other four leads. */
  lemma OtherLeadMissing(k: nat, line: string)
    requires 1 <= k < |Rules| && 0 < |line| < 18 && line[0] == 'd'
    ensures RuleMatch(Rules[k], line).None?
  {
    if k == 3 {
      assert Rules[3].lead[0] == 't';
    }
    LeadMissing(Rules[k], line);
  }

  lemma OtherRulesSkip(line: string)
    requires 0 < |line| < 18 && line[0] == 'd'
    ensures RuleMatch(Rules[1], line).None? && RuleMatch(Rules[2], line).None?
    ensures RuleMatch(Rules[3], line).None? && RuleMatch(Rules[4], line).None?
  {
    OtherLeadMissing(1, line);
    OtherLeadMissing(2, line);
    OtherLeadMissing(3, line);
    OtherLeadMissing(4, line);
  }

  /** Such a line can only be matched by the duration rule. */
  lemma OnlyDurationCandidate(line: string)
    requires RulesOk(Rules) && RuleMatch(Rules[0], line).None?
    requires 0 < |line| < 18 && line[0] == 'd'
    ensures FirstMatch(Rules, line).None?
  {
    OtherRulesSkip(line);
    NoRuleMatches(line);
  }

  /** No pattern matches a one-digit duration line such as "duration: 5 s". */
  lemma ShortDurationUnmatched(d: char)
    ensures RulesOk(Rules) && FirstMatch(Rules, "duration: " + [d] + " s").None?
  {
    RulesValid();
    ShortDurationIgnored(d);
    OnlyDurationCandidate("duration: " + [d] + " s");
  }

  /** So the summary of a run of under ten seconds reports its duration as `None`. */
  lemma ShortDurationSummary(d: char, toInt: string -> Option<int>, toFloat: string -> Option<Float>)
    ensures RulesOk(Rules)
    ensures Summary(Rules, toInt, toFloat, map[], ["duration: " + [d] + " s"]) == Ok(map["duration" := NoneValue])
  {
    ShortDurationUnmatched(d);
    SummaryOfOne(Rules, toInt, toFloat, map[], "duration: " + [d] + " s");
  }

  /* The duration pattern as evidently intended, `^duration: (\d+) s`. */

  const IntendedRules: seq<Rule> := [Rule("duration", "duration: ", Digits, " s", ToInt)] + Rules[1..]

  lemma IntendedRulesValid()
    ensures RulesOk(IntendedRules)
  {
    RulesValid();
    assert forall i :: 1 <= i < |IntendedRules| ==> IntendedRules[i] == Rules[i];
  }

  /** With the intended pattern every "duration: N s" line, N any run of digits, captures N. */
  lemma IntendedDurationMatches(n: string)
    requires |n| >= 1 && forall i :: 0 <= i < |n| ==> IsDigit(n[i])
    ensures IntendedRules[0].Valid() && RuleMatch(IntendedRules[0], "duration: " + n + " s") == Some(n)
  {
    assert Captures(Digits, n);
    RuleMatchComplete(IntendedRules[0], "duration: " + n + " s", n);
  }

  /** and the summary of such a run reports the duration `int(N)`. */
  lemma IntendedDurationSummary(n: string, toInt: string -> Option<int>, toFloat: string -> Option<Float>)
    requires |n| >= 1 && forall i :: 0 <= i < |n| ==> IsDigit(n[i])
    requires toInt(n).Some?
    ensures RulesOk(IntendedRules)
    ensures Summary(IntendedRules, toInt, toFloat, map[], ["duration: " + n + " s"]) == Ok(map["duration" := IntValue(toInt(n).value)])
  {
    IntendedRulesValid();
    var line := "duration: " + n + " s";
    IntendedDurationMatches(n);
    assert FirstMatch(IntendedRules, line) == Some((0, n));
    SummaryOfOne(IntendedRules, toInt, toFloat, map[], line);
  }
}
