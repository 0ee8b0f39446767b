/**
 * src/services/medicalAnalysisService.js without its network half: the local
 * classification of every parsed result against its own reference range, the
 * generated summary and recommendations, the merge of an already decoded
 * enrichment reply into the local analysis, and the fixed insight lists.
 */
module MedicalAnalysis {
  import opened Options
  import opened Text
  import opened Numbers
  import opened OrderedMaps
  import opened Lab

  const GLU_LOW_BASIC := "Low blood glucose (hypoglycemia) may cause fatigue, dizziness, and confusion."
  const GLU_DIABETES_BASIC := "Glucose above 125 mg/dL may indicate diabetes."
  const GLU_PREDIABETES_BASIC := "Slightly elevated glucose levels may indicate prediabetes."
  const BELOW_RANGE := " level is below the reference range."
  const ABOVE_RANGE := " level is above the reference range."

  /** The advice given when some result is not Normal. */
  const FOLLOW_UP_ADVICE := [
    "Consult with your healthcare provider about your test results.",
    "Consider lifestyle modifications appropriate for your specific results.",
    "Follow up with additional testing if recommended by your doctor."]

  const DEFAULT_INSIGHTS := [
    "Consider discussing these results with your healthcare provider for a complete interpretation.",
    "Regular monitoring of your blood values is recommended for tracking your health over time."]
  const DEFAULT_QUESTIONS := [
    "When was your last complete physical examination?",
    "Have you noticed any changes in your health recently?"]

  /** The `min` and `max` locals: None while undefined, otherwise what `parseFloat` gave
      (possibly NaN). */
  datatype Bounds = Bounds(min: Option<Number>, max: Option<Number>)

  /** Reading a reference range: a `-` is looked for first (the first two pieces of the split
      are min and max), then `<` (what is left after removing the first `<` is max), then `>`
      (likewise min); a range with none of the three defines neither bound. */
  function RangeBounds(range: string): (b: Bounds)
    ensures '-' in range ==> b.min.Some? && b.max.Some?
    ensures '-' !in range && '<' in range ==> b.min.None? && b.max.Some?
    ensures '-' !in range && '<' !in range && '>' in range ==> b.min.Some? && b.max.None?
    ensures b == Bounds(None, None) <==> '-' !in range && '<' !in range && '>' !in range
  {
    if '-' in range then
      var parts := Split(range, '-');
      Bounds(Some(ParseFloat(parts[0])), Some(ParseFloat(parts[1])))
    else if '<' in range then Bounds(None, Some(ParseFloat(RemoveFirst(range, '<'))))
    else if '>' in range then Bounds(Some(ParseFloat(RemoveFirst(range, '>'))), None)
    else Bounds(None, None)
  }

  /** The status the bounds give a value. Both bounds are inclusive; a comparison with NaN is
      false, so a NaN bound never makes a value Low or High. */
  function RangeStatus(v: Number, b: Bounds): (s: string)
    ensures s == UNKNOWN <==> b.min.None? && b.max.None?
    ensures b.min.Some? && b.max.Some? && v.Finite? && b.min.value.Finite? && b.max.value.Finite? ==>
      var lo := b.min.value.r; var hi := b.max.value.r;
      && (s == LOW <==> v.r < lo)
      && (s == HIGH <==> lo <= v.r && hi < v.r)
      && (s == NORMAL <==> lo <= v.r <= hi)
    ensures b.min.None? && b.max.Some? && v.Finite? && b.max.value.Finite? ==>
      (s == HIGH <==> v.r > b.max.value.r) && (s == NORMAL <==> v.r <= b.max.value.r)
    ensures b.min.Some? && b.max.None? && v.Finite? && b.min.value.Finite? ==>
      (s == LOW <==> v.r < b.min.value.r) && (s == NORMAL <==> v.r >= b.min.value.r)
    ensures (b.min == Some(NaN) || b.min.None?) && (b.max == Some(NaN) || b.max.None?) && b != Bounds(None, None) ==>
      s == NORMAL
    ensures v.NaN? && b != Bounds(None, None) ==> s == NORMAL
  {
    if b.min.Some? && b.max.Some? then
      if Less(v, b.min.value) then LOW else if Less(b.max.value, v) then HIGH else NORMAL
    else if b.min.Some? then
      if Less(v, b.min.value) then LOW else NORMAL
    else if b.max.Some? then
      if Less(b.max.value, v) then HIGH else NORMAL
    else UNKNOWN
  }

  /** The status of one parsed result: Unknown exactly when its range is empty, 'Not provided'
      or holds none of `-`, `<`, `>`. */
  function BasicStatus(r: LabResult): (s: string)
    ensures s == UNKNOWN <==>
      r.refRange == "" || r.refRange == NOT_PROVIDED || ('-' !in r.refRange && '<' !in r.refRange && '>' !in r.refRange)
  {
    if r.refRange != "" && r.refRange != NOT_PROVIDED then RangeStatus(r.value, RangeBounds(r.refRange))
    else UNKNOWN
  }

  /** The interpretation the `switch` picks. Hemoglobin that is neither Normal nor Low (Unknown
      included) is called elevated; Glucose above the range is diabetic above 125 and prediabetic
      otherwise; every other test gets a sentence that names it and ends by its status. */
  function BasicInterpretation(test: string, status: string, v: Number): (t: string)
    ensures test == HEMOGLOBIN ==>
      t == (if status == NORMAL then HB_NORMAL else if status == LOW then HB_LOW else HB_HIGH)
    ensures test == GLUCOSE && status != NORMAL && status != LOW ==>
      t == (if Less(Finite(125.0), v) then GLU_DIABETES_BASIC else GLU_PREDIABETES_BASIC)
    ensures test != HEMOGLOBIN && test != GLUCOSE ==>
      && |t| > 5 + |test|
      && t[..5] == "Your "
      && t[5..5 + |test|] == test
      && t[5 + |test|..] == (if status == NORMAL then WITHIN_RANGE else if status == LOW then BELOW_RANGE else ABOVE_RANGE)
  {
    if test == HEMOGLOBIN then
      if status == NORMAL then HB_NORMAL else if status == LOW then HB_LOW else HB_HIGH
    else if test == GLUCOSE then
      if status == NORMAL then GLU_NORMAL
      else if status == LOW then GLU_LOW_BASIC
      else if Less(Finite(125.0), v) then GLU_DIABETES_BASIC
      else GLU_PREDIABETES_BASIC
    else
      "Your " + test + (if status == NORMAL then WITHIN_RANGE else if status == LOW then BELOW_RANGE else ABOVE_RANGE)
  }

  /** `analysis[test] = { ...result, status, interpretation }` */
  function BasicEntry(test: string, r: LabResult): Analysed {
    var status := BasicStatus(r);
    Analysed(r, status, BasicInterpretation(test, status, r.value))
  }

  /** The body of the `forEach` in `performBasicAnalysis`, with its mutable `min`, `max` and
      `status` locals. */
  method AnalyseEntry(test: string, result: LabResult) returns (entry: Analysed)
    ensures entry == BasicEntry(test, result)
  {
    var status: string;
    if result.refRange != "" && result.refRange != NOT_PROVIDED {
      var min: Option<Number> := None;
      var max: Option<Number> := None;
      if '-' in result.refRange {
        var parts := Split(result.refRange, '-');
        min, max := Some(ParseFloat(parts[0])), Some(ParseFloat(parts[1]));
      } else if '<' in result.refRange {
        max := Some(ParseFloat(RemoveFirst(result.refRange, '<')));
      } else if '>' in result.refRange {
        min := Some(ParseFloat(RemoveFirst(result.refRange, '>')));
      }
      if min.Some? && max.Some? {
        status := if Less(result.value, min.value) then LOW else if Less(max.value, result.value) then HIGH else NORMAL;
      } else if min.Some? {
        status := if Less(result.value, min.value) then LOW else NORMAL;
      } else if max.Some? {
        status := if Less(max.value, result.value) then HIGH else NORMAL;
      } else {
        status := UNKNOWN;
      }
      assert Bounds(min, max) == RangeBounds(result.refRange);
    } else {
      status := UNKNOWN;
    }
    entry := Analysed(result, status, BasicInterpretation(test, status, result.value));
  }

  /** `performBasicAnalysis`: one classified entry per parsed test, in key order. */
  method PerformBasicAnalysis(parsed: Dict<LabResult>) returns (analysis: Dict<Analysed>)
    ensures analysis == MapWithKey(parsed, BasicEntry)
  {
    analysis := Empty();
    var i := 0;
    while i < |parsed.keys|
      invariant 0 <= i <= |parsed.keys|
      invariant analysis == MapPrefix(parsed, i, BasicEntry)
    {
      var test := parsed.keys[i];
      var entry := AnalyseEntry(test, parsed.entries[test]);
      MapPrefixStep(parsed, i, BasicEntry);
      analysis := Put(analysis, test, entry);
      i := i + 1;
    }
    MapPrefixAll(parsed, BasicEntry);
  }

  /** The basic analysis has the parsed keys in their order, keeps every parsed record
      unchanged and adds the status its range gives. */
  lemma BasicAnalysisShape(parsed: Dict<LabResult>)
    ensures var a := MapWithKey(parsed, BasicEntry);
      && a.keys == parsed.keys
      && (forall k :: k in parsed.entries ==>
            && k in a.entries
            && a.entries[k].result == parsed.entries[k]
            && a.entries[k].status == BasicStatus(parsed.entries[k]))
  {
  }

  /** A range `x-y` with separator-free halves has bounds parseFloat(x) and parseFloat(y). */
  lemma RangeBoundsOfInterval(x: string, y: string)
    requires '-' !in x && '-' !in y
    ensures RangeBounds(x + "-" + y) == Bounds(Some(ParseFloat(x)), Some(ParseFloat(y)))
  {
    assert "-" == ['-'];
    SplitPair(x, y, '-');
  }

  /** A range `<x` has only the bound max = parseFloat(x). */
  lemma RangeBoundsOfCeiling(x: string)
    requires '-' !in x
    ensures RangeBounds("<" + x) == Bounds(None, Some(ParseFloat(x)))
  {
    var s := "<" + x;
    assert s[0] == '<' && s[1..] == x;
    NotInAfterFirst(s, '-');
    IndexOfUnique(s, '<', 0);
    assert RemoveFirst(s, '<') == s[..0] + s[1..] == x;
  }

  /** A range `>x` with no `<` has only the bound min = parseFloat(x). */
  lemma RangeBoundsOfFloor(x: string)
    requires '-' !in x && '<' !in x
    ensures RangeBounds(">" + x) == Bounds(Some(ParseFloat(x)), None)
  {
    var s := ">" + x;
    assert s[0] == '>' && s[1..] == x;
    NotInAfterFirst(s, '-');
    NotInAfterFirst(s, '<');
    IndexOfUnique(s, '>', 0);
    assert RemoveFirst(s, '>') == s[..0] + s[1..] == x;
  }

  /** A character that is neither the first one of s nor in the rest of s is not in s. */
  lemma NotInAfterFirst(s: string, c: char)
    requires |s| > 0 && s[0] != c && c !in s[1..]
    ensures c !in s
  {
    assert s == [s[0]] + s[1..];
  }

  /** A range `x-y` whose halves hold no digit (and so no number) gives defined NaN bounds: the
      status is Normal, not Unknown, whatever the value. */
  lemma UnparseableRangeIsNormal(x: string, y: string, v: Number, unit: string)
    requires '-' !in x && '-' !in y
    requires forall i :: 0 <= i < |x| ==> !IsDigit(x[i]) && x[i] != 'I'
    requires forall i :: 0 <= i < |y| ==> !IsDigit(y[i]) && y[i] != 'I'
    ensures BasicStatus(LabResult(v, unit, x + "-" + y)) == NORMAL
  {
    var range := x + "-" + y;
    assert range[|x|] == '-';
    assert range != NOT_PROVIDED by {
      assert '-' !in NOT_PROVIDED;
    }
    RangeBoundsOfInterval(x, y);
    ParseFloatNaN(x);
    ParseFloatNaN(y);
    assert RangeBounds(range) == Bounds(Some(NaN), Some(NaN));
  }

  /** `generateBasicSummary`: the all-clear sentence exactly when every status is Normal
      (Unknown counts as abnormal); otherwise the count and the advice to consult. */
  function BasicSummary(a: Dict<Analysed>): (s: string)
    ensures s == ALL_CLEAR <==> AbnormalKeys(a) == []
  {
    var n := |AbnormalKeys(a)|;
    if n == 0 then ALL_CLEAR
    else
      var s := CountSentence(n) + CONSULT;
      assert s[0] == 'W' && ALL_CLEAR[0] == 'A';
      s
  }

  /** A summary with abnormal results starts with "We found " and then the count, which reads
      back as that number. */
  lemma BasicSummaryCount(a: Dict<Analysed>)
    requires AbnormalKeys(a) != []
    ensures var s := BasicSummary(a);
      && |s| > 9
      && s[..9] == "We found "
      && ParseFloat(s[9..]) == Finite(|AbnormalKeys(a)| as real)
  {
    var n := |AbnormalKeys(a)|;
    var tail := " result(s) outside the normal range. " + CONSULT;
    var s := "We found " + NatToString(n) + " result(s) outside the normal range. " + CONSULT;
    assert s == "We found " + (NatToString(n) + tail);
    assert s[9..] == NatToString(n) + tail;
    assert tail[0] == ' ';
    ParseFloatInteger(n, tail);
  }

  /** `generateBasicRecommendations`: always three items, the general advice exactly when every
      status is Normal. */
  function BasicRecommendations(a: Dict<Analysed>): (r: seq<string>)
    ensures |r| == 3
    ensures AbnormalKeys(a) == [] ==> r == GENERAL_ADVICE
    ensures AbnormalKeys(a) != [] ==> r == FOLLOW_UP_ADVICE
  {
    if |AbnormalKeys(a)| == 0 then GENERAL_ADVICE else FOLLOW_UP_ADVICE
  }

  /** The report made of an analysis and the summary and recommendations generated from it. */
  function Fallback(a: Dict<Analysed>): Report {
    Report(a, BasicSummary(a), BasicRecommendations(a))
  }

  /** One entry of the reply's `analysis` object: null, or an object whose `interpretation` and
      `status` are kept as text ("" standing for a missing or falsy field; an entry that is not
      an object reads as one with both fields falsy). */
  datatype AIEntry = NullEntry | AIFields(interpretation: string, status: string)

  /** The decoded reply: its `analysis` object if truthy, its `summary` ("" when missing or
      falsy), and its `recommendations` array if present (an empty array is truthy). */
  datatype Reply = Reply(analysis: Option<Dict<AIEntry>>, summary: string, recommendations: Option<seq<string>>)

  /** `entry.field = ai.field || entry.field` for the interpretation and the status. */
  function Override(e: Analysed, f: AIEntry): Analysed
    requires f.AIFields?
  {
    Analysed(e.result,
      if f.status != "" then f.status else e.status,
      if f.interpretation != "" then f.interpretation else e.interpretation)
  }

  /** How a reply entry acts on an analysed entry: the lab fields stay; a truthy field of the
      reply wins and a falsy one keeps the entry's; a reply entry with both fields falsy changes
      nothing; applying the same reply entry twice is applying it once; and a reply entry with
      both fields truthy decides the result whatever was applied before it. */
  lemma OverrideLaws(e: Analysed, f: AIEntry, g: AIEntry)
    requires f.AIFields? && g.AIFields?
    ensures var r := Override(e, f);
      && r.result == e.result
      && (f.status != "" ==> r.status == f.status) && (f.status == "" ==> r.status == e.status)
      && (f.interpretation != "" ==> r.interpretation == f.interpretation)
      && (f.interpretation == "" ==> r.interpretation == e.interpretation)
    ensures Override(e, AIFields("", "")) == e
    ensures Override(Override(e, f), f) == Override(e, f)
    ensures g.status != "" && g.interpretation != "" ==> Override(Override(e, f), g) == Override(e, g)
  {
  }

  /** Where the merge loop ends: the merged entries, and whether it stopped by throwing. */
  datatype Merge = Merge(analysis: Dict<Analysed>, threw: bool)

  /** The merge loop over the reply's keys: a key absent from the analysis is skipped, a null
      entry for a present key throws, and any other entry overrides the present one. */
  function MergeKeys(m: Dict<Analysed>, keys: seq<string>, ai: map<string, AIEntry>): Merge
    requires forall i :: 0 <= i < |keys| ==> keys[i] in ai
    decreases |keys|
  {
    if keys == [] then Merge(m, false)
    else
      var t := keys[0];
      if t !in m.entries then MergeKeys(m, keys[1..], ai)
      else if ai[t].NullEntry? then Merge(m, true)
      else MergeKeys(Put(m, t, Override(m.entries[t], ai[t])), keys[1..], ai)
  }

  /** The merge keeps the keys of the analysis in their order and every record's lab fields. */
  lemma {:induction false} MergeKeysShape(m: Dict<Analysed>, keys: seq<string>, ai: map<string, AIEntry>)
    requires forall i :: 0 <= i < |keys| ==> keys[i] in ai
    ensures var r := MergeKeys(m, keys, ai).analysis;
      && r.keys == m.keys
      && forall k :: k in m.entries ==> k in r.entries && r.entries[k].result == m.entries[k].result
    decreases |keys|
  {
    if keys != [] {
      var t := keys[0];
      if t !in m.entries {
        MergeKeysShape(m, keys[1..], ai);
      } else if ai[t].AIFields? {
        MergeKeysShape(Put(m, t, Override(m.entries[t], ai[t])), keys[1..], ai);
      }
    }
  }

  /** The merge throws exactly when some key of the reply that the analysis has maps to null. */
  lemma {:induction false} MergeKeysThrows(m: Dict<Analysed>, keys: seq<string>, ai: map<string, AIEntry>)
    requires forall i :: 0 <= i < |keys| ==> keys[i] in ai
    ensures MergeKeys(m, keys, ai).threw <==>
      exists i :: 0 <= i < |keys| && keys[i] in m.entries && ai[keys[i]].NullEntry?
    decreases |keys|
  {
    if keys != [] {
      var t := keys[0];
      if t !in m.entries {
        MergeKeysThrows(m, keys[1..], ai);
        ShiftWitness(m, keys, ai);
      } else if ai[t].AIFields? {
        var m' := Put(m, t, Override(m.entries[t], ai[t]));
        MergeKeysThrows(m', keys[1..], ai);
        assert m'.entries.Keys == m.entries.Keys;
        ShiftWitness(m, keys, ai);
      }
    }
  }

  /** With the first key ruled out as a thrower, a throwing key among all the keys is one among
      the rest. */
  lemma ShiftWitness(m: Dict<Analysed>, keys: seq<string>, ai: map<string, AIEntry>)
    requires |keys| > 0 && forall i :: 0 <= i < |keys| ==> keys[i] in ai
    requires keys[0] !in m.entries || ai[keys[0]].AIFields?
    ensures (exists i :: 0 <= i < |keys| && keys[i] in m.entries && ai[keys[i]].NullEntry?) <==>
      (exists i :: 0 <= i < |keys| - 1 && keys[1..][i] in m.entries && ai[keys[1..][i]].NullEntry?)
  {
    if exists i :: 0 <= i < |keys| && keys[i] in m.entries && ai[keys[i]].NullEntry? {
      var i :| 0 <= i < |keys| && keys[i] in m.entries && ai[keys[i]].NullEntry?;
      assert keys[1..][i - 1] == keys[i];
    }
  }

  /** A merge that does not throw overrides the entry of every key the reply and the analysis
      share, and leaves every other entry as it was. */
  lemma {:induction false} MergeKeysEntries(m: Dict<Analysed>, keys: seq<string>, ai: map<string, AIEntry>)
    requires forall i :: 0 <= i < |keys| ==> keys[i] in ai
    requires forall i, j :: 0 <= i < j < |keys| ==> keys[i] != keys[j]
    requires !MergeKeys(m, keys, ai).threw
    ensures var r := MergeKeys(m, keys, ai).analysis;
      forall k :: k in m.entries ==>
        && k in r.entries
        && (k in keys ==> ai[k].AIFields? && r.entries[k] == Override(m.entries[k], ai[k]))
        && (k !in keys ==> r.entries[k] == m.entries[k])
    decreases |keys|
  {
    if keys != [] {
      var t := keys[0];
      if t !in m.entries {
        MergeKeysEntries(m, keys[1..], ai);
      } else {
        var m' := Put(m, t, Override(m.entries[t], ai[t]));
        MergeKeysEntries(m', keys[1..], ai);
        assert t !in keys[1..] by {
          forall i | 0 <= i < |keys| - 1
            ensures keys[1..][i] != t
          {
            assert keys[1..][i] == keys[i + 1];
          }
        }
      }
    }
  }

  /** What `parseAIResponse` returns. The spread copy shares its entry objects with the basic
      analysis, so the merged entries are what the generated summary and recommendations see,
      and also what the fallback returns after a merge that threw part way. */
  function AIResult(reply: Option<Reply>, basic: Dict<Analysed>): Report
  {
    if reply.None? then Fallback(basic)
    else
      var r := reply.value;
      var m := if r.analysis.Some? then MergeKeys(basic, r.analysis.value.keys, r.analysis.value.entries)
               else Merge(basic, false);
      if m.threw then Fallback(m.analysis)
      else
        Report(m.analysis,
          if r.summary != "" then r.summary else BasicSummary(m.analysis),
          r.recommendations.GetOr(BasicRecommendations(m.analysis)))
  }

  /** An undecodable reply gives the basic analysis with the generated summary and
      recommendations; otherwise the analysis keeps its keys and lab fields, and the reply's
      summary and recommendations are taken exactly when they are truthy and the merge did not
      throw. */
  lemma AIResultShape(reply: Option<Reply>, basic: Dict<Analysed>)
    ensures var r := AIResult(reply, basic);
      && (reply.None? ==> r == Fallback(basic))
      && r.analysis.keys == basic.keys
      && (forall k :: k in basic.entries ==> k in r.analysis.entries && r.analysis.entries[k].result == basic.entries[k].result)
      && (reply.Some? && reply.value.analysis.None? ==>
            && r.analysis == basic
            && (reply.value.summary != "" ==> r.summary == reply.value.summary)
            && (reply.value.summary == "" ==> r.summary == BasicSummary(basic))
            && (reply.value.recommendations.Some? ==> r.recommendations == reply.value.recommendations.value))
      && (reply.Some? && reply.value.analysis.Some? ==>
            var a := reply.value.analysis.value;
            var m := MergeKeys(basic, a.keys, a.entries);
            && (m.threw ==> r == Fallback(m.analysis))
            && (!m.threw ==>
                  && r.analysis == m.analysis
                  && r.summary == (if reply.value.summary != "" then reply.value.summary else BasicSummary(m.analysis))
                  && r.recommendations == reply.value.recommendations.GetOr(BasicRecommendations(m.analysis))))
  {
    if reply.Some? && reply.value.analysis.Some? {
      MergeKeysShape(basic, reply.value.analysis.value.keys, reply.value.analysis.value.entries);
    }
  }

  /** `parseAIResponse` on a decoded reply (None when the JSON could not be extracted or
      parsed, or decoded to null): merge field by field, then fill in what the reply lacks. */
  method ParseAIResponse(reply: Option<Reply>, basic: Dict<Analysed>) returns (r: Report)
    ensures r == AIResult(reply, basic)
  {
    if reply.None? {
      return Fallback(basic);
    }
    var parsed := reply.value;
    var merged := basic;
    if parsed.analysis.Some? {
      var ai := parsed.analysis.value;
      var i := 0;
      while i < |ai.keys|
        invariant 0 <= i <= |ai.keys|
        invariant MergeKeys(merged, ai.keys[i..], ai.entries) == MergeKeys(basic, ai.keys, ai.entries)
      {
        var test := ai.keys[i];
        assert ai.keys[i..][0] == test && ai.keys[i..][1..] == ai.keys[i + 1..];
        if test in merged.entries {
          var entry := ai.entries[test];
          if entry.NullEntry? {
            return Fallback(merged);
          }
          merged := Put(merged, test, Override(merged.entries[test], entry));
        }
        i := i + 1;
      }
    }
    var summary := if parsed.summary != "" then parsed.summary else BasicSummary(merged);
    var recommendations := parsed.recommendations.GetOr(BasicRecommendations(merged));
    r := Report(merged, summary, recommendations);
  }

  /** What the enrichment request came to: the request failed with an error message ("" when
      it had none), or it was answered and the reply decoded (None when the reply envelope or
      its content could not be read). */
  datatype Exchange = Rejected(message: string) | Answered(reply: Option<Reply>)

  /** The message of the TypeError thrown when the prompt reads `userProfile.age` of a null
      profile, in the wording of V8-based browsers. */
  const NULL_PROFILE_MESSAGE := "Cannot read properties of null (reading 'age')"

  /** The exported `analyzeBloodResults`: the basic analysis, then the enrichment. Building the
      prompt reads the profile before any request is made, and neither that nor a failed request
      is caught inside the enrichment, so either fails the whole analysis. */
  method AnalyzeBloodResults(parsed: Dict<LabResult>, profile: Option<Profile>, exchange: Exchange) returns (o: Outcome)
    ensures profile.None? ==> o == Failure(NULL_PROFILE_MESSAGE)
    ensures profile.Some? && exchange.Rejected? ==>
      o == Failure(if exchange.message != "" then exchange.message else FAILED)
    ensures profile.Some? && exchange.Answered? ==>
      o == Success(AIResult(exchange.reply, MapWithKey(parsed, BasicEntry)))
  {
    var basic := PerformBasicAnalysis(parsed);
    if profile.None? {
      return Failure(NULL_PROFILE_MESSAGE);
    }
    if exchange.Rejected? {
      return Failure(if exchange.message != "" then exchange.message else FAILED);
    }
    var report := ParseAIResponse(exchange.reply, basic);
    o := Success(report);
  }

  /** The decoded insights reply: each array when present and truthy. */
  datatype InsightsReply = InsightsReply(insights: Option<seq<string>>, followUpQuestions: Option<seq<string>>)

  datatype Insights = Insights(success: bool, insights: seq<string>, followUpQuestions: seq<string>)

  /** `getMedicalInsights` after the request; None stands for every failure (a null profile,
      a failed request, a reply that cannot be read). */
  function MedicalInsights(reply: Option<InsightsReply>): Insights {
    if reply.None? then Insights(true, DEFAULT_INSIGHTS, DEFAULT_QUESTIONS)
    else Insights(true, reply.value.insights.GetOr(DEFAULT_INSIGHTS), reply.value.followUpQuestions.GetOr(DEFAULT_QUESTIONS))
  }

  /** The insights always report success; a failure reads exactly like a reply without either
      list; a list the reply has is taken as it is, even when empty; and otherwise the list is
      the fixed two-item one, so the user never sees an empty list the reply did not send. */
  lemma MedicalInsightsLaws(reply: Option<InsightsReply>)
    ensures var r := MedicalInsights(reply);
      && r.success
      && MedicalInsights(None) == MedicalInsights(Some(InsightsReply(None, None)))
      && (reply.Some? && reply.value.insights.Some? ==> r.insights == reply.value.insights.value)
      && (reply.Some? && reply.value.followUpQuestions.Some? ==> r.followUpQuestions == reply.value.followUpQuestions.value)
      && (reply.None? || reply.value.insights.None? ==> r.insights == DEFAULT_INSIGHTS && |r.insights| == 2)
      && (reply.None? || reply.value.followUpQuestions.None? ==> r.followUpQuestions == DEFAULT_QUESTIONS && |r.followUpQuestions| == 2)
      && (r.insights == [] ==> reply.Some? && reply.value.insights == Some([]))
      && (r.followUpQuestions == [] ==> reply.Some? && reply.value.followUpQuestions == Some([]))
  {
  }
}
