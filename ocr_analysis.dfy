/**
 * The catalogue analysis that sits beside the parser in src/services/ocrService.js:66-196:
 * fixed thresholds for Hemoglobin, Glucose and Cholesterol, 'See reference' for every
 * other test, a summary built clause by clause and a list of recommendation blocks.
 */
module OcrAnalysis {
  import opened Options
  import opened Text
  import opened Numbers
  import opened OrderedMaps
  import opened Lab

  const GLU_LOW := "Low blood glucose (hypoglycemia) may cause fatigue, dizziness, and confusion. It can be due to medications, insulin excess, or liver disorders."
  const GLU_DIABETES := "Glucose above 125 mg/dL may indicate diabetes. Consider follow-up testing and consultation with your doctor."
  const GLU_PREDIABETES := "Slightly elevated glucose levels may indicate prediabetes. Lifestyle modifications are recommended."
  const CHOL_NORMAL := "Your total cholesterol is within the desirable range."
  const CHOL_BORDERLINE := "Your cholesterol is borderline high. Consider dietary changes and increased physical activity."
  const CHOL_HIGH := "High cholesterol increases risk for heart disease. Consult your healthcare provider about management strategies."
  const GENERIC := "Consult with your healthcare provider about this result."

  const GLUCOSE_CLAUSE := "Your glucose level is significantly elevated. "
  const HEMOGLOBIN_CLAUSE := "Your hemoglobin is low, which may indicate anemia. "

  const CARDIO_ADVICE := [
    "Consider a heart-healthy diet rich in fruits, vegetables, whole grains, and lean proteins.",
    "Aim for regular physical activity of at least 150 minutes per week.",
    "Limit saturated and trans fats in your diet."]
  const GLUCOSE_ADVICE := [
    "Maintain a balanced diet low in refined sugars and carbohydrates.",
    "Regular physical activity helps improve insulin sensitivity.",
    "Monitor your carbohydrate intake and consider eating smaller, more frequent meals."]

  /** The status the `switch` assigns (thresholds stated in CatalogueThresholds). */
  function CatalogueStatus(gender: string, test: string, v: Number): string
  {
    if test == HEMOGLOBIN then
      if gender == "male" then
        (if Less(v, Finite(13.5)) then LOW else if Less(Finite(17.5), v) then HIGH else NORMAL)
      else
        (if Less(v, Finite(12.0)) then LOW else if Less(Finite(15.5), v) then HIGH else NORMAL)
    else if test == GLUCOSE then
      (if Less(v, Finite(70.0)) then LOW else if Less(Finite(99.0), v) then HIGH else NORMAL)
    else if test == CHOLESTEROL then
      (if Less(v, Finite(200.0)) then NORMAL else if Less(v, Finite(240.0)) then BORDERLINE else HIGH)
    else SEE_REFERENCE
  }

  /** The interpretation the `switch` picks for a test and its status. */
  function CatalogueInterpretation(test: string, status: string, v: Number): string
  {
    if test == HEMOGLOBIN then
      if status == NORMAL then HB_NORMAL else if status == LOW then HB_LOW else HB_HIGH
    else if test == GLUCOSE then
      if status == NORMAL then GLU_NORMAL
      else if status == LOW then GLU_LOW
      else if Less(Finite(125.0), v) then GLU_DIABETES
      else GLU_PREDIABETES
    else if test == CHOLESTEROL then
      if status == NORMAL then CHOL_NORMAL else if status == BORDERLINE then CHOL_BORDERLINE else CHOL_HIGH
    else GENERIC
  }

  /** Hemoglobin bounds depend on the gender: 13.5 and 17.5 for 'male', 12.0 and 15.5 for
      anything else; Glucose is Low below 70 and High above 99; Cholesterol is Normal below 200,
      Borderline below 240 and High otherwise; every other test is 'See reference'. A NaN value
      fails every comparison, so it is Normal for Hemoglobin and Glucose and High for
      Cholesterol. */
  lemma CatalogueThresholds(gender: string, test: string, v: Number)
    ensures var s := CatalogueStatus(gender, test, v);
      && (test == HEMOGLOBIN && gender == "male" && v.Finite? ==>
            (s == LOW <==> v.r < 13.5) && (s == HIGH <==> v.r > 17.5) && (s == NORMAL <==> 13.5 <= v.r <= 17.5))
      && (test == HEMOGLOBIN && gender != "male" && v.Finite? ==>
            (s == LOW <==> v.r < 12.0) && (s == HIGH <==> v.r > 15.5) && (s == NORMAL <==> 12.0 <= v.r <= 15.5))
      && (test == GLUCOSE && v.Finite? ==>
            (s == LOW <==> v.r < 70.0) && (s == HIGH <==> v.r > 99.0) && (s == NORMAL <==> 70.0 <= v.r <= 99.0))
      && (test == CHOLESTEROL && v.Finite? ==>
            (s == NORMAL <==> v.r < 200.0) && (s == BORDERLINE <==> 200.0 <= v.r < 240.0) && (s == HIGH <==> v.r >= 240.0))
      && ((test == HEMOGLOBIN || test == GLUCOSE) && v.NaN? ==> s == NORMAL)
      && (test == CHOLESTEROL && v.NaN? ==> s == HIGH)
      && (test != HEMOGLOBIN && test != GLUCOSE && test != CHOLESTEROL <==> s == SEE_REFERENCE)
  {
  }

  /** Hemoglobin and Cholesterol get one sentence per status; Glucose outside the normal range
      is called diabetic above 125 and prediabetic otherwise; every test outside the catalogue
      gets the generic advice. */
  lemma CatalogueInterpretations(test: string, status: string, v: Number)
    ensures var t := CatalogueInterpretation(test, status, v);
      && (test == HEMOGLOBIN ==>
            t == (if status == NORMAL then HB_NORMAL else if status == LOW then HB_LOW else HB_HIGH))
      && (test == GLUCOSE && status != NORMAL && status != LOW ==>
            t == (if Less(Finite(125.0), v) then GLU_DIABETES else GLU_PREDIABETES))
      && (test == CHOLESTEROL ==>
            t == (if status == NORMAL then CHOL_NORMAL else if status == BORDERLINE then CHOL_BORDERLINE else CHOL_HIGH))
      && (test != HEMOGLOBIN && test != GLUCOSE && test != CHOLESTEROL ==> t == GENERIC)
  {
  }

  /** `analysis[test] = { ...result, status, interpretation }` */
  function Classify(gender: string, test: string, r: LabResult): Analysed {
    var status := CatalogueStatus(gender, test, r.value);
    Analysed(r, status, CatalogueInterpretation(test, status, r.value))
  }

  function Classifier(gender: string): (string, LabResult) -> Analysed {
    (test, r) => Classify(gender, test, r)
  }


  /** Whether the summary gets the glucose clause: Glucose is abnormal and above 125. */
  predicate GlucoseClauseFires(a: Dict<Analysed>) {
    GLUCOSE in AbnormalKeys(a) && Less(Finite(125.0), a.entries[GLUCOSE].result.value)
  }

  /** Whether the summary gets the hemoglobin clause: Hemoglobin is abnormal and Low. */
  predicate HemoglobinClauseFires(a: Dict<Analysed>) {
    HEMOGLOBIN in AbnormalKeys(a) && a.entries[HEMOGLOBIN].status == LOW
  }

  /** The clauses between the count and the advice to consult: the glucose clause first. */
  function ClauseText(glucoseClause: bool, hemoglobinClause: bool): string {
    (if glucoseClause then GLUCOSE_CLAUSE else "") + (if hemoglobinClause then HEMOGLOBIN_CLAUSE else "")
  }

  /** The summary text for a count of abnormal results and the clauses that fire: the all-clear
      sentence when the count is zero; otherwise the count, then the glucose clause, then the
      hemoglobin clause, each only when it fires, then the advice to consult. */
  function SummaryText(count: nat, glucoseClause: bool, hemoglobinClause: bool): (s: string)
    ensures s == ALL_CLEAR <==> count == 0
  {
    if count == 0 then ALL_CLEAR
    else
      var s := CountSentence(count) + ClauseText(glucoseClause, hemoglobinClause) + CONSULT;
      assert s[0] == 'W' && ALL_CLEAR[0] == 'A';
      s
  }

  /** The summary of an analysis. */
  function Summary(a: Dict<Analysed>): string {
    SummaryText(|AbnormalKeys(a)|, GlucoseClauseFires(a), HemoglobinClauseFires(a))
  }

  /** A summary with abnormal results reads: the count, the clauses that fire, the advice to
      consult. */
  lemma SummaryShape(count: nat, glucoseClause: bool, hemoglobinClause: bool)
    requires count > 0
    ensures var s := SummaryText(count, glucoseClause, hemoglobinClause);
      var n := |CountSentence(count)|;
      && n + |CONSULT| <= |s|
      && s[..n] == CountSentence(count)
      && s[n..|s| - |CONSULT|] == ClauseText(glucoseClause, hemoglobinClause)
      && s[|s| - |CONSULT|..] == CONSULT
  {
  }

  /** The recommendations: the heart-health block when Cholesterol or LDL is abnormal, then the
      glucose block when Glucose is abnormal, or the general block when neither fired. */
  function Recommendations(abnormal: seq<string>): (r: seq<string>)
    ensures |r| == 3 || |r| == 6
    ensures |r| == 6 <==> (CHOLESTEROL in abnormal || LDL in abnormal) && GLUCOSE in abnormal
    ensures CHOLESTEROL in abnormal || LDL in abnormal ==> r[..3] == CARDIO_ADVICE
    ensures GLUCOSE in abnormal ==> r[|r| - 3..] == GLUCOSE_ADVICE
    ensures r == GENERAL_ADVICE <==> !(CHOLESTEROL in abnormal || LDL in abnormal || GLUCOSE in abnormal)
  {
    var cardio := if CHOLESTEROL in abnormal || LDL in abnormal then CARDIO_ADVICE else [];
    var glucose := if GLUCOSE in abnormal then GLUCOSE_ADVICE else [];
    if cardio + glucose == [] then GENERAL_ADVICE
    else
      assert (cardio + glucose)[..|cardio|] == cardio;
      assert GENERAL_ADVICE[0] != CARDIO_ADVICE[0] && GENERAL_ADVICE[0] != GLUCOSE_ADVICE[0];
      cardio + glucose
  }

  /** What `analyzeBloodResults(parsedResults, userProfile)` resolves to. Reading the gender of an
      absent profile throws inside the `try`, which only happens for a Hemoglobin entry. */
  function AnalysisOf(parsed: Dict<LabResult>, profile: Option<Profile>): Outcome
  {
    if HEMOGLOBIN in parsed.entries && profile.None? then Failure(FAILED)
    else
      var gender := if profile.Some? then profile.value.gender else "";
      var a := MapWithKey(parsed, Classifier(gender));
      var ab := AbnormalKeys(a);
      Success(Report(a, Summary(a), Recommendations(ab)))
  }

  /** The analysis fails exactly when a Hemoglobin entry meets an absent profile; otherwise it
      has the parsed keys in the same order and keeps every parsed record. */
  lemma AnalysisOfShape(parsed: Dict<LabResult>, profile: Option<Profile>)
    ensures var o := AnalysisOf(parsed, profile);
      && (o.Failure? <==> HEMOGLOBIN in parsed.entries && profile.None?)
      && (o.Failure? ==> o.error == FAILED)
      && (o.Success? ==> o.report.analysis.keys == parsed.keys)
      && (o.Success? ==> forall k :: k in parsed.entries ==>
            k in o.report.analysis.entries && o.report.analysis.entries[k].result == parsed.entries[k])
  {
    ClassifiedKeeps(parsed, if profile.Some? then profile.value.gender else "");
  }

  /** Classifying keeps the keys in their order and every parsed record. */
  lemma ClassifiedKeeps(parsed: Dict<LabResult>, gender: string)
    ensures var a := MapWithKey(parsed, Classifier(gender));
      && a.keys == parsed.keys
      && forall k :: k in parsed.entries ==> k in a.entries && a.entries[k].result == parsed.entries[k]
  {
  }

  /** `analyzeBloodResults`: classify every test in key order, then build the summary by
      appending clauses and the recommendations by pushing blocks. */
  method AnalyzeBloodResults(parsed: Dict<LabResult>, profile: Option<Profile>) returns (o: Outcome)
    ensures o == AnalysisOf(parsed, profile)
  {
    var gender := if profile.Some? then profile.value.gender else "";
    var classified := ClassifyEach(parsed, Classifier(gender), profile.Some?);
    if classified.None? {
      return Failure(FAILED);
    }
    var analysis := classified.value;
    var abnormal := AbnormalKeys(analysis);
    var summary := BuildSummary(analysis, abnormal);
    var recommendations := BuildRecommendations(abnormal);
    o := Success(Report(analysis, summary, recommendations));
  }

  /** The `forEach` loop of `analyzeBloodResults`: store the classified record under each key
      in turn; reaching Hemoglobin without a profile throws (None), since its case reads the
      profile's gender. */
  method ClassifyEach(parsed: Dict<LabResult>, classify: (string, LabResult) -> Analysed, hasProfile: bool)
    returns (analysis: Option<Dict<Analysed>>)
    ensures analysis.None? <==> HEMOGLOBIN in parsed.entries && !hasProfile
    ensures analysis.Some? ==> analysis.value == MapWithKey(parsed, classify)
  {
    var out: Dict<Analysed> := Empty();
    var i := 0;
    while i < |parsed.keys|
      invariant 0 <= i <= |parsed.keys|
      invariant out == MapPrefix(parsed, i, classify)
      invariant !hasProfile ==> HEMOGLOBIN !in parsed.keys[..i]
    {
      var test := parsed.keys[i];
      if test == HEMOGLOBIN && !hasProfile {
        return None;
      }
      MapPrefixStep(parsed, i, classify);
      assert parsed.keys[..i + 1] == parsed.keys[..i] + [test];
      out := Put(out, test, classify(test, parsed.entries[test]));
      i := i + 1;
    }
    MapPrefixAll(parsed, classify);
    assert parsed.keys[..i] == parsed.keys;
    analysis := Some(out);
  }

  /** The summary text, appended clause by clause. */
  method BuildSummary(analysis: Dict<Analysed>, abnormal: seq<string>) returns (summary: string)
    requires abnormal == AbnormalKeys(analysis)
    ensures summary == Summary(analysis)
  {
    var glucose := GLUCOSE in abnormal && Less(Finite(125.0), analysis.entries[GLUCOSE].result.value);
    var hemoglobin := HEMOGLOBIN in abnormal && analysis.entries[HEMOGLOBIN].status == LOW;
    summary := AppendClauses(|abnormal|, glucose, hemoglobin);
  }

  /** `summaryText += ...` for the count, each clause that fires, and the advice to consult. */
  method AppendClauses(count: nat, glucose: bool, hemoglobin: bool) returns (summary: string)
    ensures summary == SummaryText(count, glucose, hemoglobin)
  {
    if count == 0 {
      summary := ALL_CLEAR;
    } else {
      summary := CountSentence(count);
      if glucose {
        summary := summary + GLUCOSE_CLAUSE;
      }
      if hemoglobin {
        summary := summary + HEMOGLOBIN_CLAUSE;
      }
      assert summary == CountSentence(count) + ClauseText(glucose, hemoglobin);
      summary := summary + CONSULT;
    }
  }

  /** The recommendations list, filled by pushing blocks. */
  method BuildRecommendations(abnormal: seq<string>) returns (recommendations: seq<string>)
    ensures recommendations == Recommendations(abnormal)
  {
    recommendations := [];
    if CHOLESTEROL in abnormal || LDL in abnormal {
      recommendations := recommendations + CARDIO_ADVICE;
    }
    if GLUCOSE in abnormal {
      recommendations := recommendations + GLUCOSE_ADVICE;
    }
    if |recommendations| == 0 {
      recommendations := recommendations + GENERAL_ADVICE;
    }
  }

  /** Every test outside the catalogue counts as abnormal ('See reference' is not 'Normal'), so an
      LDL entry always brings the heart-health block, and any profile-independent test other than
      the three catalogued ones raises the abnormal count. */
  lemma UncataloguedIsAbnormal(parsed: Dict<LabResult>, profile: Option<Profile>, test: string)
    requires test in parsed.entries
    requires test != HEMOGLOBIN && test != GLUCOSE && test != CHOLESTEROL
    requires AnalysisOf(parsed, profile).Success?
    ensures test in AbnormalKeys(AnalysisOf(parsed, profile).report.analysis)
    ensures test == LDL ==> AnalysisOf(parsed, profile).report.recommendations[..3] == CARDIO_ADVICE
  {
    CatalogueThresholds(if profile.Some? then profile.value.gender else "", test, parsed.entries[test].value);
  }
}
