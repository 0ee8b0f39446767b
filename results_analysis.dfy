/**
 * The analysis the results page runs when it opens (src/components/ResultsAnalysis.js:13-78):
 * check that the session holds extracted data and that a profile exists, classify every
 * parsed result with its own simple thresholds, and count the abnormal ones.
 */
module ResultsAnalysis {
  import opened Options
  import opened Text
  import opened Numbers
  import opened OrderedMaps
  import opened Lab
  import opened StorageService

  const NO_DATA := "No results data found. Please upload your blood test results first."
  const NO_PROFILE := "User profile information is needed for accurate analysis."
  const ANALYSIS_ERROR := "Error analyzing your blood test results. Please try again."
  const ABNORMAL_TAIL := " abnormal parameters in your results. Please consult with a healthcare provider."

  /** `{ text, abnormalCount, abnormalParams }` */
  datatype SummaryView = SummaryView(text: string, abnormalCount: nat, abnormalParams: seq<string>)

  /** What the page ends up showing: an error message, or the analysed results and summary. */
  datatype View = Failed(error: string) | Shown(results: Dict<Analysed>, summary: SummaryView)

  /** The page's own thresholds: Hemoglobin is Low below 12 and High above 16, Glucose is Low
      below 70 and High above 100, and every other parameter is Normal. */
  function PageStatus(param: string, v: Number): (s: string)
    ensures param == HEMOGLOBIN && v.Finite? ==>
      (s == LOW <==> v.r < 12.0) && (s == HIGH <==> v.r > 16.0) && (s == NORMAL <==> 12.0 <= v.r <= 16.0)
    ensures param == GLUCOSE && v.Finite? ==>
      (s == LOW <==> v.r < 70.0) && (s == HIGH <==> v.r > 100.0) && (s == NORMAL <==> 70.0 <= v.r <= 100.0)
    ensures param != HEMOGLOBIN && param != GLUCOSE ==> s == NORMAL
    ensures s == NORMAL || s == LOW || s == HIGH
  {
    if param == HEMOGLOBIN then
      if Less(v, Finite(12.0)) then LOW else if Less(Finite(16.0), v) then HIGH else NORMAL
    else if param == GLUCOSE then
      if Less(v, Finite(70.0)) then LOW else if Less(Finite(100.0), v) then HIGH else NORMAL
    else NORMAL
  }

  /** `status.toLowerCase()` for the two statuses that reach it. */
  function LowerStatus(status: string): string {
    if status == LOW then "low" else "high"
  }

  /** The interpretation: the fixed within-range sentence for Hemoglobin and Glucose when
      Normal, otherwise the status and the condition it may indicate; every other parameter
      gets a within-range sentence naming it. */
  function PageInterpretation(param: string, status: string): (t: string)
    ensures param != HEMOGLOBIN && param != GLUCOSE ==> t == "Your " + param + WITHIN_RANGE
  {
    if param == HEMOGLOBIN then
      if status == NORMAL then HB_NORMAL
      else "Your hemoglobin is " + LowerStatus(status) + ". This may indicate " + (if status == LOW then "anemia" else "polycythemia") + "."
    else if param == GLUCOSE then
      if status == NORMAL then GLU_NORMAL
      else "Your glucose is " + LowerStatus(status) + ". This may indicate " + (if status == LOW then "hypoglycemia" else "prediabetes") + "."
    else "Your " + param + WITHIN_RANGE
  }

  /** `analyzedResults[param] = { ...parsedResults[param], status, interpretation }` */
  function PageEntry(param: string, r: LabResult): Analysed {
    var status := PageStatus(param, r.value);
    Analysed(r, status, PageInterpretation(param, status))
  }

  /** The summary: the abnormal parameters in key order, their count, and the all-clear
      sentence exactly when there are none. */
  function PageSummary(a: Dict<Analysed>): (s: SummaryView)
    ensures s.abnormalParams == AbnormalKeys(a)
    ensures s.abnormalCount == |s.abnormalParams|
    ensures s.text == ALL_CLEAR <==> s.abnormalParams == []
  {
    var abnormal := AbnormalKeys(a);
    if |abnormal| == 0 then SummaryView(ALL_CLEAR, 0, abnormal)
    else
      var text := "We found " + NatToString(|abnormal|) + ABNORMAL_TAIL;
      assert text[0] == 'W' && ALL_CLEAR[0] == 'A';
      SummaryView(text, |abnormal|, abnormal)
  }

  /** What the effect shows for given session and local slots. The session data is checked
      before the profile, and an empty slot counts as a missing one; after both are found, a
      slot that does not parse, or session data without parsed results, ends in the generic
      error. */
  function ViewOf(session: map<string, Stored>, local: map<string, Stored>): View
  {
    if !Holds(session, CURRENT_KEY) then Failed(NO_DATA)
    else if !Holds(local, PROFILE_KEY) then Failed(NO_PROFILE)
    else match (session[CURRENT_KEY], local[PROFILE_KEY])
      case (Json(SessionDoc(SessionData(_, Some(parsed)))), Json(_)) =>
        var a := MapWithKey(parsed, PageEntry);
        Shown(a, PageSummary(a))
      case _ => Failed(ANALYSIS_ERROR)
  }

  /** Missing or empty session data gives the upload error whatever the profile; a missing or
      empty profile then gives the profile error; data that cannot be analysed gives the generic
      error. Nothing is shown in any of these cases. */
  lemma ViewOfErrors(session: map<string, Stored>, local: map<string, Stored>)
    ensures var v := ViewOf(session, local);
      && (v == Failed(NO_DATA) <==> CURRENT_KEY !in session || session[CURRENT_KEY] == EmptyText)
      && (v == Failed(NO_PROFILE) <==>
            CURRENT_KEY in session && session[CURRENT_KEY] != EmptyText
            && (PROFILE_KEY !in local || local[PROFILE_KEY] == EmptyText))
      && (v.Shown? <==>
            && CURRENT_KEY in session && PROFILE_KEY in local && local[PROFILE_KEY].Json?
            && session[CURRENT_KEY].Json? && session[CURRENT_KEY].doc.SessionDoc?
            && session[CURRENT_KEY].doc.data.parsedResults.Some?)
  {
  }

  /** Shown results have the parsed keys in their order and keep each parsed record, adding the
      page's status; the summary counts exactly the parameters that are not Normal. */
  lemma ViewOfShown(session: map<string, Stored>, local: map<string, Stored>)
    requires ViewOf(session, local).Shown?
    ensures var v := ViewOf(session, local);
      var parsed := session[CURRENT_KEY].doc.data.parsedResults.value;
      && v.results.keys == parsed.keys
      && (forall k :: k in parsed.entries ==>
            && k in v.results.entries
            && v.results.entries[k].result == parsed.entries[k]
            && v.results.entries[k].status == PageStatus(k, parsed.entries[k].value))
      && (forall k :: k in v.summary.abnormalParams <==> k in parsed.entries && PageStatus(k, parsed.entries[k].value) != NORMAL)
      && v.summary.abnormalCount == |v.summary.abnormalParams|
      && IsSubsequence(v.summary.abnormalParams, parsed.keys)
  {
  }

  /** The `useEffect` body, reading the two slots from the store and filling the analysed
      results one parameter at a time. */
  method AnalyseStoredResults(store: Store) returns (view: View)
    ensures view == ViewOf(store.session, store.local)
  {
    if !Holds(store.session, CURRENT_KEY) {
      return Failed(NO_DATA);
    }
    if !Holds(store.local, PROFILE_KEY) {
      return Failed(NO_PROFILE);
    }
    var extracted := store.session[CURRENT_KEY];
    var profile := store.local[PROFILE_KEY];
    if !extracted.Json? || !extracted.doc.SessionDoc? || extracted.doc.data.parsedResults.None? || !profile.Json? {
      return Failed(ANALYSIS_ERROR);
    }
    var parsed := extracted.doc.data.parsedResults.value;
    var analyzed := AnalyseEach(parsed);
    view := Shown(analyzed, PageSummary(analyzed));
  }

  /** The `forEach` that fills `analyzedResults` one parameter at a time, in key order. */
  method AnalyseEach(parsed: Dict<LabResult>) returns (analyzed: Dict<Analysed>)
    ensures analyzed == MapWithKey(parsed, PageEntry)
  {
    analyzed := Empty();
    var i := 0;
    while i < |parsed.keys|
      invariant 0 <= i <= |parsed.keys|
      invariant analyzed == MapPrefix(parsed, i, PageEntry)
    {
      var param := parsed.keys[i];
      MapPrefixStep(parsed, i, PageEntry);
      analyzed := Put(analyzed, param, PageEntry(param, parsed.entries[param]));
      i := i + 1;
    }
    MapPrefixAll(parsed, PageEntry);
  }
}
