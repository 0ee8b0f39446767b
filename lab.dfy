/**
 * The records every stage of the pipeline passes along: one parsed lab result,
 * the same result with a status and an interpretation attached, the patient
 * profile, and the status words the classifiers use.
 */
module Lab {
  import opened Text
  import opened Numbers
  import opened OrderedMaps

  /** `{ value, unit, refRange }` as the line parser builds it; an empty refRange is a falsy one. */
  datatype LabResult = LabResult(value: Number, unit: string, refRange: string)

  /** `{ ...result, status, interpretation }` */
  datatype Analysed = Analysed(result: LabResult, status: string, interpretation: string)

  /** The profile form's fields, all kept as the text the user typed ("" when left blank). */
  datatype Profile = Profile(
    age: string, gender: string, weight: string, height: string,
    existingConditions: string, medications: string)

  const NORMAL := "Normal"
  const LOW := "Low"
  const HIGH := "High"
  const UNKNOWN := "Unknown"
  const BORDERLINE := "Borderline"
  const SEE_REFERENCE := "See reference"
  const NOT_PROVIDED := "Not provided"

  const HEMOGLOBIN := "Hemoglobin"
  const GLUCOSE := "Glucose"
  const CHOLESTEROL := "Cholesterol"
  const LDL := "LDL"

  const ALL_CLEAR := "All tested parameters are within " + "normal ranges. Your results look good!"
  const CONSULT := "Please consult with your healthcare provider about these findings."
  const FAILED := "Failed to analyze blood test results"

  /** The interpretations both analysers give Hemoglobin, and Glucose within range. */
  const HB_NORMAL := "Your hemoglobin level is within normal range."
  const HB_LOW := "Low hemoglobin may indicate anemia. Common causes include iron deficiency, blood loss, or chronic diseases."
  const HB_HIGH := "Elevated hemoglobin may be due to dehydration, lung disease, or polycythemia."
  const GLU_NORMAL := "Your glucose level is within normal range."
  /** What follows "Your <test>" for any other test within range. */
  const WITHIN_RANGE := " level is within normal range."

  /** The advice both analysers give when nothing is abnormal. */
  const GENERAL_ADVICE := [
    "Continue with a balanced diet and regular exercise.",
    "Schedule regular check-ups with your healthcare provider.",
    "Stay hydrated and get adequate sleep for overall health."]

  /** The leading sentence of a summary that has abnormal results. */
  function CountSentence(n: nat): string {
    "We found " + NatToString(n) + " result(s) outside the normal range. "
  }

  /** What an analysis hands back: the analysed entries, a summary and recommendations. */
  datatype Report = Report(analysis: Dict<Analysed>, summary: string, recommendations: seq<string>)

  /** `{ success: true, analysis, summary, recommendations }` or `{ success: false, error }`. */
  datatype Outcome = Success(report: Report) | Failure(error: string)

  /** a lists some of the elements of b, in b's order. */
  predicate IsSubsequence(a: seq<string>, b: seq<string>) {
    if a == [] then true
    else if b == [] then false
    else if a[0] == b[0] then IsSubsequence(a[1..], b[1..])
    else IsSubsequence(a, b[1..])
  }

  /** `Object.keys(d).filter(k => d[k].status !== 'Normal')`: exactly the keys whose status is
      not Normal, in key order. */
  function AbnormalKeys(d: Dict<Analysed>): (ks: seq<string>)
    ensures forall k :: k in ks <==> k in d.entries && d.entries[k].status != NORMAL
    ensures IsSubsequence(ks, d.keys)
    ensures |ks| <= |d.keys|
  {
    AbnormalAmong(d.keys, d.entries)
  }

  function AbnormalAmong(keys: seq<string>, entries: map<string, Analysed>): (ks: seq<string>)
    requires forall i :: 0 <= i < |keys| ==> keys[i] in entries
    ensures forall k :: k in ks <==> k in keys && entries[k].status != NORMAL
    ensures IsSubsequence(ks, keys)
    ensures |ks| <= |keys|
  {
    if keys == [] then []
    else
      var rest := AbnormalAmong(keys[1..], entries);
      if entries[keys[0]].status != NORMAL then [keys[0]] + rest else rest
  }

  /** Keys whose entries are all Normal have no abnormal keys among them. */
  lemma {:induction false} NoneAbnormal(keys: seq<string>, entries: map<string, Analysed>)
    requires forall i :: 0 <= i < |keys| ==> keys[i] in entries && entries[keys[i]].status == NORMAL
    ensures AbnormalAmong(keys, entries) == []
  {
    if keys != [] {
      NoneAbnormal(keys[1..], entries);
    }
  }
}
