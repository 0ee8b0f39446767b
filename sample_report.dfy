/**
 * The report text the simulated OCR step hands back (src/services/ocrService.js:20-28),
 * followed through the pipeline: what the line parser makes of it, what the range-based
 * analysis and the catalogue analysis make of that.
 */
module SampleReport {
  import opened Options
  import opened Text
  import opened Numbers
  import opened OrderedMaps
  import opened Lab
  import opened OcrService
  import OcrAnalysis
  import MedicalAnalysis

  const HEADER_CBC := "COMPLETE BLOOD COUNT"
  const HEADER_METABOLIC := "METABOLIC PANEL"
  const PER_MICROLITRE := "thousand/\U{3BC}L"

  /** The nine lines of the canned report: two section headers and seven results. */
  const SAMPLE_LINES := [
    HEADER_CBC,
    FormatLine("Hemoglobin", "14.2", "g/dL", "13.5-17.5"),
    FormatLine("WBC", "6.8", PER_MICROLITRE, "4.5-11.0"),
    FormatLine("Platelets", "250", PER_MICROLITRE, "150-450"),
    HEADER_METABOLIC,
    FormatLine("Glucose", "95", "mg/dL", "70-99"),
    FormatLine("Cholesterol", "180", "mg/dL", "<200"),
    FormatLine("HDL", "55", "mg/dL", ">40"),
    FormatLine("LDL", "110", "mg/dL", "<130")]

  /** The canned report text. */
  const SAMPLE_TEXT := Join(SAMPLE_LINES, '\n')

  const HB_RESULT := LabResult(Finite(14.2), "g/dL", "13.5-17.5")
  const WBC_RESULT := LabResult(Finite(6.8), PER_MICROLITRE, "4.5-11.0")
  const PLATELETS_RESULT := LabResult(Finite(250.0), PER_MICROLITRE, "150-450")
  const GLUCOSE_RESULT := LabResult(Finite(95.0), "mg/dL", "70-99")
  const CHOLESTEROL_RESULT := LabResult(Finite(180.0), "mg/dL", "<200")
  const HDL_RESULT := LabResult(Finite(55.0), "mg/dL", ">40")
  const LDL_RESULT := LabResult(Finite(110.0), "mg/dL", "<130")

  /** A line in the lab's format whose name has no surrounding blanks stores its parsed
      value, unit and range under its name. */
  lemma AddFormattedLine(d: Dict<LabResult>, name: string, number: string, unit: string, range: string, v: Number)
    requires name != [] && ':' !in name && !IsSpace(name[0]) && !IsSpace(name[|name| - 1])
    requires number != [] && AllIn(number, DigitOrDot)
    requires unit != [] && AllIn(unit, UnitChar)
    requires range != [] && AllIn(range, NotCloseParen) && !IsSpace(range[0])
    requires ParseFloat(number) == v
    ensures AddLine(d, FormatLine(name, number, unit, range)) == Put(d, name, LabResult(v, unit, range))
  {
    FormatLineParses(name, number, unit, range);
    TrimUnchanged(name);
  }

  /** A header line has no colon and leaves the results as they are. */
  lemma AddHeaderLine(d: Dict<LabResult>, h: string)
    requires ':' !in h
    ensures AddLine(d, h) == d
  {
    NoColonNoMatch(h);
  }

  /** The results of the blood-count section. */
  const CBC_RESULTS: Dict<LabResult> :=
    Put(Put(Put(Empty(), "Hemoglobin", HB_RESULT), "WBC", WBC_RESULT), "Platelets", PLATELETS_RESULT)

  /** The results object the parser fills in, in the order of the lines. */
  const SAMPLE_RESULTS: Dict<LabResult> :=
    Put(Put(LIPID_START,
      "HDL", HDL_RESULT),
      "LDL", LDL_RESULT)

  /** The digits of a two-digit count. */
  lemma TwoDigitText(a: nat)
    requires 10 <= a < 100
    ensures NatToString(a) == [DigitChar(a / 10), DigitChar(a % 10)]
  {
  }

  /** The digits of a three-digit count. */
  lemma ThreeDigitText(a: nat)
    requires 100 <= a < 1000
    ensures NatToString(a) == [DigitChar(a / 100), DigitChar(a / 10 % 10), DigitChar(a % 10)]
  {
    TwoDigitText(a / 10);
  }

  /** A single fraction digit is worth its digit. */
  lemma OneDigitValue(f: string)
    requires |f| == 1 && IsDigit(f[0])
    ensures DecimalValue(f) == DigitValue(f[0])
  {
    assert f[..0] == [];
  }

  /** A printed decimal with one fraction digit reads as that decimal. */
  lemma ReadsDecimal(text: string, a: nat, f: string, v: real)
    requires |f| == 1 && IsDigit(f[0])
    requires text == NatToString(a) + "." + f
    requires a as real + DigitValue(f[0]) as real / 10.0 == v
    ensures ParseFloat(text) == Finite(v)
  {
    OneDigitValue(f);
    ParseFloatDecimal(a, f, []);
    assert text + [] == text;
  }

  /** A printed count reads as that count. */
  lemma ReadsInteger(text: string, a: nat)
    requires text == NatToString(a)
    ensures ParseFloat(text) == Finite(a as real)
  {
    ParseFloatInteger(a, []);
    assert text + [] == text;
  }

  /** The two units the report uses are single words. */
  lemma UnitsAreWords()
    ensures AllIn("g/dL", UnitChar) && AllIn("mg/dL", UnitChar) && AllIn(PER_MICROLITRE, UnitChar)
  {
  }

  /** The label and range of line 1 are well formed. */
  lemma HemoglobinPieces()
    ensures ':' !in "Hemoglobin" && !IsSpace("Hemoglobin"[0]) && !IsSpace("Hemoglobin"[9])
    ensures AllIn("14.2", DigitOrDot) && AllIn("13.5-17.5", NotCloseParen)
  {
  }

  /** The Hemoglobin value on line 1 reads as 14.2. */
  lemma HemoglobinValue()
    ensures ParseFloat("14.2") == Finite(14.2)
  {
    TwoDigitText(14);
    ReadsDecimal("14.2", 14, "2", 14.2);
  }

  /** Line 1 stores the Hemoglobin result. */
  lemma HemoglobinLine(d: Dict<LabResult>)
    ensures AddLine(d, SAMPLE_LINES[1]) == Put(d, "Hemoglobin", HB_RESULT)
  {
    assert SAMPLE_LINES[1] == FormatLine("Hemoglobin", "14.2", "g/dL", "13.5-17.5");
    UnitsAreWords();
    HemoglobinPieces();
    HemoglobinValue();
    AddFormattedLine(d, "Hemoglobin", "14.2", "g/dL", "13.5-17.5", Finite(14.2));
  }

  /** The label and range of line 2 are well formed. */
  lemma WBCPieces()
    ensures ':' !in "WBC" && !IsSpace("WBC"[0]) && !IsSpace("WBC"[2])
    ensures AllIn("6.8", DigitOrDot) && AllIn("4.5-11.0", NotCloseParen)
  {
  }

  /** The WBC value on line 2 reads as 6.8. */
  lemma WBCValue()
    ensures ParseFloat("6.8") == Finite(6.8)
  {
    ReadsDecimal("6.8", 6, "8", 6.8);
  }

  /** Line 2 stores the WBC result. */
  lemma WBCLine(d: Dict<LabResult>)
    ensures AddLine(d, SAMPLE_LINES[2]) == Put(d, "WBC", WBC_RESULT)
  {
    assert SAMPLE_LINES[2] == FormatLine("WBC", "6.8", PER_MICROLITRE, "4.5-11.0");
    UnitsAreWords();
    WBCPieces();
    WBCValue();
    AddFormattedLine(d, "WBC", "6.8", PER_MICROLITRE, "4.5-11.0", Finite(6.8));
  }

  /** The label and range of line 3 are well formed. */
  lemma PlateletsPieces()
    ensures ':' !in "Platelets" && !IsSpace("Platelets"[0]) && !IsSpace("Platelets"[8])
    ensures AllIn("250", DigitOrDot) && AllIn("150-450", NotCloseParen)
  {
  }

  /** The Platelets value on line 3 reads as 250.0. */
  lemma PlateletsValue()
    ensures ParseFloat("250") == Finite(250.0)
  {
    ThreeDigitText(250);
    ReadsInteger("250", 250);
  }

  /** Line 3 stores the Platelets result. */
  lemma PlateletsLine(d: Dict<LabResult>)
    ensures AddLine(d, SAMPLE_LINES[3]) == Put(d, "Platelets", PLATELETS_RESULT)
  {
    assert SAMPLE_LINES[3] == FormatLine("Platelets", "250", PER_MICROLITRE, "150-450");
    UnitsAreWords();
    PlateletsPieces();
    PlateletsValue();
    AddFormattedLine(d, "Platelets", "250", PER_MICROLITRE, "150-450", Finite(250.0));
  }

  /** The label and range of line 5 are well formed. */
  lemma GlucosePieces()
    ensures ':' !in "Glucose" && !IsSpace("Glucose"[0]) && !IsSpace("Glucose"[6])
    ensures AllIn("95", DigitOrDot) && AllIn("70-99", NotCloseParen)
  {
  }

  /** The Glucose value on line 5 reads as 95.0. */
  lemma GlucoseValue()
    ensures ParseFloat("95") == Finite(95.0)
  {
    TwoDigitText(95);
    ReadsInteger("95", 95);
  }

  /** Line 5 stores the Glucose result. */
  lemma GlucoseLine(d: Dict<LabResult>)
    ensures AddLine(d, SAMPLE_LINES[5]) == Put(d, "Glucose", GLUCOSE_RESULT)
  {
    assert SAMPLE_LINES[5] == FormatLine("Glucose", "95", "mg/dL", "70-99");
    UnitsAreWords();
    GlucosePieces();
    GlucoseValue();
    AddFormattedLine(d, "Glucose", "95", "mg/dL", "70-99", Finite(95.0));
  }

  /** The label and range of line 6 are well formed. */
  lemma CholesterolPieces()
    ensures ':' !in "Cholesterol" && !IsSpace("Cholesterol"[0]) && !IsSpace("Cholesterol"[10])
    ensures AllIn("180", DigitOrDot) && AllIn("<200", NotCloseParen)
  {
  }

  /** The Cholesterol value on line 6 reads as 180.0. */
  lemma CholesterolValue()
    ensures ParseFloat("180") == Finite(180.0)
  {
    ThreeDigitText(180);
    ReadsInteger("180", 180);
  }

  /** Line 6 stores the Cholesterol result. */
  lemma CholesterolLine(d: Dict<LabResult>)
    ensures AddLine(d, SAMPLE_LINES[6]) == Put(d, "Cholesterol", CHOLESTEROL_RESULT)
  {
    assert SAMPLE_LINES[6] == FormatLine("Cholesterol", "180", "mg/dL", "<200");
    UnitsAreWords();
    CholesterolPieces();
    CholesterolValue();
    AddFormattedLine(d, "Cholesterol", "180", "mg/dL", "<200", Finite(180.0));
  }

  /** The label and range of line 7 are well formed. */
  lemma HDLPieces()
    ensures ':' !in "HDL" && !IsSpace("HDL"[0]) && !IsSpace("HDL"[2])
    ensures AllIn("55", DigitOrDot) && AllIn(">40", NotCloseParen)
  {
  }

  /** The HDL value on line 7 reads as 55.0. */
  lemma HDLValue()
    ensures ParseFloat("55") == Finite(55.0)
  {
    TwoDigitText(55);
    ReadsInteger("55", 55);
  }

  /** Line 7 stores the HDL result. */
  lemma HDLLine(d: Dict<LabResult>)
    ensures AddLine(d, SAMPLE_LINES[7]) == Put(d, "HDL", HDL_RESULT)
  {
    assert SAMPLE_LINES[7] == FormatLine("HDL", "55", "mg/dL", ">40");
    UnitsAreWords();
    HDLPieces();
    HDLValue();
    AddFormattedLine(d, "HDL", "55", "mg/dL", ">40", Finite(55.0));
  }

  /** The label and range of line 8 are well formed. */
  lemma LDLPieces()
    ensures ':' !in "LDL" && !IsSpace("LDL"[0]) && !IsSpace("LDL"[2])
    ensures AllIn("110", DigitOrDot) && AllIn("<130", NotCloseParen)
  {
  }

  /** The LDL value on line 8 reads as 110.0. */
  lemma LDLValue()
    ensures ParseFloat("110") == Finite(110.0)
  {
    ThreeDigitText(110);
    ReadsInteger("110", 110);
  }

  /** Line 8 stores the LDL result. */
  lemma LDLLine(d: Dict<LabResult>)
    ensures AddLine(d, SAMPLE_LINES[8]) == Put(d, "LDL", LDL_RESULT)
  {
    assert SAMPLE_LINES[8] == FormatLine("LDL", "110", "mg/dL", "<130");
    UnitsAreWords();
    LDLPieces();
    LDLValue();
    AddFormattedLine(d, "LDL", "110", "mg/dL", "<130", Finite(110.0));
  }

  /** A formatted line has a line break only where one of its pieces has. */
  lemma FormatLineBreaks(name: string, number: string, unit: string, range: string)
    requires '\n' !in name && '\n' !in number && '\n' !in unit && '\n' !in range
    ensures '\n' !in FormatLine(name, number, unit, range)
  {
  }

  /** No line of the report holds a line break. */
  lemma LinesHaveNoBreaks()
    ensures forall i :: 0 <= i < |SAMPLE_LINES| ==> '\n' !in SAMPLE_LINES[i]
  {
    FormatLineBreaks("Hemoglobin", "14.2", "g/dL", "13.5-17.5");
    FormatLineBreaks("WBC", "6.8", PER_MICROLITRE, "4.5-11.0");
    FormatLineBreaks("Platelets", "250", PER_MICROLITRE, "150-450");
    FormatLineBreaks("Glucose", "95", "mg/dL", "70-99");
    FormatLineBreaks("Cholesterol", "180", "mg/dL", "<200");
    FormatLineBreaks("HDL", "55", "mg/dL", ">40");
    FormatLineBreaks("LDL", "110", "mg/dL", "<130");
  }

  /** The headers carry no colon. */
  lemma HeadersHaveNoColon()
    ensures SAMPLE_LINES[0] == HEADER_CBC && ':' !in HEADER_CBC
    ensures SAMPLE_LINES[4] == HEADER_METABOLIC && ':' !in HEADER_METABOLIC
  {
  }

  /** Visiting the lines from the k-th on is visiting the k-th line and then the rest. */
  lemma AbsorbFrom(d: Dict<LabResult>, lines: seq<string>, k: nat)
    requires k < |lines|
    ensures Absorb(d, lines[k..]) == Absorb(AddLine(d, lines[k]), lines[k + 1..])
  {
    assert lines[k..][1..] == lines[k + 1..];
  }

  /** The blood-count section: a header and three results. */
  lemma CbcSection()
    ensures Absorb(Empty(), SAMPLE_LINES) == Absorb(CBC_RESULTS, SAMPLE_LINES[4..])
  {
    var L := SAMPLE_LINES;
    var d1 := Put(Empty(), "Hemoglobin", HB_RESULT);
    var d2 := Put(d1, "WBC", WBC_RESULT);
    HeadersHaveNoColon();
    calc {
      Absorb(Empty(), L);
      { assert L[0..] == L; AbsorbFrom(Empty(), L, 0); AddHeaderLine(Empty(), HEADER_CBC); }
      Absorb(Empty(), L[1..]);
      { AbsorbFrom(Empty(), L, 1); HemoglobinLine(Empty()); }
      Absorb(d1, L[2..]);
      { AbsorbFrom(d1, L, 2); WBCLine(d1); }
      Absorb(d2, L[3..]);
      { AbsorbFrom(d2, L, 3); PlateletsLine(d2); }
      Absorb(CBC_RESULTS, L[4..]);
    }
  }

  /** The results after the metabolic header, Glucose and Cholesterol. */
  const LIPID_START: Dict<LabResult> :=
    Put(Put(CBC_RESULTS, "Glucose", GLUCOSE_RESULT), "Cholesterol", CHOLESTEROL_RESULT)

  /** The metabolic header adds nothing; Glucose and Cholesterol then store their results
      after whatever came before. */
  lemma MetabolicOpening(d: Dict<LabResult>)
    ensures Absorb(d, SAMPLE_LINES[4..])
         == Absorb(Put(Put(d, "Glucose", GLUCOSE_RESULT), "Cholesterol", CHOLESTEROL_RESULT), SAMPLE_LINES[7..])
  {
    var L := SAMPLE_LINES;
    var d4 := Put(d, "Glucose", GLUCOSE_RESULT);
    HeadersHaveNoColon();
    calc {
      Absorb(d, L[4..]);
      { AbsorbFrom(d, L, 4); AddHeaderLine(d, HEADER_METABOLIC); }
      Absorb(d, L[5..]);
      { AbsorbFrom(d, L, 5); GlucoseLine(d); }
      Absorb(d4, L[6..]);
      { AbsorbFrom(d4, L, 6); CholesterolLine(d4); }
      Absorb(Put(d4, "Cholesterol", CHOLESTEROL_RESULT), L[7..]);
    }
  }

  /** The last two lines, HDL and LDL, store their results after whatever came before. */
  lemma MetabolicClosing(d: Dict<LabResult>)
    ensures Absorb(d, SAMPLE_LINES[7..]) == Put(Put(d, "HDL", HDL_RESULT), "LDL", LDL_RESULT)
  {
    var L := SAMPLE_LINES;
    var d6 := Put(d, "HDL", HDL_RESULT);
    var d7 := Put(d6, "LDL", LDL_RESULT);
    calc {
      Absorb(d, L[7..]);
      { AbsorbFrom(d, L, 7); HDLLine(d); }
      Absorb(d6, L[8..]);
      { AbsorbFrom(d6, L, 8); LDLLine(d6); }
      Absorb(d7, L[9..]);
      { assert |L[9..]| == 0; }
      d7;
    }
  }

  /** The parser turns the canned report into the seven results, in the order of the lines;
      the two section headers add nothing. */
  lemma SampleParses()
    ensures ParseReport(SAMPLE_TEXT) == SAMPLE_RESULTS
  {
    LinesHaveNoBreaks();
    SplitOfJoin(SAMPLE_LINES, '\n');
    CbcSection();
    MetabolicOpening(CBC_RESULTS);
    MetabolicClosing(LIPID_START);
  }

  // The range-based analysis of the sample.

  /** A result whose range is `x-y`, where x reads as lo and y as hi, is Normal when its value
      lies between the two. */
  lemma WithinInterval(r: LabResult, x: string, y: string, lo: real, hi: real, v: real)
    requires r.refRange == x + "-" + y && '-' !in x && '-' !in y
    requires ParseFloat(x) == Finite(lo) && ParseFloat(y) == Finite(hi)
    requires r.value == Finite(v) && lo <= v <= hi
    ensures MedicalAnalysis.BasicStatus(r) == NORMAL
  {
    var range := r.refRange;
    assert range[|x|] == '-';
    NotProvidedHasNoDash();
    MedicalAnalysis.RangeBoundsOfInterval(x, y);
  }

  lemma NotProvidedHasNoDash()
    ensures '-' !in NOT_PROVIDED
  {
  }

  /** A result whose range is `<x`, where x reads as hi, is Normal when its value is at most hi. */
  lemma BelowCeiling(r: LabResult, x: string, hi: real, v: real)
    requires r.refRange == "<" + x && '-' !in x
    requires ParseFloat(x) == Finite(hi)
    requires r.value == Finite(v) && v <= hi
    ensures MedicalAnalysis.BasicStatus(r) == NORMAL
  {
    var range := r.refRange;
    assert range[0] == '<' && NOT_PROVIDED[0] == 'N';
    MedicalAnalysis.RangeBoundsOfCeiling(x);
  }

  /** A result whose range is `>x`, where x reads as lo, is Normal when its value is at least lo. */
  lemma AboveFloor(r: LabResult, x: string, lo: real, v: real)
    requires r.refRange == ">" + x && '-' !in x && '<' !in x
    requires ParseFloat(x) == Finite(lo)
    requires r.value == Finite(v) && v >= lo
    ensures MedicalAnalysis.BasicStatus(r) == NORMAL
  {
    var range := r.refRange;
    assert range[0] == '>' && NOT_PROVIDED[0] == 'N';
    MedicalAnalysis.RangeBoundsOfFloor(x);
  }

  /** The bounds printed in 13.5-17.5. */
  lemma HemoglobinBounds()
    ensures ParseFloat("13.5") == Finite(13.5) && ParseFloat("17.5") == Finite(17.5)
  {
    HemoglobinFloor();
    HemoglobinCeiling();
  }

  lemma HemoglobinFloor()
    ensures ParseFloat("13.5") == Finite(13.5)
  {
    TwoDigitText(13);
    ReadsDecimal("13.5", 13, "5", 13.5);
  }

  lemma HemoglobinCeiling()
    ensures ParseFloat("17.5") == Finite(17.5)
  {
    TwoDigitText(17);
    ReadsDecimal("17.5", 17, "5", 17.5);
  }

  /** How the range of the Hemoglobin result splits. */
  lemma HemoglobinRangeText()
    ensures HB_RESULT.refRange == "13.5" + "-" + "17.5" && '-' !in "13.5" && '-' !in "17.5"
  {
  }

  /** 14.2 lies in 13.5-17.5. */
  lemma HemoglobinInRange()
    ensures MedicalAnalysis.BasicStatus(HB_RESULT) == NORMAL
  {
    HemoglobinBounds();
    HemoglobinRangeText();
    WithinInterval(HB_RESULT, "13.5", "17.5", 13.5, 17.5, 14.2);
  }

  /** The bounds printed in 4.5-11.0. */
  lemma WBCBounds()
    ensures ParseFloat("4.5") == Finite(4.5) && ParseFloat("11.0") == Finite(11.0)
  {
    WBCFloor();
    WBCCeiling();
  }

  lemma WBCFloor()
    ensures ParseFloat("4.5") == Finite(4.5)
  {
    ReadsDecimal("4.5", 4, "5", 4.5);
  }

  lemma WBCCeiling()
    ensures ParseFloat("11.0") == Finite(11.0)
  {
    TwoDigitText(11);
    ReadsDecimal("11.0", 11, "0", 11.0);
  }

  /** How the range of the WBC result splits. */
  lemma WBCRangeText()
    ensures WBC_RESULT.refRange == "4.5" + "-" + "11.0" && '-' !in "4.5" && '-' !in "11.0"
  {
  }

  /** 6.8 lies in 4.5-11.0. */
  lemma WBCInRange()
    ensures MedicalAnalysis.BasicStatus(WBC_RESULT) == NORMAL
  {
    WBCBounds();
    WBCRangeText();
    WithinInterval(WBC_RESULT, "4.5", "11.0", 4.5, 11.0, 6.8);
  }

  /** The bounds printed in 150-450. */
  lemma PlateletsBounds()
    ensures ParseFloat("150") == Finite(150.0) && ParseFloat("450") == Finite(450.0)
  {
    PlateletsFloor();
    PlateletsCeiling();
  }

  lemma PlateletsFloor()
    ensures ParseFloat("150") == Finite(150.0)
  {
    ThreeDigitText(150);
    ReadsInteger("150", 150);
  }

  lemma PlateletsCeiling()
    ensures ParseFloat("450") == Finite(450.0)
  {
    ThreeDigitText(450);
    ReadsInteger("450", 450);
  }

  /** How the range of the Platelets result splits. */
  lemma PlateletsRangeText()
    ensures PLATELETS_RESULT.refRange == "150" + "-" + "450" && '-' !in "150" && '-' !in "450"
  {
  }

  /** 250 lies in 150-450. */
  lemma PlateletsInRange()
    ensures MedicalAnalysis.BasicStatus(PLATELETS_RESULT) == NORMAL
  {
    PlateletsBounds();
    PlateletsRangeText();
    WithinInterval(PLATELETS_RESULT, "150", "450", 150.0, 450.0, 250.0);
  }

  /** The bounds printed in 70-99. */
  lemma GlucoseBounds()
    ensures ParseFloat("70") == Finite(70.0) && ParseFloat("99") == Finite(99.0)
  {
    GlucoseFloor();
    GlucoseCeiling();
  }

  lemma GlucoseFloor()
    ensures ParseFloat("70") == Finite(70.0)
  {
    TwoDigitText(70);
    ReadsInteger("70", 70);
  }

  lemma GlucoseCeiling()
    ensures ParseFloat("99") == Finite(99.0)
  {
    TwoDigitText(99);
    ReadsInteger("99", 99);
  }

  /** How the range of the Glucose result splits. */
  lemma GlucoseRangeText()
    ensures GLUCOSE_RESULT.refRange == "70" + "-" + "99" && '-' !in "70" && '-' !in "99"
  {
  }

  /** 95 lies in 70-99. */
  lemma GlucoseInRange()
    ensures MedicalAnalysis.BasicStatus(GLUCOSE_RESULT) == NORMAL
  {
    GlucoseBounds();
    GlucoseRangeText();
    WithinInterval(GLUCOSE_RESULT, "70", "99", 70.0, 99.0, 95.0);
  }

  /** The bounds printed in <200. */
  lemma CholesterolBounds()
    ensures ParseFloat("200") == Finite(200.0)
  {
    ThreeDigitText(200);
    ReadsInteger("200", 200);
  }

  /** How the range of the Cholesterol result splits. */
  lemma CholesterolRangeText()
    ensures CHOLESTEROL_RESULT.refRange == "<" + "200" && '-' !in "200"
  {
  }

  /** 180 is below 200. */
  lemma CholesterolInRange()
    ensures MedicalAnalysis.BasicStatus(CHOLESTEROL_RESULT) == NORMAL
  {
    CholesterolBounds();
    CholesterolRangeText();
    BelowCeiling(CHOLESTEROL_RESULT, "200", 200.0, 180.0);
  }

  /** The bounds printed in >40. */
  lemma HDLBounds()
    ensures ParseFloat("40") == Finite(40.0)
  {
    TwoDigitText(40);
    ReadsInteger("40", 40);
  }

  /** How the range of the HDL result splits. */
  lemma HDLRangeText()
    ensures HDL_RESULT.refRange == ">" + "40" && '-' !in "40" && '<' !in "40"
  {
  }

  /** 55 is above 40. */
  lemma HDLInRange()
    ensures MedicalAnalysis.BasicStatus(HDL_RESULT) == NORMAL
  {
    HDLBounds();
    HDLRangeText();
    AboveFloor(HDL_RESULT, "40", 40.0, 55.0);
  }

  /** The bounds printed in <130. */
  lemma LDLBounds()
    ensures ParseFloat("130") == Finite(130.0)
  {
    ThreeDigitText(130);
    ReadsInteger("130", 130);
  }

  /** How the range of the LDL result splits. */
  lemma LDLRangeText()
    ensures LDL_RESULT.refRange == "<" + "130" && '-' !in "130"
  {
  }

  /** 110 is below 130. */
  lemma LDLInRange()
    ensures MedicalAnalysis.BasicStatus(LDL_RESULT) == NORMAL
  {
    LDLBounds();
    LDLRangeText();
    BelowCeiling(LDL_RESULT, "130", 130.0, 110.0);
  }

  /** Every result of d is Normal by its own reference range. */
  predicate AllInRange(d: Dict<LabResult>) {
    forall k :: k in d.entries ==> MedicalAnalysis.BasicStatus(d.entries[k]) == NORMAL
  }

  /** Storing a result that is in range keeps every result in range. */
  lemma PutInRange(d: Dict<LabResult>, k: string, r: LabResult)
    requires AllInRange(d) && MedicalAnalysis.BasicStatus(r) == NORMAL
    ensures AllInRange(Put(d, k, r))
  {
  }

  /** Every sample result lies in its printed range. */
  lemma SampleInRange()
    ensures AllInRange(SAMPLE_RESULTS)
  {
    HemoglobinInRange();
    WBCInRange();
    PlateletsInRange();
    GlucoseInRange();
    CholesterolInRange();
    HDLInRange();
    LDLInRange();
    var d1 := Put(Empty(), "Hemoglobin", HB_RESULT);
    PutInRange(Empty(), "Hemoglobin", HB_RESULT);
    var d2 := Put(d1, "WBC", WBC_RESULT);
    PutInRange(d1, "WBC", WBC_RESULT);
    PutInRange(d2, "Platelets", PLATELETS_RESULT);
    var d4 := Put(CBC_RESULTS, "Glucose", GLUCOSE_RESULT);
    PutInRange(CBC_RESULTS, "Glucose", GLUCOSE_RESULT);
    PutInRange(d4, "Cholesterol", CHOLESTEROL_RESULT);
    var d6 := Put(LIPID_START, "HDL", HDL_RESULT);
    PutInRange(LIPID_START, "HDL", HDL_RESULT);
    PutInRange(d6, "LDL", LDL_RESULT);
  }

  /** The range-based analysis finds nothing abnormal in the sample: the fallback report has
      the all-clear summary and the general advice. */
  lemma SampleAllClear()
    ensures var a := MapWithKey(ParseReport(SAMPLE_TEXT), MedicalAnalysis.BasicEntry);
      && AbnormalKeys(a) == []
      && MedicalAnalysis.Fallback(a) == Report(a, ALL_CLEAR, GENERAL_ADVICE)
  {
    SampleParses();
    SampleInRange();
    InRangeNothingAbnormal(SAMPLE_RESULTS);
  }

  /** Results that are all in range leave the range-based analysis nothing abnormal. */
  lemma InRangeNothingAbnormal(d: Dict<LabResult>)
    requires AllInRange(d)
    ensures AbnormalKeys(MapWithKey(d, MedicalAnalysis.BasicEntry)) == []
  {
    var a := MapWithKey(d, MedicalAnalysis.BasicEntry);
    NoneAbnormal(a.keys, a.entries);
  }

  // The catalogue analysis of the sample.

  /** A test stored in d that f does not call Normal is among the abnormal keys of f over d. */
  lemma Flagged(f: (string, LabResult) -> Analysed, d: Dict<LabResult>, k: string, r: LabResult)
    requires k in d.entries && d.entries[k] == r && f(k, r).status != NORMAL
    ensures k in AbnormalKeys(MapWithKey(d, f))
  {
  }

  /** A test stored in d that f calls Normal is not among the abnormal keys of f over d. */
  lemma NotFlagged(f: (string, LabResult) -> Analysed, d: Dict<LabResult>, k: string, r: LabResult)
    requires k in d.entries && d.entries[k] == r && f(k, r).status == NORMAL
    ensures k !in AbnormalKeys(MapWithKey(d, f))
  {
  }

  /** The entries of the parsed sample, by name. */
  const SAMPLE_ENTRIES := map[
    "Hemoglobin" := HB_RESULT, "WBC" := WBC_RESULT, "Platelets" := PLATELETS_RESULT,
    "Glucose" := GLUCOSE_RESULT, "Cholesterol" := CHOLESTEROL_RESULT, "HDL" := HDL_RESULT,
    "LDL" := LDL_RESULT]

  lemma SampleEntries()
    ensures SAMPLE_RESULTS.entries == SAMPLE_ENTRIES
  {
  }

  lemma EntryHemoglobin()
    ensures "Hemoglobin" in SAMPLE_ENTRIES && SAMPLE_ENTRIES["Hemoglobin"] == HB_RESULT
  {
  }

  lemma EntryWBC()
    ensures "WBC" in SAMPLE_ENTRIES && SAMPLE_ENTRIES["WBC"] == WBC_RESULT
  {
  }

  lemma EntryPlatelets()
    ensures "Platelets" in SAMPLE_ENTRIES && SAMPLE_ENTRIES["Platelets"] == PLATELETS_RESULT
  {
  }

  lemma EntryGlucose()
    ensures "Glucose" in SAMPLE_ENTRIES && SAMPLE_ENTRIES["Glucose"] == GLUCOSE_RESULT
  {
  }

  lemma EntryCholesterol()
    ensures "Cholesterol" in SAMPLE_ENTRIES && SAMPLE_ENTRIES["Cholesterol"] == CHOLESTEROL_RESULT
  {
  }

  lemma EntryHDL()
    ensures "HDL" in SAMPLE_ENTRIES && SAMPLE_ENTRIES["HDL"] == HDL_RESULT
  {
  }

  lemma EntryLDL()
    ensures "LDL" in SAMPLE_ENTRIES && SAMPLE_ENTRIES["LDL"] == LDL_RESULT
  {
  }

  /** A test outside the catalogue is never Normal there. */
  lemma SeeReference(gender: string, k: string, v: Number)
    requires k != HEMOGLOBIN && k != GLUCOSE && k != CHOLESTEROL
    ensures OcrAnalysis.CatalogueStatus(gender, k, v) != NORMAL
  {
    assert SEE_REFERENCE[0] != NORMAL[0];
  }

  /** The catalogue finds the sample's Hemoglobin, Glucose and Cholesterol Normal whatever the
      gender. */
  lemma CatalogueNormals(gender: string)
    ensures OcrAnalysis.CatalogueStatus(gender, HEMOGLOBIN, HB_RESULT.value) == NORMAL
    ensures OcrAnalysis.CatalogueStatus(gender, GLUCOSE, GLUCOSE_RESULT.value) == NORMAL
    ensures OcrAnalysis.CatalogueStatus(gender, CHOLESTEROL, CHOLESTEROL_RESULT.value) == NORMAL
  {
    OcrAnalysis.CatalogueThresholds(gender, HEMOGLOBIN, HB_RESULT.value);
    OcrAnalysis.CatalogueThresholds(gender, GLUCOSE, GLUCOSE_RESULT.value);
    OcrAnalysis.CatalogueThresholds(gender, CHOLESTEROL, CHOLESTEROL_RESULT.value);
  }

  /** The catalogue classifier applied to one test. */
  lemma ClassifierStatus(gender: string, k: string, r: LabResult)
    ensures OcrAnalysis.Classifier(gender)(k, r).status == OcrAnalysis.CatalogueStatus(gender, k, r.value)
  {
  }

  /** A stored test outside the catalogue is flagged by the catalogue. */
  lemma UncataloguedFlagged(gender: string, d: Dict<LabResult>, k: string, r: LabResult)
    requires k in d.entries && d.entries[k] == r
    requires k != HEMOGLOBIN && k != GLUCOSE && k != CHOLESTEROL
    ensures k in AbnormalKeys(MapWithKey(d, OcrAnalysis.Classifier(gender)))
  {
    SeeReference(gender, k, r.value);
    ClassifierStatus(gender, k, r);
    Flagged(OcrAnalysis.Classifier(gender), d, k, r);
  }

  /** A stored test the catalogue calls Normal is not flagged. */
  lemma CatalogueNotFlagged(gender: string, d: Dict<LabResult>, k: string, r: LabResult)
    requires k in d.entries && d.entries[k] == r
    requires OcrAnalysis.CatalogueStatus(gender, k, r.value) == NORMAL
    ensures k !in AbnormalKeys(MapWithKey(d, OcrAnalysis.Classifier(gender)))
  {
    ClassifierStatus(gender, k, r);
    NotFlagged(OcrAnalysis.Classifier(gender), d, k, r);
  }

  /** The catalogue flags the four sample tests it has no threshold for, and none of the three
      it has. */
  lemma SampleFlags(gender: string, d: Dict<LabResult>)
    requires d.entries == SAMPLE_ENTRIES
    ensures var ab := AbnormalKeys(MapWithKey(d, OcrAnalysis.Classifier(gender)));
      && "WBC" in ab && "Platelets" in ab && "HDL" in ab && "LDL" in ab
      && HEMOGLOBIN !in ab && GLUCOSE !in ab && CHOLESTEROL !in ab
  {
    CatalogueNormals(gender);
    EntryHemoglobin();
    CatalogueNotFlagged(gender, d, HEMOGLOBIN, HB_RESULT);
    EntryWBC();
    UncataloguedFlagged(gender, d, "WBC", WBC_RESULT);
    EntryPlatelets();
    UncataloguedFlagged(gender, d, "Platelets", PLATELETS_RESULT);
    EntryGlucose();
    CatalogueNotFlagged(gender, d, GLUCOSE, GLUCOSE_RESULT);
    EntryCholesterol();
    CatalogueNotFlagged(gender, d, CHOLESTEROL, CHOLESTEROL_RESULT);
    EntryHDL();
    UncataloguedFlagged(gender, d, "HDL", HDL_RESULT);
    EntryLDL();
    UncataloguedFlagged(gender, d, "LDL", LDL_RESULT);
  }

  /** An analysis with a profile, where LDL is flagged and Glucose, Hemoglobin and Cholesterol
      are not, succeeds with a summary that is not the all-clear one, no clause, and the
      heart-health advice alone. */
  lemma LdlOnlyReport(parsed: Dict<LabResult>, profile: Profile)
    requires var ab := AbnormalKeys(MapWithKey(parsed, OcrAnalysis.Classifier(profile.gender)));
      LDL in ab && HEMOGLOBIN !in ab && GLUCOSE !in ab && CHOLESTEROL !in ab
    ensures var o := OcrAnalysis.AnalysisOf(parsed, Some(profile));
      && o.Success?
      && o.report.summary != ALL_CLEAR
      && !OcrAnalysis.GlucoseClauseFires(o.report.analysis)
      && !OcrAnalysis.HemoglobinClauseFires(o.report.analysis)
      && o.report.recommendations == OcrAnalysis.CARDIO_ADVICE
  {
    var a := MapWithKey(parsed, OcrAnalysis.Classifier(profile.gender));
    var ab := AbnormalKeys(a);
    var r := OcrAnalysis.Recommendations(ab);
    assert |ab| > 0;
    assert r == r[..3] == OcrAnalysis.CARDIO_ADVICE;
  }

  /** With any profile, the catalogue analysis of results holding the sample's entries
      succeeds but reports results outside the normal range, though every result lies within its
      printed range: the four tests it has no threshold for get 'See reference', which is not
      'Normal'. No clause of the summary fires, and the LDL entry brings the heart-health advice
      alone. */
  lemma CatalogueOfSampleEntries(parsed: Dict<LabResult>, profile: Profile)
    requires parsed.entries == SAMPLE_ENTRIES
    ensures var o := OcrAnalysis.AnalysisOf(parsed, Some(profile));
      && o.Success?
      && (var ab := AbnormalKeys(o.report.analysis);
          && "WBC" in ab && "Platelets" in ab && "HDL" in ab && "LDL" in ab
          && HEMOGLOBIN !in ab && GLUCOSE !in ab && CHOLESTEROL !in ab)
      && o.report.summary != ALL_CLEAR
      && !OcrAnalysis.GlucoseClauseFires(o.report.analysis)
      && !OcrAnalysis.HemoglobinClauseFires(o.report.analysis)
      && o.report.recommendations == OcrAnalysis.CARDIO_ADVICE
  {
    SampleFlags(profile.gender, parsed);
    LdlOnlyReport(parsed, profile);
  }

  /** The catalogue analysis of the sample report's text, with any profile: the outcome above. */
  lemma SampleCatalogue(profile: Profile)
    ensures var o := OcrAnalysis.AnalysisOf(ParseReport(SAMPLE_TEXT), Some(profile));
      && o.Success?
      && "WBC" in AbnormalKeys(o.report.analysis)
      && o.report.recommendations == OcrAnalysis.CARDIO_ADVICE
  {
    SampleParses();
    SampleEntries();
    CatalogueOfSampleEntries(SAMPLE_RESULTS, profile);
  }
}
