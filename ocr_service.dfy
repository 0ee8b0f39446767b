/**
 * The OCR text parser: each line of the report is matched against the pattern
 * `([^:]+):\s*([\d.]+)\s*([^\s(]+)\s*(?:\(Ref:\s*([^)]+)\))?` and every match is
 * stored under its trimmed test name (src/services/ocrService.js:39-61).
 *
 * The pattern is modelled as the regular-expression engine runs it: a search for
 * the leftmost start position, greedy repetitions, and the two places where
 * backtracking changes the captured text.
 */
module OcrService {
  import opened Options
  import opened Text
  import opened Numbers
  import opened OrderedMaps
  import opened Lab

  /** The four capture groups of one match. */
  datatype LineMatch = LineMatch(name: string, number: string, unit: string, refRange: Option<string>)

  /** The captures after the colon. */
  datatype Tail = Tail(number: string, unit: string, refRange: Option<string>)

  predicate AllIn(s: string, k: CharClass) {
    forall i :: 0 <= i < |s| ==> InClass(s[i], k)
  }

  /** `\s*(?:\(Ref:\s*([^)]+)\))?` at the front of t: the captured range when the optional
      group matches. When `[^)]+` would have to start on `)`, the `\s*` before it gives back
      one blank, which then becomes the whole capture. */
  function RefGroup(t: string): (r: Option<string>)
    ensures r.Some? ==> r.value != [] && AllIn(r.value, NotCloseParen)
  {
    var t1 := t[RunEnd(t, 0, Space)..];
    if |t1| >= 5 && t1[..5] == "(Ref:" then
      var t2 := t1[5..];
      var blanks := RunEnd(t2, 0, Space);
      var t3 := t2[blanks..];
      var e := RunEnd(t3, 0, NotCloseParen);
      if e == |t3| then None
      else if e > 0 then Some(t3[..e])
      else if blanks > 0 then Some(t2[blanks - 1..blanks])
      else None
    else None
  }

  /** `\s*([\d.]+)\s*([^\s(]+)` and the optional range group, at the front of the text after the
      colon. When no unit character follows the number, the number gives back its last
      character to the unit, provided it keeps at least one. */
  function AfterColon(t: string): (r: Option<Tail>)
    ensures r.Some? ==> r.value.number != [] && AllIn(r.value.number, DigitOrDot)
    ensures r.Some? ==> r.value.unit != [] && AllIn(r.value.unit, UnitChar)
  {
    var t1 := t[RunEnd(t, 0, Space)..];
    var n := RunEnd(t1, 0, DigitOrDot);
    if n == 0 then None
    else
      var t2 := t1[n..];
      var t3 := t2[RunEnd(t2, 0, Space)..];
      var u := RunEnd(t3, 0, UnitChar);
      if u > 0 then
        PrefixAllIn(t1, n, DigitOrDot);
        PrefixAllIn(t3, u, UnitChar);
        Some(Tail(t1[..n], t3[..u], RefGroup(t3[u..])))
      else if n >= 2 then
        PrefixAllIn(t1, n - 1, DigitOrDot);
        LastDigitIsUnit(t1, n);
        Some(Tail(t1[..n - 1], t1[n - 1..n], RefGroup(t1[n..])))
      else None
  }

  lemma PrefixAllIn(s: string, n: nat, k: CharClass)
    requires n <= |s| && forall i :: 0 <= i < n ==> InClass(s[i], k)
    ensures AllIn(s[..n], k)
  {
  }

  /** A digit or a dot is also a unit character. */
  lemma LastDigitIsUnit(s: string, n: nat)
    requires 1 <= n <= |s| && InClass(s[n - 1], DigitOrDot)
    ensures s[n - 1..n] != [] && AllIn(s[n - 1..n], UnitChar)
  {
    assert s[n - 1..n] == [s[n - 1]];
  }

  /** The match that starts at the front of t, if any: `[^:]+` takes everything up to the
      first colon, which must not be the first character. */
  function MatchAt(t: string): (r: Option<LineMatch>)
    ensures r.Some? ==> r.value.name != [] && ':' !in r.value.name
  {
    var c := RunEnd(t, 0, NotColon);
    if c == 0 || c == |t| then None
    else
      match AfterColon(t[c + 1..])
      case None => None
      case Some(tail) =>
        assert forall i :: 0 <= i < c ==> t[..c][i] != ':';
        Some(LineMatch(t[..c], tail.number, tail.unit, tail.refRange))
  }

  /** `line.match(pattern)` tried from position p onwards: the match at the leftmost start. */
  function SearchFrom(line: string, p: nat): Option<LineMatch>
    requires p <= |line|
    decreases |line| - p
  {
    if p == |line| then None
    else
      match MatchAt(line[p..])
      case Some(m) => Some(m)
      case None => SearchFrom(line, p + 1)
  }

  /** `line.match(pattern)`; every match has a non-empty colon-free name, a non-empty number of
      digits and dots, a non-empty unit without blanks or `(`, and a range without `)`. */
  function MatchLine(line: string): (r: Option<LineMatch>)
    ensures r.Some? ==> r.value.name != [] && ':' !in r.value.name
    ensures r.Some? ==> r.value.number != [] && AllIn(r.value.number, DigitOrDot)
    ensures r.Some? ==> r.value.unit != [] && AllIn(r.value.unit, UnitChar)
    ensures r.Some? && r.value.refRange.Some? ==> r.value.refRange.value != [] && AllIn(r.value.refRange.value, NotCloseParen)
  {
    SearchLeftmost(line, 0);
    SearchFrom(line, 0)
  }

  /** The search finds a match exactly when one starts at or after p, and what it finds is the
      match at the leftmost such start. */
  lemma SearchLeftmost(line: string, p: nat)
    requires p <= |line|
    ensures var r := SearchFrom(line, p);
      && (r.None? <==> forall q :: p <= q < |line| ==> MatchAt(line[q..]).None?)
      && (r.Some? ==>
            exists q :: (p <= q < |line| && MatchAt(line[q..]) == r
              && forall q' :: p <= q' < q ==> MatchAt(line[q'..]).None?))
  {
    SearchNone(line, p);
    if SearchFrom(line, p).Some? {
      var q := SearchFirst(line, p);
      assert p <= q < |line| && MatchAt(line[q..]) == SearchFrom(line, p);
    }
  }

  /** The search finds nothing exactly when no start from p on gives a match. */
  lemma {:induction false} SearchNone(line: string, p: nat)
    requires p <= |line|
    ensures SearchFrom(line, p).None? <==> forall q :: p <= q < |line| ==> MatchAt(line[q..]).None?
    decreases |line| - p
  {
    if p < |line| && MatchAt(line[p..]).None? {
      SearchNone(line, p + 1);
    }
  }

  /** The start q of what the search finds: no earlier start from p on gives a match. */
  lemma {:induction false} SearchFirst(line: string, p: nat) returns (q: nat)
    requires p <= |line| && SearchFrom(line, p).Some?
    ensures p <= q < |line| && MatchAt(line[q..]) == SearchFrom(line, p)
    ensures forall q' :: p <= q' < q ==> MatchAt(line[q'..]).None?
    decreases |line| - p
  {
    if MatchAt(line[p..]).Some? {
      q := p;
    } else {
      q := SearchFirst(line, p + 1);
    }
  }

  /** Starts that give no match are passed over. */
  lemma {:induction false} SearchSkips(line: string, p: nat, q: nat)
    requires p <= q <= |line|
    requires forall q' :: p <= q' < q ==> MatchAt(line[q'..]).None?
    ensures SearchFrom(line, p) == SearchFrom(line, q)
    decreases q - p
  {
    if p < q {
      SearchSkips(line, p + 1, q);
    }
  }

  /** The key and the record that `results[testName.trim()] = { ... }` stores for a match. */
  function EntryOf(m: LineMatch): (string, LabResult) {
    (Trim(m.name), LabResult(ParseFloat(m.number), m.unit, m.refRange.GetOr(NOT_PROVIDED)))
  }

  /** What a match stores: under the name without its outer white space, a key that needs no
      more trimming and keeps the name's freedom from colons, the number read by `parseFloat`,
      the unit, and the captured range, with 'Not provided' standing in for a missing one. */
  lemma EntryOfMeaning(m: LineMatch)
    ensures var e := EntryOf(m);
      && e.0 == Trim(m.name) && Trim(e.0) == e.0
      && (':' !in m.name ==> ':' !in e.0)
      && e.1.value == ParseFloat(m.number) && e.1.unit == m.unit
      && (e.1.refRange == NOT_PROVIDED <==> m.refRange.None? || m.refRange == Some(NOT_PROVIDED))
      && (m.refRange.Some? ==> e.1.refRange == m.refRange.value)
  {
    KeyOfName(m.name);
  }

  lemma KeyOfName(name: string)
    ensures Trim(Trim(name)) == Trim(name)
    ensures ':' !in name ==> ':' !in Trim(name)
  {
    TrimIdempotent(name);
    TrimKeepsColonOut(name);
  }

  lemma TrimKeepsColonOut(name: string)
    ensures ':' !in name ==> ':' !in Trim(name)
  {
    var key := Trim(name);
    KeySliceFree(name, key, LeadingSpaces(name));
  }

  /** A slice of colon-free text is colon-free. */
  lemma KeySliceFree(name: string, key: string, a: nat)
    requires a + |key| <= |name| && key == name[a..a + |key|]
    ensures ':' !in name ==> ':' !in key
  {
    if ':' in key {
      var i :| 0 <= i < |key| && key[i] == ':';
      assert name[a + i] == ':';
    }
  }

  /** The key a line stores under, if it matches. */
  function KeyOf(line: string): Option<string> {
    match MatchLine(line)
    case None => None
    case Some(m) => Some(EntryOf(m).0)
  }

  /** One pass of the `forEach` body. */
  function AddLine(d: Dict<LabResult>, line: string): Dict<LabResult> {
    match MatchLine(line)
    case None => d
    case Some(m) => Put(d, EntryOf(m).0, EntryOf(m).1)
  }

  /** The results object after the `forEach` has visited every line in order. */
  function Absorb(d: Dict<LabResult>, lines: seq<string>): Dict<LabResult>
    decreases |lines|
  {
    if lines == [] then d else Absorb(AddLine(d, lines[0]), lines[1..])
  }

  /** `parseBloodTestResults(text)` as a value. */
  function ParseReport(text: string): Dict<LabResult> {
    Absorb(Empty(), Split(text, '\n'))
  }

  /** `parseBloodTestResults`: split the text into lines and store every matching line. */
  method ParseBloodTestResults(text: string) returns (results: Dict<LabResult>)
    ensures results == ParseReport(text)
  {
    var lines := Split(text, '\n');
    results := Empty();
    var i := 0;
    while i < |lines|
      invariant 0 <= i <= |lines|
      invariant Absorb(results, lines[i..]) == ParseReport(text)
    {
      assert lines[i..][1..] == lines[i + 1..];
      var m := MatchLine(lines[i]);
      if m.Some? {
        var e := EntryOf(m.value);
        results := Put(results, e.0, e.1);
      }
      i := i + 1;
    }
  }

  /** A line without a colon never matches, so header lines such as `COMPLETE BLOOD COUNT`
      add nothing. */
  lemma NoColonNoMatch(line: string)
    requires ':' !in line
    ensures MatchLine(line) == None
  {
    NoColonFrom(line, 0);
  }

  lemma {:induction false} NoColonFrom(line: string, p: nat)
    requires ':' !in line && p <= |line|
    ensures SearchFrom(line, p) == None
    decreases |line| - p
  {
    if p < |line| {
      var t := line[p..];
      assert forall m :: 0 <= m < |t| ==> InClass(t[m], NotColon);
      RunEndAt(t, 0, NotColon, |t|);
      NoColonFrom(line, p + 1);
    }
  }

  /** A key is in the parsed results iff it was there before or some line matches with it. */
  lemma {:induction false} AbsorbKeys(d: Dict<LabResult>, lines: seq<string>, k: string)
    ensures k in Absorb(d, lines).entries <==>
      k in d.entries || exists i :: 0 <= i < |lines| && KeyOf(lines[i]) == Some(k)
    decreases |lines|
  {
    if lines != [] {
      AbsorbKeys(AddLine(d, lines[0]), lines[1..], k);
      if exists i :: 0 <= i < |lines| && KeyOf(lines[i]) == Some(k) {
        var i :| 0 <= i < |lines| && KeyOf(lines[i]) == Some(k);
        if i > 0 {
          assert lines[1..][i - 1] == lines[i];
        }
      }
      if exists i :: 0 <= i < |lines| - 1 && KeyOf(lines[1..][i]) == Some(k) {
        var i :| 0 <= i < |lines| - 1 && KeyOf(lines[1..][i]) == Some(k);
        assert lines[1..][i] == lines[i + 1];
      }
    }
  }

  /** A key that no line matches with keeps the record it had before. */
  lemma {:induction false} AbsorbUntouched(d: Dict<LabResult>, lines: seq<string>, k: string)
    requires k in d.entries
    requires forall i :: 0 <= i < |lines| ==> KeyOf(lines[i]) != Some(k)
    ensures k in Absorb(d, lines).entries && Absorb(d, lines).entries[k] == d.entries[k]
    decreases |lines|
  {
    if lines != [] {
      assert forall i :: 0 <= i < |lines| - 1 ==> lines[1..][i] == lines[i + 1];
      AbsorbUntouched(AddLine(d, lines[0]), lines[1..], k);
    }
  }

  /** The last line that matches with a key decides its record. */
  lemma {:induction false} AbsorbLast(d: Dict<LabResult>, lines: seq<string>, k: string, i: nat)
    requires i < |lines| && KeyOf(lines[i]) == Some(k)
    requires forall j :: i < j < |lines| ==> KeyOf(lines[j]) != Some(k)
    ensures k in Absorb(d, lines).entries
    ensures Absorb(d, lines).entries[k] == EntryOf(MatchLine(lines[i]).value).1
    decreases |lines|
  {
    var d' := AddLine(d, lines[0]);
    var rest := lines[1..];
    assert Absorb(d, lines) == Absorb(d', rest);
    if i == 0 {
      forall j | 0 <= j < |rest|
        ensures KeyOf(rest[j]) != Some(k)
      {
        assert rest[j] == lines[j + 1];
      }
      AbsorbUntouched(d', rest, k);
    } else {
      assert rest[i - 1] == lines[i];
      forall j | i - 1 < j < |rest|
        ensures KeyOf(rest[j]) != Some(k)
      {
        assert rest[j] == lines[j + 1];
      }
      AbsorbLast(d', rest, k, i - 1);
    }
  }

  /** Last write wins: the parsed report maps a name to the record of the last line that
      matches with it, and has no other keys. */
  lemma ParseReportEntries(text: string, lines: seq<string>, k: string)
    requires lines == Split(text, '\n')
    ensures k in ParseReport(text).entries <==> exists i :: 0 <= i < |lines| && KeyOf(lines[i]) == Some(k)
    ensures forall i ::
      (0 <= i < |lines| && KeyOf(lines[i]) == Some(k)
       && (forall j :: i < j < |lines| ==> KeyOf(lines[j]) != Some(k)))
      ==> ParseReport(text).entries[k] == EntryOf(MatchLine(lines[i]).value).1
  {
    AbsorbKeys(Empty(), lines, k);
    forall i | 0 <= i < |lines| && KeyOf(lines[i]) == Some(k)
        && (forall j :: i < j < |lines| ==> KeyOf(lines[j]) != Some(k))
      ensures ParseReport(text).entries[k] == EntryOf(MatchLine(lines[i]).value).1
    {
      AbsorbLast(Empty(), lines, k, i);
    }
  }

  /** A report line as the lab prints it: `name: number unit (Ref: range)`. */
  function FormatLine(name: string, number: string, unit: string, range: string): string {
    name + ":" + (" " + number + " " + unit + (" (Ref: " + range + ")"))
  }

  /** The range group reads back a range that does not start with a blank and holds no `)`. */
  lemma RefGroupOf(range: string)
    requires range != [] && AllIn(range, NotCloseParen) && !IsSpace(range[0])
    ensures RefGroup(" (Ref: " + range + ")") == Some(range)
  {
    var t := " (Ref: " + range + ")";
    var t1 := "(Ref: " + range + ")";
    assert t == " " + t1;
    RunEndOfPrefix(" ", t1, Space);
    assert t1[..5] == "(Ref:";
    var t3 := range + ")";
    assert t1[5..] == " " + t3;
    RunEndOfPrefix(" ", t3, Space);
    RunEndOfPrefix(range, ")", NotCloseParen);
    assert t3[..|range|] == range;
  }

  /** The text after the colon: one blank, the number, one blank, the unit, then R, which does
      not go on with a unit character. */
  lemma AfterColonOf(number: string, unit: string, r: string)
    requires number != [] && AllIn(number, DigitOrDot)
    requires unit != [] && AllIn(unit, UnitChar)
    requires r == [] || !InClass(r[0], UnitChar)
    ensures AfterColon(" " + number + " " + unit + r) == Some(Tail(number, unit, RefGroup(r)))
  {
    var t1 := number + (" " + unit + r);
    assert " " + number + " " + unit + r == " " + t1;
    RunEndOfPrefix(" ", t1, Space);
    RunEndOfPrefix(number, " " + unit + r, DigitOrDot);
    assert t1[..|number|] == number;
    var t3 := unit + r;
    assert t1[|number|..] == " " + t3;
    RunEndOfPrefix(" ", t3, Space);
    RunEndOfPrefix(unit, r, UnitChar);
    assert t3[..|unit|] == unit && t3[|unit|..] == r;
  }

  /** At a non-empty colon-free name and a colon, the pattern's outcome is that of the text
      after the colon. */
  lemma MatchAtName(name: string, t: string)
    requires name != [] && ':' !in name
    ensures MatchAt(name + ":" + t) ==
      match AfterColon(t)
      case None => None
      case Some(tail) => Some(LineMatch(name, tail.number, tail.unit, tail.refRange))
  {
    var line := name + ":" + t;
    assert forall i :: 0 <= i < |name| ==> InClass(name[i], NotColon);
    RunEndOfPrefix(name, ":" + t, NotColon);
    assert line == name + (":" + t);
    assert line[..|name|] == name && line[|name| + 1..] == t;
  }

  /** A line that starts with a non-empty colon-free name and a colon matches from its first
      character when the text after the colon matches. */
  lemma MatchAfterName(name: string, t: string, tail: Tail)
    requires name != [] && ':' !in name
    requires AfterColon(t) == Some(tail)
    ensures MatchLine(name + ":" + t) == Some(LineMatch(name, tail.number, tail.unit, tail.refRange))
  {
    var line := name + ":" + t;
    MatchAtName(name, t);
    assert line[0..] == line;
    assert SearchFrom(line, 0) == MatchAt(line);
  }

  /** The name is not always the text before the first colon: when no number follows the first
      colon, the search moves on, and the name is the segment between the first colon and a
      later one that a number does follow (`Note: see below: 5 u` stores under `see below`). */
  lemma LaterColonName(head: string, name: string, t: string, tail: Tail)
    requires head != [] && ':' !in head && AfterColon(name + ":" + t).None?
    requires name != [] && ':' !in name
    requires AfterColon(t) == Some(tail)
    ensures MatchLine(head + ":" + name + ":" + t) == Some(LineMatch(name, tail.number, tail.unit, tail.refRange))
  {
    var rest := name + ":" + t;
    var line := head + ":" + rest;
    assert line == head + ":" + name + ":" + t;
    HeadStartsFail(head, rest);
    SearchSkips(line, 0, |head| + 1);
    assert line[|head| + 1..] == rest;
    MatchAtName(name, t);
    var found := Some(LineMatch(name, tail.number, tail.unit, tail.refRange));
    assert MatchAt(rest) == found;
    assert SearchFrom(line, |head| + 1) == found;
    assert SearchFrom(line, 0) == found;
  }

  /** When no number follows the first colon, no start up to and including that colon gives a
      match. */
  lemma HeadStartsFail(head: string, rest: string)
    requires head != [] && ':' !in head && AfterColon(rest).None?
    ensures var line := head + ":" + rest;
      forall q :: 0 <= q <= |head| ==> MatchAt(line[q..]).None?
  {
    var line := head + ":" + rest;
    forall q | 0 <= q <= |head|
      ensures MatchAt(line[q..]).None?
    {
      if q < |head| {
        HeadStartFails(head, rest, q);
      } else {
        assert line[q..][0] == ':';
        assert RunEnd(line[q..], 0, NotColon) == 0;
      }
    }
  }

  lemma HeadStartFails(head: string, rest: string, q: nat)
    requires q < |head| && ':' !in head && AfterColon(rest).None?
    ensures MatchAt((head + ":" + rest)[q..]).None?
  {
    var h := head[q..];
    assert (head + ":" + rest)[q..] == h + ":" + rest;
    assert ':' !in h by {
      forall i | 0 <= i < |h|
        ensures h[i] != ':'
      {
        assert h[i] == head[q + i];
      }
    }
    MatchAtName(h, rest);
  }

  /** Round trip: a line printed in the lab's format parses back to the name, number, unit and
      range it was printed from. */
  lemma FormatLineParses(name: string, number: string, unit: string, range: string)
    requires name != [] && ':' !in name
    requires number != [] && AllIn(number, DigitOrDot)
    requires unit != [] && AllIn(unit, UnitChar)
    requires range != [] && AllIn(range, NotCloseParen) && !IsSpace(range[0])
    ensures MatchLine(FormatLine(name, number, unit, range)) == Some(LineMatch(name, number, unit, Some(range)))
  {
    var r := " (Ref: " + range + ")";
    RefGroupOf(range);
    AfterColonOf(number, unit, r);
    MatchAfterName(name, " " + number + " " + unit + r, Tail(number, unit, Some(range)));
  }

  /** A range in parentheses without the `Ref:` label is not captured: the record gets
      'Not provided'. */
  lemma UnlabelledRangeIgnored(name: string, number: string, unit: string, p: string)
    requires name != [] && ':' !in name
    requires number != [] && AllIn(number, DigitOrDot)
    requires unit != [] && AllIn(unit, UnitChar)
    requires p == [] || !IsSpace(p[0])
    requires |p| < 5 || p[..5] != "(Ref:"
    ensures MatchLine(name + ":" + (" " + number + " " + unit + (" " + p))) == Some(LineMatch(name, number, unit, None))
  {
    var r := " " + p;
    RunEndOfPrefix(" ", p, Space);
    assert r[1..] == p;
    assert RefGroup(r) == None;
    AfterColonOf(number, unit, r);
    MatchAfterName(name, " " + number + " " + unit + r, Tail(number, unit, None));
  }

  /** When nothing follows the number, the pattern still matches: the number gives its last
      character to the unit, so `X: 95` reads as value 9 with unit `5`. */
  lemma LastDigitBecomesUnit(name: string, digits: string)
    requires name != [] && ':' !in name
    requires |digits| >= 2 && AllIn(digits, DigitOrDot)
    ensures MatchLine(name + ":" + (" " + digits))
         == Some(LineMatch(name, digits[..|digits| - 1], digits[|digits| - 1..], None))
  {
    var t := " " + digits;
    RunEndOfPrefix(" ", digits, Space);
    assert t[1..] == digits;
    assert digits + [] == digits;
    RunEndOfPrefix(digits, [], DigitOrDot);
    assert digits[|digits|..] == [];
    assert RunEnd([], 0, UnitChar) == 0;
    assert RefGroup([]) == None;
    MatchAfterName(name, t, Tail(digits[..|digits| - 1], digits[|digits| - 1..], None));
  }
}
