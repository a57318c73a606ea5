/** Decomposition of a case number `NNNNNNN-DD.AAAA.J.TR.OOOO` into the court,
    the process segment and the origin unit.

    Each of the three regular expressions of the service is stated here as a
    predicate over positions of the string (what a match IS), and computed by a
    small search that follows the way a backtracking regular-expression engine
    proceeds (leftmost start first, greedy `.*` backing off one character at a
    time). The contracts tie each search to its predicate. */
module CaseNumber {
  import opened Wrappers

  /** The three errors the extractors throw. */
  datatype Error = CourtNotRecognized | ProcessNotRecognized | UnitOriginNotRecognized

  /** The closed court table: two-digit code to court abbreviation. */
  const CourtMap: map<string, string> := map["02" := "TJAL", "06" := "TJCE"]

  /** `\d`: an ASCII decimal digit (JavaScript's `\d` matches nothing else). */
  predicate IsDigit(c: char) {
    '0' <= c <= '9'
  }

  /** The characters JavaScript's `.` does not match. */
  predicate IsLineTerminator(c: char) {
    c == '\n' || c == '\r' || c == '\U{2028}' || c == '\U{2029}'
  }

  /** `\d{n}` matches at position `p`. */
  predicate DigitsAt(s: string, p: int, n: nat) {
    0 <= p && p + n <= |s| && forall q :: p <= q < p + n ==> IsDigit(s[q])
  }

  /** `.*` can consume exactly `s[a..b]`. */
  predicate NoLineTerminatorIn(s: string, a: int, b: int)
    requires 0 <= a && b <= |s|
  {
    forall q :: a <= q < b ==> !IsLineTerminator(s[q])
  }

  // ---------------------------------------------------------------------------
  // Court: /\.(\d{2})\./ followed by a lookup in CourtMap
  // ---------------------------------------------------------------------------

  /** `\.\d{2}\.` matches at position `p`; the captured code is `s[p + 1..p + 3]`. */
  predicate CourtSegmentAt(s: string, p: int) {
    0 <= p && p + 4 <= |s| && s[p] == '.' && DigitsAt(s, p + 1, 2) && s[p + 3] == '.'
  }

  /** `p` is the position of the match the engine reports: the leftmost one. */
  predicate LeftmostCourtSegment(s: string, p: int) {
    CourtSegmentAt(s, p) && forall q :: 0 <= q < p ==> !CourtSegmentAt(s, q)
  }

  /** The table lookup `courtMap[code]`: the table knows exactly `"02"` and
      `"06"`, and any other code gives `undefined`. */
  function LookupCourt(code: string): (r: Option<string>)
    ensures code == "02" ==> r == Some("TJAL")
    ensures code == "06" ==> r == Some("TJCE")
    ensures code != "02" && code != "06" ==> r == None
  {
    if code in CourtMap then Some(CourtMap[code]) else None
  }

  /** Tries the court pattern at `from`, `from + 1`, ... and returns the first hit. */
  function FindCourtSegment(s: string, from: nat): (r: Option<nat>)
    requires from <= |s|
    ensures r.Some? ==> from <= r.value && CourtSegmentAt(s, r.value)
    ensures r.Some? ==> forall q :: from <= q < r.value ==> !CourtSegmentAt(s, q)
    ensures r.None? ==> forall q :: from <= q ==> !CourtSegmentAt(s, q)
    decreases |s| - from
  {
    if from + 4 > |s| then None
    else if CourtSegmentAt(s, from) then Some(from)
    else FindCourtSegment(s, from + 1)
  }

  /** getCourtByCaseNumber: fails exactly when no `.DD.` segment exists; otherwise
      yields the table entry of the leftmost segment's code, absent when the code
      is not in the table. */
  function GetCourtByCaseNumber(caseNumber: string): (r: Result<Option<string>, Error>)
    ensures r.Failure? <==> forall p :: !CourtSegmentAt(caseNumber, p)
    ensures r.Failure? ==> r.error == CourtNotRecognized
    ensures forall p :: LeftmostCourtSegment(caseNumber, p) ==>
              r == Success(LookupCourt(caseNumber[p + 1..p + 3]))
  {
    match FindCourtSegment(caseNumber, 0)
    case Some(p) => Success(LookupCourt(caseNumber[p + 1..p + 3]))
    case None => Failure(CourtNotRecognized)
  }

  // ---------------------------------------------------------------------------
  // Process: /(\d{7}.*\d{4})\./
  // ---------------------------------------------------------------------------

  /** `\d{4}\.` matches at position `k`. */
  predicate TailAt(s: string, k: int) {
    DigitsAt(s, k, 4) && k + 4 < |s| && s[k + 4] == '.'
  }

  /** The whole pattern matches from `i` with `.*` consuming `s[i + 7..k]`;
      the capture group is then `s[i..k + 4]`. */
  predicate ProcessMatch(s: string, i: int, k: int) {
    DigitsAt(s, i, 7) && i + 7 <= k && TailAt(s, k) && NoLineTerminatorIn(s, i + 7, k)
  }

  /** The greedy `.*` keeps the longest match from a given start. */
  ghost predicate GreedyEnd(s: string, i: int, k: int) {
    ProcessMatch(s, i, k) && forall k' :: k < k' ==> !ProcessMatch(s, i, k')
  }

  /** No match starts at any position below `i`. */
  ghost predicate NoProcessMatchBefore(s: string, i: int) {
    forall i', k :: 0 <= i' < i ==> !ProcessMatch(s, i', k)
  }

  /** How far `.*` runs from `j` before it meets a line terminator or the end. */
  function RunEnd(s: string, j: nat): (m: nat)
    requires j <= |s|
    ensures j <= m <= |s| && NoLineTerminatorIn(s, j, m)
    ensures m < |s| ==> IsLineTerminator(s[m])
    decreases |s| - j
  {
    if j == |s| || IsLineTerminator(s[j]) then j else RunEnd(s, j + 1)
  }

  /** Backtracking of `.*`: tries `\d{4}\.` at `k`, `k - 1`, ..., `lo`. */
  function BacktrackTail(s: string, lo: nat, k: int): (r: Option<nat>)
    ensures r.Some? ==> lo <= r.value <= k && TailAt(s, r.value)
    ensures r.Some? ==> forall q :: r.value < q <= k ==> !TailAt(s, q)
    ensures r.None? ==> forall q :: lo <= q <= k ==> !TailAt(s, q)
    decreases k - lo
  {
    if k < lo then None
    else if TailAt(s, k) then Some(k)
    else BacktrackTail(s, lo, k - 1)
  }

  /** The match from start `i`, if any: its greedy end. */
  function MatchProcessAt(s: string, i: nat): (r: Option<nat>)
    requires i <= |s|
    ensures r.Some? ==> GreedyEnd(s, i, r.value)
    ensures r.None? ==> forall k :: !ProcessMatch(s, i, k)
  {
    if DigitsAt(s, i, 7) then
      var m := RunEnd(s, i + 7);
      BacktrackTail(s, i + 7, m)
    else None
  }

  /** Tries starts `i`, `i + 1`, ... and returns the first start that matches with its greedy end. */
  function FindProcess(s: string, i: nat): (r: Option<(nat, nat)>)
    requires i <= |s|
    ensures r.Some? ==> i <= r.value.0 && GreedyEnd(s, r.value.0, r.value.1)
    ensures r.Some? ==> forall i', k :: i <= i' < r.value.0 ==> !ProcessMatch(s, i', k)
    ensures r.None? ==> forall i', k :: i <= i' ==> !ProcessMatch(s, i', k)
    decreases |s| - i
  {
    match MatchProcessAt(s, i)
    case Some(k) => Some((i, k))
    case None => if i == |s| then None else FindProcess(s, i + 1)
  }

  /** getProcessByCaseNumber: fails exactly when the pattern matches nowhere;
      otherwise yields the span from the leftmost start to its greedy end. */
  function GetProcessByCaseNumber(caseNumber: string): (r: Result<string, Error>)
    ensures r.Failure? <==> forall i, k :: !ProcessMatch(caseNumber, i, k)
    ensures r.Failure? ==> r.error == ProcessNotRecognized
    ensures r.Success? ==> exists i, k :: NoProcessMatchBefore(caseNumber, i) && GreedyEnd(caseNumber, i, k)
                                        && r.value == caseNumber[i..k + 4]
  {
    match FindProcess(caseNumber, 0)
    case Some((i, k)) => Success(caseNumber[i..k + 4])
    case None => Failure(ProcessNotRecognized)
  }

  /** The leftmost start and its greedy end are unique, so the process
      span is determined by the two predicates alone. */
  lemma ProcessSpanDetermined(s: string, i: int, k: int)
    requires NoProcessMatchBefore(s, i) && GreedyEnd(s, i, k)
    ensures GetProcessByCaseNumber(s) == Success(s[i..k + 4])
  {
  }

  /** `p` occurs in `s` at position `i` and is followed there by a dot. */
  predicate SpanFollowedByDot(s: string, p: string, i: int) {
    0 <= i && i + |p| < |s| && s[i..i + |p|] == p && s[i + |p|] == '.'
  }

  /** What every process span looks like: it starts with seven digits, ends
      with four digits, is a substring of the case number, and is followed there
      by a dot. */
  lemma ProcessShape(s: string)
    requires GetProcessByCaseNumber(s).Success?
    ensures var p := GetProcessByCaseNumber(s).value;
            |p| >= 11 && DigitsAt(p, 0, 7) && DigitsAt(p, |p| - 4, 4) &&
            exists i :: SpanFollowedByDot(s, p, i)
  {
    var p := GetProcessByCaseNumber(s).value;
    var i, k :| NoProcessMatchBefore(s, i) && GreedyEnd(s, i, k) && p == s[i..k + 4];
    assert SpanFollowedByDot(s, p, i);
  }

  // ---------------------------------------------------------------------------
  // Origin unit: /(\d{4})$/
  // ---------------------------------------------------------------------------

  /** `\d{4}$` matches at position `p`: four digits that end the string. */
  predicate OriginMatchAt(s: string, p: int) {
    DigitsAt(s, p, 4) && p + 4 == |s|
  }

  /** getUnitOriginByCaseNumber: fails exactly when the pattern matches nowhere;
      otherwise yields the four matched digits. */
  function GetUnitOriginByCaseNumber(caseNumber: string): (r: Result<string, Error>)
    ensures r.Failure? <==> forall p :: !OriginMatchAt(caseNumber, p)
    ensures r.Failure? ==> r.error == UnitOriginNotRecognized
    ensures forall p :: OriginMatchAt(caseNumber, p) ==> r == Success(caseNumber[p..p + 4])
  {
    if |caseNumber| >= 4 && DigitsAt(caseNumber, |caseNumber| - 4, 4) then
      var p := |caseNumber| - 4;
      assert OriginMatchAt(caseNumber, p);
      Success(caseNumber[p..p + 4])
    else
      Failure(UnitOriginNotRecognized)
  }

  /** The origin unit is present exactly when the last four characters are
      digits, and it is then the length-4 suffix of the case number (whatever
      digits precede it). */
  lemma OriginIsSuffix(s: string)
    ensures GetUnitOriginByCaseNumber(s).Success? <==> |s| >= 4 && DigitsAt(s, |s| - 4, 4)
    ensures GetUnitOriginByCaseNumber(s).Success? ==>
              var o := GetUnitOriginByCaseNumber(s).value;
              |o| == 4 && s == s[..|s| - 4] + o
  {
  }

  // ---------------------------------------------------------------------------
  // The standard layout NNNNNNN-DD.AAAA.J.TR.OOOO
  // ---------------------------------------------------------------------------

  /** Positions of the layout that hold a digit (all but the dash and the four dots). */
  predicate IsLayoutDigitPosition(q: int) {
    0 <= q < 25 && q != 7 && q != 10 && q != 15 && q != 17 && q != 20
  }

  /** A case number in the standard layout. */
  predicate WellFormed(s: string) {
    |s| == 25 &&
    DigitsAt(s, 0, 7) && s[7] == '-' && DigitsAt(s, 8, 2) && s[10] == '.' && DigitsAt(s, 11, 4) &&
    s[15] == '.' && DigitsAt(s, 16, 1) && s[17] == '.' && DigitsAt(s, 18, 2) && s[20] == '.' &&
    DigitsAt(s, 21, 4)
  }

  /** On a case number in the standard layout all three extractors succeed:
      the process is `NNNNNNN-DD.AAAA`, the origin unit `OOOO`, and the court the
      table entry of `TR`. */
  lemma {:induction false} WellFormedDecomposition(s: string)
    requires WellFormed(s)
    ensures GetProcessByCaseNumber(s) == Success(s[..15])
    ensures GetUnitOriginByCaseNumber(s) == Success(s[21..])
    ensures GetCourtByCaseNumber(s) == Success(LookupCourt(s[18..20]))
  {
    assert forall q :: IsLayoutDigitPosition(q) ==> IsDigit(s[q]);
    // Court: the only `.DD.` segment starts at the dot before TR.
    assert forall q :: 0 <= q < 17 ==> !CourtSegmentAt(s, q);
    assert LeftmostCourtSegment(s, 17);
    // Process: the match starts at 0 and `.*` backs off to the dot after AAAA.
    assert ProcessMatch(s, 0, 11);
    assert forall k :: 11 < k ==> !ProcessMatch(s, 0, k);
    ProcessSpanDetermined(s, 0, 11);
    // Origin unit.
    assert OriginMatchAt(s, 21);
    assert s[21..25] == s[21..];
  }

  // ---------------------------------------------------------------------------
  // Worked examples
  // ---------------------------------------------------------------------------

  lemma SampleTJAL(s: string)
    requires s == "1234567-89.0123.8.02.0001"
    ensures GetCourtByCaseNumber(s) == Success(Some("TJAL"))
    ensures GetProcessByCaseNumber(s) == Success("1234567-89.0123")
    ensures GetUnitOriginByCaseNumber(s) == Success("0001")
  {
    assert WellFormed(s);
    WellFormedDecomposition(s);
    assert s[18] == '0' && s[19] == '2';
    assert s[18..20] == "02";
    assert forall q :: 0 <= q < 15 ==> s[q] == "1234567-89.0123"[q];
    assert s[..15] == "1234567-89.0123";
    assert s[21] == '0' && s[22] == '0' && s[23] == '0' && s[24] == '1';
    assert s[21..] == "0001";
  }

  lemma SampleTJCE(s: string)
    requires s == "0000001-23.2020.8.06.0101"
    ensures GetCourtByCaseNumber(s) == Success(Some("TJCE"))
  {
    assert WellFormed(s);
    WellFormedDecomposition(s);
    assert s[18] == '0' && s[19] == '6';
    assert s[18..20] == "06";
  }

  /** A `.DD.` code outside the table is not an error: the court is absent. */
  lemma SampleUnknownCourt(s: string)
    requires s == "1234567-89.0123.8.99.0001"
    ensures GetCourtByCaseNumber(s) == Success(None)
  {
    assert WellFormed(s);
    WellFormedDecomposition(s);
    assert s[18] == '9' && s[19] == '9';
    assert s[18..20] == "99";
  }

  /** The origin unit is taken even when more digits precede it; a case number
      ending in three digits has none. */
  lemma SampleOrigin()
    ensures GetUnitOriginByCaseNumber("12345") == Success("2345")
    ensures GetUnitOriginByCaseNumber("1234567-89.0123.8.02.001").Failure?
  {
    var s := "12345";
    assert OriginMatchAt(s, 1);
    assert s[1..5] == "2345";
    var t := "1234567-89.0123.8.02.001";
    assert !IsDigit(t[20]);
  }

  /** Without a `.DD.` segment the court is not recognised. */
  lemma SampleCourtMissing()
    ensures GetCourtByCaseNumber("1234567-89") == Failure(CourtNotRecognized)
  {
  }
}
