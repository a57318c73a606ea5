/** The court-case service: the status view over stored and requested case
    numbers, the crawl request bodies built from case numbers, and the two
    write paths that hand batches of records to the repository. */
module CourtCases {
  import opened Wrappers
  import opened CaseNumber

  const Pending: string := "pending"
  const Scheduling: string := "scheduling"

  /** A stored court-case record. */
  datatype CourtCase = CourtCase(
    caseNumber: string,
    processNumber: string,
    originNumber: string,
    court: string,
    crawlStatus: string)

  /** One entry of the status view. */
  datatype CaseStatus = CaseStatus(caseNumber: string, crawlStatus: string)

  /** One crawl request body; `court` is absent when the court code is not in the table. */
  datatype CrawlRequest = CrawlRequest(
    caseNumber: string,
    processNumber: string,
    originNumber: string,
    court: Option<string>)

  // ---------------------------------------------------------------------------
  // getCourtCasesStatus
  // ---------------------------------------------------------------------------

  /** Some stored record carries this case number. */
  predicate IsStored(caseNumber: string, courtCases: seq<CourtCase>) {
    exists c :: c in courtCases && c.caseNumber == caseNumber
  }

  /** `courtCases.find(c => c.caseNumber === caseNumber)`: the first record with
      that case number, or nothing. */
  function Find(courtCases: seq<CourtCase>, caseNumber: string): (r: Option<CourtCase>)
    ensures r.None? <==> !IsStored(caseNumber, courtCases)
    ensures r.Some? ==> exists k :: 0 <= k < |courtCases| && courtCases[k] == r.value &&
                          r.value.caseNumber == caseNumber &&
                          forall j :: 0 <= j < k ==> courtCases[j].caseNumber != caseNumber
  {
    if courtCases == [] then None
    else if courtCases[0].caseNumber == caseNumber then Some(courtCases[0])
    else
      assert forall c :: c in courtCases ==> c == courtCases[0] || c in courtCases[1..];
      assert Find(courtCases[1..], caseNumber).Some? ==>
               exists k :: 0 <= k < |courtCases| && courtCases[k] == Find(courtCases[1..], caseNumber).value &&
                 forall j :: 0 <= j < k ==> courtCases[j].caseNumber != caseNumber by {
        var r := Find(courtCases[1..], caseNumber);
        if r.Some? {
          var k :| 0 <= k < |courtCases[1..]| && courtCases[1..][k] == r.value &&
                   forall j :: 0 <= j < k ==> courtCases[1..][j].caseNumber != caseNumber;
          assert courtCases[k + 1] == r.value;
        }
      }
      Find(courtCases[1..], caseNumber)
  }

  /** The requested case numbers that have no stored record, in request order and
      with their repetitions: a number requested twice and not stored occurs
      twice, a stored number not at all. */
  function NotInDatabase(caseNumbers: seq<string>, courtCases: seq<CourtCase>): (r: seq<string>)
    ensures forall n :: multiset(r)[n] == if IsStored(n, courtCases) then 0 else multiset(caseNumbers)[n]
  {
    if caseNumbers == [] then []
    else
      var rest := NotInDatabase(caseNumbers[1..], courtCases);
      assert caseNumbers == [caseNumbers[0]] + caseNumbers[1..];
      if Find(courtCases, caseNumbers[0]).None? then [caseNumbers[0]] + rest else rest
  }

  /** The projection of the stored records, `{caseNumber, crawlStatus}` each. */
  function Projected(courtCases: seq<CourtCase>): (r: seq<CaseStatus>)
    ensures |r| == |courtCases|
    ensures forall k :: 0 <= k < |r| ==>
              r[k].caseNumber == courtCases[k].caseNumber && r[k].crawlStatus == courtCases[k].crawlStatus
  {
    seq(|courtCases|, k requires 0 <= k < |courtCases| =>
      CaseStatus(courtCases[k].caseNumber, courtCases[k].crawlStatus))
  }

  /** One `"scheduling"` entry per case number, in order. */
  function Scheduled(caseNumbers: seq<string>): (r: seq<CaseStatus>)
    ensures |r| == |caseNumbers|
    ensures forall k :: 0 <= k < |r| ==> r[k].caseNumber == caseNumbers[k] && r[k].crawlStatus == Scheduling
  {
    seq(|caseNumbers|, k requires 0 <= k < |caseNumbers| => CaseStatus(caseNumbers[k], Scheduling))
  }

  /** The status view: stored records first, then the requested numbers that are not stored. */
  function CourtCasesStatus(caseNumbers: seq<string>, courtCases: seq<CourtCase>): (r: seq<CaseStatus>)
    ensures |r| == |courtCases| + |NotInDatabase(caseNumbers, courtCases)|
    ensures forall k :: 0 <= k < |courtCases| ==>
              r[k] == CaseStatus(courtCases[k].caseNumber, courtCases[k].crawlStatus)
    ensures forall k :: |courtCases| <= k < |r| ==> r[k].crawlStatus == Scheduling
  {
    Projected(courtCases) + Scheduled(NotInDatabase(caseNumbers, courtCases))
  }

  /** getCourtCasesStatus: projects the stored records, then pushes one
      `"scheduling"` entry per requested number that has no stored record. */
  method GetCourtCasesStatus(caseNumbers: seq<string>, courtCases: seq<CourtCase>)
    returns (status: seq<CaseStatus>)
    ensures status == CourtCasesStatus(caseNumbers, courtCases)
  {
    status := Projected(courtCases);
    var notInDatabase := NotInDatabase(caseNumbers, courtCases);
    for i := 0 to |notInDatabase|
      invariant status == Projected(courtCases) + Scheduled(notInDatabase[..i])
    {
      status := status + [CaseStatus(notInDatabase[i], Scheduling)];
    }
    assert notInDatabase[..|notInDatabase|] == notInDatabase;
  }

  /** Filtering the request keeps its order: it distributes over concatenation. */
  lemma {:induction false} NotInDatabaseAppend(a: seq<string>, b: seq<string>, courtCases: seq<CourtCase>)
    ensures NotInDatabase(a + b, courtCases) == NotInDatabase(a, courtCases) + NotInDatabase(b, courtCases)
  {
    if a != [] {
      assert (a + b)[1..] == a[1..] + b;
      NotInDatabaseAppend(a[1..], b, courtCases);
    } else {
      assert a + b == b;
    }
  }

  /** The positions of the request whose number has no stored record. */
  function UnmatchedPositions(caseNumbers: seq<string>, courtCases: seq<CourtCase>): set<int> {
    set k | 0 <= k < |caseNumbers| && !IsStored(caseNumbers[k], courtCases)
  }

  /** Appending one number to the request adds its position to the unmatched
      positions exactly when it is not stored. */
  lemma UnmatchedPositionsSnoc(init: seq<string>, n: string, courtCases: seq<CourtCase>)
    ensures UnmatchedPositions(init + [n], courtCases) ==
            UnmatchedPositions(init, courtCases) + if IsStored(n, courtCases) then {} else {|init|}
  {
  }

  /** The filtered request has one entry per unmatched position. */
  lemma {:induction false} NotInDatabaseLength(caseNumbers: seq<string>, courtCases: seq<CourtCase>)
    ensures |NotInDatabase(caseNumbers, courtCases)| == |UnmatchedPositions(caseNumbers, courtCases)|
    decreases |caseNumbers|
  {
    if caseNumbers != [] {
      var n := |caseNumbers| - 1;
      var init, last := caseNumbers[..n], caseNumbers[n];
      assert caseNumbers == init + [last];
      NotInDatabaseAppend(init, [last], courtCases);
      NotInDatabaseLength(init, courtCases);
      UnmatchedPositionsSnoc(init, last, courtCases);
      assert |UnmatchedPositions(init, courtCases)| == |NotInDatabase(init, courtCases)|;
      assert n !in UnmatchedPositions(init, courtCases);
      assert [last][1..] == [];
      assert |NotInDatabase([last], courtCases)| == if IsStored(last, courtCases) then 0 else 1;
    }
  }

  /** Ordering: the first `|courtCases|` entries are the stored records projected
      in input order, every later entry is `"scheduling"` for a number with no
      stored record; the two groups never interleave. */
  lemma StatusOrdering(caseNumbers: seq<string>, courtCases: seq<CourtCase>)
    ensures var status := CourtCasesStatus(caseNumbers, courtCases);
            |courtCases| <= |status| &&
            (forall k :: 0 <= k < |courtCases| ==>
               status[k] == CaseStatus(courtCases[k].caseNumber, courtCases[k].crawlStatus)) &&
            (forall k :: |courtCases| <= k < |status| ==>
               status[k].crawlStatus == Scheduling && !IsStored(status[k].caseNumber, courtCases))
  {
  }

  /** Counts: the view has one entry per stored record plus one per request
      position whose number is not stored. */
  lemma StatusCount(caseNumbers: seq<string>, courtCases: seq<CourtCase>)
    ensures |CourtCasesStatus(caseNumbers, courtCases)| ==
            |courtCases| + |UnmatchedPositions(caseNumbers, courtCases)|
  {
    NotInDatabaseLength(caseNumbers, courtCases);
  }

  /** The case numbers of the `"scheduling"` part of the view. */
  function ScheduledNumbers(caseNumbers: seq<string>, courtCases: seq<CourtCase>): seq<string> {
    var status := CourtCasesStatus(caseNumbers, courtCases);
    seq(|status| - |courtCases|, k requires 0 <= k < |status| - |courtCases| =>
      status[|courtCases| + k].caseNumber)
  }

  /** Matching is by existence: a number with a stored record gets no
      `"scheduling"` entry, any other number gets as many as it is requested. */
  lemma StatusMultiplicity(caseNumbers: seq<string>, courtCases: seq<CourtCase>, n: string)
    ensures multiset(ScheduledNumbers(caseNumbers, courtCases))[n] ==
            if IsStored(n, courtCases) then 0 else multiset(caseNumbers)[n]
  {
    assert ScheduledNumbers(caseNumbers, courtCases) == NotInDatabase(caseNumbers, courtCases);
  }

  /** Every requested number appears somewhere in the view. */
  lemma StatusCoversRequest(caseNumbers: seq<string>, courtCases: seq<CourtCase>)
    ensures var status := CourtCasesStatus(caseNumbers, courtCases);
            forall n :: n in caseNumbers ==> exists k :: 0 <= k < |status| && status[k].caseNumber == n
  {
    var status := CourtCasesStatus(caseNumbers, courtCases);
    var rest := NotInDatabase(caseNumbers, courtCases);
    forall n | n in caseNumbers
      ensures exists k :: 0 <= k < |status| && status[k].caseNumber == n
    {
      if IsStored(n, courtCases) {
        var c :| c in courtCases && c.caseNumber == n;
        var k :| 0 <= k < |courtCases| && courtCases[k] == c;
        assert status[k].caseNumber == n;
      } else {
        assert multiset(rest)[n] == multiset(caseNumbers)[n] > 0;
        var k :| 0 <= k < |rest| && rest[k] == n;
        assert status[|courtCases| + k].caseNumber == n;
      }
    }
  }

  /** The view for request ["A", "B"] with a stored record for "A" only. */
  lemma SampleStatus(caseNumbers: seq<string>, courtCases: seq<CourtCase>, a: CourtCase)
    requires caseNumbers == ["A", "B"] && courtCases == [a]
    requires a.caseNumber == "A" && a.crawlStatus == "completed"
    ensures CourtCasesStatus(caseNumbers, courtCases) ==
            [CaseStatus("A", "completed"), CaseStatus("B", Scheduling)]
  {
    assert IsStored("A", courtCases);
    assert !IsStored("B", courtCases);
    assert caseNumbers[1..] == ["B"];
    assert caseNumbers[1..][1..] == [];
    assert NotInDatabase(caseNumbers[1..], courtCases) == ["B"];
    assert NotInDatabase(caseNumbers, courtCases) == ["B"];
  }

  // ---------------------------------------------------------------------------
  // buildCourtCaseReqBody
  // ---------------------------------------------------------------------------

  /** The request body of one case number: process, then origin unit, then court
      are extracted, and the first extractor that throws decides the error. */
  function BuildRequest(caseNumber: string): (r: Result<CrawlRequest, Error>)
    ensures r.Success? <==> GetProcessByCaseNumber(caseNumber).Success? &&
                            GetUnitOriginByCaseNumber(caseNumber).Success? &&
                            GetCourtByCaseNumber(caseNumber).Success?
    ensures r.Success? ==>
              r.value.caseNumber == caseNumber &&
              GetProcessByCaseNumber(caseNumber) == Success(r.value.processNumber) &&
              GetUnitOriginByCaseNumber(caseNumber) == Success(r.value.originNumber) &&
              GetCourtByCaseNumber(caseNumber) == Success(r.value.court)
    ensures r.Failure? ==>
              r.error == if GetProcessByCaseNumber(caseNumber).Failure? then ProcessNotRecognized
                         else if GetUnitOriginByCaseNumber(caseNumber).Failure? then UnitOriginNotRecognized
                         else CourtNotRecognized
  {
    var processNumber :- GetProcessByCaseNumber(caseNumber);
    var originNumber :- GetUnitOriginByCaseNumber(caseNumber);
    var court :- GetCourtByCaseNumber(caseNumber);
    Success(CrawlRequest(caseNumber, processNumber, originNumber, court))
  }

  /** `k` is the first position whose request body cannot be built. */
  predicate FirstFailure(caseNumbers: seq<string>, k: int) {
    0 <= k < |caseNumbers| && BuildRequest(caseNumbers[k]).Failure? &&
    forall j :: 0 <= j < k ==> BuildRequest(caseNumbers[j]).Success?
  }

  /** buildCourtCaseReqBody: one body per case number, in order, or the error of
      the first case number that fails; there are no partial results. */
  function BuildCourtCaseReqBody(caseNumbers: seq<string>): (r: Result<seq<CrawlRequest>, Error>)
    ensures r.Success? <==> forall k :: 0 <= k < |caseNumbers| ==> BuildRequest(caseNumbers[k]).Success?
    ensures r.Success? ==> |r.value| == |caseNumbers|
    ensures r.Success? ==> forall k :: 0 <= k < |caseNumbers| ==> BuildRequest(caseNumbers[k]) == Success(r.value[k])
    ensures r.Failure? ==> exists k :: FirstFailure(caseNumbers, k) &&
                                       BuildRequest(caseNumbers[k]) == Failure(r.error)
  {
    if caseNumbers == [] then Success([])
    else
      var head :- BuildRequest(caseNumbers[0]);
      var r := BuildCourtCaseReqBody(caseNumbers[1..]);
      if r.Failure? then
        assert exists k :: FirstFailure(caseNumbers, k) && BuildRequest(caseNumbers[k]) == Failure(r.error) by {
          var k :| FirstFailure(caseNumbers[1..], k) && BuildRequest(caseNumbers[1..][k]) == Failure(r.error);
          assert FirstFailure(caseNumbers, k + 1);
        }
        Failure(r.error)
      else
        Success([head] + r.value)
  }

  /** Entry `k` of a built batch carries `caseNumbers[k]` and exactly the three
      extracted identifiers of that number. */
  lemma RequestBodyFields(caseNumbers: seq<string>, k: int)
    requires BuildCourtCaseReqBody(caseNumbers).Success? && 0 <= k < |caseNumbers|
    ensures var body := BuildCourtCaseReqBody(caseNumbers).value;
            |body| == |caseNumbers| &&
            body[k].caseNumber == caseNumbers[k] &&
            GetProcessByCaseNumber(caseNumbers[k]) == Success(body[k].processNumber) &&
            GetUnitOriginByCaseNumber(caseNumbers[k]) == Success(body[k].originNumber) &&
            GetCourtByCaseNumber(caseNumbers[k]) == Success(body[k].court)
  {
  }

  /** The request body read off the standard layout by position. */
  function LayoutRequest(s: string): CrawlRequest
    requires WellFormed(s)
  {
    CrawlRequest(s, s[..15], s[21..], LookupCourt(s[18..20]))
  }

  /** A case number in the standard layout yields the body read off by position. */
  lemma WellFormedRequest(s: string)
    requires WellFormed(s)
    ensures BuildRequest(s) == Success(LayoutRequest(s))
  {
    WellFormedDecomposition(s);
  }

  /** A batch whose every entry builds is built entry by entry. */
  lemma {:induction false} BodyFromRequests(caseNumbers: seq<string>, requests: seq<CrawlRequest>)
    requires |requests| == |caseNumbers|
    requires forall k :: 0 <= k < |caseNumbers| ==> BuildRequest(caseNumbers[k]) == Success(requests[k])
    ensures BuildCourtCaseReqBody(caseNumbers) == Success(requests)
  {
    var r := BuildCourtCaseReqBody(caseNumbers);
    assert r.Success?;
    forall k | 0 <= k < |caseNumbers| ensures r.value[k] == requests[k] {
      assert BuildRequest(caseNumbers[k]) == Success(r.value[k]);
    }
    assert r.value == requests;
  }

  /** A batch of case numbers in the standard layout always builds, and each body
      holds the layout's process, origin-unit and court parts. */
  lemma WellFormedRequestBody(caseNumbers: seq<string>, requests: seq<CrawlRequest>)
    requires forall k :: 0 <= k < |caseNumbers| ==> WellFormed(caseNumbers[k])
    requires |requests| == |caseNumbers|
    requires forall k :: 0 <= k < |caseNumbers| ==> requests[k] == LayoutRequest(caseNumbers[k])
    ensures BuildCourtCaseReqBody(caseNumbers) == Success(requests)
  {
    forall k | 0 <= k < |caseNumbers|
      ensures BuildRequest(caseNumbers[k]) == Success(requests[k])
    {
      WellFormedRequest(caseNumbers[k]);
    }
    BodyFromRequests(caseNumbers, requests);
  }

  /** One malformed case number fails the whole batch. */
  lemma MalformedFailsBatch(caseNumbers: seq<string>, k: int)
    requires 0 <= k < |caseNumbers|
    requires GetUnitOriginByCaseNumber(caseNumbers[k]).Failure?
    ensures BuildCourtCaseReqBody(caseNumbers).Failure?
  {
  }

  // ---------------------------------------------------------------------------
  // upsertMany and scheduleCourtCases
  // ---------------------------------------------------------------------------

  /** Each record with its crawl status overwritten to `"pending"`. */
  function MarkPending(courtCases: seq<CourtCase>): (r: seq<CourtCase>)
    ensures |r| == |courtCases|
    ensures forall k :: 0 <= k < |r| ==>
              r[k].crawlStatus == Pending &&
              r[k].caseNumber == courtCases[k].caseNumber &&
              r[k].processNumber == courtCases[k].processNumber &&
              r[k].originNumber == courtCases[k].originNumber &&
              r[k].court == courtCases[k].court
  {
    seq(|courtCases|, k requires 0 <= k < |courtCases| => courtCases[k].(crawlStatus := Pending))
  }

  /** The persistence collaborator. Its own semantics (keying, replacement) are
      not part of this model: it only records each batch handed to `upsertMany`. */
  class CourtCaseRepository {
    ghost var upserts: seq<seq<CourtCase>>

    constructor ()
      ensures upserts == []
    {
      upserts := [];
    }

    method UpsertMany(courtCases: seq<CourtCase>)
      modifies this
      ensures upserts == old(upserts) + [courtCases]
    {
      upserts := upserts + [courtCases];
    }
  }

  class CourtCaseService {
    const courtCaseRepository: CourtCaseRepository

    constructor (courtCaseRepository: CourtCaseRepository)
      ensures this.courtCaseRepository == courtCaseRepository
    {
      this.courtCaseRepository := courtCaseRepository;
    }

    /** upsertMany: an empty batch makes no repository call; any other batch is
        handed over unchanged in exactly one call. */
    method UpsertMany(courtCases: seq<CourtCase>)
      modifies courtCaseRepository
      ensures courtCaseRepository.upserts ==
              if courtCases == [] then old(courtCaseRepository.upserts)
              else old(courtCaseRepository.upserts) + [courtCases]
    {
      if |courtCases| == 0 {
        return;
      }
      courtCaseRepository.UpsertMany(courtCases);
    }

    /** scheduleCourtCases: an empty batch makes no repository call; any other
        batch is handed over in exactly one call with every crawl status set to
        `"pending"` and every other field copied. */
    method ScheduleCourtCases(courtCases: seq<CourtCase>)
      modifies courtCaseRepository
      ensures courtCaseRepository.upserts ==
              if courtCases == [] then old(courtCaseRepository.upserts)
              else old(courtCaseRepository.upserts) + [MarkPending(courtCases)]
    {
      if |courtCases| == 0 {
        return;
      }
      var pendingCourtCases := MarkPending(courtCases);
      courtCaseRepository.UpsertMany(pendingCourtCases);
    }
  }
}
