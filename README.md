# Court-case service, modelled in Dafny

This project models `CourtCaseService`, the core of a small service that tracks
the crawl status of court cases. It forwards crawl requests to an external
crawler. The model covers:

- **Case-number decomposition.** A case number of the form
  `NNNNNNN-DD.AAAA.J.TR.OOOO` yields a court, a process segment and an origin
  unit through three regular expressions:
  - `/\.(\d{2})\./`, followed by a lookup in the closed table `"02"` → `TJAL`, `"06"` → `TJCE`;
  - `/(\d{7}.*\d{4})\./`;
  - `/(\d{4})$/`.

  Each pattern is written as a predicate over string positions: what a match
  is, leftmost start, greedy `.*`, the `$` anchor. Each extractor is a search
  function whose contract ties its result to that predicate.
- **Request bodies.** `buildCourtCaseReqBody` maps the three extractors over a
  batch. The first extractor error fails the whole batch.
- **Status reconciliation.** `getCourtCasesStatus` first takes the stored
  records, projected to `{caseNumber, crawlStatus}`. It then pushes one
  `"scheduling"` entry for each requested number that no stored record carries.
- **Write paths.** `upsertMany` and `scheduleCourtCases` act on a repository
  collaborator. The repository is modelled as a class with a ghost log of the
  batches it receives.

Files:

- `wrappers.dfy`: `Option`, which stands for a possibly `undefined` value, and
  `Result`, which stands for a value or a thrown error.
- `case_number.dfy`: module `CaseNumber`, with the three extractors, the court
  table and the standard layout.
- `court_cases.dfy`: module `CourtCases`, with the records, the status view, the
  request bodies, the repository and the service class.

The model follows the code as written in three places that are easy to
misread:

- A `.DD.` code outside the table gives an absent court (`undefined`), not an
  error. `GetCourtByCaseNumber` returns `Success(None)`, and
  `CrawlRequest.court` is an `Option`.
- A requested number that is not stored and is listed twice gets two
  `"scheduling"` entries.
- The origin unit is the last four characters whenever they are digits, even
  when more digits precede them.

JavaScript's `.` is modelled exactly: it matches any character except `\n`,
`\r`, U+2028 and U+2029. `\d` is ASCII `0`-`9`.

## Model

| member | source | states |
|---|---|---|
| CaseNumber.LookupCourt | src/courtCase/service.ts:14-17 | the table holds exactly two codes: `"02"` gives `TJAL`, `"06"` gives `TJCE`, and every other code gives an absent value |
| CaseNumber.FindCourtSegment | src/courtCase/service.ts:67 | the search returns the first position at or after `from` where `\.\d{2}\.` matches, or nothing when no position there matches |
| CaseNumber.GetCourtByCaseNumber | src/courtCase/service.ts:66-73 | fails with CourtNotRecognized exactly when no `.DD.` segment exists; otherwise it yields the table lookup of the leftmost segment's code, which may be absent |
| CaseNumber.RunEnd | src/courtCase/service.ts:79 | `.*` from `j` runs to the first line terminator or to the end, and consumes no line terminator |
| CaseNumber.BacktrackTail | src/courtCase/service.ts:79 | backtracking finds the largest position `<= k` and `>= lo` where `\d{4}\.` matches, or proves there is none |
| CaseNumber.MatchProcessAt | src/courtCase/service.ts:79 | from a start `i` the result is the greedy end: the largest end of any match from `i`; no result means no match starts at `i` |
| CaseNumber.FindProcess | src/courtCase/service.ts:79 | returns the leftmost start with a match, together with its greedy end; no match starts before it |
| CaseNumber.GetProcessByCaseNumber | src/courtCase/service.ts:78-85 | fails with ProcessNotRecognized exactly when the pattern matches nowhere; otherwise it yields `s[i..k+4]` for the leftmost start `i` and its greedy end `k` |
| CaseNumber.ProcessSpanDetermined | src/courtCase/service.ts:79-81 | the leftmost start and greedy end are unique, so any pair that satisfies both predicates determines the result |
| CaseNumber.ProcessShape | src/courtCase/service.ts:79-81 | a process span starts with 7 digits, ends with 4 digits, has length at least 11, and occurs in the case number immediately followed by `.` |
| CaseNumber.GetUnitOriginByCaseNumber | src/courtCase/service.ts:87-94 | fails with UnitOriginNotRecognized exactly when `\d{4}$` matches nowhere; otherwise it yields the four matched digits |
| CaseNumber.OriginIsSuffix | src/courtCase/service.ts:88-90 | succeeds exactly when the length is at least 4 and the last four characters are digits; the result is then the length-4 suffix |
| CaseNumber.WellFormedDecomposition | src/courtCase/service.ts:75-94 | on the layout `NNNNNNN-DD.AAAA.J.TR.OOOO` all three extractors succeed: process `NNNNNNN-DD.AAAA`, origin `OOOO`, court the table entry of `TR` |
| CaseNumber.SampleTJAL | src/courtCase/service.ts:66-94 | `1234567-89.0123.8.02.0001` gives court `TJAL`, process `1234567-89.0123` and origin `0001` |
| CaseNumber.SampleTJCE | src/courtCase/service.ts:14-17 | code `06` gives court `TJCE` |
| CaseNumber.SampleUnknownCourt | src/courtCase/service.ts:69 | code `99` gives an absent court, not an error |
| CaseNumber.SampleOrigin | src/courtCase/service.ts:88-93 | `12345` gives origin `2345`; a number ending in three digits fails |
| CaseNumber.SampleCourtMissing | src/courtCase/service.ts:67-72 | a number without a `.DD.` segment fails with CourtNotRecognized |
| CourtCases.Find | src/courtCase/service.ts:51 | `find` returns nothing exactly when no record carries the number; otherwise it returns the first record that does |
| CourtCases.NotInDatabase | src/courtCase/service.ts:51 | each number occurs in the filtered request as often as it is requested if it is not stored, and not at all if it is stored |
| CourtCases.NotInDatabaseAppend | src/courtCase/service.ts:51 | the filter distributes over concatenation, so request order is kept |
| CourtCases.NotInDatabaseLength | src/courtCase/service.ts:51 | the filtered request has one entry per request position whose number is not stored |
| CourtCases.Projected | src/courtCase/service.ts:49 | one entry per stored record, in order, with the same caseNumber and crawlStatus |
| CourtCases.Scheduled | src/courtCase/service.ts:52 | one `"scheduling"` entry per number, in order |
| CourtCases.CourtCasesStatus | src/courtCase/service.ts:48-54 | the status view: the stored records projected to `{caseNumber, crawlStatus}` in input order, then one `"scheduling"` entry per requested number without a stored record; its length is the record count plus the count of unmatched numbers |
| CourtCases.GetCourtCasesStatus | src/courtCase/service.ts:48-55 | the push loop yields the projected records followed by one `"scheduling"` entry per unmatched requested number |
| CourtCases.StatusOrdering | src/courtCase/service.ts:48-54 | the first entries, one per stored record, are the projected records in input order; every later entry is `"scheduling"` for a number with no stored record; the two groups never interleave |
| CourtCases.StatusCount | src/courtCase/service.ts:49-52 | the output length is the number of stored records plus the number of request positions whose value no stored record carries |
| CourtCases.StatusMultiplicity | src/courtCase/service.ts:51-52 | among the `"scheduling"` entries, a stored number occurs 0 times and any other number as often as it is requested |
| CourtCases.StatusCoversRequest | src/courtCase/service.ts:48-54 | every requested number appears somewhere in the output |
| CourtCases.SampleStatus | src/courtCase/service.ts:48-54 | request `["A","B"]` with `A` stored as `completed` gives `[A completed, B scheduling]` |
| CourtCases.BuildRequest | src/courtCase/service.ts:58-63 | one body succeeds exactly when all three extractors succeed, and then carries the number and the three extracted values; otherwise the error comes from the first extractor that fails, in the order process, origin, court |
| CourtCases.BuildCourtCaseReqBody | src/courtCase/service.ts:57-64 | succeeds exactly when every element builds, and then gives one body per element in order; otherwise it fails with the error of the first failing element |
| CourtCases.RequestBodyFields | src/courtCase/service.ts:58-63 | entry `k` of a built batch has caseNumber `caseNumbers[k]`, and its other three fields are the extractor results for that number |
| CourtCases.WellFormedRequest | src/courtCase/service.ts:58-63 | a number in the standard layout yields the body read off the layout by position |
| CourtCases.BodyFromRequests | src/courtCase/service.ts:58 | when every element builds, the batch is exactly the list of the element bodies |
| CourtCases.WellFormedRequestBody | src/courtCase/service.ts:57-64 | a batch of numbers in the standard layout always builds, into the bodies read off by position |
| CourtCases.MalformedFailsBatch | src/courtCase/service.ts:57-64 | one element without an origin unit fails the whole batch |
| CourtCases.MarkPending | src/courtCase/service.ts:30 | same length and order; every crawlStatus is `"pending"`; every other field is copied unchanged |
| CourtCases.CourtCaseRepository.UpsertMany | src/courtCase/service.ts:25 | the collaborator call appends exactly the batch it receives to the log of upserts |
| CourtCases.CourtCaseService.constructor | src/courtCase/service.ts:19-21 | the service holds the injected repository |
| CourtCases.CourtCaseService.UpsertMany | src/courtCase/service.ts:23-26 | an empty batch makes no repository call; any other batch makes exactly one call, with the batch unchanged |
| CourtCases.CourtCaseService.ScheduleCourtCases | src/courtCase/service.ts:28-32 | an empty batch makes no repository call; any other batch makes exactly one call, with every record marked pending; the input sequence is a value and is not changed |

## Left out

- `addCourtCasesToCrawlQueue` (src/courtCase/service.ts:38-46) is left out. It is an HTTP POST with a JSON body and no handling of the response.
- The crawler URL built from an environment variable (src/courtCase/service.ts:11) is left out. It is process configuration.
- `getCourtCasesByCaseNumbers` (src/courtCase/service.ts:34-36) is left out. It hands its arguments to the repository unchanged.
- The repository's own behaviour is not modelled: its keying, replacement and failure semantics. src/courtCase/repository.ts is not part of this model. The repository is only a log of the batches handed to `upsertMany`.
- src/courtCase/model.ts is not part of this model. `CourtCase` has `caseNumber` and `crawlStatus`, the only fields of a stored record the service reads or writes (src/courtCase/service.ts:30, 49, 51). Its `processNumber`, `originNumber` and `court` fields stand for the rest of the record, which the service never touches. The record spread `{...courtCase, crawlStatus: "pending"}` is the Dafny update `.(crawlStatus := Pending)`, which copies those three fields unchanged. Any other fields of the real record are not represented.
- src/db.ts is left out: database connection set-up, the global handle, logging and `process.exit`.
- `async`/`Promise` behaviour is left out. Each operation is one sequential call, and a repository failure is not modelled.
- Strings are sequences of Unicode scalar values, while JavaScript strings are UTF-16 code units. Positions can differ on astral characters. What each pattern matches does not differ, because every pattern character is ASCII.
- `getCourtByCaseNumber`, `getProcessByCaseNumber`, `getUnitOriginByCaseNumber` and `buildCourtCaseReqBody` are module-level functions, not class members. `getCourtCasesStatus` is a module-level method. `getCourtByCaseNumber` reads the instance field `courtMap` (src/courtCase/service.ts:14-17, 69), but no method ever changes it, so none of them reads state the service changes. The court table is therefore a module constant.
