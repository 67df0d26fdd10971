/**
 * The reports list page: fetching a user's reports, sorting them by date or
 * score, deleting one, and the score and outcome badges and count heading
 * of the list.
 */
module ReportsPage {
  import opened Wrappers
  import opened Text
  import opened Seqs

  /**
   * A report as the list uses it. `createdAt` (as a timestamp) and
   * `overallScore` are the date and score the corrected sort orders by;
   * the card's badge reads the `overall_score` field, here already passed
   * through `parseInt` (None for a missing or non-numeric value).
   */
  datatype Report = Report(id: string, reportId: string, title: string, createdAt: int, overallScore: int,
                           cardScore: Option<int>, validationOutcome: Option<string>)

  datatype SortKey = ByDate | ByScore

  datatype Toast = ToastSuccess(message: string) | ToastError(message: string)

  /** What the reports request gave: a response body, or a thrown error with its response body's error and its message. */
  datatype FetchResult =
    | Responded(reports: Option<seq<Report>>, total: int, error: Option<string>)
    | RequestFailed(responseError: Option<string>, message: Option<string>)

  /** The sort key of a report. */
  function KeyOf(key: SortKey): Report -> int
  {
    match key
    case ByDate => (r: Report) => r.createdAt
    case ByScore => (r: Report) => r.overallScore
  }

  /** `[...list].sort(...)`: newest first, or highest score first; the sort is stable. */
  function SortReports(list: seq<Report>, key: SortKey): (r: seq<Report>)
    ensures multiset(r) == multiset(list) && |r| == |list|
  {
    SortBy(list, KeyOf(key), Descending)
  }

  /** The sort orders by its key, non-increasing, and keeps equal keys in list order. */
  lemma SortReportsOrdered(list: seq<Report>, key: SortKey, v: int)
    ensures SortedBy(SortReports(list, key), KeyOf(key), Descending)
    ensures SameKey(SortReports(list, key), KeyOf(key), v) == SameKey(list, KeyOf(key), v)
  {
    SortBySorted(list, KeyOf(key), Descending);
    SortByStable(list, KeyOf(key), Descending, v);
  }

  /**
   * The sort as written reads `createdAt` and `overallScore`, while the
   * reports the list holds carry `created_at` and `overall_score` (the
   * fields the cards read). Both reads are undefined, every comparison is
   * `NaN`, and `Array.prototype.sort` takes a `NaN` comparison as "equal":
   * the key of every report is, in effect, the same.
   */
  function MissingKey(rep: Report): int
  {
    0
  }

  /** The sort as written, over reports whose camel-case fields are absent. */
  function SortReportsAsWritten(list: seq<Report>): (r: seq<Report>)
    ensures multiset(r) == multiset(list) && |r| == |list|
  {
    SortBy(list, MissingKey, Descending)
  }

  /** As written, neither sort button changes the order of the list. */
  lemma SortAsWrittenKeepsOrder(list: seq<Report>)
    ensures SortReportsAsWritten(list) == list
  {
    var sorted := SortBy(list, MissingKey, Descending);
    SortByStable(list, MissingKey, Descending, 0);
    SameKeyAll(sorted, MissingKey, 0);
    SameKeyAll(list, MissingKey, 0);
  }

  /** The sort button's toggle. */
  function Toggled(key: SortKey): (r: SortKey)
    ensures r != key
  {
    if key == ByDate then ByScore else ByDate
  }

  /** The list without any report of the given id. */
  function WithoutReport(list: seq<Report>, reportId: string): (r: seq<Report>)
    ensures forall i :: 0 <= i < |r| ==> r[i].reportId != reportId && r[i] in list
    ensures forall i :: 0 <= i < |list| && list[i].reportId != reportId ==> list[i] in r
  {
    Filter(list, (x: Report) => x.reportId != reportId)
  }

  /** Deleting twice is deleting once, and deleting from joined lists deletes from each. */
  lemma WithoutReportProperties(a: seq<Report>, b: seq<Report>, reportId: string)
    ensures WithoutReport(WithoutReport(a, reportId), reportId) == WithoutReport(a, reportId)
    ensures WithoutReport(a + b, reportId) == WithoutReport(a, reportId) + WithoutReport(b, reportId)
  {
    var p := (x: Report) => x.reportId != reportId;
    FilterKeepsAll(Filter(a, p), p);
    FilterAppend(a, b, p);
  }

  datatype BadgeColor = Gray | Green | Yellow | Red

  /** `getScoreColor` of the list: falsy scores (missing, NaN, 0) are gray, then 75 and 50 split green, yellow and red. */
  function ScoreBadge(score: Option<int>): (c: BadgeColor)
    ensures c == Gray <==> score.None? || score.value == 0
    ensures score.Some? && score.value != 0 ==>
              (c == Green <==> score.value >= 75) && (c == Yellow <==> 50 <= score.value < 75)
              && (c == Red <==> score.value < 50)
  {
    match score
    case None => Gray
    case Some(s) => if s == 0 then Gray else if s >= 75 then Green else if s >= 50 then Yellow else Red
  }

  function BadgeRank(c: BadgeColor): int
  {
    match c
    case Gray => -1
    case Red => 0
    case Yellow => 1
    case Green => 2
  }

  /** Among positive scores a higher score never gets a lower band; a zero score is gray and not red. */
  lemma ScoreBadgeMonotone(a: int, b: int)
    requires 0 < a <= b
    ensures BadgeRank(ScoreBadge(Some(a))) <= BadgeRank(ScoreBadge(Some(b)))
    ensures ScoreBadge(Some(0)) == Gray && ScoreBadge(Some(1)) == Red
  {
  }

  /** `getOutcomeBadge`: gray for a missing or empty outcome; then, lowercased, "high" (checked first) is green, "moderate" yellow, anything else red. */
  function OutcomeBadge(outcome: Option<string>): (c: BadgeColor)
    ensures c == Gray <==> !Truthy(outcome)
    ensures c == Green <==> Truthy(outcome) && Contains(ToLower(outcome.value), "high")
    ensures c == Yellow <==> Truthy(outcome) && !Contains(ToLower(outcome.value), "high")
                             && Contains(ToLower(outcome.value), "moderate")
    ensures c == Red <==> Truthy(outcome) && !Contains(ToLower(outcome.value), "high")
                          && !Contains(ToLower(outcome.value), "moderate")
  {
    if !Truthy(outcome) then Gray
    else
      var lower := ToLower(outcome.value);
      if Contains(lower, "high") then Green
      else if Contains(lower, "moderate") then Yellow
      else Red
  }

  /** The badge ignores letter case. */
  lemma OutcomeBadgeIgnoresCase(s: string)
    ensures OutcomeBadge(Some(ToLower(s))) == OutcomeBadge(Some(s))
  {
    ToLowerIdempotent(s);
  }

  /** "high" wins over "moderate": an outcome naming both is green. */
  lemma HighCheckedFirst()
    ensures OutcomeBadge(Some("Moderate to High")) == Green
  {
    var lower := ToLower("Moderate to High");
    assert lower == "moderate to high";
    assert OccursAt(lower, "high", 12);
  }

  /** The count heading: "Loading..." while loading, else the count with "Report" pluralised unless it is exactly 1. */
  function CountHeading(isLoading: bool, count: nat): (h: string)
    ensures isLoading ==> h == "Loading..."
    ensures !isLoading ==> StartsWith(h, NatToString(count))
    ensures !isLoading ==> (EndsWith(h, "Reports Found") <==> count != 1)
    ensures !isLoading ==> h == NatToString(count) + (if count == 1 then " Report Found" else " Reports Found")
  {
    if isLoading then "Loading..."
    else
      var h := NatToString(count) + " Report" + (if count != 1 then "s" else "") + " Found";
      assert h[..|NatToString(count)|] == NatToString(count);
      if count != 1 then
        assert h == (NatToString(count) + " ") + "Reports Found";
        EndsWithAppend(NatToString(count) + " ", "Reports Found");
        h
      else
        assert h == "1 Report Found";
        h
  }

  /** A blank id: nothing but whitespace. */
  predicate IsBlank(s: string)
  {
    AllWhitespace(s)
  }

  /** Blank is what the page tests with `!s.trim()`: the trimmed id is empty. */
  lemma IsBlankIffTrimEmpty(s: string)
    ensures IsBlank(s) <==> Trim(s) == []
  {
    TrimEmptyIffBlank(s);
  }

  /** The page state. */
  class ReportsView {
    var searchInput: string
    var userId: string
    var reports: seq<Report>
    var filteredReports: seq<Report>
    var isLoading: bool
    var hasSearched: bool
    var sortBy: SortKey

    constructor ()
      ensures searchInput == [] && userId == [] && reports == [] && filteredReports == []
      ensures !isLoading && !hasSearched && sortBy == ByDate
    {
      searchInput := [];
      userId := [];
      reports := [];
      filteredReports := [];
      isLoading := false;
      hasSearched := false;
      sortBy := ByDate;
    }

    /** Typing into the search box. */
    method EditSearch(text: string)
      modifies this
      ensures searchInput == text
      ensures userId == old(userId) && reports == old(reports) && filteredReports == old(filteredReports)
      ensures isLoading == old(isLoading) && hasSearched == old(hasSearched) && sortBy == old(sortBy)
    {
      searchInput := text;
    }

    /**
     * The first half of `fetchReports`: a blank id is refused with an error
     * toast and nothing else changes; otherwise loading starts.
     */
    method StartFetch(userIdToFetch: string) returns (toast: Option<Toast>, started: bool)
      modifies this
      ensures started <==> !IsBlank(userIdToFetch)
      ensures !started ==> toast == Some(ToastError("Please enter a User ID"))
      ensures started ==> toast == None && isLoading && hasSearched
      ensures !started ==> isLoading == old(isLoading) && hasSearched == old(hasSearched)
      ensures reports == old(reports) && filteredReports == old(filteredReports)
      ensures searchInput == old(searchInput) && userId == old(userId) && sortBy == old(sortBy)
    {
      started := !IsBlank(userIdToFetch);
      if started {
        toast := None;
        isLoading := true;
        hasSearched := true;
      } else {
        toast := Some(ToastError("Please enter a User ID"));
      }
    }

    /**
     * The second half: a body with `reports` fills both lists; any other
     * outcome empties both. Loading ends in every case.
     */
    method CompleteFetch(result: FetchResult) returns (toast: Toast)
      modifies this
      ensures result.Responded? && result.reports.Some? ==>
                reports == result.reports.value && filteredReports == result.reports.value
                && toast == ToastSuccess("Found " + IntToString(result.total) + " report(s)")
      ensures !(result.Responded? && result.reports.Some?) ==> reports == [] && filteredReports == [] && toast.ToastError?
      ensures result.Responded? && result.reports.None? ==> toast == ToastError(OrElse(result.error, "No reports found"))
      ensures result.RequestFailed? ==>
                toast == ToastError(OrElse(result.responseError, OrElse(result.message, "Failed to fetch reports")))
      ensures !isLoading
      ensures searchInput == old(searchInput) && userId == old(userId) && sortBy == old(sortBy)
      ensures hasSearched == old(hasSearched)
    {
      if result.Responded? && result.reports.Some? {
        reports := result.reports.value;
        filteredReports := result.reports.value;
        toast := ToastSuccess("Found " + IntToString(result.total) + " report(s)");
      } else if result.Responded? {
        reports := [];
        filteredReports := [];
        toast := ToastError(OrElse(result.error, "No reports found"));
      } else {
        reports := [];
        filteredReports := [];
        toast := ToastError(OrElse(result.responseError, OrElse(result.message, "Failed to fetch reports")));
      }
      isLoading := false;
    }

    /** `handleSearch`: the typed id becomes the shown user id and is fetched. */
    method Search() returns (toast: Option<Toast>, started: bool)
      modifies this
      ensures userId == old(searchInput) && searchInput == old(searchInput)
      ensures started <==> !IsBlank(old(searchInput))
      ensures !started ==> toast == Some(ToastError("Please enter a User ID"))
      ensures started ==> isLoading && hasSearched
      ensures !started ==> isLoading == old(isLoading) && hasSearched == old(hasSearched)
      ensures reports == old(reports) && filteredReports == old(filteredReports) && sortBy == old(sortBy)
    {
      userId := searchInput;
      toast, started := StartFetch(searchInput);
    }

    /** `handleSort`: records the key and sorts a copy of the shown list; the full list is untouched. */
    method HandleSort(key: SortKey)
      modifies this
      ensures sortBy == key
      ensures filteredReports == SortReports(old(filteredReports), key)
      ensures reports == old(reports) && isLoading == old(isLoading) && hasSearched == old(hasSearched)
      ensures searchInput == old(searchInput) && userId == old(userId)
    {
      sortBy := key;
      filteredReports := SortReports(filteredReports, key);
    }

    /** The sort button: switches between date and score and sorts by the new key. */
    method SortButtonClick()
      modifies this
      ensures sortBy == Toggled(old(sortBy))
      ensures filteredReports == SortReports(old(filteredReports), Toggled(old(sortBy)))
      ensures reports == old(reports) && isLoading == old(isLoading) && hasSearched == old(hasSearched)
      ensures searchInput == old(searchInput) && userId == old(userId)
    {
      HandleSort(Toggled(sortBy));
    }

    /**
     * `handleDeleteReport`: after confirmation and a successful request the
     * report leaves both lists; a refusal or a failed request changes nothing.
     */
    method DeleteReport(reportId: string, confirmed: bool, requestSucceeded: bool) returns (toast: Option<Toast>)
      modifies this
      ensures confirmed && requestSucceeded ==>
                reports == WithoutReport(old(reports), reportId)
                && filteredReports == WithoutReport(old(filteredReports), reportId)
                && toast == Some(ToastSuccess("Report deleted successfully"))
      ensures !(confirmed && requestSucceeded) ==> reports == old(reports) && filteredReports == old(filteredReports)
      ensures !confirmed ==> toast == None
      ensures confirmed && !requestSucceeded ==> toast == Some(ToastError("Failed to delete report"))
      ensures isLoading == old(isLoading) && hasSearched == old(hasSearched) && sortBy == old(sortBy)
      ensures searchInput == old(searchInput) && userId == old(userId)
    {
      if !confirmed {
        return None;
      }
      if requestSucceeded {
        reports := WithoutReport(reports, reportId);
        filteredReports := WithoutReport(filteredReports, reportId);
        toast := Some(ToastSuccess("Report deleted successfully"));
      } else {
        toast := Some(ToastError("Failed to delete report"));
      }
    }
  }
}
