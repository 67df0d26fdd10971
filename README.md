# Pragati pitch-deck client — a Dafny model

This project models the decision logic of the Pragati web client. Innovators
upload a pitch deck (PDF or PPTX) on the upload page. The backend answers
with a viability report. The client then lists, sorts, deletes and shares
those reports, and shows one report in detail: cluster scores on a spider
chart, the top and bottom performing sub-parameters, per-parameter averages,
and a highlight that opens and scrolls to a clicked sub-parameter. The model
also covers:

- the technology-readiness (TRL) roadmap;
- the circular score badge;
- the role-based navigation table and roadmap phases in `src/lib/constants.ts`;
- the share-token helpers;
- the route guard in front of the dashboard.

Pure code (colour thresholds, filters, sorting, URL and token handling,
chart geometry) becomes datatypes, functions and lemmas. React components
that keep state (`useState` setters called from handlers and effects)
become classes:

- `ReportsPage.ReportsView`
- `UploadPage.UploadForm`
- `Roadmap.RoadmapView`
- `SpecificReport.ReportView`

Their fields are the component's state. Each handler is a method whose
`ensures` gives the whole new state, tied to the pure functions the lemmas
are about. The loop that collects the performers of a report is written as
nested `while` loops. These loops are proved equal to a recursive
specification (`SpecificReport.ExtractPerformers`).

Files:

| file | module | models |
|---|---|---|
| `wrappers.dfy` | `Wrappers` | `Option` and `Result` |
| `text.dfy` | `Text` | JavaScript `trim`, `toLowerCase`, truthiness, number-to-string |
| `seqs.dfy` | `Seqs` | `filter`, the stable `Array.prototype.sort` by a numeric key, `slice(0, n)` |
| `arith.dfy` | `Arith` | `Math.round`, `parseInt` of a decimal, rounding to two places |
| `constants.dfy` | `Constants` | `ROLES`, `NAV_LINKS`, `ROADMAP_PHASES` |
| `token_utils.dfy` | `TokenUtils` | `src/utils/tokenUtils.ts`, and `URLSearchParams.get` |
| `protected_route.dfy` | `ProtectedRoute` | `src/components/ProtectedRoute.tsx` |
| `score_display.dfy` | `ScoreDisplay` | `src/components/score-display.tsx` |
| `spider_chart.dfy` | `SpiderChart` | `src/components/spider-chart.tsx` |
| `roadmap.dfy` | `Roadmap` | `src/components/roadmap.tsx` |
| `reports_page.dfy` | `ReportsPage` | `src/pages/ReportsPage.tsx` |
| `upload_page.dfy` | `UploadPage` | `src/pages/UploadPage.tsx` |
| `specific_report.dfy` | `SpecificReport` | `src/pages/SpecificReport.tsx` |

Things that come from outside the program are passed in as parameters:

- the browser's location (`pathname`, `search`);
- the value stored under `userToken`;
- a server's response or the failure of a request;
- whether a confirm dialog was accepted;
- whether a scrolled-to element exists;
- the current time in milliseconds.

## Model

| member | source | states |
|---|---|---|
| Constants.ParseRole | src/lib/constants.ts:29-37 | a role string parses only to the role whose `ROLES` value it is |
| Constants.RoleNameRoundTrip | src/lib/constants.ts:29-37 | every role's `ROLES` string parses back to that role |
| Constants.RoleNameInjective | src/lib/constants.ts:29-37 | no two roles share a `ROLES` string |
| Constants.NavLinksLookup | src/lib/constants.ts:41-320 | `NAV_LINKS` has an entry under every role's string, and it is that role's link list |
| Constants.NavLinksCoverRoles | src/lib/constants.ts:41-320 | the keys of `NAV_LINKS` are exactly the role strings |
| Constants.LinksOfUseOwnRole | src/lib/constants.ts:41-320 | every link in a role's list carries that role in its `?role=` query |
| Constants.HrefEndsWithRole | src/lib/constants.ts:41-320 | a link's href ends with `?role=` and its role's string |
| Constants.NavLinksCarryRole | src/lib/constants.ts:41-320 | every href in `NAV_LINKS[role]` ends with `?role=<role>` |
| Constants.LinksOfEndWithReports | src/lib/constants.ts:83 | every role's list is non-empty and ends with "Reports" at `/dashboard/reports` |
| Constants.NavLinksEndWithReports | src/lib/constants.ts:41-320 | the last href of every `NAV_LINKS` entry is `/dashboard/reports?role=<role>` |
| Constants.RoadmapPhasesCoverTrls | src/lib/constants.ts:322-418 | there are five phases, and their TRLs in order are TRL-1 to TRL-9, each once |
| Constants.TrlLevelsDistinct | src/lib/constants.ts:322-418 | the nine TRL names are pairwise distinct |
| Constants.RoadmapTrlsDisjoint | src/lib/constants.ts:322-418 | no TRL belongs to two phases |
| Constants.RoadmapPhasesHaveThreeActivities | src/lib/constants.ts:322-418 | every phase lists three key activities |
| TokenUtils.ValidTokenParams | src/utils/tokenUtils.ts:15-20 | valid iff both `token` and `reportId` are present and non-empty, and the token matches the UUID pattern |
| TokenUtils.MatchGroupsShape | src/utils/tokenUtils.ts:18-19 | matching hex groups separated by dashes is the same as having dashes exactly at the group boundaries and hex digits elsewhere |
| TokenUtils.UuidDashPositions | src/utils/tokenUtils.ts:18-19 | in the 8-4-4-4-12 pattern the dashes sit at offsets 8, 13, 18 and 23 |
| TokenUtils.UuidPatternIsShape | src/utils/tokenUtils.ts:18-19 | the regular expression accepts exactly the 36-character strings with dashes at 8, 13, 18 and 23 and case-insensitive hex digits elsewhere (section 3 of RFC 4122) |
| TokenUtils.FirstIndex | src/utils/tokenUtils.ts:10 | the first occurrence of a character, or none when it does not occur |
| TokenUtils.FirstIndexAfter | src/utils/tokenUtils.ts:10 | a character absent from a prefix is first found where the suffix starts with it |
| TokenUtils.SplitOn | src/utils/tokenUtils.ts:10 | splitting gives at least one piece, no piece holds the separator, and joining the pieces with the separator gives back the input |
| TokenUtils.SearchOf | src/utils/tokenUtils.ts:10 | `location.search` is empty or starts with `?`, and never holds the fragment; when non-empty it is the text from the first `?` up to the `#` or the end; it is empty iff there is no `?` before the fragment or nothing follows the `?` |
| TokenUtils.FirstIndexUnique | src/utils/tokenUtils.ts:10 | a character present at an index and absent before it is first found there |
| TokenUtils.ParsePair | src/utils/tokenUtils.ts:10-12 | a query piece's name holds no `=`; a piece without `=` is a name with an empty value; otherwise name, `=` and value reassemble the piece |
| TokenUtils.Lookup | src/utils/tokenUtils.ts:11-12 | `get` returns the value of the first pair with that name, and none only when no pair has that name |
| TokenUtils.MissingTokenFails | src/utils/tokenUtils.ts:15 | a query without a `token` parameter never validates |
| TokenUtils.ReportIdOnlyPresence | src/utils/tokenUtils.ts:15 | the value of `reportId` does not matter once it is non-empty |
| TokenUtils.VersionBitsUnchecked | src/utils/tokenUtils.ts:18-20 | the all-zero (nil) UUID is accepted: version and variant digits are not checked |
| TokenUtils.UuidShapeHasNoDelimiters | src/utils/tokenUtils.ts:18-20 | a UUID-shaped token holds none of `#`, `&`, `?` and `=` |
| TokenUtils.ShareableUrl | src/utils/tokenUtils.ts:31-35 | the link is exactly `<origin>/shared-report/<reportId>?token=<token>`: it starts with the path, ends with the query, and has their combined length, so nothing lies between them |
| TokenUtils.ShareableUrlSearch | src/utils/tokenUtils.ts:31-35 | the search part of a shareable link is exactly `?token=<token>` |
| TokenUtils.TokenOnlyQuery | src/utils/tokenUtils.ts:10-12 | `?token=<uuid>` parses to the one pair `token` = the uuid |
| TokenUtils.ShareableUrlFailsValidation | src/utils/tokenUtils.ts:9-35 | a freshly generated shareable link carries its token but no `reportId`, so `validateReportToken` rejects it |
| ProtectedRoute.Decide | src/components/ProtectedRoute.tsx:15-29 | the guard redirects to `/` iff the path is not under `/shared-report/` and no non-empty `userToken` is stored |
| ProtectedRoute.SharedPathAlwaysRenders | src/components/ProtectedRoute.tsx:15-29 | a shared-report path always renders, whatever the token and flag |
| ProtectedRoute.LoggedInAlwaysRenders | src/components/ProtectedRoute.tsx:23-29 | a stored non-empty token always renders |
| ProtectedRoute.EmptyTokenRedirects | src/components/ProtectedRoute.tsx:23-27 | off the shared path, an empty or missing token redirects |
| ProtectedRoute.PublicAccessIrrelevant | src/components/ProtectedRoute.tsx:18-29 | neither `allowPublicAccess` nor the query string changes the outcome |
| ScoreDisplay.ScoreColor | src/components/score-display.tsx:11-16 | the colour is muted exactly when there is no score |
| ScoreDisplay.ScoreColorBands | src/components/score-display.tsx:11-16 | a score is red below 50, orange from 50 to 84 and green from 85 |
| ScoreDisplay.ScoreColorMonotone | src/components/score-display.tsx:11-16 | a higher score never gets a worse colour |
| ScoreDisplay.ScoreText | src/components/score-display.tsx:60 | the text is "N/A" exactly when there is no score, else the score's decimal digits |
| ScoreDisplay.StrokeOffset | src/components/score-display.tsx:20-24 | no score gives the full circumference C; a score s gives C·(1 − s/100), so 0 gives C, 100 gives 0, and every score from 0 to 100 lies in between |
| ScoreDisplay.StrokeOffsetDecreasing | src/components/score-display.tsx:21-24 | a higher score draws more of the ring |
| ScoreDisplay.Render | src/components/score-display.tsx:18-63 | ring, number and status share one colour, and the status text is the given one |
| SpiderChart.LabelOf | src/components/spider-chart.tsx:12-20 | a key has a short label iff it is one of the seven cluster names, and the label is non-empty |
| SpiderChart.LabelOfReadsLabelMap | src/components/spider-chart.tsx:12-20 | each `labelMap` entry is found under its own key |
| SpiderChart.ValidDataKeys | src/components/spider-chart.tsx:47-50 | the kept keys are the data's keys whose value is a number and which `labelMap` names, all such keys are kept, and they are exactly `Object.keys(data).filter(...)`, in record order |
| SpiderChart.KeptKeys | src/components/spider-chart.tsx:47-50 | filtering keeps exactly the numeric, labelled keys |
| SpiderChart.KeptKeysInOrder | src/components/spider-chart.tsx:47-50 | the kept keys equal `Seqs.Filter` of the keys by the keep test: same keys in the same relative order |
| SpiderChart.KeptKeysDistinct | src/components/spider-chart.tsx:47-50 | filtering distinct keys gives distinct keys |
| SpiderChart.LabelNamesDistinct | src/components/spider-chart.tsx:12-20 | the seven keys of `labelMap` are pairwise distinct |
| SpiderChart.AtMostSevenAxes | src/components/spider-chart.tsx:47-50 | a chart never has more than seven axes |
| SpiderChart.Rings | src/components/spider-chart.tsx:73-110 | four grid rings at 1/4, 2/4, 3/4 and 4/4 of the radius |
| SpiderChart.LaterSpokesUnlabelled | src/components/spider-chart.tsx:113-149 | spokes after the first carry no scale label |
| SpiderChart.OneScaleLabel | src/components/spider-chart.tsx:113-149 | the first spoke carries exactly one label: `maxScore` on the outermost ring |
| SpiderChart.AxisAt | src/components/spider-chart.tsx:160-233 | an axis is drawn for its key with the key's numeric value, its point at `PointRadius` of that value and its printed percent `Math.round(value)`; its colour index lies in the seven-colour palette and is its position for the first seven |
| SpiderChart.AxisOfRender | src/components/spider-chart.tsx:41-68 | the k-th axis of a rendered chart is the axis of the k-th kept key |
| SpiderChart.Render | src/components/spider-chart.tsx:41-233 | nothing is drawn iff no key is kept; otherwise one axis per kept key and four rings |
| SpiderChart.ShortLabelsFromMap | src/components/spider-chart.tsx:163 | every drawn axis shows its `labelMap` short label, which differs from the key |
| SpiderChart.ColorIndexInPalette | src/components/spider-chart.tsx:124 | the i-th axis uses colour `i mod 7`, so the first seven get distinct colours |
| SpiderChart.AxesFollowKeys | src/components/spider-chart.tsx:54-68 | the i-th axis is the i-th kept key, plotted at `value / maxScore` of the radius, with `Math.round(value)` as the percent printed beside it (spider-chart.tsx lines 188 and 228) |
| SpiderChart.MaxScoreOnOuterRing | src/components/spider-chart.tsx:59-93 | a value equal to `maxScore` lands on the outer ring, half of it on the second ring |
| SpiderChart.NothingKeptRendersNothing | src/components/spider-chart.tsx:52 | data with no numeric labelled key renders nothing |
| SpiderChart.NoneKeptNoKeys | src/components/spider-chart.tsx:47-52 | with no key passing the filter, the kept list is empty |
| Roadmap.FindPhaseIndex | src/components/roadmap.tsx:29-31 | `findIndex`: the first phase listing the TRL, or -1 iff no phase lists it |
| Roadmap.CurrentPhaseIndexDefined | src/components/roadmap.tsx:29-43 | the current phase is defined iff the TRL is one of TRL-1 to TRL-9, and then it is the only phase listing it |
| Roadmap.PhaseOfListedTrl | src/components/roadmap.tsx:29-31 | a TRL listed in phase k has current phase k |
| Roadmap.CurrentPhaseOfEachTrl | src/components/roadmap.tsx:29-31 | TRL-1 and 2 are phase 0, 3 and 4 phase 1, 5 to 7 phase 2, 8 phase 3 and 9 phase 4 |
| Roadmap.PreviousIndex | src/components/roadmap.tsx:129-132 | "previous" stays within the phases, stays put exactly when the button is disabled, and otherwise moves to `viewed - 1` |
| Roadmap.NextIndex | src/components/roadmap.tsx:141-146 | "next" stays within the phases, stays put exactly when the button is disabled, and otherwise moves to `viewed + 1` |
| Roadmap.PreviousNextInverse | src/components/roadmap.tsx:129-146 | where enabled, next undoes previous and previous undoes next |
| Roadmap.ActivitiesToShow | src/components/roadmap.tsx:48-51 | the list shown is the supplied activities when the current phase is viewed and some were supplied, and otherwise the viewed phase's own |
| Roadmap.ActivitiesToShowNonEmpty | src/components/roadmap.tsx:48-51 | the list shown is never empty, and off the current phase it is that phase's list |
| Roadmap.Dots | src/components/roadmap.tsx:68-99 | one dot per phase, and every checked dot is filled |
| Roadmap.CountDotsFrom | src/components/roadmap.tsx:75-84 | counting from any dot onward, filled, checked and ringed dots are the clamped distances to the current and viewed phases |
| Roadmap.DotCounts | src/components/roadmap.tsx:68-99 | dots up to the current phase are filled, those before it checked, and exactly one is ringed |
| Roadmap.ProgressWidth | src/components/roadmap.tsx:60-63 | the bar width is within 0 to 100%, 0 on the first phase and 100 on the last |
| Roadmap.ProgressWidthSteps | src/components/roadmap.tsx:60-63 | each phase adds 25% |
| Roadmap.RoadmapView.constructor | src/components/roadmap.tsx:29-33 | the viewed phase starts at the current phase |
| Roadmap.RoadmapView.ChangeProps | src/components/roadmap.tsx:35-37 | a new TRL resets the viewed phase to the current one; the same TRL keeps it |
| Roadmap.RoadmapView.Previous | src/components/roadmap.tsx:129-132 | the viewed phase becomes `PreviousIndex` of the old one |
| Roadmap.RoadmapView.Next | src/components/roadmap.tsx:141-146 | the viewed phase becomes `NextIndex` of the old one |
| Roadmap.RoadmapView.SelectPhase | src/components/roadmap.tsx:82 | clicking a dot views that phase |
| Roadmap.RoadmapView.Render | src/components/roadmap.tsx:39-163 | "TRL not defined" iff the TRL is unknown; otherwise the viewed phase's name, matching button states, a non-empty list, activity checkboxes enabled only for mentors (`checkboxesEnabled` iff the role is mentor), and the activities, dots and bar width of `ActivitiesToShow`, `Dots` and `ProgressWidth` |
| Roadmap.PanelShowsProgress | src/components/roadmap.tsx:60-99 | with a known TRL the panel fills current+1 dots, checks current of them, rings one, draws the bar at 25% per phase, and lists the supplied activities on the current phase |
| ReportsPage.SortReports | src/pages/ReportsPage.tsx:108-120 | sorting permutes the list |
| ReportsPage.SortReportsOrdered | src/pages/ReportsPage.tsx:108-120 | the sorted list is newest first or highest score first, and keeps the order of equal keys (stable sort) |
| ReportsPage.SortReportsAsWritten | src/pages/ReportsPage.tsx:108-120 | the sort as written, over reports lacking the camel-case fields, permutes the list |
| ReportsPage.SortAsWrittenKeepsOrder | src/pages/ReportsPage.tsx:108-120 | as written, sorting by date or by score leaves the list in its order |
| ReportsPage.Toggled | src/pages/ReportsPage.tsx:322-324 | the sort button always switches to the other key |
| ReportsPage.WithoutReport | src/pages/ReportsPage.tsx:143-157 | deleting keeps exactly the reports whose `reportId` differs |
| ReportsPage.WithoutReportProperties | src/pages/ReportsPage.tsx:143-157 | deleting twice is deleting once, and deleting distributes over concatenation |
| ReportsPage.ScoreBadge | src/pages/ReportsPage.tsx:159-164 | the badge is gray iff the score is missing or 0 (JavaScript falsiness); otherwise green iff at least 75, yellow iff from 50 to below 75, red iff below 50 |
| ReportsPage.ScoreBadgeMonotone | src/pages/ReportsPage.tsx:159-164 | for positive scores a higher score never gets a worse badge; 0 is gray while 1 is red |
| ReportsPage.OutcomeBadge | src/pages/ReportsPage.tsx:166-175 | gray iff no outcome text; green iff its lower case contains "high"; yellow iff it contains "moderate" but not "high"; red iff it contains neither |
| ReportsPage.OutcomeBadgeIgnoresCase | src/pages/ReportsPage.tsx:166-175 | the badge does not depend on letter case |
| ReportsPage.HighCheckedFirst | src/pages/ReportsPage.tsx:166-175 | "Moderate to High" is green, because "high" is tested first |
| ReportsPage.CountHeading | src/pages/ReportsPage.tsx:302-306 | "Loading..." while loading; otherwise exactly the count's digits followed by " Report Found" for 1 and " Reports Found" for every other count |
| ReportsPage.IsBlankIffTrimEmpty | src/pages/ReportsPage.tsx:64-67 | `!userId.trim()` holds iff the id is all whitespace |
| ReportsPage.ReportsView.constructor | src/pages/ReportsPage.tsx:52-59 | empty inputs and lists, not loading, not searched, sorted by date |
| ReportsPage.ReportsView.EditSearch | src/pages/ReportsPage.tsx:260-271 | typing or clearing changes only the search text |
| ReportsPage.ReportsView.StartFetch | src/pages/ReportsPage.tsx:62-70 | a blank id is refused with "Please enter a User ID"; otherwise loading and searched are set |
| ReportsPage.ReportsView.CompleteFetch | src/pages/ReportsPage.tsx:71-97 | reports are stored on success; otherwise both lists are emptied with the server's, the thrown or the default message; loading always ends |
| ReportsPage.ReportsView.Search | src/pages/ReportsPage.tsx:102-106 | the search text becomes the user id, then the fetch starts as above |
| ReportsPage.ReportsView.HandleSort | src/pages/ReportsPage.tsx:108-120 | records the key and sorts the shown list by it with the corrected `SortReports` of the Findings table |
| ReportsPage.ReportsView.SortButtonClick | src/pages/ReportsPage.tsx:322-324 | switches the key and sorts by the new one |
| ReportsPage.ReportsView.DeleteReport | src/pages/ReportsPage.tsx:143-157 | a confirmed, successful delete removes the report from both lists; a declined one changes nothing; a failed one only shows the error |
| UploadPage.CheckFile | src/pages/UploadPage.tsx:67-90 | no file is no change; only the first file counts; it is accepted iff it is PDF or PPTX and at most 50 MB; a wrong type gets the type message, and a right type over 50 MB the size message |
| UploadPage.CheckFileFirstOnly | src/pages/UploadPage.tsx:68 | files after the first are ignored |
| UploadPage.SizeLimitInclusive | src/pages/UploadPage.tsx:82-85 | exactly 50 MiB is accepted, one byte more is refused with the size message |
| UploadPage.ValidateSubmissionSpec | src/pages/UploadPage.tsx:114-139 | a submission is sent iff the user id and title are not blank and a file is chosen, with trimmed fields; otherwise the first failing check's message |
| UploadPage.BlankUserIdRefusedFirst | src/pages/UploadPage.tsx:117-120 | a blank user id is reported before anything else |
| UploadPage.ProgressPercent | src/pages/UploadPage.tsx:142-148 | the percentage is `loaded*100/total` rounded to the nearest integer, with halves up (`Math.round`); it is 0 to 100, 0 at the start and 100 when everything is sent |
| UploadPage.ProgressPercentMonotone | src/pages/UploadPage.tsx:142-148 | progress never goes backwards as more bytes are sent |
| UploadPage.KeySections | src/pages/UploadPage.tsx:454-459 | exactly the report keys that are sections are listed |
| UploadPage.KeySectionsAppend | src/pages/UploadPage.tsx:454-459 | the section filter distributes over concatenation |
| UploadPage.UploadForm.constructor | src/pages/UploadPage.tsx:46-54 | an empty form, not loading, progress 0, no response |
| UploadPage.UploadForm.ChangeUserId | src/pages/UploadPage.tsx:59-61 | changes only the user id |
| UploadPage.UploadForm.ChangeTitle | src/pages/UploadPage.tsx:63-65 | changes only the title |
| UploadPage.UploadForm.ChangeFile | src/pages/UploadPage.tsx:67-90 | an accepted file replaces the chosen one and resets progress; a rejected one leaves the form and returns its message |
| UploadPage.UploadForm.Drop | src/pages/UploadPage.tsx:97-112 | a drop goes through the same check, and only when the file input is mounted |
| UploadPage.UploadForm.BeginSubmit | src/pages/UploadPage.tsx:114-140 | the submission is `ValidateSubmission` of the fields; sending sets loading and zero progress, refusing changes nothing |
| UploadPage.UploadForm.UploadProgressEvent | src/pages/UploadPage.tsx:142-148 | progress becomes `ProgressPercent` when the total is known, else stays |
| UploadPage.UploadForm.FinishSubmit | src/pages/UploadPage.tsx:150-180 | success stores the response and resets the form to the default user id; failure keeps the fields and picks the server's, the thrown or the default message; loading and progress always reset |
| UploadPage.ResetFormNeedsTitle | src/pages/UploadPage.tsx:165 | after the reset a new submission is refused for the missing title |
| SpecificReport.ScanParam | src/pages/SpecificReport.tsx:472-520 | scanning one parameter fails iff a sub-parameter is null; otherwise it yields its top (>= 85) and bottom (< 70) findings in document order |
| SpecificReport.ScanCluster | src/pages/SpecificReport.tsx:472-520 | the same for one cluster's parameters |
| SpecificReport.ExtractPerformers | src/pages/SpecificReport.tsx:472-531 | the nested loops compute `PerformersOf`: a failure when any sub-parameter is null, else the five best and five worst |
| SpecificReport.DocHasNullIff | src/pages/SpecificReport.tsx:472-531 | the document has a null sub-parameter iff one exists at some cluster, parameter and index |
| SpecificReport.NullWitness | src/pages/SpecificReport.tsx:472-531 | a document with a null gives the position of one |
| SpecificReport.SubFindingsMembers | src/pages/SpecificReport.tsx:482-510 | a parameter's findings are exactly its sub-parameters that have a score |
| SpecificReport.ParamFindingsMembers | src/pages/SpecificReport.tsx:478-512 | a cluster's findings are exactly those of its parameters |
| SpecificReport.DocFindingsMembers | src/pages/SpecificReport.tsx:472-514 | the document's findings are exactly its scored sub-parameters |
| SpecificReport.TakenFromCandidates | src/pages/SpecificReport.tsx:515-519 | the sorted first five are candidates |
| SpecificReport.PerformersPartition | src/pages/SpecificReport.tsx:515-519 | at most five of each; top ones score >= 85, bottom ones < 70, all come from the document, and none is in both |
| SpecificReport.PerformersOrdered | src/pages/SpecificReport.tsx:515-516 | top performers are in descending and bottom ones in ascending score order |
| SpecificReport.PerformersStable | src/pages/SpecificReport.tsx:515-519 | among equal scores, performers keep document order |
| SpecificReport.DroppedTopCandidate | src/pages/SpecificReport.tsx:515-519 | a qualifying finding is left out only when five others score at least as high |
| SpecificReport.DroppedBottomCandidate | src/pages/SpecificReport.tsx:515-519 | a low finding is left out only when five others score at most as low |
| SpecificReport.ParamAverage | src/pages/SpecificReport.tsx:999-1015 | 0 with no scores, else the mean to within half a hundredth, and always a whole number of hundredths |
| SpecificReport.AverageBadge | src/pages/SpecificReport.tsx:1030-1035 | the badge is 0 with no scores, and otherwise the integer part of the rounded average (`parseInt` truncates toward zero) |
| SpecificReport.ParamScoresAreFindings | src/pages/SpecificReport.tsx:999-1009 | the averaged scores are exactly the scored sub-parameters |
| SpecificReport.ParamAverageBounds | src/pages/SpecificReport.tsx:999-1035 | the average and its badge lie between the lowest and highest bound on the scores |
| SpecificReport.MeanBetween | src/pages/SpecificReport.tsx:1008-1013 | a mean of scores within bounds is within the bounds |
| SpecificReport.ScoreColor | src/pages/SpecificReport.tsx:205-210 | muted exactly when there is no score |
| SpecificReport.ScoreColorAgainstBadge | src/pages/SpecificReport.tsx:205-210 | the page agrees with the score badge except on 80 to 84 (green here, orange there), and is monotone |
| SpecificReport.BackLink | src/pages/SpecificReport.tsx:194-203 | super admins go back to idea oversight, coordinators to feedback, everyone else to the innovator's ideas |
| SpecificReport.SuperAdminBackLinkInSidebar | src/lib/constants.ts:280 | the super admin's back link is their sidebar's "Idea Oversight" entry |
| SpecificReport.DefaultBackLinkInSidebar | src/lib/constants.ts:63 | every other role except the coordinator goes back to the innovator's "My Ideas" entry |
| SpecificReport.CoordinatorBackLinkNotInSidebar | src/lib/constants.ts:135-176 | the coordinator's back link is no entry of their sidebar |
| SpecificReport.Sanitize | src/pages/SpecificReport.tsx:295-298 | letters and digits are kept; every other character becomes `-` |
| SpecificReport.SanitizeIdempotent | src/pages/SpecificReport.tsx:295-298 | sanitizing twice is sanitizing once, and the result is letters, digits and dashes |
| SpecificReport.ElementIdShape | src/pages/SpecificReport.tsx:1060-1063 | element ids start with `sub-param-` and names of different length get different ids |
| SpecificReport.ElementIdCollision | src/pages/SpecificReport.tsx:1060-1063 | "Go-to-Market" and "Go to Market" get the same element id |
| SpecificReport.ParamKey | src/pages/SpecificReport.tsx:1017 | the key is the cluster name, a bar, then the parameter name |
| SpecificReport.ParamKeyInjective | src/pages/SpecificReport.tsx:1017 | keys are unique when cluster names hold no bar |
| SpecificReport.ParamKeyCollision | src/pages/SpecificReport.tsx:1017 | a bar in a cluster name makes two parameters share a key |
| SpecificReport.HighlightedIffSelected | src/pages/SpecificReport.tsx:1071-1077 | a row is highlighted iff it is the selected triple, so at most one triple is highlighted |
| SpecificReport.AddIfAbsent | src/pages/SpecificReport.tsx:280-288 | opening adds the item once and never closes another |
| SpecificReport.AddIfAbsentIdempotent | src/pages/SpecificReport.tsx:280-288 | opening twice is opening once |
| SpecificReport.ToggleExpandAll | src/pages/SpecificReport.tsx:554-560 | collapse all when counted as expanded, else open every cluster |
| SpecificReport.ToggleTwiceFromPartial | src/pages/SpecificReport.tsx:547-560 | two toggles from a partly open list leave everything closed |
| SpecificReport.ExpandedByLengthOnly | src/pages/SpecificReport.tsx:549-552 | the expanded test compares lengths only: an open list of the wrong names counts as expanded |
| SpecificReport.CancelClear | src/pages/SpecificReport.tsx:275-277 | cancelling removes exactly the timer in the ref |
| SpecificReport.ClickAsWritten | src/pages/SpecificReport.tsx:269-313 | the click as written: opens, selects, and queues a scroll behind any earlier pending one |
| SpecificReport.Click | src/pages/SpecificReport.tsx:269-313 | the corrected click: opens, selects, and leaves only its own scroll pending |
| SpecificReport.ScrollFired | src/pages/SpecificReport.tsx:294-312 | the scroll callback starts a clear timer for its click only when the row is found |
| SpecificReport.ClearFired | src/pages/SpecificReport.tsx:307-310 | the clear timer drops the selection and nothing else |
| SpecificReport.ClickSettles | src/pages/SpecificReport.tsx:269-313 | the corrected click keeps at most one callback pending, owned by the current selection |
| SpecificReport.ScrollSettles | src/pages/SpecificReport.tsx:294-312 | a scroll callback keeps that invariant |
| SpecificReport.ClearSettles | src/pages/SpecificReport.tsx:307-310 | a clear timer keeps it, and clears only the selection of its own click |
| SpecificReport.ClickAsWrittenRace | src/pages/SpecificReport.tsx:275-312 | two quick clicks as written: the first click's timer clears the second click's selection |
| SpecificReport.ChartData | src/pages/SpecificReport.tsx:458-469 | one rounded score per cluster, under the cluster's name, in key order |
| SpecificReport.ChartAxesAreLabelledClusters | src/pages/SpecificReport.tsx:795 | the chart's axes are exactly the clusters `labelMap` names, each within half a point of its score |
| SpecificReport.OrNoData | src/pages/SpecificReport.tsx:1054-1059 | an empty feedback text shows a placeholder; other text is shown as is |
| SpecificReport.RenderSubParam | src/pages/SpecificReport.tsx:1043-1077 | a row exists iff the sub-parameter has a score, with its score, colour, id and highlight; its two texts are the entry's texts or "No data" (`OrNoData`); its ring offset is the circumference less the score's share of it, within the circumference for scores 0 to 100 |
| SpecificReport.PostComment | src/pages/SpecificReport.tsx:604-619 | a blank draft changes nothing; otherwise the draft is prepended |
| SpecificReport.PostCommentIgnoresBlank | src/pages/SpecificReport.tsx:604-619 | comments change iff the draft trims to something, with id `comment-<now>` |
| SpecificReport.ScreenOf | src/pages/SpecificReport.tsx:645-672 | the spinner iff loading; the report iff loaded with data and no truthy error; otherwise the error screen, showing `error || "Report not found"`: the error message itself when one is set |
| SpecificReport.ClusterNamesOf | src/pages/SpecificReport.tsx:547-548 | the cluster names in document order |
| SpecificReport.ReportView.constructor | src/pages/SpecificReport.tsx:221-257 | loading, empty data, no highlight, no comments, 27 votes |
| SpecificReport.ReportView.Load | src/pages/SpecificReport.tsx:449-537 | with an idea id, stores the report, chart data and performers, or records the error; without one, changes nothing |
| SpecificReport.ReportView.HighlightClick | src/pages/SpecificReport.tsx:269-313 | the highlight state becomes `Click` (the corrected click of the Findings table, not `ClickAsWritten`) of the old one; the settled invariant is kept |
| SpecificReport.ReportView.ScrollCallback | src/pages/SpecificReport.tsx:294-312 | the highlight state becomes `ScrollFired` of the old one |
| SpecificReport.ReportView.ClearCallback | src/pages/SpecificReport.tsx:307-310 | the highlight state becomes `ClearFired` of the old one |
| SpecificReport.ReportView.ToggleExpandAllClick | src/pages/SpecificReport.tsx:554-560 | only the open clusters change, to `ToggleExpandAll` of the old list |
| SpecificReport.ReportView.Vote | src/pages/SpecificReport.tsx:599-602 | one more vote and the "Voted!" toast |
| SpecificReport.ReportView.EditComment | src/pages/SpecificReport.tsx:604 | changes only the draft |
| SpecificReport.ReportView.SubmitComment | src/pages/SpecificReport.tsx:604-619 | comments become `PostComment` of the draft; a posted draft is cleared with a toast |
| Seqs.SortBy | src/pages/ReportsPage.tsx:108-120 | the sort by a numeric key is a permutation |
| Seqs.SortBySorted | src/pages/ReportsPage.tsx:108-120 | the result is ordered by the key in the chosen direction |
| Seqs.SortByStable | src/pages/ReportsPage.tsx:108-120 | elements with equal keys keep their relative order |
| Seqs.Take | src/pages/SpecificReport.tsx:518-519 | `slice(0, n)` is a prefix of length exactly `min(n, length)` |
| Seqs.Filter | src/pages/UploadPage.tsx:454-459 | `filter` keeps exactly the elements satisfying the test, in order |
| Arith.RoundHalfUp | src/pages/SpecificReport.tsx:458-469 | `Math.round` gives the integer within half of its argument, halves rounding up |
| Arith.RoundHalfUpMonotone | src/pages/UploadPage.tsx:142-148 | `Math.round` is monotone |
| Arith.Trunc | src/pages/SpecificReport.tsx:1030-1035 | `parseInt` of a decimal drops its fraction, toward zero |
| Arith.RoundTo2 | src/pages/SpecificReport.tsx:1008-1015 | rounding to hundredths gives a whole number of hundredths and moves a value by at most half a hundredth |
| Text.Trim | src/pages/UploadPage.tsx:137-139 | `trim` drops exactly the leading and trailing whitespace |
| Text.TrimEmptyIffBlank | src/pages/ReportsPage.tsx:64-67 | a string trims to nothing iff it is all whitespace |
| Text.TrimIdempotent | src/pages/UploadPage.tsx:137-139 | trimming twice is trimming once |
| Text.ToLower | src/pages/ReportsPage.tsx:166-175 | `toLowerCase` lowers each ASCII capital and keeps every other character |
| Text.ToLowerIdempotent | src/pages/ReportsPage.tsx:166-175 | lowering twice is lowering once |
| Text.NatToStringRoundTrip | src/pages/ReportsPage.tsx:302-306 | a count's decimal digits read back as the count |
| Text.OrElse | src/pages/ReportsPage.tsx:86-94 | `a \|\| fallback` on strings: the value when it is non-empty, else the fallback |

## Left out

- The DOM is not modelled. Scrolling, CSS classes, tooltips, animations and dialogs are out, and so are the real 500 ms and 3 s durations. Timers are modelled as ordered queues of pending callbacks.
- The spider chart's point coordinates are not modelled, because sine and cosine cannot be expressed exactly. The model keeps each point's distance from the centre, the axis order and the colour index.
- Numbers are modelled as exact reals and integers rather than IEEE doubles. Dates are integer timestamps, and `formatDate` is not modelled.
- `trim` uses a fixed whitespace set, and `toLowerCase` handles ASCII letters only. Full Unicode case mapping is out.
- Query strings are split on `&` and `=` without percent-decoding or `+` handling.
- JavaScript type coercion is modelled only where the source relies on it: falsy scores, empty strings, `typeof ... === "number"`.
- Network calls, `localStorage`, `confirm`, toasts and page navigation are not modelled as effects. Their results are method parameters, and toasts are returned values.
- PDF download and export (src/pages/ReportsPage.tsx:122-141, src/pages/SpecificReport.tsx:562-589) are out: they drive foreign libraries over browser blobs and float page heights.
- `handleShareReport` (src/pages/ReportsPage.tsx:188-207) only copies a link to the clipboard, so it is not modelled. The link itself is `TokenUtils.ShareableUrl`.
- `generateReportToken` draws a random UUID, so `TokenUtils.ShareableUrl` takes the token as a parameter.
- `clearTokenFromURL` (src/utils/tokenUtils.ts:24-28) only rewrites browser history, so it is not modelled.
- The report page's cleanup on unmount (src/pages/SpecificReport.tsx:260-266) and its mock data are not modelled. The accordion's own `onValueChange` setters are not modelled either.
- SpiderChart.Render: requires `maxScore > 0`. A zero or negative `maxScore` divides by zero or inverts the chart in the source, and NaN is not modelled.
- SpecificReport.ReportView.Load: the render crash when a loaded report has no `detailed_viability_assessment` is not modelled; `ClusterNames` then gives the empty list.
- SpecificReport.ReportView.Load: the intermediate render between `setLoading(true)` and the response is not a separate step.
- SpecificReport.ScanParam: parameters that are themselves `null` are not modelled, only null sub-parameters. A parameter is always an object holding sub-parameters.
- ReportsPage.SortReports: sorts by the date and score the list holds, the intended behaviour of the Findings table. The code as written reads the absent camel-case fields; that is `ReportsPage.SortReportsAsWritten`.
- ReportsPage.ReportsView.HandleSort: the in-place `Array.prototype.sort` of the spread copy is modelled by its result, the value `Seqs.SortBy`. The page applies the corrected `SortReports`, not `SortReportsAsWritten`.
- Roadmap.RoadmapView.ChangeProps: the reset effect is modelled as running together with the prop change. The one render in between, with the old viewed phase, is not modelled. So the crash of that render when the TRL goes from unknown to known is not captured: it reads `ROADMAP_PHASES[-1].keyActivities` (src/components/roadmap.tsx:31-51). The `requires Current() != -1` of the phase buttons and `Valid()` leave this case out.
- SpecificReport.ReportView.HighlightClick: applies the corrected `Click` of the Findings table, the intended behaviour. The code as written is `SpecificReport.ClickAsWritten`, whose race `SpecificReport.ClickAsWrittenRace` shows.
- ScoreDisplay.ScoreText: takes whole-number scores. `toFixed(0)` rounding of fractional scores is not modelled.
- `console.log` calls are not modelled.

## Findings

| source | as written | input that shows it | evidently intended | confidence | as-written member | corrected member |
|---|---|---|---|---|---|---|
| src/pages/SpecificReport.tsx:275-312 | a click cancels the previous click's 3 s clear timer, but not its pending 500 ms scroll timeout, which later starts a clear timer of its own | click sub-parameter A, then B within 500 ms: A's scroll fires and starts A's clear timer, B's scroll replaces the ref, and A's timer clears B's selection while B's is still pending | each click supersedes everything the previous click scheduled, so a selection is only cleared by its own timer | not executed | `SpecificReport.ClickAsWritten` (`SpecificReport.ClickAsWrittenRace`) | `SpecificReport.Click` (`SpecificReport.ClickSettles`, `SpecificReport.ClearSettles`) |
| src/pages/ReportsPage.tsx:108-120 | the sort compares `createdAt` and `overallScore`, but the reports the list holds carry `created_at` and `overall_score` (read by the cards at src/pages/ReportsPage.tsx:405-408); every comparison is `NaN`, which `sort` takes as equal | any list, for example two reports dated a day apart with the older first: after "Sort by Date" the older one stays first | newest first or highest score first | not executed; rests on the list holding only the snake-case fields, as the cards' reads indicate | `ReportsPage.SortReportsAsWritten` (`ReportsPage.SortAsWrittenKeepsOrder`) | `ReportsPage.SortReports` (`ReportsPage.SortReportsOrdered`) |
