# Proctoring dashboard rules, modelled in Dafny

This project models the rules and event reducers that a React dashboard for
remotely proctored VR examinations applies to what its backend sends. The
React components, the socket connection and the HTTP fetches are left out.
The modelled parts are:

- **Alert normalization.** `normalizeAlert` maps an alert of either wire
  shape (current or legacy field names) to one canonical record. This is
  module `AlertNormalizer`.
- **Alert display.** `AlertItem` derives the shown type, details, severity,
  confidence percentage, timestamp and border style from an alert of either
  shape. This is module `AlertItem`.
- **Route guard.** `ProtectedRoute` renders its children or redirects to the
  entry page. This is module `ProtectedRoute`.
- **Proctor dashboard.** The dashboard keeps a session dictionary, fed by
  `live_status` and `new_alert` push events (module `SocketEvents`). It
  classifies each session into three risk tiers, stably sorts the sessions
  by descending tier, counts flagged sessions, and computes a behavioural
  verdict from mock window labels. This is module `ProctorDashboard`, with
  the shared three-or-more rule in `Behavior` and `filter(...).length` in
  `Counting`.
- **Examinee page.** Capitalizes the risk level, normalizes the alert
  history, and prepends normalized live alerts to two lists kept equal.
  This is module `Examinee`.
- **Session live console.** Keeps the latest matching status and a count of
  processed windows, takes the probability with `??`, reads `cat_active`
  with strict equality, colours the risk, and prepends raw runtime alerts.
  This is module `ProctorSessionLive`.
- **Student report.** The active tab and the overall verdict over
  per-question labels. This is module `StudentReport`.
- **Per-session audit report.** The flagged-question figure, the displayed
  verdict, which single question is expanded, and the window aggregation
  rule the report states. This is module `StudentSessionReport`.

Pages whose state the source updates in place are classes. These are
`SessionBoard`, `ExamineeMonitor`, `LiveMonitor` and `ReportView`. Each
handler is a method with `modifies`, and each class carries an invariant
where the page keeps one. All rules are functions, and the lemmas beside
them prove what the rules promise.

JavaScript values are modelled in module `Js`:

- An alert property is `Field<T>`: `Missing`, `Null` or `Present(v)`. This
  lets `||` (truthiness) and `!= null` / `??` (nullishness) be told apart.
- An untyped payload property is a `JsValue`. Its relational comparison with
  a number goes through `ToNumber`. A value that converts to NaN is `None`,
  and it fails every comparison.
- Object spread is map union, right operand winning. Object key order is an
  explicit `order` sequence.

Points where the code does something a reader might not expect, each
modelled as the code does it:

- The dashboard's `new_alert` handler appends the raw alert at the end of its
  session's list. It neither normalizes nor prepends
  (`SessionBoard.ApplyAlert`). The live console also keeps alerts raw, but
  puts them first (`LiveMonitor.ApplyAlert`).
- Only the legacy percentage is clamped into [0, 1]. A current-format
  `confidence_level` passes through unchanged, so a normalized confidence
  can lie outside [0, 1] (`NormalizedConfidence`).
- Every verdict rule calls three or more suspicious items cheating, with the
  boundary included (`Behavior.Classify`).
- The examinee page's history fetch replaces both alert lists. It does not
  merge with alerts pushed earlier (`ExamineeMonitor.ApplyHistory`).
- The examinee page's live handler does not compare the alert's session id
  with the page's (`ExamineeMonitor.ApplyLiveAlert`).

## Model

| member | source | states |
|---|---|---|
| Counting.Count | src/pages/StudentSessionReportPage.js:57-60 | a filtered count is at most the length, is 0 exactly when no element qualifies, and equals the length exactly when all do |
| Counting.CountAppend | src/pages/StudentReportPage.js:22-24 | counting distributes over concatenation |
| Counting.CountUpdate | src/pages/StudentReportPage.js:22-24 | replacing one element changes the count by exactly the change in that element's verdict |
| Counting.CountPermutation | src/pages/StudentSessionReportPage.js:112-114 | the count depends only on the multiset of elements, not on their order |
| Behavior.Classify | src/pages/StudentReportPage.js:26-29 | the verdict is cheating exactly when the count is at least 3 |
| Behavior.SuspiciousCount | src/pages/StudentReportPage.js:22-24 | the suspicious count is at most the number of labels, and is 0 exactly when no label is "suspicious" |
| Behavior.LabelVerdict | src/pages/StudentReportPage.js:22-29 | fewer than three labels can never give a cheating verdict |
| Behavior.RelabelNeverClears | src/pages/StudentReportPage.js:22-29 | relabelling an entry as suspicious raises the count by exactly one (or zero if it already was), so a cheating verdict stays cheating |
| AlertNormalizer.NormalizedConfidence | src/lib/utils.js:28-34 | a non-null current value passes through unclamped; a non-null legacy percent is scaled by 1/100 and clamped, so lies in [0,1]; otherwise 0 |
| AlertNormalizer.NormalizeAlert | src/lib/utils.js:12-48 | exactly non-null objects normalize, and the result is canonical (every text field non-empty) with the confidence of NormalizedConfidence |
| AlertNormalizer.AsPayload | src/lib/utils.js:15-47 | the normalized record read back as an object payload, which carries no session id |
| AlertNormalizer.TextFallbacks | src/lib/utils.js:18-40 | each text field takes the current name when truthy, else the legacy name when truthy, else its default; an empty string falls through like null |
| AlertNormalizer.TimestampAndId | src/lib/utils.js:16-46 | detected_at falls back to created_at and then to the current time; the id is kept when present and null becomes absent |
| AlertNormalizer.NormalizeIdempotent | src/lib/utils.js:12-48 | normalizing a normalized alert again, at any later time, gives the same record; a rejected input stays rejected |
| AlertNormalizer.LegacyTestPayload | src/components/TestSocket.js:16-22 | the test socket's legacy payload normalizes to the legacy names, severity "high" and confidence 0.92 |
| AlertItem.DisplayEventType | src/components/ui/AlertItem.js:5-8 | the shown type is never empty: a truthy event_type, else a truthy behavior_type, else "Unknown Event" |
| AlertItem.DisplayDetails | src/components/ui/AlertItem.js:10-13 | the shown details are never empty: truthy details, else a truthy description, else "No details provided" |
| AlertItem.DisplaySeverity | src/components/ui/AlertItem.js:15-16 | the severity used is never empty: a truthy severity, else "low" |
| AlertItem.Round | src/components/ui/AlertItem.js:18-20 | Math.round gives the integer within half a unit, with halves rounding up |
| AlertItem.DisplayConfidence | src/components/ui/AlertItem.js:18-23 | a non-null current confidence is shown as a whole percentage within half a point of value*100; else the legacy value as it is; else 0 |
| AlertItem.DisplayTimestamp | src/components/ui/AlertItem.js:25-28 | a time is shown exactly when detected_at or created_at is truthy; it is detected_at when that is truthy, else created_at |
| AlertItem.SeverityStyle | src/components/ui/AlertItem.js:30-34 | the three known severities get their own style and any other severity gets the gray border |
| AlertItem.DisplayAgreesWithNormalizer | src/components/ui/AlertItem.js:5-16 | a raw alert and its normalized form show the same type, details, severity and style, and the normalized form always shows a time |
| AlertItem.NormalizedPercent | src/components/ui/AlertItem.js:18-23 | a normalized alert shows the rounded percentage of its normalized confidence |
| AlertItem.LegacyPercentPreserved | src/components/ui/AlertItem.js:18-23 | a raw alert with whole legacy percent c in 0..100 and its normalized form both show exactly c |
| ProtectedRoute.Guard | src/components/ProtectedRoute.js:3-16 | every redirect goes to "/", and the children render exactly when the token is truthy and either no required role is set or it equals the stored role |
| ProtectedRoute.NoTokenRedirects | src/components/ProtectedRoute.js:7-9 | an absent or empty token redirects, whatever the roles |
| ProtectedRoute.WrongRoleRedirects | src/components/ProtectedRoute.js:11-13 | with a token, a required role other than the stored one (or no stored role at all) redirects |
| ProtectedRoute.NoRequiredRoleRenders | src/components/ProtectedRoute.js:11-15 | with a token and no or an empty required role, the children render whatever the stored role |
| ProtectedRoute.MatchingRoleRenders | src/components/ProtectedRoute.js:15 | with a token and a matching role, the children render |
| SocketEvents.StatusFields | src/pages/ProctorDashboardPage.js:21-31 | a status payload's properties include session_id, and that property always holds the payload's own id |
| SocketEvents.AlertSessionKey | src/pages/ProctorDashboardPage.js:39-45 | a present session id is its own key; a missing one shares the key "undefined" with the string "undefined", and null shares "null" with the string "null" |
| SocketEvents.AlertFor | src/pages/ProctorSessionLivePage.js:51 | the strict match holds only for a present session id, and then the dashboard would file the alert under that same id |
| ProctorDashboard.Rank | src/pages/ProctorDashboardPage.js:67 | tiers rank 1 to 3 |
| ProctorDashboard.ClassifyRisk | src/pages/ProctorDashboardPage.js:59-63 | HIGH exactly above 0.8, MEDIUM exactly in (0.5, 0.8], LOW exactly at or below 0.5 |
| ProctorDashboard.ClassifyRiskMonotone | src/pages/ProctorDashboardPage.js:59-63 | a higher probability never gets a lower tier |
| ProctorDashboard.ClassifyValue | src/pages/ProctorDashboardPage.js:68-69 | a falsy prob_cheat, or one that converts to NaN, ranks LOW; a number ranks by ClassifyRisk |
| ProctorDashboard.MergeStatus | src/pages/ProctorDashboardPage.js:23-33 | the merged entry has the union of keys; payload properties win and all others are kept; alerts are kept unless the payload carries its own |
| ProctorDashboard.NewSessionFromStatus | src/pages/ProctorDashboardPage.js:23-33 | a status for an unseen session gives exactly the payload's properties, with its alerts or an empty list |
| ProctorDashboard.AppendAlert | src/pages/ProctorDashboardPage.js:46-47 | the entry's fields are untouched, its earlier alerts are kept as a prefix, and the new alert is last |
| ProctorDashboard.Insert | src/pages/ProctorDashboardPage.js:66-71 | one insertion step of the stable sort adds exactly one row; its placement is specified by InsertIntoBuckets |
| ProctorDashboard.InsertPermutes | src/pages/ProctorDashboardPage.js:66-71 | an insertion adds the row and loses none |
| ProctorDashboard.SortSessions | src/pages/ProctorDashboardPage.js:66-71 | the sort keeps the length and the multiset of rows; its order is specified by SortIsBucketed and SortSessionsCorrect |
| ProctorDashboard.ByTier | src/pages/ProctorDashboardPage.js:105-107 | the rows of one tier are a sub-collection of the input, all of that tier |
| ProctorDashboard.ByTierAppend | src/pages/ProctorDashboardPage.js:65-72 | selecting a tier distributes over concatenation |
| ProctorDashboard.InsertIntoBuckets | src/pages/ProctorDashboardPage.js:66-71 | inserting a row into the tier-grouped order of the others gives the tier-grouped order with that row first in its tier |
| ProctorDashboard.SortIsBucketed | src/pages/ProctorDashboardPage.js:65-72 | the stable sort with the comparator equals all HIGH rows, then MEDIUM, then LOW, each group in original order |
| ProctorDashboard.BucketedPermutation | src/pages/ProctorDashboardPage.js:65-72 | the three tier groups together are a permutation of the rows |
| ProctorDashboard.SortSessionsCorrect | src/pages/ProctorDashboardPage.js:65-72 | the ranked list is a permutation of the entries, has non-increasing tier, and keeps the original order within each tier |
| ProctorDashboard.EntriesOf | src/pages/ProctorDashboardPage.js:66 | Object.entries lists one (id, entry) pair per key, in key order |
| ProctorDashboard.SessionBoard.constructor | src/pages/ProctorDashboardPage.js:17 | the board starts with no sessions |
| ProctorDashboard.SessionBoard.ApplyStatus | src/pages/ProctorDashboardPage.js:21-35 | only the event's session changes, to the merge of its previous entry (or an empty one) with the payload; a new id joins the key order last; the key set and order stay in step |
| ProctorDashboard.SessionBoard.ApplyAlert | src/pages/ProctorDashboardPage.js:37-51 | only the alert's session changes: the raw alert is appended at the end of its list and its fields are untouched; a missing or null session id files it under "undefined" or "null" |
| ProctorDashboard.SessionBoard.SortedSessions | src/pages/ProctorDashboardPage.js:65-72 | the sorted sessions are a permutation of the dictionary's entries, tier-descending and stable |
| ProctorDashboard.SessionBoard.FlaggedCount | src/pages/ProctorDashboardPage.js:96-108 | the flagged figure is the number of HIGH sessions, never above the active-session figure, which is the number of sessions |
| ProctorDashboard.FinalBehavior | src/pages/ProctorDashboardPage.js:76-81 | "CHEATING" exactly when at least three labels are suspicious, "NORMAL" exactly otherwise |
| ProctorDashboard.MockFinalBehavior | src/pages/ProctorDashboardPage.js:8-14 | the mock windows hold exactly three suspicious labels, so the verdict is "CHEATING" |
| Examinee.UpperAscii | src/pages/ExamineePage.js:56 | a lower-case ASCII letter becomes its capital and every other character is kept |
| Examinee.RiskLevel | src/pages/ExamineePage.js:54-58 | a truthy level keeps its length and tail and gets its first letter capitalized; otherwise "Low" |
| Examinee.RiskLevelIdempotent | src/pages/ExamineePage.js:54-58 | capitalizing an already shown level changes nothing |
| Examinee.NormalizeHistory | src/pages/ExamineePage.js:88-90 | exactly the object entries survive, each as a canonical alert |
| Examinee.NormalizeHistoryAppend | src/pages/ExamineePage.js:88-90 | normalizing a history distributes over concatenation, so relative order is kept |
| Examinee.NormalizeHistoryOfObjects | src/pages/ExamineePage.js:88-90 | a history of objects loses nothing, and entry i of the result is entry i normalized |
| Examinee.ExamineeMonitor.constructor | src/pages/ExamineePage.js:23-24 | both lists start empty and equal |
| Examinee.ExamineeMonitor.ApplyHistory | src/pages/ExamineePage.js:88-94 | both lists become the normalized history, replacing anything pushed before, and stay equal and canonical |
| Examinee.ExamineeMonitor.ApplyHistoryFailure | src/pages/ExamineePage.js:95-99 | a failed history fetch empties both lists |
| Examinee.ExamineeMonitor.ApplyLiveAlert | src/pages/ExamineePage.js:118-125 | an alert that does not normalize changes nothing; otherwise its normalized form goes first in both lists |
| ProctorSessionLive.Matching | src/pages/ProctorSessionLivePage.js:43-48 | the processed status events are exactly the received events for this session: every one is kept and no other |
| ProctorSessionLive.MatchingAppend | src/pages/ProctorSessionLivePage.js:43-48 | filtering distributes over concatenation, so the matching events keep their arrival order |
| ProctorSessionLive.MatchingCount | src/pages/ProctorSessionLivePage.js:43-48 | the number of processed windows is the number of received events for this session |
| ProctorSessionLive.Probability | src/pages/ProctorSessionLivePage.js:78 | no status, or a null or undefined prob_cheat, gives 0; any other value, a genuine 0 included, is kept; the result is never nullish |
| ProctorSessionLive.CatActive | src/pages/ProctorSessionLivePage.js:79 | the flag is on only with a status whose cat_active is a number equal to 1; a non-number never sets it |
| ProctorSessionLive.CatActiveStrict | src/pages/ProctorSessionLivePage.js:79 | true, the string "1" and 0 do not activate the flag, and neither does a missing status |
| ProctorSessionLive.RiskColor | src/pages/ProctorSessionLivePage.js:81-86 | one of three colours; green with no status; for a numeric probability, red exactly above 0.8, yellow exactly in (0.5, 0.8], green exactly at or below 0.5 |
| ProctorSessionLive.RiskColorMatchesTier | src/pages/ProctorSessionLivePage.js:81-86 | the console's colour for a status is the colour of the dashboard's tier for the same payload, although one defaults with ?? and the other with \|\| |
| ProctorSessionLive.RiskColorBeforeFirstStatus | src/pages/ProctorSessionLivePage.js:78-86 | before any status the console is green, as for LOW |
| ProctorSessionLive.LiveMonitor.constructor | src/pages/ProctorSessionLivePage.js:10-13 | no status, no windows and no runtime alerts at the start |
| ProctorSessionLive.LiveMonitor.ApplyStatus | src/pages/ProctorSessionLivePage.js:43-48 | another session's status changes nothing; a matching one becomes the live data and counts one window; the window count is always the number of matching statuses, and the live data the latest of them |
| ProctorSessionLive.LiveMonitor.ApplyAlert | src/pages/ProctorSessionLivePage.js:50-53 | an alert whose session id is strictly this session's goes raw to the front of the feed; any other changes nothing |
| ProctorSessionLive.LiveMonitor.ApplyInitialLogs | src/pages/ProctorSessionLivePage.js:26 | the fetched detections replace the feed, and a missing list gives an empty feed |
| StudentReport.ActiveTab | src/pages/StudentReportPage.js:8-9 | a non-empty tab parameter is used as given, and an absent or empty one gives "academic" |
| StudentReport.OverallBehavior | src/pages/StudentReportPage.js:26-29 | "Cheating" exactly for 3 or more suspicious labels, "Normal" exactly for 0 to 2 |
| StudentReport.OverallBehaviorMonotone | src/pages/StudentReportPage.js:22-29 | relabelling an answer as suspicious never turns "Cheating" into "Normal" |
| StudentReport.PageDataIsNormal | src/pages/StudentReportPage.js:14-29 | the page's data holds one suspicious answer, so the verdict is "Normal" |
| StudentSessionReport.CheatingQuestions | src/pages/StudentSessionReportPage.js:57-60 | the flagged figure never exceeds the question total, and is 0 exactly when no entry is labelled "cheating" |
| StudentSessionReport.DisplayedVerdict | src/pages/StudentSessionReportPage.js:83 | a truthy final label is shown as it is; otherwise "Pending"; never empty |
| StudentSessionReport.Toggle | src/pages/StudentSessionReportPage.js:170-173 | a click expands the clicked question exactly when it was not the expanded one, and collapses everything exactly when it was |
| StudentSessionReport.ToggleTwice | src/pages/StudentSessionReportPage.js:170-173 | two clicks on the same question, from collapsed or from that question expanded, return to the start |
| StudentSessionReport.StatedLabel | src/pages/StudentSessionReportPage.js:112-114 | fewer than three windows, or no flagged (pred_raw = 1 or cat_active = 1) window, gives NORMAL |
| StudentSessionReport.StatedLabelOrderFree | src/pages/StudentSessionReportPage.js:112-114 | the stated rule does not depend on window order |
| StudentSessionReport.StatedLabelMonotone | src/pages/StudentSessionReportPage.js:112-114 | flagging a window never lowers the flagged count, so it never clears CHEATING |
| StudentSessionReport.StatedLabelBoundary | src/pages/StudentSessionReportPage.js:112-114 | two flagged windows are NORMAL, and a third flagged window makes CHEATING |
| StudentSessionReport.ReportView.constructor | src/pages/StudentSessionReportPage.js:9-13 | no session, no report, no runtime alerts and nothing expanded at the start |
| StudentSessionReport.ReportView.ApplyFetch | src/pages/StudentSessionReportPage.js:15-30 | the session is stored first; only when the behavioural report also arrives are the report and the session's alerts (or an empty list) stored; the expanded question is kept |
| StudentSessionReport.ReportView.Click | src/pages/StudentSessionReportPage.js:170-173 | the expanded question becomes the toggle of the previous one, and is never a question other than the one clicked |

## Left out

- Rendering: JSX, Tailwind classes other than the colours and styles above, `cn`, charts, cards and layouts. None of them decides state.
- I/O: the socket connection, `join_session`/`leave_session`, listener registration and removal, and the HTTP fetches. The handlers take the delivered payload as a parameter, and a successful or failed fetch is a separate method.
- The race between an in-flight history fetch and pushed alerts. Each event is applied whole, in some order, and `ExamineeMonitor.ApplyHistory` records that the fetch discards earlier pushes.
- `localStorage`, navigation and `window.location`. Their values are parameters of `Guard` and `ActiveTab`.
- The loading flags, `selectedSession` and the mock-only pages and components (overview, charts, mock runtime violations). They hold no rule.
- React mechanics: batching, re-rendering and memoisation. Each state setter is applied as one update.
- `new Date().toISOString()` in `normalizeAlert`: the current time is the parameter `now`. `Examinee.NormalizeHistory` uses one `now` for the whole pass rather than one clock reading per entry.
- Floating point: probabilities and confidences are reals. `Math.round` is exact, and `toFixed`, `toLocaleTimeString` and the division by `total_windows` are not modelled.
- Numbers that JavaScript would convert from strings or arrays in `prob_cheat > 0.8`: `ToNumber` treats them as NaN, so they rank LOW. So does NaN itself, which `Num` cannot hold.
- `ProctorDashboard.SessionBoard.ApplyStatus`: key order is insertion order. JavaScript puts integer-like keys first, but session ids are UUIDs.
- `SocketEvents.StatusEvent`: `session_id` is a string, and `alerts`, when present, is a list of alerts, kept apart from the other properties (`PayloadFields` excludes the key "alerts"). A payload with other types there, and a non-object `new_alert` payload for the dashboard and live console, make the page throw or misbehave. These are not modelled.
- `AlertNormalizer.RawAlert`: each alert property has its documented type (text, or number for the two confidences). A wrongly typed property (a number as `severity`, say) is not modelled.
- `AlertNormalizer.NormalizeAlert`: an array also passes the `typeof raw === "object"` test. The model has no array case; `ObjectPayload` with every field `Missing` gives the same result (every default). A function fails the test (`typeof` gives "function") and is rejected; `Payload` has no case for it, nor for symbols and big integers, which are rejected as well.
- `Examinee.RiskLevel`: upper-cases ASCII letters only. Unicode case mapping, and a first character made of two UTF-16 units, are not modelled.
- `AlertItem.SeverityStyle`: a severity naming an inherited `Object.prototype` member ("constructor", "toString") looks up that member in JavaScript, which is truthy, rather than the gray style. The model gives the gray style.
- `ProctorSessionLive.LiveMonitor.ApplyInitialLogs`: the fetched session object itself (and the "Session not found" screen) is a plain copy and is not modelled. A failed fetch sets nothing.
- The examinee page's other session fields (`id`, `status`, names, scores): plain copies.
- `StudentSessionReport.StatedLabel`: the per-question label shown comes from the backend. The page only states this rule and never applies it, so the model proves the rule about itself.
