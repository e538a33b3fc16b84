# Weekly status report: a Dafny model of the transition classifier

The script `createweeklyreport.py` fetches recently updated tickets of one
project from an issue tracker. It sorts their status changes of the last seven
days into buckets and has a text-generation backend write a narrative report
from those buckets. It then mails the report, trying a fixed list of SMTP
profiles in order.

This project models the parts with logic in them:

- **The classifier** (`analyze_status_transitions`).
  - Every ticket goes into `all_issues`.
  - A ticket goes into `blocked_issues` when its lower-cased status contains
    "blocked" or its priority is exactly "Blocker".
  - Each `status` item of a history entry dated at or after the cutoff becomes
    one transition record. It goes into the first of `moved_to_in_progress`,
    `moved_to_review`, `moved_to_closed`, `moved_to_done` and
    `moved_to_resolved` whose word its lower-cased destination contains. If it
    contains none of them, it is dropped.
  - In `transitions.dfy` it is a method, proved equal to a function
    specification `Analyze`. It is split into one method per loop of the
    source (tickets, history entries, items), plus one for the step that
    handles a single history entry.
  - `transition_facts.dfy` proves what each bucket holds.
- **Report preparation** (`generate_report_with_gemini`).
  - With no tickets, the literal no-data message comes back.
  - Otherwise `report_data` holds five lists: started, completed, review,
    blocked and context. Completed is closed, then done, then resolved. Context
    is the first 20 entries of `all_issues`.
  - The prompt sent to the backend quotes only the first four lists. The
    context list is computed but never read.
  - The backend reply is an input to the model. A raised error turns into the
    placeholder text.
- **The JQL filter** sent to the tracker. A reader proves that the filter
  loses nothing, for values without a double quote. Each value comes back from
  its own clause, and the component names come back in order.
- **Email sending** (`send_report_email`). Sending is refused when the
  sender, password or recipient is unset. Otherwise the SMTP profiles are tried
  in order, stopping at the first attempt that completes without raising.
  Whether each profile's attempt raises is a boolean input.
- **The top level** (`__main__`): fetch, classify, compose, send.

Modules: `Text` (lower-casing, substring test, the cut at the first '.'),
`Jira` (ticket records, JQL), `Classification`, `Transitions`,
`TransitionFacts`, `Report`, `Email`, `Pipeline`.

Timestamps are integers on one abstract clock. A history entry keeps its raw
`created` text. The model cuts that text at the first '.', as the source does,
and passes the text before it to a caller-supplied parser. The parser returns `None`
where `strptime` would raise. The cutoff (now minus seven days) is a
parameter.

Behaviours of the code worth calling out:

- One record per `status` item, not per history entry: one entry with
  several status items yields several records (`TwoStatusItemsTwoRecords`).
- An empty ticket list aborts the run exactly like a failed fetch, because
  the top level tests `if jira_issues:` (`EmptyFetchAborts`). The composer's
  no-data message can therefore appear only when the composer is called on
  its own (`Pipeline.Run`).
- Only the text from the first '.' on is cut before parsing. A timestamp with
  no fraction keeps its offset and reaches `strptime` (`NoFractionKeepsOffset`).
  A parse failure is not caught: it ends the classifier and the run
  (`Transitions.Analyze`, `ClassifierRaised`).
- `all_context` (the first 20 entries of `all_issues`) is built into
  `report_data` (createweeklyreport.py:203) but never used. The prompt
  (createweeklyreport.py:229-239) quotes only the started, completed, review
  and blocked lists, so the backend never sees the general context and the
  cut at 20 changes nothing it receives. `Report.Prepare` still models the
  list as the code builds it.
- A `description` key that is present with `null` is copied as `null` into
  `all_issues` and every transition record; only a missing key gives "".
- `SMTP_SERVER` and `SMTP_PORT` only appear in log lines. The profiles tried
  are hard-coded. Converting `SMTP_PORT` to an integer can still fail, and the
  outer handler then returns false. The model carries this as
  `portIsInteger`.

## Model

| member | source | states |
|---|---|---|
| `Transitions.AnalyzeStatusTransitions` | createweeklyreport.py:97-187 | the walk over tickets returns exactly `Analyze`: the five transition buckets, `blocked_issues` and `all_issues`, or failure when a timestamp does not parse |
| `Transitions.Analyze` | createweeklyreport.py:113-152 | the classifier's result fails exactly when some history entry of some ticket has a timestamp that does not parse; otherwise `all_issues` has one summary per ticket, in input order |
| `Transitions.FileTicketHistory` | createweeklyreport.py:145-157 | the walk over one ticket's history entries succeeds exactly when every entry's timestamp parses, and then appends that ticket's in-window records to their buckets |
| `Transitions.FileEntry` | createweeklyreport.py:148-157 | one history entry: the timestamp comes from the text before the first '.', and when it parses the entry's in-window records are appended to their buckets |
| `Transitions.FileStatusChanges` | createweeklyreport.py:156-185 | the walk over one entry's items appends the record of each status item to the bucket its destination classifies into |
| `Transitions.DistributeSnoc` | createweeklyreport.py:174-185 | one more record extends exactly the one bucket it classifies into and leaves the other four unchanged |
| `Transitions.Summarize` | createweeklyreport.py:114-131 | the `all_issues` record carries the ticket's key, summary, status and type; "Unassigned" and "None" for a `null` assignee or priority; "" for a missing description and `null` for a `null` one |
| `Transitions.BlockedRecord` | createweeklyreport.py:134-142 | the `blocked_issues` record is the `all_issues` record without its description |
| `Transitions.MakeRecord` | createweeklyreport.py:156-171 | a transition record holds the change's two statuses ("" for a missing key), the entry's time, and the ticket's fields exactly as its `all_issues` record has them |
| `Transitions.AnalyzeFails` | createweeklyreport.py:148-152 | one ticket with a history timestamp that does not parse makes the whole classifier call fail |
| `Transitions.IsBlocked` | createweeklyreport.py:117-134 | a ticket is blocked exactly when its lower-cased status contains "blocked" or its priority object is named "Blocker"; a missing priority never counts |
| `Classification.Classify` | createweeklyreport.py:174-185 | the bucket is the first, in the order progress, review, closed, done, resolved, whose word occurs in the lower-cased destination; no bucket when none occurs |
| `Classification.RedundantTests` | createweeklyreport.py:176-178 | the "in progress" and "code review" tests are subsumed by the "progress" and "review" tests |
| `Classification.CodeReviewIsReview` | createweeklyreport.py:176-179 | a status that lowers to "code review" classifies as review, not started |
| `Classification.ReviewBeatsDone` | createweeklyreport.py:176-183 | a status that lowers to "review done" classifies as review, not done: the first test that matches wins |
| `Classification.InProgressIsStarted` | createweeklyreport.py:176-177 | a status that lowers to "in progress" classifies as started |
| `Classification.DoneIsDone` | createweeklyreport.py:176-183 | a status that lowers to "done" classifies as done |
| `Classification.OpenIsDropped` | createweeklyreport.py:174-185 | a status that lowers to "open" matches no test and gets no bucket |
| `Classification.TrackerSpellings` | createweeklyreport.py:175 | the tracker's spellings "Code Review", "Review Done", "In Progress", "Done" and "Open" lower to the texts above |
| `Text.Lower` | createweeklyreport.py:175 | lower-casing keeps the length and maps each character on its own |
| `Text.Contains` | createweeklyreport.py:176-185 | the scan from the front is true exactly when the substring occurs at some position |
| `Text.BeforeFirstDot` | createweeklyreport.py:152 | the cut is a prefix of the text, contains no '.', and is followed by '.' unless it is the whole text |
| `TransitionFacts.BeforeFirstDotAt` | createweeklyreport.py:152 | that prefix is unique: any prefix with no '.' that ends at a '.' or at the end is the cut |
| `TransitionFacts.TrackerTimestampCut` | createweeklyreport.py:151-152 | the tracker's format `2024-01-15T10:30:45.123+0000` is cut to `2024-01-15T10:30:45` |
| `TransitionFacts.NoFractionKeepsOffset` | createweeklyreport.py:151-152 | a timestamp without a fraction is not cut, so its offset reaches the parser |
| `TransitionFacts.BlockedOfAppend` | createweeklyreport.py:133-142 | `blocked_issues` keeps input order: the blocked tickets of a concatenation are those of each part, concatenated |
| `TransitionFacts.BlockedSound` | createweeklyreport.py:133-142 | every entry of `blocked_issues` is the record of a ticket passing the blocked test |
| `TransitionFacts.BlockedComplete` | createweeklyreport.py:133-142 | every ticket passing the blocked test has its record in `blocked_issues` |
| `TransitionFacts.BlockedMembership` | createweeklyreport.py:133-142 | a summary is in `blocked_issues` exactly when it is that of a ticket passing the blocked test |
| `TransitionFacts.TicketBucketsIgnoreHistory` | createweeklyreport.py:113-142 | `all_issues` and `blocked_issues` do not depend on the changelog |
| `TransitionFacts.BlockedWaitingIsBlocked` | createweeklyreport.py:134 | status "Blocked - Waiting" is blocked whatever the priority |
| `TransitionFacts.MissingFieldDefaults` | createweeklyreport.py:117-118 | a `null` assignee reads "Unassigned" and a `null` priority "None" in every record built from the ticket |
| `TransitionFacts.RecordsAgreeWithSummary` | createweeklyreport.py:114-171 | the blocked record is the `all_issues` record without its description, and a transition record repeats the `all_issues` record's key, summary, assignee, priority, type and description |
| `TransitionFacts.RecordCarriesTicket` | createweeklyreport.py:114-171 | every transition record of a ticket carries its key, summary, type and description, with the defaults for missing fields |
| `TransitionFacts.ItemRecordsSound` | createweeklyreport.py:156-171 | every record of an entry comes from one of its items whose field is "status" |
| `TransitionFacts.ItemRecordsComplete` | createweeklyreport.py:156-171 | every status item of an entry yields its record |
| `TransitionFacts.HistoryRecordsSound` | createweeklyreport.py:148-171 | every record of a ticket comes from a status item of an entry dated at or after the cutoff |
| `TransitionFacts.HistoryRecordsComplete` | createweeklyreport.py:148-171 | every status item of an entry dated at or after the cutoff yields its record |
| `TransitionFacts.RecordsSound` | createweeklyreport.py:113-171 | every transition record comes from a status item of an in-window entry of some ticket |
| `TransitionFacts.RecordsComplete` | createweeklyreport.py:113-171 | every status item of every in-window entry of every ticket yields its record |
| `TransitionFacts.NoEntryInWindow` | createweeklyreport.py:148-157 | a ticket with no history entry in the window contributes no transition record |
| `TransitionFacts.NoStatusChange` | createweeklyreport.py:156-157 | items whose field is not "status" yield no record |
| `TransitionFacts.TwoStatusItemsTwoRecords` | createweeklyreport.py:156-157 | one entry with two status items yields two records, in item order |
| `TransitionFacts.PickMembership` | createweeklyreport.py:174-185 | a record is kept for a classification exactly when it is one of the records and classifies that way |
| `TransitionFacts.BucketMembership` | createweeklyreport.py:174-185 | a record is in a bucket exactly when it is one of the records and its destination classifies into that bucket |
| `TransitionFacts.BucketsDisjoint` | createweeklyreport.py:176-185 | no record is in two buckets |
| `TransitionFacts.PickPartition` | createweeklyreport.py:174-185 | the five buckets and the dropped records together account for every record exactly once |
| `TransitionFacts.AnalyzedBuckets` | createweeklyreport.py:148-185 | in the classifier's result, bucket membership is "in-window status item whose destination classifies here", and together the five buckets hold no more entries than there are (ticket, entry, item) positions of in-window status items |
| `TransitionFacts.ItemCount` | createweeklyreport.py:166-185 | the items of one history entry give exactly one record per item whose field is "status" |
| `TransitionFacts.HistoryCount` | createweeklyreport.py:155-185 | a ticket's history entries give exactly one record per status item of an entry dated at or after the cutoff |
| `TransitionFacts.RecordsCount` | createweeklyreport.py:148-185 | the tickets give exactly as many transition records as there are (ticket, entry, item) positions of in-window status items |
| `TransitionFacts.CutoffIsInclusive` | createweeklyreport.py:155 | an entry dated exactly at the cutoff is counted |
| `TransitionFacts.BeforeCutoffIsIgnored` | createweeklyreport.py:155 | an entry dated one tick before the cutoff is not counted |
| `TransitionFacts.BlockerInProgressIsBoth` | createweeklyreport.py:134-177 | a Blocker-priority ticket moved to In Progress in the window is both in `blocked_issues` and in `moved_to_in_progress` |
| `Report.EmptyDataShortCircuits` | createweeklyreport.py:194-195 | with no tickets the result is the no-data message, whatever the backend would return |
| `Report.CompletedItemsLayout` | createweeklyreport.py:200 | the completed items are the closed, then the done, then the resolved records, each in bucket order |
| `Report.CompletedOfDistribute` | createweeklyreport.py:200 | a record is in the closed, done or resolved bucket exactly when it is one of the records and classifies as one of those three |
| `Report.PreparedFromAnalysis` | createweeklyreport.py:194-204 | on the classifier's result, the short-circuit happens exactly when there are no tickets, and a record is completed exactly when it is an in-window status change that classifies as closed, done or resolved |
| `Report.Prepare` | createweeklyreport.py:194-204 | the short-circuit happens exactly when `all_issues` is empty; otherwise started, review and blocked items are their buckets, a record is completed exactly when it is closed, done or resolved, and the context is the first min(20, n) summaries |
| `Report.GenerateReport` | createweeklyreport.py:194-252 | with no tickets the result is the no-data message; otherwise it is the backend's text verbatim, or the placeholder carrying the error message |
| `Jira.JoinQuoted` | createweeklyreport.py:62 | the joined component list is empty exactly when there are no components, and otherwise starts and ends with a quote |
| `Jira.JoinQuotedRoundTrip` | createweeklyreport.py:62 | reading back the joined list of quote-free component names yields exactly those names, in order, with nothing left over |
| `Jira.ReadListJoin` | createweeklyreport.py:62 | the joined list of quote-free names, followed by text that cannot continue the list, reads back as those names and stops exactly at that text |
| `Jira.JqlQueryRoundTrip` | createweeklyreport.py:62-66 | reading back the filter built from quote-free values yields the project from the project clause, the components in order from the `component in (...)` clause, and the start date from the `updated >=` clause |
| `Jira.ReadComponentClauseOf` | createweeklyreport.py:62-66 | the filter text from ` AND component in (` on reads back as the components and the start date |
| `Jira.ReadDateClauseOf` | createweeklyreport.py:65 | the ` AND updated >= "..." ORDER BY updated DESC` tail reads back as the start date |
| `Jira.JoinQuotedMentions` | createweeklyreport.py:62 | every component name occurs, quoted, in the joined list |
| `Jira.ConfiguredComponents` | createweeklyreport.py:12 | the configured components join to `"Rosa", "rosa-team"` |
| `Jira.ConfiguredQueryRoundTrip` | createweeklyreport.py:62-66 | the filter built from the configured project "OCM" and components "Rosa" and "rosa-team" (lines 11-12) reads back as exactly those and the start date, for any quote-free start date |
| `Jira.QuoteInNameCollides` | createweeklyreport.py:62 | a name holding a quote joins exactly like two names, since nothing is escaped |
| `Jira.JqlQuery` | createweeklyreport.py:63-66 | the query names the project, every component and the start date, each quoted |
| `Email.FirstSuccess` | createweeklyreport.py:311-328 | the index found is that of a success with no success before it; none is found only when every attempt fails |
| `Email.FirstSuccessUnique` | createweeklyreport.py:311-328 | a success with no earlier success is the first success, and exactly that many profiles are tried |
| `Email.SendSucceedsIffSomeAttempt` | createweeklyreport.py:267-335 | `send_report_email` returns true exactly when the settings are usable and some profile's attempt completes without raising |
| `Email.CanSend` | createweeklyreport.py:265-269 | sending is attempted exactly when the port converts and none of sender, password and recipient is unset or empty |
| `Email.FallbackOrder` | createweeklyreport.py:300-309 | four profiles: the corporate relays first, the plain port-25 one before the rest; credentials only over TLS; the public server last |
| `Email.TryConfigs` | createweeklyreport.py:311-335 | profiles are tried in order up to and including the first success and no further; the result is true exactly when one succeeds; on failure every profile was tried and failed |
| `Email.SendReportEmail` | createweeklyreport.py:259-339 | with the sender, password or recipient unset (or an unconvertible port) nothing is tried and the result is false; otherwise the result is that of trying the fixed profile list |
| `Pipeline.RunWeeklyReport` | createweeklyreport.py:342-367 | the top level, calling the classifier and the sender, ends exactly as the function `Run` says |
| `Pipeline.Run` | createweeklyreport.py:348-367 | a run aborts exactly when the fetch failed or returned no tickets, stops in the classifier exactly when a timestamp does not parse, and otherwise reports the backend's text or the placeholder, with the sender's result |
| `Pipeline.EmptyFetchAborts` | createweeklyreport.py:350 | an empty ticket list aborts the run exactly like a failed fetch |
| `Pipeline.FailuresDoNotAbort` | createweeklyreport.py:350-364 | a failed backend call and a false result from the sender still end in a reported run |

## Left out

- Fetching from the tracker (`requests`, JSON decoding, HTTP error handling): network I/O. The fetch result is a parameter of `Run`.
- The prompt text, `json.dumps` and the call to the generation backend: an external service and free-form formatting. The backend reply is an input.
- MIME message construction and the `smtplib` calls (connect, STARTTLS, login, sendmail, quit): each profile's outcome is an input boolean.
- Reading environment variables and the `exit(1)` when a required one is missing: process plumbing.
- `datetime.now()`, `strptime` and `strftime`. Timestamps are integers, `cutoff` is a parameter, and parsing is a caller-supplied function. A transition record's `date` holds the parsed integer rather than the `'%Y-%m-%d %H:%M'` text.
- The cutoff is computed in local time while history timestamps are parsed with their offset dropped. This can shift the window by the local UTC offset. It depends on the real clock, and the model puts both on one clock.
- Console diagnostics (`print`).
- Text.Lower: maps only ASCII letters, whereas `str.lower()` folds all of Unicode.
- Missing required keys raise `KeyError` in the source. These are `key`, `fields`, `status`, `summary`, `issuetype`, `assignee`, `priority`, an entry's `created`, and the `displayName` or `name` inside a present assignee or priority object. The model's records always have them.
- A JSON `null` destination status makes `.lower()` raise in the source. The model reads an absent `fromString`/`toString` as "" and has no separate `null` for them.
- Component names containing a double quote are not escaped in the source, so they break the JQL filter; `Jira.JoinQuotedRoundTrip` and `Jira.JqlQueryRoundTrip` hold only for quote-free values (`Jira.QuoteInNameCollides`).
- An assignee or priority that is a JSON `null` or an empty object gets the default in the source. The model's `None` stands for `null` and the empty object alike; the model has only present-with-name or `null`.
- Email.SendSucceedsIffSomeAttempt: states what `send_report_email` returns, not whether the mail reached the server. `sendmail`, `quit()` and the success message run inside one `try` (createweeklyreport.py:311-331). If `sendmail` succeeds and `quit()` or the message then raises, that profile counts as failed. The next profile may then send the report again, or the function may return false although the mail went out. The model has one boolean per attempt and does not tell these apart.
- TransitionFacts.AnalyzedBuckets: bounds the total bucket size by the number of in-window status items rather than giving it exactly, because a status whose destination classifies as nothing is dropped. `TransitionFacts.RecordsCount` gives the exact number of records before bucketing.
