# Shipment tracking notifier, modelled in Dafny

The system polls a carrier's tracking service for every outstanding shipment and reconciles what it learns with three tables:

- `shipments` holds the active rows;
- `delivered` and `problem_orders` are the terminal tables.

For each row the handler does the following:

1. It writes the status entry `"code: description"`.
2. It applies a business-day aging rule to labels still waiting for the carrier (code `003`).
3. It keeps a location anchor: the last city seen, the day it was first seen and the business days spent there. After three such days the row counts as stuck.
4. It classifies the row. A delivered code moves the row to `delivered`. A problem (a configured problem code, the aging rule, or a stall) sends one notification e-mail:
   - a delay code flags the row `Delayed` and keeps it active, and a row already flagged is skipped;
   - any other problem flags the row `NotificationSent` and moves it to `problem_orders`.

At the end of a pass the handler reports:

- the rows processed;
- the deliveries;
- the notified orders grouped by status entry, in insertion order;
- the rows that raised a tracking error.

A second entry point ingests a batch of new shipments.

The project has five modules:

- `BusinessCalendar` (`calendar.dfy`): the business-day counter.
  - `CalculateDays` is the loop of the source.
  - It is proved equal to the recursive count `BusinessDays` and to the size of the set of counted days.
- `Records` and `Wrappers` (`records.dfy`): the rows, ingestion entries, tracking snapshots and configured code tables.
- `Reconciliation` (`reconcile.dfy`): the whole decision for one row as the pure function `Reconcile`. The lemmas state its classification, gating and precedence rules.
- `ProblemReport` (`report.dfy`): the report's grouping, `problem_order_data`. It is an insertion-ordered dictionary kept as a list of groups with distinct keys.
- `Store` (`store.dfy`): the three tables as the class `Database` with map fields.
  - `Ingest` performs ingestion.
  - `ProcessRow` reconciles one row. It updates the maps in place and is proved to produce `Reconcile`'s outcome.
  - `RunPass` is the reporting loop. It is proved against the pure folds `Outcomes`, `Applied`, `DeliveredCount`, `NoticesOf`, `ErrorsOf` and `GroupAll`.

Modelling conventions:

- Dates are day numbers: day 1 is 1 January of year 1, a Monday. So `Weekday(d) == (d - 1) % 7`, with Monday = 0.
- A flag is `true` when its column holds 'Yes'.
- An empty `lastLocation` stands for a NULL or empty column. The source tests both with the same falsy check.
- The holiday table and the code tables are parameters (`Config`), and so is the processing day `today`.
- What the carrier answers for a row is a `Fetch` value:
  - `BadJson`: the row is skipped;
  - `NoTrail`: the row is skipped;
  - `FetchFailed`: any other failure of the request, counted as a tracking error;
  - `Tracked(snapshot)`.
- Whether the notification e-mail is accepted is a boolean input, `sendOk`.

Behaviour of the code worth knowing:

- **Stalls.** A stall is just one more way to be a problem. There is no 3-day re-arm of `NotificationSent` and no informational-alert outcome; `NotificationSent` is written but never read (`NotificationSentNeverRead`).
- **New city.** A new city is anchored at today with zero days, not at the activity date.
- **Ingestion.** Ingestion is one plain INSERT per entry, with no upsert or deduplication.
- **Re-ingestion.** Ingestion does not look at `delivered` or `problem_orders`. An order held there can be ingested again; the batch commits and the order then rests in two tables at once. `Store.Database.Ingest` keeps the one-table invariant only for a batch whose orders are in no terminal table, so "no row returns to `shipments`" (`AppliedProgress`) holds within a pass, not across ingestions.
- **Missing subject line.** A problem code with no configured e-mail subject line (and not stuck) raises a lookup error before the send. The outer handler counts that as a tracking error (`ErrorIff`).
- **Missing city.** If the latest activity has no city, the location step is skipped, but classification goes on. The inner handler swallows that error.

## Model

| member | source | states |
|---|---|---|
| BusinessCalendar.CalculateDays | tracking_notifier.py:27-38 | the loop's count is the number of non-holiday weekdays in [date1, date2], i.e. the size of that set of days; it is 0 when date1 > date2 and at most the interval length otherwise |
| BusinessCalendar.BusinessDaysIsSetSize | tracking_notifier.py:34-37 | the recursive count equals the size of the set of counted days of the interval |
| BusinessCalendar.SingleDay | tracking_notifier.py:34-37 | a one-day interval counts 1 exactly when the day is a non-holiday weekday, otherwise 0 |
| BusinessCalendar.Split | tracking_notifier.py:34-37 | counting [lo, mid] and (mid, hi] separately adds up to the count of [lo, hi] |
| BusinessCalendar.MonotoneInEnd | tracking_notifier.py:34-37 | extending the end date never decreases the count |
| BusinessCalendar.MonotoneInStart | tracking_notifier.py:34-37 | moving the start date later never increases the count |
| BusinessCalendar.AddHoliday | tracking_notifier.py:35 | declaring one counted day of the interval a holiday lowers the count by exactly one |
| BusinessCalendar.SameCount | tracking_notifier.py:35 | two holiday tables that agree on the interval give the same count |
| BusinessCalendar.WorkWeek | tracking_notifier.py:35 | a Monday-to-Friday week without holidays counts five days |
| BusinessCalendar.WorkWeekWithFridayHoliday | tracking_notifier.py:35 | the same week with a holiday Friday counts four days |
| BusinessCalendar.Weekend | tracking_notifier.py:35 | a Saturday and the Sunday after it count nothing, whatever the holidays |
| Records.FromEntry | tracking_notifier.py:89-95 | an ingested entry becomes a row whose eleven other INSERT columns hold the entry's values (`ToEntry` of the row is the entry) and whose `LastLocationDate` is NULL |
| Records.EntryRoundTrip | tracking_notifier.py:89-95 | conversely, a row with a NULL `LastLocationDate` is exactly what inserting its own INSERT columns stores |
| Records.StatusEntry | tracking_notifier.py:165 | the status entry is the code, then ": ", then the description |
| Records.StatusEntryInjective | tracking_notifier.py:165 | for codes without a colon, equal status entries (the report's grouping keys) mean equal code and equal description, so a grouping key identifies the status it was built from |
| Reconciliation.Aged | tracking_notifier.py:181-182 | the aging rule: a `003` label more than two business days after shipping, so two days after the ship date at the earliest (the third day counting the ship date) |
| Reconciliation.Stalled | tracking_notifier.py:210-220 | a stall: the same non-empty city with a stored anchor date and at least three business days there, so two days after the anchor date at the earliest (the third day counting the anchor date) |
| Reconciliation.IsProblem | tracking_notifier.py:167-220 | a configured problem code is always a problem; any code but the problem codes and `003` is a problem exactly when stalled; on the ship date or the day after (before ship date + 2) only a problem code or a stall makes one (its partners `NotifiedIff` and `ErrorIff` tie it to the outcome) |
| Reconciliation.Relocate | tracking_notifier.py:196-228 | only the three anchor columns change; nothing is written without a city or without a stored location; a new city anchors at today with 0 days; the same city with a stored date recounts the business days from that date to today; the same city without a date anchors at today with 0 days; the row is stuck exactly when it stalled (same city, stored date, at least 3 business days) |
| Reconciliation.Reconcile | tracking_notifier.py:147-177 | the identifying columns never change; without a snapshot the row is left untouched, and only a failed request is an error; with a snapshot the status column becomes "code: description" |
| Reconciliation.Settle | tracking_notifier.py:234-321 | once the status and anchor are written, only the three flags may change; its partner lemmas `DeliveredFirst`, `NoticeOnlyOnSend`, `FlagsOnlyRise`, `RepeatedDelaySuppressed`, `FirstDelayFlagged`, `ProblemMoved`, `FailedSendChangesNoFlag` and `SettleIgnoresNotificationSent` state its precedence: delivered first, a flagged delay skipped, a missing subject line an error, a failed send no change, a delay flagged in place, any other problem moved |
| Reconciliation.DeliveredFirst | tracking_notifier.py:234-251 | a row moves to `delivered` exactly when its code is a delivered code, whatever the problem, stall and delay flags; it is then marked delivered, files no report entry and is no error |
| Reconciliation.NoticeOnlyOnSend | tracking_notifier.py:281-321 | only a successful send moves a row to `problem_orders`, having set `NotificationSent`; a report entry is filed only after a successful send, under the status entry, with the row's order details; an error leaves the row active with no entry |
| Reconciliation.FlagsOnlyRise | tracking_notifier.py:234-310 | `Delayed`, `NotificationSent` and `Delivered` only go from 'No' to 'Yes', each only with its own action (delay notice, problem move, delivery) |
| Reconciliation.NotifiedIff | tracking_notifier.py:252-283 | for a non-delivered code, a notification is filed exactly when the row is a problem (problem code, aging rule or stall), is not an already-flagged delay, has a subject line or is stuck, and the send succeeds |
| Reconciliation.ErrorIff | tracking_notifier.py:264-327 | a row is a tracking error exactly when the request fails, or when a non-delivered problem that is neither an already-flagged delay nor stuck has no subject line |
| Reconciliation.NoProblemNoAction | tracking_notifier.py:234-252 | a row that is neither delivered nor a problem only gets its status and anchor columns written |
| Reconciliation.RepeatedDelaySuppressed | tracking_notifier.py:253-264 | a delay on a row already flagged `Delayed` sends nothing, changes no flag, moves nothing and files no entry |
| Reconciliation.FirstDelayFlagged | tracking_notifier.py:286-292 | a first delay with a successful send sets `Delayed`, keeps the row active and files the entry |
| Reconciliation.ProblemMoved | tracking_notifier.py:293-319 | a non-delay problem with a successful send sets `NotificationSent`, moves the row to `problem_orders` and files the entry |
| Reconciliation.FailedSendChangesNoFlag | tracking_notifier.py:320-321 | a failed send changes no flag, moves nothing and files nothing |
| Reconciliation.NotificationSentNeverRead | tracking_notifier.py:296 | the outcome's table, entry, error, `Delayed` and day count do not depend on the stored `NotificationSent` |
| Reconciliation.RelocateIgnoresNotificationSent | tracking_notifier.py:196-228 | the anchor bookkeeping neither reads nor writes `NotificationSent` |
| Reconciliation.SettleIgnoresNotificationSent | tracking_notifier.py:234-319 | the decision after the anchor step does not read `NotificationSent` |
| Reconciliation.DaysAccumulate | tracking_notifier.py:208-217 | two polls at the same city: the second count is the first plus the business days after the first poll |
| Reconciliation.StallAfterMove | tracking_notifier.py:200-220 | after a move on day t1, a later poll at the same city on t2 counts the business days of [t1, t2] and is stuck exactly when there are at least three |
| ProblemReport.File | tracking_notifier.py:312 | `setdefault(key, []).append(order)` adds at most one group; its partner lemmas `FileKeys`, `FileDistinct`, `FileOrders` and `FileTotal` state that a new key goes last, keys stay distinct, the order is appended under its key only, and the total grows by one |
| ProblemReport.FileKeys | tracking_notifier.py:312 | `setdefault` keeps the keys in order, adding a new key last |
| ProblemReport.FileDistinct | tracking_notifier.py:312 | filing keeps the grouping a dictionary (no key twice) |
| ProblemReport.FileOrders | tracking_notifier.py:312-319 | filing appends the order under its key and changes no other key |
| ProblemReport.FileTotal | tracking_notifier.py:312-319 | filing adds exactly one order to the total |
| ProblemReport.GroupAllDistinct | tracking_notifier.py:312-319 | the grouping of a pass has distinct keys |
| ProblemReport.GroupAllTotal | tracking_notifier.py:334 | the problem total (sum of group sizes) equals the number of notified orders |
| ProblemReport.GroupAllOrders | tracking_notifier.py:312-319 | each key lists exactly the orders notified under it, in processing order |
| ProblemReport.GroupAllKeys | tracking_notifier.py:312-319 | the keys appear in the order of their first notification |
| Store.Tally | tracking_notifier.py:234-327 | folding one more outcome keeps the counters and lists equal to those of the outcomes so far: processed, delivered, errors == len(error_orders), and the grouping of the notices |
| Store.TallyExtend | tracking_notifier.py:234-327 | one more outcome adds its delivery, its notice and its error to the running counts and lists |
| Store.CountsAreExclusive | tracking_notifier.py:234-327 | each row is at most one of delivered, notified or an error, so the three counts add up to at most the rows processed |
| Store.OutcomesKeyed | tracking_notifier.py:172-174 | every outcome keeps its row's order number |
| Store.SettleKeepsTablesValid | tracking_notifier.py:236-310 | settling one active row, in place or by a copy-and-delete move, keeps every order in at most one table under its own key |
| Store.AppliedProgress | tracking_notifier.py:126-321 | after settling the first rows of a pass, each is placed by its outcome (active rows rewritten, moved rows only in their terminal table), the rows not yet reached are as selected, no row returns to `shipments`, and terminal rows from before are untouched |
| Store.AppliedValid | tracking_notifier.py:236-310 | a pass keeps every order in at most one table |
| Store.SelectionIsTable | tracking_notifier.py:115-126 | selecting every row once is the same as selecting exactly the table's order numbers without repeats |
| Store.StagedHas | tracking_notifier.py:82-98 | an order number is present after staging exactly when it was stored or is one of the inserted entries |
| Store.Staged | tracking_notifier.py:84-98 | inserting never removes a stored order number and stores the last inserted entry as its row; `StagedHas`, `StagedKeys` and `StagedRows` give the whole table |
| Store.StagedKeys | tracking_notifier.py:82-101 | after ingestion the keys are the stored ones plus the batch's order numbers |
| Store.StagedRows | tracking_notifier.py:82-101 | in a fresh batch every entry is stored as its row and every stored row is kept |
| Store.StagedValid | tracking_notifier.py:82-101 | ingesting a fresh batch whose orders are in no terminal table keeps every order in at most one table |
| Store.Database.Ingest | tracking_notifier.py:65-101 | the batch commits exactly when its order numbers are distinct and new; then `shipments` is the staged table, otherwise nothing changes; the terminal tables never change |
| Store.Database.UpdateAnchor | tracking_notifier.py:184-233 | `shipments` gets exactly the anchor row of `Relocate`, and stuck is its verdict |
| Store.Database.ProcessRow | tracking_notifier.py:129-321 | the outcome is `Reconcile` of the stored row, and the three tables are updated accordingly: an active row rewritten in place, a delivered or problem row copied to its table and deleted from `shipments` |
| Store.Database.ProcessTracked | tracking_notifier.py:161-321 | with a snapshot, the writes in source order produce `Reconcile`'s outcome and table updates |
| Store.Database.Dispatch | tracking_notifier.py:234-319 | the delivery or notification step produces `Settle`'s outcome and table updates |
| Store.Database.Advance | tracking_notifier.py:126-327 | one iteration of the pass extends the outcomes by `Reconcile` of the selected row, the report by that outcome, and the tables by its move |
| Store.Database.RunPass | tracking_notifier.py:115-334 | the pass's outcomes are `Reconcile` of each selected row; total == processed == rows selected; the delivered count, error list (errors == its length) and grouping are those of the outcomes, with a problem total equal to the notices; the tables are the outcomes applied in order; the single-table invariant is preserved |

## Left out

- The UPS OAuth token request and the HTTP tracking request are network I/O. They are not part of this model. Their result is the `Fetch` input, and the payload checks become the `BadJson`/`NoTrail` cases.
- SendGrid mail construction and sending are a foreign call. Each send is the boolean input `sendOk`.
- The final report e-mail and its send are not modelled.
- The HTML of the notification and of the report, and the subject-line texts, are presentation. Only whether a subject line exists for a code is modelled (`Config.subjectCodes`).
- The PostgreSQL connection, cursors and final commit are replaced by in-memory maps.
- Per-statement database failures are left out; the model assumes every statement succeeds. In the code, the handlers at tracking_notifier.py:175, 192, 205, 215 and 226 name `psycopg2`, which is never imported (only `extras`, `connect` and `Error` are), so reaching one raises a NameError and their `continue`s cannot run. A failed StatusCode UPDATE then ends in the outer handler and counts as a tracking error; a failed location SELECT or UPDATE is swallowed by the `except Exception` at line 232 and classification goes on with the row not stuck. Only a failed Delayed SELECT (lines 255-261) skips the row. The swallowed errors of the move statements are left out as well.
- Store.Database.RunPass uses one `today` for the whole pass. The code reads the clock again for every row (line 179), so a pass that crosses midnight uses two dates.
- The "No record found" branch (tracking_notifier.py:229-231) cannot happen in the model, because the row being processed is in `shipments`.
- The wall clock and the Pacific time zone are left out: `today` is a parameter. `strptime` parsing is replaced by day numbers.
- The contents of the configuration tables (codes, subject lines, the 2023 holiday list) are parameters.
- Store.Database.Ingest assumes `OrderNumber` is the key of `shipments`, so a repeated or already stored order number fails its INSERT. The failure is uncaught, so the handler ends before the commit and the whole batch is discarded. Other INSERT failures are not modelled.
- Store.Database.RunPass takes the rows of a pass as a sequence that selects each row of `shipments` once, in the order the SELECT returns them. That order is an input, not a modelled property of the database.
- The source re-reads `LastLocation`, `LastLocationDate` and `Delayed` from the table in mid-row. The model reads them from the row as already rewritten by the same iteration. Since nothing else writes the row meanwhile, the values are the same.
