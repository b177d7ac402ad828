# RazorTrust settlement-hold rules in Dafny

RazorTrust decides whether a merchant settlement may be released, needs evidence or must be
escalated. What makes it hard is bookkeeping: what was known when, who may release, and records that
must stay consistent when calls repeat, race or arrive late. This project models that logic and proves
what it promises. `dafny verify dfyconfig.toml` checks everything.

Instants are integers (microseconds since the epoch, UTC; a CSV row or a database column that has
already been parsed), rates and amounts are `real`. The digest, the device hash, fresh UUIDs, the clock,
provider answers and the floating-point library's `log` and `sqrt` are parameters. Of the logarithm only
`ln(xy) = ln x + ln y` and `ln x <= x - 1` are used; of the digest only that it is injective, and only
where tamper evidence needs it.

## Layout

- `Wrappers`, `Sequences`, `Instants`, `Text`, `RealMath`: options and results, filtering and stable
  sorting, calendar dates, ASCII text, sums and deviations.
- `Observations`, `Selection`: append-only observations and the two latest-per-entity algorithms, each as
  a loop over an insertion-ordered dictionary and as a function; what they select, when they agree, and
  when a database filter may be pushed below them.
- `Timeline`, `SnapshotMeaning`: the point-in-time snapshot, its quality report and its database-backed form;
  what each metric, issue and verdict says of the rows shown.
- `Regression`, `Histogram`, `Features`, `FeatureMeaning`, `ReferenceMass`: the least-squares slope, the
  smoothed histograms and their divergence, the thirteen features with their declared bounds, what each slot
  says of the window, and for which baselines every non-empty window has a feature vector.
- `BaselineBuilder`, `BaselineMeaning`: the thirty-day baseline, and what each of its fields says of the span.
- `LiveFeatures`, `EventMeaning`, `Firewall`, `LivePreview`: the telemetry join, the preview and its
  data-quality firewall, what is told of each payment, and what later changes to the store can reach a past
  preview.
- `OperatorHistory`, `ImportMeaning`, `HistoryNoLeak`, `HistoryTotal`: import validation, previews over
  imported history, what is stored and told of each row, and why previews cannot see the future.
- `HoldDomain`, `Policy`, `MemoryRepository`, `HoldRuns`, `HoldMeaning`, `EvidenceRound`: reviews, decisions
  and guardrails, the dictionary-based hold repository, what holds over all its runs, what those runs have
  recorded, and when the evidence round opens and closes in either repository.
- `SqlRepository`, `SqlAudit`, `Simulation`: the row-based repository, the audit chain and outbox it
  writes, and its simulation of the dictionary-based one.
- `Audit`: the hash-chained ledger file and its checkpoints.
- `Checkout`, `CheckoutMeaning`, `CheckoutRuns`, `CheckoutPayments`, `CheckoutWitnesses`: checkout sessions
  under webhooks, verified binds and reconciliation in any order, what each transaction leaves field by field,
  when two sessions share a payment, and short runs that show what can go wrong.
- `RateLimiter`, `Pareto`, `Federated`: the sliding-window limiter, the frontier of guard candidates, and
  clipped averaging with its sensitivity.

An object the source updates in place is a class; each of its methods is tied to a pure step function, and
the lemmas are about runs of those steps. What a function computes is told a second time, in terms of its
inputs alone, by the lemmas of the modules named `...Meaning`: counts as cardinalities, scores and means by
undoing them, latest and first rows by comparing with every other row.

## Where the code differs from what one might expect

Each entry names the exact condition and a concrete input or run where it bites.

- Push-down loses a row when a provider clock runs ahead of the service's: `Timeline.StoreSnapshotExact`,
  `Selection.SkewedClockLosesRow`.
- A past snapshot is not fixed by what was known then: it counts webhook events by a status that changes
  later (`Timeline.StoreSnapshotStable`, `Timeline.LateProcessingUnblocks`).
- A past live preview is not fixed either: it reads current order ids and payment ids filled in later
  (`LivePreview.LivePreviewExact`, `LivePreview.LateOrderIdChangesPreview`).
- The two latest-per-entity algorithms break ties in opposite directions (`Selection.TieBreaksDiffer`).
- A baseline passes validation with empty bins and a mass up to 1.001, yet every non-empty window builds only
  if the reference, floored, has mass at most one (`ReferenceMass.EveryWindowBuildsExactly`): a single bin of
  mass 1.001 builds no window at all (`ReferenceMass.OverweightBinNeverBuilds`), and mass one with an empty
  bin fails some window of at least 250 000 transactions (`ReferenceMass.EmptyBinSometimesFails`).
- The thirty daily volumes miss the thirty-first calendar date an unaligned window touches
  (`BaselineBuilder.VolumesConserved`, `BaselineBuilder.ThirtyFirstDateLost`).
- An imported row with refund amount zero may carry one refund timestamp only; the preview then raises
  (`HistoryTotal.ImportedPreviewExact`, `HistoryTotal.DanglingRefundRaises`).
- RESOLVED and DENIED are not terminal (`HoldRuns.LeavesDecided`, `HoldRuns.ResolvedThenReopened`), and a
  legacy CLEARED outcome is not held to the AI-agreement check (`HoldRuns.LegacyClearanceBypassesAgreement`,
  `HoldRuns.ClearedAgainstAdvice`).
- The two repositories agree on the current decision only while decisions are saved in increasing time
  (`Simulation.TimestampsMatter`, `Simulation.OutOfOrderDecisionsDiverge`).
- A late event on a paid checkout session overwrites its payment (`CheckoutRuns.LateEventRebinds`,
  `CheckoutWitnesses.PaidThenRebound`), and a reconciliation that fetched before the payment undoes PAID
  (`CheckoutRuns.StaleReconcile`, `CheckoutWitnesses.PaidThenUndone`).
- Binding does not look at the other sessions: without the caller's check of the provider's payment record
  two sessions can carry one payment (`CheckoutPayments.BindShares`, `CheckoutWitnesses.UnguardedBindsShare`).
- `CostPolicy.choose` computes a cost-minimal candidate and then always replaces it (`Policy.Choose`).
- The human-only model's description says it never recommends RELEASE (src/razortrust/risk.py:91-96). That
  holds for its own fixed thresholds, but not of the policy as such: called with a release threshold of zero,
  it makes RELEASE of that model's prediction (`Policy.HumanOnlyEscalates`).
- The federated noise is calibrated to the sensitivity of the round as it stands; a client that changes its
  sample count along with its update can move the average further (`Federated.SensitivityBound`,
  `Federated.CountsMatter`).

## Model

| member | source | states |
|---|---|---|
| Observations.SelectLatestBy | src/razortrust/live_features.py:279-285 | the overwriting loop over an insertion-ordered dictionary returns the rows the forward selection defines, in dictionary order |
| Observations.SelectLatestAsOf | src/razortrust/processor_timeline.py:144-152 | the skip-the-future, first-wins loop and its final sort return the rows the backward selection defines |
| Selection.LatestBySelects | src/razortrust/live_features.py:279-285 | exactly one row per entity, and no row of that entity was learned later |
| Selection.LatestAsOfSelects | src/razortrust/processor_timeline.py:144-152 | the same among the rows known at the cutoff |
| Selection.AlgorithmsAgree | src/razortrust/processor_timeline.py:144-152 | both algorithms give the same map from entities to rows when no entity is observed twice at one instant |
| Selection.TieBreaksDiffer | src/razortrust/live_features.py:283-285 | on a tie one keeps the last arrival, the other the first |
| Selection.FutureIrrelevant | src/razortrust/processor_timeline.py:144-152 | rows learned after the cutoff never change the selection, wherever they stand |
| Selection.ArrivalOrderIrrelevant | src/razortrust/processor_timeline.py:144-152 | permuting the rows known at the cutoff changes nothing when no two of them were learned at once, whatever rows follow later |
| Selection.SelectedExactly | src/razortrust/processor_timeline.py:144-152 | with distinct knowledge times, a row is selected exactly when it is a known input row with no later known row of its entity |
| Selection.PushDownExact | src/razortrust/processor_timeline.py:471-507 | over the input rows: filtering by knowledge time before selecting gives the same window rows exactly when no known row has its event time in the window, its knowledge time before it and no later known row of its entity |
| Selection.PushDownSelected | src/razortrust/processor_timeline.py:471-507 | without any condition on ties: exactly when no selected window row was learned before the window |
| Selection.PushDownPreserves | src/razortrust/processor_timeline.py:471-507 | which holds whenever no event time runs ahead of its knowledge time |
| Selection.SkewedClockLosesRow | src/razortrust/processor_timeline.py:471-507 | a concrete family of rows the pushed-down query loses |
| Selection.WindowThenLatest | src/razortrust/live_features.py:455-461 | windowing before or after selecting is the same when an entity's observations share their event time |
| Selection.PipelinesAgree | src/razortrust/live_features.py:455-461 | so window-then-overwrite and first-wins-then-window select the same map |
| Selection.LatestByRestate | src/razortrust/live_features.py:279-285 | selection never looks at what a row says |
| Timeline.AssessQuality | src/razortrust/processor_timeline.py:160-286 | the issue-appending report equals the eight checks in order |
| Timeline.FirewallMeaning | src/razortrust/processor_timeline.py:160-286 | the firewall blocks exactly on one of the six critical conditions; a pass means nothing to report; the counters add up to the issues |
| Timeline.TakeSnapshot | src/razortrust/processor_timeline.py:324-423 | the assembled snapshot, or an error exactly for a lookback outside 1..720 hours; what it says of the rows it shows is `SnapshotMeaning.SnapshotExactly` |
| Timeline.SnapshotSound | src/razortrust/processor_timeline.py:324-423 | shows one known, latest row per entity inside the window; method counts sum to the payment count; no shown row lacks its event time |
| Timeline.SnapshotIgnoresFuture | src/razortrust/processor_timeline.py:324-423 | two histories equal up to the cutoff give the same snapshot |
| Timeline.SnapshotIgnoresArrivalOrder | src/razortrust/processor_timeline.py:324-423 | so permuting the known rows of each list does not change the snapshot |
| Timeline.StoreSnapshotExact | src/razortrust/processor_timeline.py:455-582 | over the stored rows: the database-backed snapshot equals the full one exactly when none of the four lists has a known row with its event time in the window, its knowledge time before it and no known successor |
| Timeline.StoreSnapshotSelected | src/razortrust/processor_timeline.py:455-582 | without any condition on ties: exactly when no shown row was learned before the window |
| Timeline.StoreSnapshotPreserved | src/razortrust/processor_timeline.py:455-582 | in particular when event times never run ahead of knowledge times |
| Timeline.StoreSnapshotStable | src/razortrust/processor_timeline.py:455-582 | whatever is observed after the cutoff, the stored snapshot stays the same exactly when the number of unresolved webhook events received in its window does |
| Timeline.LateProcessingUnblocks | src/razortrust/processor_timeline.py:508-517 | an event received in the window and processed later turns a past snapshot with nothing else to report from BLOCKED to PASS |
| SnapshotMeaning.SnapshotExactly | src/razortrust/processor_timeline.py:324-423 | of every snapshot: its metrics are those of the rows shown, an issue is listed exactly when its own condition holds, with its own severity, the two counters count the issues by severity, and BLOCKED, PASS and the firewall say whether a critical issue, or none at all, is listed |
| SnapshotMeaning.MetricsExactly | src/razortrust/processor_timeline.py:363-382 | each count is the number of shown rows with that property; gross and refunded start at zero and grow by exactly the amount of a captured row, respectively of any row; each method is counted once per row that has it, missing or empty as "unknown"; a currency is listed exactly when a row of the four lists carries it |
| SnapshotMeaning.IssuesExactly | src/razortrust/processor_timeline.py:160-286 | when each of the eight issues is reported, and with which severity |
| SnapshotMeaning.ShownExactly | src/razortrust/processor_timeline.py:324-362 | which rows of a history a snapshot shows |
| SnapshotMeaning.UnresolvedExactly | src/razortrust/processor_timeline.py:508-517 | the unresolved events are those received in the window and neither processed nor skipped |
| Regression.DenominatorClosed | src/razortrust/features.py:57-58 | the denominator the code sums up is w(w^2-1)/12 |
| Regression.SlopeOptimal | src/razortrust/features.py:48-64 | no line has a smaller squared error than the one with the returned slope through the means |
| Histogram.BinMeaning | src/razortrust/features.py:67-79 | the edge-pair walk finds exactly the bin whose interval holds the amount |
| Histogram.CountAmounts | src/razortrust/features.py:67-79 | the counting loops compute the tally of bins |
| Histogram.TallyTotal | src/razortrust/features.py:67-79 | each amount is counted exactly once |
| Histogram.ProbabilitiesSound | src/razortrust/features.py:80-82 | every smoothed share is positive, at least the smoothing share, and they sum to one |
| Histogram.DivergenceAtLeast | src/razortrust/features.py:85-90 | from the tangent bound and the product law of the logarithm, the divergence is at least current mass minus floored reference mass |
| Histogram.ReferenceAboveFloor | src/razortrust/live_features.py:395-409 | a four-bin reference of fewer than a million amounts stays above the floor, so flooring changes nothing |
| Features.HourlyVolumeSlope | src/razortrust/features.py:48-64 | the bucket-counting loop yields the regression slope of the hourly counts |
| Features.HourCountsTotal | src/razortrust/features.py:48-56 | every event at or after the window start is counted in exactly one hour |
| Features.CurrentHistogramTotal | src/razortrust/features.py:67-82 | against any valid baseline the current histogram counts each amount of the window exactly once |
| Features.VolumeSlopeIsLeastSquares | src/razortrust/features.py:48-64 | counts, denominator and optimality together for the slope feature |
| Features.EntropyNonNegative | src/razortrust/features.py:33-38 | entropy is never negative |
| Features.VariationNonNegative | src/razortrust/features.py:41-45 | the coefficient of variation of non-negative gaps is never negative |
| Features.DivergenceNonNegative | src/razortrust/features.py:85-90 | the divergence feature is never negative when the floored reference has mass at most one |
| Features.DivergenceNonNegativeSmall | src/razortrust/features.py:67-90 | nor, whatever bins are empty, when the reference has mass at most one before flooring and the window has fewer than about 250 000 amounts |
| Features.VectorInBounds | src/razortrust/features.py:93-159 | for any valid baseline and non-empty window, every declared bound of the vector holds except that the divergence may be negative: the vector is inside its bounds exactly when it is not |
| Features.BuildTotal | src/razortrust/features.py:93-159 | for any valid baseline, building fails exactly when the window is empty or the divergence of its amounts is negative, each with its own error; what a built vector says is `FeatureMeaning.FeaturesExactly` |
| FeatureMeaning.WindowExactly | src/razortrust/features.py:93-104 | the window holds exactly the merchant's transactions from its first to its last instant, each as often as given, in time order |
| FeatureMeaning.FeaturesExactly | src/razortrust/features.py:93-159 | slot by slot, of every vector built: each score times its deviation plus its mean is the count, the sum, the mean, the refund share or the chargeback share of the window; each ratio times the window size counts unknown devices, unknown geographies or failed authorisations; no line fits the hourly counts better than the slope; the squared variation times the squared mean gap is the gap variance, zero for a zero mean; each entropy adds up one surprise per distinct value; the divergence is that of the window's smoothed shares |
| FeatureMeaning.EntropyOfEqual | src/razortrust/features.py:33-38 | k equally frequent values have entropy ln k |
| FeatureMeaning.EntropyOfOne | src/razortrust/features.py:33-38 | entropy is zero exactly when all values are the same |
| ReferenceMass.EveryWindowBuildsExactly | src/razortrust/features.py:85-159 | for a valid baseline whose bins all hold a positive amount, every non-empty window of acceptable transactions builds exactly when the floored reference has mass at most one |
| ReferenceMass.SmallWindowBuilds | src/razortrust/features.py:67-159 | with mass at most one before flooring, empty bins included, a window of up to about 250 000 transactions builds exactly when it is not empty |
| ReferenceMass.OverweightBinNeverBuilds | src/razortrust/domain.py:136-151 | one bin of mass 1.001 passes validation and no window builds against it |
| ReferenceMass.EmptyBinSometimesFails | src/razortrust/domain.py:136-151 | mass one with an empty bin passes validation, builds every non-empty window below 250 000 transactions, and fails some larger one |
| Features.FeaturesIgnoreFuture | src/razortrust/features.py:93-159 | transactions after the hold, and refunds or chargebacks after it, cannot change any feature |
| BaselineBuilder.GroupByDay | src/razortrust/live_features.py:357-361 | the grouping dictionary holds each date's span events in input order |
| Instants.DateExactly | src/razortrust/live_features.py:354-361 | a date lasts from its midnight to the next, a day of microseconds later |
| BaselineBuilder.CountReference | src/razortrust/live_features.py:395-406 | the threshold chain bins amounts exactly as the current histogram does |
| BaselineBuilder.WalkDays | src/razortrust/live_features.py:362-394 | daily refund and chargeback shares and the regrouped events |
| BaselineBuilder.DailySeries | src/razortrust/live_features.py:366-374 | counts and turnover of thirty calendar dates, empty days included |
| BaselineBuilder.MakeBaseline | src/razortrust/live_features.py:354-437 | the whole builder, with its one error; what a built baseline says of the span is `BaselineMeaning.BaselineExactly` |
| BaselineMeaning.SpanExactly | src/razortrust/live_features.py:354-361 | the span holds exactly the events from its start up to its end, each as often as given |
| BaselineMeaning.BaselineExactly | src/razortrust/live_features.py:354-437 | of every baseline built: thirty times the mean volume is the number of events on the thirty dates, and of the mean turnover their amount, each up to its floor; ticket mean times events is the sum of amounts; the rate means times the dates are the sums of the per-date shares; each deviation is the least value reaching the population deviation, its fixed floor and its share of the mean; the known devices and geographies are exactly those of the span; the edges are stated multiples of a median raised to at least one; the reference is the smoothed histogram of the span |
| BaselineBuilder.BaselineTotal | src/razortrust/live_features.py:354-437 | a span with an event and positive amounts always gives a baseline inside every declared bound, with reference mass one below a million events |
| BaselineBuilder.VolumesConserved | src/razortrust/live_features.py:366-374 | the volumes add up to the baseline events exactly when none falls on the thirty-first date |
| BaselineBuilder.ThirtyFirstDateLost | src/razortrust/live_features.py:366-374 | a span from one microsecond past midnight with an event in its last microsecond has that event in the baseline and in no daily volume |
| BaselineBuilder.VolumesConservedAligned | src/razortrust/live_features.py:366-374 | which never happens for a window starting at midnight |
| LiveFeatures.NormalStatus | src/razortrust/live_features.py:128-134 | each known status word is its own normal form; authorized, captured and refunded mean approved, failed means failed, an empty status means nothing |
| Text.StripExactly | src/razortrust/live_features.py:128-134 | stripping takes the spaces off both ends, and only them |
| Text.LowerExactly | src/razortrust/live_features.py:128-134 | lower case moves the capital letters to the small ones and leaves every other character |
| LiveFeatures.TelemetryMaps | src/razortrust/live_features.py:288-295 | latest telemetry per order and per non-empty payment |
| LiveFeatures.StatusTimestamps | src/razortrust/live_features.py:298-307 | first qualifying timestamp per payment in knowledge order |
| LiveFeatures.JoinSources | src/razortrust/live_features.py:319-322 | the four lookup maps of the event loop |
| LiveFeatures.CollectEvents | src/razortrust/live_features.py:323-351 | the event loop, with its three skips and its validation failure |
| LiveFeatures.MakeEvents | src/razortrust/live_features.py:310-351 | events of the latest payments |
| LiveFeatures.MakePreview | src/razortrust/live_features.py:440-551 | the whole preview |
| EventMeaning.EventExactly | src/razortrust/live_features.py:288-351 | a payment is told exactly when it is in INR, has an event time, a known status and telemetry to join; told are its own facts, the device and geography of the latest telemetry bound to it, else of its order, and the times of the first processed refund and the first dispute of that payment in knowledge order |
| EventMeaning.PreviewExactly | src/razortrust/live_features.py:440-551 | over the one latest row of each payment in the last thirty-one days: both window counts, both coverages as shares of rows told, every blocker exactly when its condition holds, a vector and shadow-score eligibility exactly when nothing blocks, and the vector that of the told events against the baseline built of them |
| EventMeaning.SelectedRows | src/razortrust/live_features.py:455-461 | the selected rows are one latest row of every payment with a row in the last thirty-one days |
| Firewall.EventsExact | src/razortrust/live_features.py:323-351 | the event loop raises exactly when some told event is out of bounds, and otherwise returns the tellable rows in order |
| Firewall.FirewallExact | src/razortrust/live_features.py:440-551 | a preview is returned exactly when every told event is valid and the current amounts do not diverge negatively from the baseline while nothing blocks, each failure with its own error; it carries a vector, and is eligible, exactly when nothing blocks; the vector is then inside every bound, events and latest payments are one-to-one, the current window is not empty and the baseline measured against is inside its bounds |
| Firewall.FirewallTotal | src/razortrust/live_features.py:440-551 | with fewer than a million selected payments in the baseline window or fewer than 250 000 in the current one, positive amounts and identifiers of the declared lengths are enough for a preview |
| LivePreview.LivePreviewExact | src/razortrust/live_features.py:204-276 | between two states of the store with the same observations up to the cutoff, what the preview is told changes exactly when the device or geography found for an eligible selected payment does; the preview changes only then |
| LivePreview.OrderIdReaches | src/razortrust/live_features.py:204-276 | a changed current order id reaches a payment exactly when its row carries no order id, no telemetry names the payment, and the two order ids lead to different signals |
| LivePreview.FillInReaches | src/razortrust/live_features.py:204-276 | filling payment ids into telemetry changes what is found only for the payments filled in |
| LivePreview.LivePreviewStable | src/razortrust/live_features.py:204-276 | so a past preview survives every later change that fills in other payments and touches current order ids only of payments that carry their own |
| LivePreview.LateOrderIdChangesPreview | src/razortrust/live_features.py:204-276 | a store of one payment and one telemetry row whose past preview changes when the order id is learned |
| OperatorHistory.ImportRows | src/razortrust/operator_history.py:317-460 | the validating loop with its uniqueness set accepts or rejects as specified, naming the first bad row, and counts exactly the rows labelled fraud |
| OperatorHistory.PreviewTransaction | src/razortrust/operator_history.py:547-662 | the list-building loop computes the preview of the target's knowledge time |
| ImportMeaning.GeoExactly | src/razortrust/operator_history.py:35 | a geography is two capitals followed by at most two groups of one to twelve capitals or digits, each behind a dash |
| ImportMeaning.RowExactly | src/razortrust/operator_history.py:324-412 | a row is accepted exactly when none of the fifteen faults applies to it, a full refund among the accepted, and else reported with the first that does |
| ImportMeaning.ImportExactly | src/razortrust/operator_history.py:317-462 | a file is imported exactly when it has one to ten thousand rows and none has a fault, seen below the rows above it; every row is then stored once, field by field; a refused file names its first offending row and that row's first fault |
| ImportMeaning.ImportedInOrder | src/razortrust/operator_history.py:461 | records come in event order and, at one instant, in the order of their identifiers |
| ImportMeaning.RecordToldExactly | src/razortrust/operator_history.py:569-662 | every known imported record in INR is told exactly as stored: refunded or charged back from when that happened, provided it was known by the cutoff |
| ImportMeaning.PaymentRowExactly | src/razortrust/operator_history.py:569-611 | the payment row of a record: captured by status, refunded only once the refund was observed, fully or partially |
| ImportMeaning.PreviewedAtObservation | src/razortrust/operator_history.py:547-567 | a transaction is previewed as of its own observation; it is not found exactly when no record has its id |
| HistoryNoLeak.PreviewOfViews | src/razortrust/operator_history.py:547-662 | a preview is a function of what each record known at the cutoff could tell then |
| HistoryNoLeak.PreviewDoesNotLeak | src/razortrust/operator_history.py:547-662 | histories that look alike through that view give the same preview, through selection, join, baseline and features |
| HistoryNoLeak.ApprovedStatusesAlike | src/razortrust/live_features.py:128-134 | swapping authorized, captured and refunded is invisible |
| HistoryNoLeak.InvisibleEdit | src/razortrust/operator_history.py:547-662 | replacing a record by one with the same view leaves the view of the whole history unchanged |
| HistoryNoLeak.InvisibleInsertion | src/razortrust/operator_history.py:547-662 | so does inserting a record observed after the cutoff |
| HistoryNoLeak.PreviewIgnoresEdit | src/razortrust/operator_history.py:547-662 | no preview changes when a record gets another label, method, refund amount, approved status, or refund or dispute not known by the cutoff, the target included |
| HistoryNoLeak.PreviewIgnoresLaterRecord | src/razortrust/operator_history.py:547-662 | nor when a record observed after the cutoff is replaced by any other such record not taking the target id |
| HistoryNoLeak.PreviewIgnoresInsertion | src/razortrust/operator_history.py:547-662 | nor when such a record is inserted or deleted anywhere |
| HistoryTotal.ImportSound | src/razortrust/operator_history.py:317-460 | an accepted import keeps every row, in event order, with unique ids and only valid records |
| HistoryTotal.GatherExact | src/razortrust/operator_history.py:569-645 | gathering fails exactly when a known record cannot be parsed; otherwise payment and telemetry rows are those of the known records, one each, in order |
| HistoryTotal.ImportedPreviewExact | src/razortrust/operator_history.py:547-662 | a preview of an imported dataset fails exactly when a known record has a dangling refund time; otherwise a vector inside the bounds appears exactly when nothing blocks |
| HistoryTotal.DanglingRefundIsZero | src/razortrust/operator_history.py:393-396 | the import lets such a record through only with refund amount zero |
| HistoryTotal.DanglingRefundRaises | src/razortrust/operator_history.py:547-662 | a file of one such row is imported, and the preview of its transaction raises |
| HistoryTotal.ImportedRowTold | src/razortrust/operator_history.py:547-662 | an imported row becomes an event unless its currency is not INR |
| HoldDomain.ReviewEffect | src/razortrust/domain.py:432-452 | a review resolves exactly when its label is legitimate, and denies exactly on confirmed fraud or an override to escalate |
| HoldDomain.MakeEvidence | src/razortrust/repository.py:190-200 | recency is never negative; the type mismatches exactly when the reason code expects another kind |
| HoldDomain.EvidenceExactly | src/razortrust/repository.py:190-200 | recency is the age of the observation at submission in hours; the kind matches exactly when the reason code expects none or this one |
| HoldDomain.ExpectedExactly | src/razortrust/repository.py:314-326 | which evidence each reason code expects |
| HoldDomain.LabelExactly | src/razortrust/repository.py:304-311 | RISKY exactly on confirmed fraud, LEGITIMATE exactly on a clearance, an approved release or an override to release |
| HoldDomain.RefusalExactly | src/razortrust/repository.py:229-240 | why a review is refused: an approval that was not recommended, an override that changes nothing, or a second request for evidence |
| Policy.Choose | src/razortrust/risk.py:135-154 | the candidate is decided by thresholds, novelty and round, never by cost; the cost returned is the candidate's |
| Policy.CandidateExactly | src/razortrust/risk.py:135-154 | when the candidate is a release and when it asks for evidence |
| Policy.CostExactly | src/razortrust/risk.py:156-161 | the expected cost is linear in the probabilities and, at certainty, the entry of the matrix |
| Policy.CheckOnlyEscalates | src/razortrust/policy.py:28-77 | the guardrails keep the candidate or escalate, and flag every change |
| Policy.ReleaseExactly | src/razortrust/policy.py:28-68 | when a release passes, and only then |
| Policy.EvidenceOnlyInFirstRound | src/razortrust/policy.py:57-67 | evidence is asked for only in round zero |
| Policy.EvidenceExactly | src/razortrust/policy.py:28-68 | the exact condition for evidence to be asked for |
| Policy.ReasonExactly | src/razortrust/policy.py:28-77 | when each of the eleven reasons is given |
| Policy.CheckedDecisionSavable | src/razortrust/policy.py:28-68 | a decision checked at the hold's round is never refused by the repository |
| Policy.HumanOnlyEscalates | src/razortrust/risk.py:91-112 | for any declared thresholds, the candidate from the human-only model's prediction is ESCALATE exactly when the release threshold is positive, and RELEASE when it is zero; never evidence |
| MemoryRepository.InMemoryHoldRepository.Create | src/razortrust/repository.py:107-115 | idempotent creation, with its whole new state |
| MemoryRepository.InMemoryHoldRepository.SaveDecision | src/razortrust/repository.py:150-166 | state, decision and reply of saving a decision; which evidence round it opens is `EvidenceRound.DecisionThenEvidence`, what it leaves recorded `HoldMeaning.RunRecords` |
| MemoryRepository.InMemoryHoldRepository.SubmitEvidence | src/razortrust/repository.py:176-208 | the single evidence round, its replay and its refusals |
| MemoryRepository.InMemoryHoldRepository.RecordAnalystReview | src/razortrust/repository.py:216-268 | the three review indexes, the state, the replay and the refusals |
| MemoryRepository.InMemoryHoldRepository.UpdateAnalystReviewAuditHash | src/razortrust/repository.py:270-282 | stamps the latest review in both places it is stored |
| MemoryRepository.StampKeepsInv | src/razortrust/repository.py:270-282 | the review indexes still agree after the stamp |
| MemoryRepository.RecordReviewKeepsInv | src/razortrust/repository.py:216-268 | a review keeps lifecycle and indexes consistent |
| HoldRuns.RunKeepsInv | src/razortrust/repository.py:107-282 | over every run: OPEN iff undecided, AWAITING_EVIDENCE only in round 0, EVIDENCE_SUBMITTED only in round 1, round 1 iff exactly one evidence record, all indexes agree |
| HoldRuns.NoLookupFailure | src/razortrust/repository.py:107-282 | no call of any run reads a dictionary at a missing key |
| HoldRuns.RunExtends | src/razortrust/repository.py:107-282 | over every run rounds never fall, evidence is never replaced, reviews are append-only up to the audit hash |
| HoldRuns.EvidenceReplay | src/razortrust/repository.py:176-184 | replaying an evidence request after any further run returns the stored record and changes nothing; another hold is refused |
| HoldRuns.ReviewReplay | src/razortrust/repository.py:216-224 | the same for reviews, up to the stamped hash |
| HoldRuns.OnlyReviewsDecide | src/razortrust/repository.py:249-260 | RESOLVED and DENIED are entered only by an accepted review of that hold |
| HoldRuns.AcceptedReviewExactly | src/razortrust/repository.py:226-260 | in any consistent repository a new review is accepted exactly when its hold awaits review or evidence and a human may do what it does there (approve only what the AI recommends, override only to another decision, ask for evidence once); each state it can leave has exactly the stated causes |
| HoldRuns.LegitimateResolves | src/razortrust/repository.py:241-260 | an accepted review enters RESOLVED iff its label is LEGITIMATE |
| HoldRuns.ResolvedByHuman | src/razortrust/repository.py:241-260 | after every run a resolved (denied) hold's latest review labels it legitimate (does not) |
| HoldRuns.PolicyNeverRefused | src/razortrust/repository.py:150-166 | a decision the guardrails allowed at the current round, before or after evidence, is never refused for a second evidence round |
| HoldRuns.PolicyRunAccepted | src/razortrust/repository.py:150-166 | in a whole run whose decisions were all so checked, no decision on a known hold is refused |
| HoldRuns.LeavesDecided | src/razortrust/repository.py:107-282 | for every command: a resolved or denied hold leaves those states exactly when the command is an accepted decision on it, and any other command leaves its state alone |
| HoldRuns.DecidedPersists | src/razortrust/repository.py:107-282 | over whole runs without such a decision a decided hold stays as it is |
| HoldRuns.ResolvedThenReopened | src/razortrust/repository.py:150-166 | a legal run from the empty repository that resolves a hold by review and reopens it |
| HoldRuns.LegacyClearanceBypassesAgreement | src/razortrust/repository.py:229-237 | CLEARED resolves whatever the AI said; APPROVE_RELEASE is accepted iff the AI said RELEASE |
| HoldRuns.ClearedAgainstAdvice | src/razortrust/repository.py:229-237 | a legal run from the empty repository that resolves by CLEARED a hold whose decision is ESCALATE |
| EvidenceRound.DecisionThenEvidence | src/razortrust/repository.py:150-208 | from any consistent state: an accepted decision that asks for evidence lets the next submission with an unused request in as new, which ends in EVIDENCE_SUBMITTED with round 1; after any other decision evidence is refused and the hold awaits review |
| EvidenceRound.DecisionThenEvidenceInRows | src/razortrust/database.py:271-446 | the same over rows, with either form of saving |
| EvidenceRound.EvidenceAcceptedExactly | src/razortrust/repository.py:107-282 | after any run, a new evidence request is accepted exactly when the hold's last accepted decision or review asked for evidence and none is stored |
| EvidenceRound.EvidenceAcceptedInRowsExactly | src/razortrust/database.py:194-596 | the same over rows |
| EvidenceRound.EvidenceAskedAndGiven | src/razortrust/repository.py:107-208 | the three-call run from the empty repository, in both of them |
| HoldMeaning.RunRecords | src/razortrust/repository.py:107-282 | after any run, everything stored of a hold is read off the calls accepted for it: who asked for it and when, the state and time of the last call, the last decision, the one evidence record and the reviews in order, field by field |
| HoldMeaning.RefusedExactly | src/razortrust/repository.py:107-268 | when each call is refused and why; a refused call changes nothing |
| SqlRepository.LatestMeaning | src/razortrust/database.py:373-384 | ORDER BY DESC LIMIT 1 yields a matching row no matching row outranks |
| SqlRepository.SqlHoldRepository.Create | src/razortrust/database.py:194-221 | idempotent creation over rows |
| SqlRepository.SqlHoldRepository.SaveDecision | src/razortrust/database.py:271-288 | appends a decision row and updates the hold; `EvidenceRound.DecisionThenEvidenceInRows` says what follows from each decision |
| SqlRepository.SqlHoldRepository.SaveDecisionAndAudit | src/razortrust/database.py:290-359 | decision, audit row and outbox row of one transaction; `EvidenceRound.DecisionThenEvidenceInRows` and `HoldMeaning.DecisionSays` say what follows and what is written |
| SqlRepository.SqlHoldRepository.SubmitEvidence | src/razortrust/database.py:386-446 | evidence with its unique constraints |
| SqlRepository.SqlHoldRepository.RecordAnalystReview | src/razortrust/database.py:457-596 | review, audit row and outbox row of one transaction |
| SqlAudit.RunKeepsTrail | src/razortrust/database.py:290-596 | over every run of audited calls: each case's rows are a valid chain from genesis numbered 1..k, the outbox mirrors them one-to-one under their topics, and decisions and reviews correspond one-to-one and in order to the audit rows of their kind, carrying those rows' hashes |
| SqlAudit.ChainGrows | src/razortrust/database.py:298-326 | a new record extends its own case's chain by one and no other case's |
| SqlAudit.GuardNeverFires | src/razortrust/audit.py:25-29 | the previous hash read from the rows always has the length the hash function insists on |
| SqlAudit.CaseTamperEvident | src/razortrust/database.py:361-371 | two valid trails of a case with equal length and last hash are the same rows |
| HoldMeaning.DecisionSays | src/razortrust/database.py:298-359 | an audited decision adds one row that carries its event and trace identifiers, kind, time and payload; the stored decision is the submitted one with that row's hash |
| HoldMeaning.ReviewSays | src/razortrust/database.py:500-596 | an accepted review adds one row likewise, with the recommendation it was made against |
| Simulation.RunsSimulate | src/razortrust/database.py:194-596 | for every run with increasing decision times, holds, decisions, evidence, reviews and labels found by every query agree between the two repositories, up to audit hashes |
| Simulation.RepliesAgree | src/razortrust/database.py:194-596 | and every call of the run was accepted or rejected alike, with the same reply |
| Simulation.StepSimulates | src/razortrust/repository.py:107-268 | the one-call case, from any related states |
| Simulation.TimestampsMatter | src/razortrust/database.py:373-384 | of decisions with different times, the current ones agree after saving exactly when the most recent stored one is older, and the next review reads the same verdict exactly when it is older or has the same verdict |
| Simulation.OutOfOrderDecisionsDiverge | src/razortrust/database.py:373-384 | three calls after which the dictionaries hold an escalation, the rows a release, and only the rows accept an approval |
| Audit.RenderParse | src/razortrust/audit.py:40-52 | a written record reads back unchanged after the ones before it |
| Audit.NumberedExactly | src/razortrust/audit.py:58-75 | records are numbered within their case: one more than the earlier records of that case |
| Audit.Ledger.ReadRecords | src/razortrust/audit.py:40-52 | all records, or the first line with a missing field |
| Audit.Ledger.HeadHash | src/razortrust/audit.py:54-56 | the last record's hash, genesis when empty |
| Audit.Ledger.Append | src/razortrust/audit.py:58-94 | one record, numbered within its case and chained to the head; a valid ledger stays valid |
| Audit.Ledger.Verify | src/razortrust/audit.py:99-114 | true iff every record is chained; otherwise the index of the first that is not |
| Audit.SameHeadSameLedger | src/razortrust/audit.py:25-29 | verified ledgers of equal length and head hash are identical under an injective hash |
| Audit.CheckpointPinsPrefix | src/razortrust/audit_checkpoint.py:11-42 | with the count and head hash a checkpoint records, a later verified ledger matches iff it continues the checkpointed one (the comparison is the model's; the code creates and verifies the signed checkpoint) |
| Audit.EditDetected | src/razortrust/audit.py:99-114 | changing a record breaks verification or changes the head |
| Audit.TruncationNeedsCheckpoint | src/razortrust/audit.py:99-114 | a truncated ledger still verifies; only the checkpoint's count refuses it |
| Checkout.CheckoutBridgeStore.CreatePendingOrder | src/razortrust/checkout_bridge.py:300-335 | a new pending session, or a refusal of a future client time |
| Checkout.CheckoutBridgeStore.MarkFailed | src/razortrust/checkout_bridge.py:337-345 | a failed provider order, silently ignored for an unknown session |
| Checkout.CheckoutBridgeStore.Finalize | src/razortrust/checkout_bridge.py:347-406 | order, telemetry and index of a finalized session, and the refusals in order |
| Checkout.CheckoutBridgeStore.BindVerified | src/razortrust/checkout_bridge.py:415-464 | session and telemetry bound to a payment, and the refusals in order |
| Checkout.CheckoutBridgeStore.ObserveEvent | src/razortrust/checkout_bridge.py:466-569 | attempt, session and telemetry after a payment event |
| Checkout.CheckoutBridgeStore.ReconcileOpenOrders | src/razortrust/checkout_bridge.py:571-660 | the selected sessions reconciled one after another, with the seven counters, or the two limit errors; what that means is `CheckoutMeaning.ReconcileAllExactly` and `CheckoutMeaning.CountersExactly` |
| CheckoutMeaning.LifecycleExactly | src/razortrust/checkout_bridge.py:191-204 | which payment and order statuses derive each lifecycle |
| CheckoutMeaning.CreatedExactly | src/razortrust/checkout_bridge.py:300-335 | when a session is created, every field of it, and when the client time is refused |
| CheckoutMeaning.MarkedFailedExactly | src/razortrust/checkout_bridge.py:337-345 | what a failure mark changes and what it leaves |
| CheckoutMeaning.FinalizedExactly | src/razortrust/checkout_bridge.py:347-406 | when a session is finalized, and everything that changes: session, index and unbound telemetry |
| CheckoutMeaning.FinalizeRefusedExactly | src/razortrust/checkout_bridge.py:347-406 | which refusal a finalization meets |
| CheckoutMeaning.BoundExactly | src/razortrust/checkout_bridge.py:415-464 | when a payment is bound, and everything that changes |
| CheckoutMeaning.BindRefusedExactly | src/razortrust/checkout_bridge.py:415-464 | which refusal a bind meets |
| CheckoutMeaning.ObservedExactly | src/razortrust/checkout_bridge.py:466-569 | which events are heard, and attempt, session and telemetry after one |
| CheckoutMeaning.ReconcileCommitExactly | src/razortrust/checkout_bridge.py:618-649 | after a reconciliation a session is PAID exactly for a paid order, else ABANDONED exactly when its deadline, or the given hours after its creation, has come, else OPEN, ATTEMPTED or, after a failed last payment, ATTEMPT_FAILED; deadline and abandonment, once set, stay; nothing else changes |
| CheckoutMeaning.ReconcileAllExactly | src/razortrust/checkout_bridge.py:602-649 | each selected session becomes what its own fetched answer means; a failed fetch and an unselected session change nothing |
| CheckoutMeaning.CountersExactly | src/razortrust/checkout_bridge.py:602-660 | each counter is a number of selected sessions: answered paid, attempted or created, expired unpaid, or without a usable answer |
| CheckoutMeaning.RunKeepsDeadlines | src/razortrust/checkout_bridge.py:300-660 | over every run a deadline and an abandonment, once set, never change |
| CheckoutMeaning.SelectedAgain | src/razortrust/checkout_bridge.py:587-598 | a reconciled session is selected again exactly when it is unpaid and not expired, or paid without an attempt |
| CheckoutMeaning.SelectedFirst | src/razortrust/checkout_bridge.py:587-598 | a session is first selected once finalized, and not after its provider order failed |
| CheckoutRuns.PaidAbsorbs | src/razortrust/checkout_bridge.py:191-204 | once the provider status is paid no payment status derives anything but PAID |
| CheckoutRuns.RunKeepsInv | src/razortrust/checkout_bridge.py:300-660 | after every commit of every run: PAID iff the provider status is paid, telemetry hashes match their fields, sessions and order ids correspond one-to-one |
| CheckoutRuns.LeavesPaid | src/razortrust/checkout_bridge.py:337-660 | a session leaves PAID exactly by an accepted failure mark, finalization or non-paid reconciliation of it; never by a bind or a payment event |
| CheckoutRuns.PaidPersists | src/razortrust/checkout_bridge.py:415-569 | over whole runs a paid session stays paid without one of those |
| CheckoutRuns.StaleReconcile | src/razortrust/checkout_bridge.py:605-649 | a reconciliation write keeps PAID iff the fetched status was paid |
| CheckoutRuns.EventBinds | src/razortrust/checkout_bridge.py:528-566 | which payment a session carries after an event, in every case |
| CheckoutRuns.LateEventRebinds | src/razortrust/checkout_bridge.py:466-569 | every event the attempts table lets through to a paid session, first delivery or redelivery and whatever its status, replaces the session's payment; row and telemetry agree afterwards iff telemetry was unbound or bound to the event's payment; any other event is refused and changes nothing |
| CheckoutRuns.RunExtends | src/razortrust/checkout_bridge.py:415-569 | over every run telemetry.payment_id is write-once and a stored payment attempt stays with its session and order |
| CheckoutRuns.CountersBalance | src/razortrust/checkout_bridge.py:602-660 | inspected = updated + errors, updated = paid + attempted + open, abandoned only among unpaid |
| CheckoutRuns.ReconcileMeaning | src/razortrust/checkout_bridge.py:602-649 | each selected session is reconciled with its own fetched answer and no other session changes; `CheckoutMeaning.ReconciledExactly` says what it becomes |
| CheckoutPayments.BindShares | src/razortrust/checkout_bridge.py:415-464 | a bind leaves its payment on two sessions exactly when its own checks pass and another session carries it; the attempts table plays no part |
| CheckoutPayments.EventShares | src/razortrust/checkout_bridge.py:466-569 | an event brings its payment to a second session exactly when the attempts table lets it through, it moves the payment, and another session carries it |
| CheckoutPayments.ValidateAuthoritative | src/razortrust/checkout_bridge.py:169-188 | the guard passes, with the payment's own status, exactly for a successful payment of this order, amount and currency |
| CheckoutPayments.GuardedRunsNeverShare | src/razortrust/checkout_bridge.py:300-660 | over every run whose binds were guarded, however long before, and whose orders and events are the provider's, no payment is ever on two sessions, through any re-finalization |
| CheckoutPayments.RefinalizedStrandsPayment | src/razortrust/checkout_bridge.py:347-406 | finalizing again under another order id keeps the payment on the row, gives telemetry that does not know it, makes the guard refuse it for every status, cuts its own events off and refuses binds of every other payment; an event of the new order that the attempts table lets through takes the session over exactly when it moves its payment |
| CheckoutWitnesses.PaidThenUndone | src/razortrust/checkout_bridge.py:605-649 | a four-step run from the empty store that is paid and then undone by a stale reconciliation |
| CheckoutWitnesses.PaidThenRebound | src/razortrust/checkout_bridge.py:508-566 | a five-step run: one payment fails, a second is captured, the failure is redelivered and the paid session carries the failed payment |
| CheckoutWitnesses.UnguardedBindsShare | src/razortrust/checkout_bridge.py:415-464 | a six-step run of two binds that skip the guard and put one payment on two sessions |
| RateLimiter.Limiter.Allow | src/razortrust/security_middleware.py:71-81 | the pruning loop and the verdict, as a step on the buckets |
| RateLimiter.RunAgrees | src/razortrust/security_middleware.py:71-81 | for every interleaving of clients the deques agree with the full admission history at every later clock reading |
| RateLimiter.BucketIsWindow | src/razortrust/security_middleware.py:71-81 | after its call a client's bucket is exactly its admissions in (now-60, now] |
| RateLimiter.RefusedIffFull | src/razortrust/security_middleware.py:71-81 | a call is refused exactly when its last minute already holds `limit` admissions |
| RateLimiter.NoWindowOverLimit | src/razortrust/security_middleware.py:71-81 | no window (t-60, t] holds more than `limit` admissions of one client |
| RateLimiter.AllowedExactly | src/razortrust/security_middleware.py:71-81 | after any run in time order a call is let in exactly when fewer than `limit` of its client's admissions lie in the last sixty seconds |
| Pareto.ParetoFrontier | scripts/evaluate_phase2b_unknown_family.py:380-419 | the nested loops with the dominated flag compute the sorted undominated candidates |
| Pareto.Recommend | scripts/evaluate_phase2b_unknown_family.py:217-235 | the first candidate with the least key of the frontier, none exactly for no candidates |
| Pareto.FrontierSound | scripts/evaluate_phase2b_unknown_family.py:380-411 | no candidate dominates a frontier member |
| Pareto.DroppedAreDominated | scripts/evaluate_phase2b_unknown_family.py:380-411 | every candidate left out is dominated by one that was kept |
| Pareto.LeastIsKept | scripts/evaluate_phase2b_unknown_family.py:227-235 | the least key overall is on the frontier, so it is not empty |
| Pareto.RecommendationLosesNothing | scripts/evaluate_phase2b_unknown_family.py:227-235 | the least key over the frontier is the least key over all candidates |
| Pareto.FrontierListed | scripts/evaluate_phase2b_unknown_family.py:412-419 | the frontier is sorted and keeps each member as often as it was given |
| Pareto.FrontierExactly | scripts/evaluate_phase2b_unknown_family.py:380-419 | a candidate is on the frontier exactly when every candidate as good in all four respects equals it in all four; the list is by cost, then diversion, then falling rescue |
| Pareto.RecommendationExactly | scripts/evaluate_phase2b_unknown_family.py:217-235 | the recommendation is least by cost, then false releases, then diversion, then falling rescue among all candidates |
| Federated.ClipBounded | experimental/federated/federated.py:133-138 | a clipped update has norm at most C |
| Federated.WeightsSound | experimental/federated/federated.py:105-109 | weights are positive and add up to one |
| Federated.AverageBounded | experimental/federated/federated.py:83-111 | the average of an accepted round has norm at most C |
| Federated.SensitivityBound | experimental/federated/federated.py:83-111 | replacing one client's whole update, count and delta, keeps the round accepted and moves the average by at most 2 * C * max weight of the round in which that client weighs more; with the count fixed both rounds have the same weights and sensitivity |
| Federated.CountsMatter | experimental/federated/federated.py:98-111 | three clients of one sample each, one of which reports ten: the average moves by 1, further than the sensitivity 2/3 of the first round |
| Federated.ClipExactly | experimental/federated/federated.py:133-138 | a vector within the clip norm is kept, a longer one is shortened to it without turning |
| Federated.AcceptedExactly | experimental/federated/federated.py:83-103 | a round is accepted exactly with enough clients, one update each, of one round and one dimension, all properly signed |
| Federated.RefusedExactly | experimental/federated/federated.py:83-103 | which refusal a round meets |
| Federated.ReleasedExactly | experimental/federated/federated.py:104-110 | the release is the clipped updates averaged by weights that add up to one, in proportion to the sample counts, none counted above the cap |
| Federated.DeclaredExactly | experimental/federated/federated.py:111 | the declared sensitivity is twice the clip norm times the largest weight |

## Left out

- Routes, authentication, the OPA and Razorpay HTTP clients, dossiers, observability and deployment: input, output and plumbing.
- `workflow.HoldService`, `razorpay_processor.py`, `razorpay_store.py`, `shadow_scoring.py`: their guards are not part of this model.
- Model training, calibration, the development risk model, SHAP, graph and sequence models: library code.
- SHA-256, HMAC, Ed25519 and canonical JSON (RFC 8785, section 3.2) internals: parameters; the snapshot and feature hashes are functions of fields the model shows and are not repeated.
- Concurrency inside one transaction (two sessions racing between SELECT and COMMIT): every commit is one step, except reconciliation, whose fetch and write are separate steps; the retry after a lost race is modelled only by the unique constraints a serialized call can meet.
- Identifier collisions: uuid4 is trusted to be fresh for decision, review, event, attempt and outbox rows; hold, evidence, session and telemetry identifiers are checked where the code or a constraint checks them.
- Floating-point rounding, including `round(..., 6)` of the expected cost and `round(..., 8)` of candidate metrics: values are reals.
- Text outside ASCII, CSV dialect and header recognition, number and date parsing: rows arrive parsed.
- Issue texts and details, the sorted spelling of currencies and methods, feature-readiness lists: the codes, severities and counts are modelled.
- `get`, `list_holds`, feature-snapshot storage and training-example export: easy reads and writes with no rule of their own.
- The Gaussian noise and the (epsilon, delta) theorem: only clipping, averaging and the sensitivity they rest on.
- ReferenceMass.EveryWindowBuildsExactly: baselines of two or more bins whose first bin ends at or below zero are excluded from the only-if half, because no acceptable amount falls there; `Features.BuildTotal` covers them window by window.
- CheckoutRuns.CountersBalance: a commit that raises after its counters were increased (src/razortrust/checkout_bridge.py:626-649) is not modelled; `updated` then stays behind `paid + attempted + open`.
- CheckoutPayments.GuardedRunsNeverShare: that the provider never moves a payment to another order or an order to another receipt is an assumption about the provider, stated as the functions of `World`.
- LivePreview.LivePreviewExact: the equivalence is about what the preview is told; different events can still sum to the same features, so of the preview itself only one direction is stated.
- Audit.CheckpointPinsPrefix: no code compares a checkpoint with a ledger; signing and verifying it are not modelled.
- Simulation.RunsSimulate: decisions with equal creation times are excluded, because the database may then return either row.
- Checkout.CheckoutBridgeStore.ReconcileOpenOrders: the selected rows are a parameter constrained to be an answer of the selection query, because equal creation times leave their order to the database; interference between its sessions is covered by runs of single commits instead.
- MemoryRepository.InMemoryHoldRepository.RecordAnalystReview: reason code and attribution fields of a submission are one opaque text, because no branch reads them.
- Checkout.CheckoutBridgeStore.CreatePendingOrder: field patterns of the request are checked before it is called and are not modelled.
