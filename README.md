# MES operations core, modelled in Dafny

This project models the manufacturing-operation lifecycle of `mes-api`. An
operation is a row keyed by `(order_no, asset_id, operation_no)`. It moves
through six statuses: PLANNED, RELEASED, IN_PROGRESS, ON_HOLD, FINISHED and
CANCELLED. The project covers these parts:

- `state_machine.dfy`: the status state machine. It has the edge table with its
  conditions, effects and confirmation flags, plus `can_transition`,
  `get_valid_transitions`, `is_terminal_state`, the condition checkers,
  best-effort effect execution and `transition`.
- `rules.dfy`: the rule engine. It has the five validators over a dynamically
  typed payload, the registry loop, the metrics and the recommendations.
- `store.dfy`: the CRUD layer. It is a class `OperationStore` that holds a
  `map<Key, Operation>` and is changed by `CreateOperation`, `UpdateOperation`
  and `DeleteOperation`. Ordered and windowed listing is specified by
  `Listing` and `Window`.
- `service.dfy`: the plain service. It has create, update, delete, start and
  finish with their checks before any write, its own transition table, and
  `calculate_efficiency`.
- `service_enhanced.dfy`: the enhanced service. It has the filter predicate,
  paginated listing, batch update with per-row failure collection, the
  dashboard summary, `transition_state`, and the enhanced create, update and
  delete.
- `filters.dfy`: the SQL filters of the enhanced service, under SQL's
  three-valued logic, and `LIKE`.
- `security.dfy`: the role and permission table and the two access guards.
- `router_v2.dfy`: the v2 router's own logic. It has the page arithmetic, the
  navigation links, the links that depend on the status, and the dry-run
  preview.
- `operation.dfy`, `errors.dfy`: the row, the partial update, the schema
  validity predicates and the exception taxonomy.
- `values.dfy`, `pytext.dfy`, `wrappers.dfy`: the Python semantics the code
  relies on. These are truthiness, comparisons that raise `TypeError`,
  `Decimal`, `strip`, `lower`, `str(int)`, and Option and Result.

Modelling choices:

- A Python exception is a `Failure` value.
  - The store is an atomic map, so a failed call leaves it unchanged. This
    matches the transaction rollback.
  - A partial update is a record of `Patch` fields, `Keep` or `Put(v)`. This
    matches `model_dump(exclude_unset=True)`.
- The clock is a parameter `now`.
- Datetimes are integers, in microseconds.
- `Decimal` minutes are a coefficient and an exponent.
- Ratios are `real`.
- The plain service's `delete` answers `False` for a missing key; it does not
  raise not-found. The system's documentation describes the not-found error,
  but the model follows the code.

## Model

| member | source | states |
|---|---|---|
| StateMachine.Parse | mes-api/app/domain/operation_state_machine.py:17-24 | a string names a status exactly when it equals that status's value; otherwise no status has it as value |
| StateMachine.EdgeTableShape | mes-api/app/domain/operation_state_machine.py:49-131 | every edge leaves its own state for a different one, needs confirmation exactly when it leads to CANCELLED, and only FINISHED and CANCELLED have no edges |
| StateMachine.UnknownConditionSkipped | mes-api/app/domain/operation_state_machine.py:253-278 | a condition name without a checker never blocks a transition |
| StateMachine.CheckerFor | mes-api/app/domain/operation_state_machine.py:253-278 | a condition name has a checker exactly when it is one of the eleven keys of the checker table |
| StateMachine.ApprovingContextRuns | mes-api/app/domain/operation_state_machine.py:259-272 | every checker answers true in a context that sets each key it reads to its approving value |
| StateMachine.ApprovingContextSatisfies | mes-api/app/domain/operation_state_machine.py:253-278 | every condition name, known or not, holds in that context |
| StateMachine.QuantityCompleteMeaning | mes-api/app/domain/operation_state_machine.py:259-272 | only `quantity_complete` can raise; with no quantities it is false (0 >= 1); on integers it is processed >= desired |
| StateMachine.ConditionsHoldIff | mes-api/app/domain/operation_state_machine.py:253-278 | the conditions hold exactly when every one checks true |
| StateMachine.CheckConditions | mes-api/app/domain/operation_state_machine.py:253-278 | the early-return loop computes the conditions' joint verdict, including a raise |
| StateMachine.TargetNames | mes-api/app/domain/operation_state_machine.py:167-175 | one status value per edge, in table order |
| StateMachine.UnknownStatusNeverFatal | mes-api/app/domain/operation_state_machine.py:150-155 | an unknown from or to status gives `can_transition` false, no valid transitions and not terminal |
| StateMachine.SelfTransitionAllowed | mes-api/app/domain/operation_state_machine.py:157-158 | staying in a valid status is allowed in every context |
| StateMachine.TerminalHasNoExit | mes-api/app/domain/operation_state_machine.py:160-165 | from FINISHED or CANCELLED no other status is reachable, and there are no valid transitions |
| StateMachine.TerminalIffNoEdges | mes-api/app/domain/operation_state_machine.py:233-239 | a state is terminal exactly when it is a valid status with no outgoing edge |
| StateMachine.CanTransitionIff | mes-api/app/domain/operation_state_machine.py:160-165 | between different statuses, allowed exactly when an edge leads there and each of its conditions checks true |
| StateMachine.ValidTransitionsAreTargets | mes-api/app/domain/operation_state_machine.py:167-175 | the valid transitions are exactly the edge targets, whatever the context |
| StateMachine.ValidTransitionsTable | mes-api/app/domain/operation_state_machine.py:52-127 | the targets of each non-terminal status, in table order |
| StateMachine.ValidTransitionsParse | mes-api/app/domain/operation_state_machine.py:167-175 | every name listed as a valid transition is a status value |
| StateMachine.EmptyContextAllowsOnlyRelease | mes-api/app/domain/operation_state_machine.py:259-266 | with an empty context nothing raises and the only move allowed is PLANNED to RELEASED |
| StateMachine.EmptyContextEdge | mes-api/app/domain/operation_state_machine.py:49-131 | under the empty context the conditions of the PLANNED to RELEASED edge hold and those of every other edge fail |
| StateMachine.SomeContextOpensEveryEdge | mes-api/app/domain/operation_state_machine.py:133-165 | every edge is open under some context, and no context opens a move that is not an edge |
| StateMachine.EveryEffectHasHandler | mes-api/app/domain/operation_state_machine.py:296-319 | every effect named in the table has a handler |
| StateMachine.ExecutedMembers | mes-api/app/domain/operation_state_machine.py:280-294 | an effect is reported executed exactly when it is on the edge and its handler did not raise |
| StateMachine.ExecutedAllWhenNoneFail | mes-api/app/domain/operation_state_machine.py:280-294 | when no handler raises, every effect runs, in table order |
| StateMachine.ExecuteEffects | mes-api/app/domain/operation_state_machine.py:280-294 | the loop collects the effects whose handler did not raise, skipping failures |
| StateMachine.FindTransition | mes-api/app/domain/operation_state_machine.py:199-207 | the search loop finds the first edge to the target, or none when no edge leads there |
| StateMachine.Transition | mes-api/app/domain/operation_state_machine.py:177-231 | succeeds exactly when `can_transition` is true and the states differ; otherwise it fails with the matching `ValueError` or the condition's raise; on success the record holds the executed effects and a confirmation flag that is true exactly for CANCELLED |
| Rules.SignCheck | mes-api/app/domain/manufacturing_rules.py:67-74 | the sign check raises on a non-number and reports its message exactly when the comparison with 0 holds |
| Rules.DurationError | mes-api/app/domain/manufacturing_rules.py:132-141 | a duration entry raises exactly on a value that is neither None nor a number |
| Rules.DurationErrors | mes-api/app/domain/manufacturing_rules.py:126-141 | the `time_fields` loop raises exactly when some field holds a non-number |
| Rules.DurationErrorsAllNone | mes-api/app/domain/manufacturing_rules.py:126-141 | fields that are all None report nothing |
| Rules.DurationErrorsStep | mes-api/app/domain/manufacturing_rules.py:126-141 | the loop is the first field's errors followed by the rest's, stopping at a raise |
| Rules.DurationEntries | mes-api/app/domain/manufacturing_rules.py:126-131 | the six duration fields in order, each with its payload value |
| Rules.CheckDurations | mes-api/app/domain/manufacturing_rules.py:126-141 | the loop appends each field's errors and stops at the first raise |
| Rules.ValidateTimeRelationships | mes-api/app/domain/manufacturing_rules.py:92-155 | the time rule as written, step by step, computes the time rule's result |
| Rules.BlankCheck | mes-api/app/domain/manufacturing_rules.py:186-215 | the blank check raises exactly on a truthy value that is not a string |
| Rules.ValidateAllAppend | mes-api/app/domain/manufacturing_rules.py:46-57 | the registry's errors are the concatenation of each rule's contribution, in order |
| Rules.CrashingRuleReported | mes-api/app/domain/manufacturing_rules.py:46-57 | a rule that raises leaves "Validation error in rule {name}" and the later rules still run |
| Rules.CrashingRuleReportedIn | mes-api/app/domain/manufacturing_rules.py:46-57 | over any list of rules, a rule that raises leaves its generic message in the combined list |
| Rules.ValidateAllSnoc | mes-api/app/domain/manufacturing_rules.py:46-57 | running one more rule appends exactly its contribution |
| Rules.ApplyRule | mes-api/app/domain/manufacturing_rules.py:258-266 | calling a registry entry gives that rule's outcome |
| Rules.ValidateOperationData | mes-api/app/domain/manufacturing_rules.py:36-57 | the registry loop extends the list with each rule's errors or its generic message |
| Rules.WellTypedNeverRaises | mes-api/app/domain/manufacturing_rules.py:46-57 | on a payload of the schema's types no rule raises |
| Rules.QuantityRuleSteps | mes-api/app/domain/manufacturing_rules.py:59-91 | on integers the quantity rule is its five checks in order |
| Rules.QuantityMessagesDistinct | mes-api/app/domain/manufacturing_rules.py:67-88 | the five quantity messages are pairwise distinct |
| Rules.QuantityRuleMeaning | mes-api/app/domain/manufacturing_rules.py:67-88 | desired <= 0, negative processed and negative scrap are errors; processed > desired and scrap > processed are errors only when both operands are non-zero |
| Rules.QuantityErrorsMeaning | mes-api/app/domain/manufacturing_rules.py:67-88 | on integer (or missing) quantities each of the five messages is reported exactly when its own check fails |
| Rules.PlannedWindowMeaning | mes-api/app/domain/manufacturing_rules.py:100-110 | start >= end is an error, and so is a planned span over 30 days |
| Rules.TimeRuleWindows | mes-api/app/domain/manufacturing_rules.py:100-115 | each window check applies exactly when both of its ends are set |
| Rules.TimeRuleSteps | mes-api/app/domain/manufacturing_rules.py:92-154 | with no minute field set the time rule reports its planned-window errors followed by its actual-window errors |
| Rules.PlannedWindowSteps | mes-api/app/domain/manufacturing_rules.py:100-110 | on datetimes the planned-window check is the ordering check followed by the 30-day check |
| Rules.DurationFieldMeaning | mes-api/app/domain/manufacturing_rules.py:136-141 | negative is "cannot be negative", strictly between 0 and 0.1 is "too small", and 0 or at least 0.1 adds nothing |
| Rules.StatusRuleMeaning | mes-api/app/domain/manufacturing_rules.py:156-177 | IN_PROGRESS needs a start; FINISHED needs a start, an end and a non-zero processed quantity; other statuses add nothing |
| Rules.SequenceRuleMeaning | mes-api/app/domain/manufacturing_rules.py:194-217 | order and operation numbers are flagged exactly when non-empty and all whitespace; a non-numeric operation number is not an error |
| Rules.WorkplaceRuleMeaning | mes-api/app/domain/manufacturing_rules.py:179-193 | a whitespace-only workplace is flagged, and an asset id is flagged only when it is truthy and not positive |
| Rules.MetricsBounds | mes-api/app/domain/manufacturing_rules.py:219-256 | completion is at most 1, quality = 1 - scrap rate, both lie in [0, 1] when scrap is within processed, and completion exists only with both quantities truthy |
| Rules.EfficiencyMetric | mes-api/app/domain/manufacturing_rules.py:223-227 | processing efficiency is present exactly when both processing times are truthy and the actual is positive, and then times the actual it gives the target |
| Rules.ThroughputMetric | mes-api/app/domain/manufacturing_rules.py:229-233 | throughput per hour is present exactly when processed is truthy and the actual processing time truthy and positive, and then times the actual minutes it gives 60 times processed |
| Rules.ScrapMetric | mes-api/app/domain/manufacturing_rules.py:235-240 | scrap and quality rates are present together, exactly when both quantities are truthy and processed is positive, and the scrap rate times processed gives the scrap |
| Rules.VarianceMetrics | mes-api/app/domain/manufacturing_rules.py:242-249 | each schedule variance is present exactly when both of its datetimes are set, and is their difference in hours |
| Rules.CompletionMetric | mes-api/app/domain/manufacturing_rules.py:251-254 | completion is present exactly when both quantities are truthy, and is either the cap 1 or the ratio that times desired gives processed |
| Rules.RecommendationsMatchMetrics | mes-api/app/domain/manufacturing_rules.py:268-290 | each efficiency advice is given exactly on its side of the band, so never both; the scrap advice exactly above 10%; the setup advice exactly when both setup times are truthy and the actual exceeds 1.5 times the target |
| MesErrors.BaseError | mes-api/app/exceptions/mes_exceptions.py:7-13 | the base exception's tag defaults to "general_error" and its message passes through |
| MesErrors.ErrorTypeIdentifiesSubclass | mes-api/app/exceptions/mes_exceptions.py:16-44 | each subclass tag is fixed and distinct from the default |
| MesErrors.KeyMessages | mes-api/app/exceptions/mes_exceptions.py:16-44 | not-found and duplicate messages differ for the same key; the quantity message passes through unchanged |
| Operations.ApplyUpdate | mes-api/app/crud/mes_operation.py:74-86 | writing a partial update never changes the key, and an empty update changes nothing |
| Operations.ApplyUpdateWritesExactlySupplied | mes-api/app/crud/mes_operation.py:74-86 | for each of the 21 updatable fields: a supplied field takes its supplied value (a NOT NULL column its non-null value) and a field left out keeps its stored one |
| Operations.ValidUpdatePreservesValidBase | mes-api/app/schemas/mes_operation.py:103-143 | a schema-valid update keeps a schema-valid row valid |
| Operations.ValidBaseQuantities | mes-api/app/schemas/mes_operation.py:33-41 | a schema-valid row has no negative quantity |
| Filters.LikePrefix | mes-api/app/services/mes_operation_service_enhanced.py:343-345 | `LIKE group%` is the prefix test when the group has no wildcard |
| Filters.NoFiltersMatchEverything | mes-api/app/services/mes_operation_service_enhanced.py:335-384 | an empty filter keeps every row |
| Filters.MatchesMeaning | mes-api/app/services/mes_operation_service_enhanced.py:335-384 | status is list membership, workplace and activity are equality, planned start lies in the inclusive range, remaining means processed < desired or processed missing, overdue means planned end before now and not FINISHED |
| Filters.GroupMeaning | mes-api/app/services/mes_operation_service_enhanced.py:343-345 | the workplace-group filter keeps rows whose workplace name starts with the group |
| Filters.RemainingSplit | mes-api/app/services/mes_operation_service_enhanced.py:356-365 | `has_remaining_qty` true and false never both keep a row and split the rows with both quantities set |
| Filters.OverdueSplit | mes-api/app/services/mes_operation_service_enhanced.py:367-382 | `is_overdue` true and false never both keep a row and split the rows with planned end and status set |
| Filters.OverdueFilterWithinSummary | mes-api/app/services/mes_operation_service_enhanced.py:295-298 | every row the overdue filter keeps is overdue on the dashboard, but not the other way round |
| Store.Insert | mes-api/app/crud/mes_operation.py:23-28 | inserting into the ordered listing adds exactly that row |
| Store.InsertSorted | mes-api/app/crud/mes_operation.py:23-28 | insertion keeps the listing sorted |
| Store.ConsSorted | mes-api/app/crud/mes_operation.py:23-28 | a row that may precede every row of a sorted listing can be put in front of it |
| Store.SortRows | mes-api/app/crud/mes_operation.py:23-28 | `ORDER BY` gives a sorted permutation of its input |
| Store.EnumerationCount | mes-api/app/crud/mes_operation.py:16-28 | a scan of a set of stored keys lists as many rows as there are keys |
| Store.Window | mes-api/app/crud/mes_operation.py:25-26 | `offset`/`limit` keeps at most `limit` rows, which are the rows from `skip` on |
| Store.WindowOfListing | mes-api/app/crud/mes_operation.py:23-28 | a window of the listing is sorted and holds distinct stored rows |
| Store.CrudMatches | mes-api/app/crud/mes_operation.py:18-21 | a stored row is kept exactly when it passes the status and workplace filters |
| Store.OperationStore.GetOperation | mes-api/app/crud/mes_operation.py:31-42 | a row is returned exactly when all three key components match a stored row, and it is the row stored under that key |
| Store.OperationStore.CreateOperation | mes-api/app/crud/mes_operation.py:45-60 | processed > desired (both non-zero) raises InvalidQuantity; an existing key is an integrity error; on failure nothing is inserted, otherwise exactly the row is added |
| Store.OperationStore.UpdateOperation | mes-api/app/crud/mes_operation.py:63-93 | a missing key answers None; processed > desired on the merged view raises; nulling a NOT NULL column is an integrity error; otherwise exactly the supplied fields are written |
| Store.OperationStore.DeleteOperation | mes-api/app/crud/mes_operation.py:96-109 | answers True exactly when the row existed; afterwards the key is gone and `get_operation` finds nothing |
| Store.OperationStore.Query | mes-api/app/crud/mes_operation.py:16-28 | the rows under the keys, each once and sorted |
| Store.OperationStore.GetOperations | mes-api/app/crud/mes_operation.py:9-28 | the filtered rows ordered by (order_no, operation_no), then windowed; at most `limit` rows |
| Store.CrudListingMeaning | mes-api/app/crud/mes_operation.py:9-28 | every listed row is stored and passes the filter, and the order numbers ascend |
| Service.IntegrityFailure | mes-api/app/services/base_service.py:60-66 | an integrity error is re-raised with tag "integrity_violation" and the context in the message |
| Service.Translate | mes-api/app/services/mes_operation_service.py:96-102 | no raw integrity error reaches the caller; every other error passes unchanged |
| Service.CalculateEfficiency | mes-api/app/services/mes_operation_service.py:214-223 | None exactly when either time is missing or zero; otherwise at most 2, and either 2 or a value that times the actual minutes gives the target minutes; over positive actual minutes it is 2 exactly when the target is at least twice the actual |
| Service.EfficiencyPositive | mes-api/app/services/mes_operation_service.py:214-223 | with both times positive the efficiency is in (0, 2] |
| Service.ValidNextOfStatus | mes-api/app/services/mes_operation_service.py:39-46 | the service's own table, status by status |
| Service.ValidNextKnown | mes-api/app/services/mes_operation_service.py:246 | only a known status has any next status |
| Service.ValidNextSameNames | mes-api/app/services/mes_operation_service.py:39-46 | the service's table lists, for each status, the same names as the state machine's, in its own order |
| Service.ValidNextMatchesTargets | mes-api/app/services/mes_operation_service.py:39-46 | for each status the service's table lists only status values, exactly the names of the structural targets |
| Service.TransitionCheckIff | mes-api/app/services/mes_operation_service.py:241-250 | a status change is accepted exactly when it keeps the status or follows an edge, so terminal and unknown statuses accept no change |
| Service.CrudCheckSubsumed | mes-api/app/services/mes_operation_service.py:225-266 | the service's quantity checks cover the CRUD layer's, which therefore never fire behind them |
| Service.CreateResultMeaning | mes-api/app/services/mes_operation_service.py:72-102 | create succeeds exactly for a new key with consistent quantities and planned window; a duplicate and a quantity error carry their tags |
| Service.UpdateResultMeaning | mes-api/app/services/mes_operation_service.py:104-139 | a missing key is not-found; a successful update writes exactly the supplied fields, moves the status only along an edge and leaves consistent quantities |
| Service.UpdateWithoutStatusOrQuantity | mes-api/app/services/mes_operation_service.py:104-139 | an update without status or quantity fails only on a nulled NOT NULL column |
| Service.DeleteResultMeaning | mes-api/app/services/mes_operation_service.py:141-164 | False for a missing key; a FINISHED row is refused with an invalid-state error; otherwise the row is removed |
| Service.StartResultMeaning | mes-api/app/services/mes_operation_service.py:166-184 | start succeeds only from RELEASED or ON_HOLD, and then always on consistent rows; it sets IN_PROGRESS, the start time and the change stamp |
| Service.FinishResultMeaning | mes-api/app/services/mes_operation_service.py:186-212 | finish succeeds only from IN_PROGRESS; it sets FINISHED and the end time, and the processed quantity only when a final quantity is given, subject to the quantity checks |
| Service.OperationService.GetById | mes-api/app/services/mes_operation_service.py:51-54 | the stored row under the key, if any |
| Service.OperationService.Create | mes-api/app/services/mes_operation_service.py:72-102 | the result is the checked create, and the store changes only on success |
| Service.OperationService.Update | mes-api/app/services/mes_operation_service.py:104-139 | the result is the checked update, and the store changes only on success |
| Service.OperationService.Delete | mes-api/app/services/mes_operation_service.py:141-164 | the result is the checked delete, and the row goes only on True |
| Service.OperationService.StartOperation | mes-api/app/services/mes_operation_service.py:166-184 | start through `update`, with its result and write |
| Service.OperationService.FinishOperation | mes-api/app/services/mes_operation_service.py:186-212 | finish through `update`, with its result and write |
| EnhancedService.FilterKeys | mes-api/app/services/mes_operation_service_enhanced.py:335-384 | a stored key is kept exactly when its row matches the filters |
| EnhancedService.BatchRowErrorMeaning | mes-api/app/services/mes_operation_service_enhanced.py:386-393 | with no context a batch row passes exactly when it keeps the status, keeps a valid status, or releases a PLANNED row |
| EnhancedService.PassedAndFailures | mes-api/app/services/mes_operation_service_enhanced.py:137-154 | every row is counted or reported; none counted exactly when all fail; none reported exactly when all pass; each report names a failing row |
| EnhancedService.WrittenApplied | mes-api/app/services/mes_operation_service_enhanced.py:137-148 | the row-by-row writes equal writing every passing row and no other |
| EnhancedService.BatchAppliedStep | mes-api/app/services/mes_operation_service_enhanced.py:137-148 | one more row writes that row alone, and only when it passed |
| EnhancedService.BatchOverEnumeration | mes-api/app/services/mes_operation_service_enhanced.py:127-165 | over a scan of the matched keys the loop's counts and writes are facts about those keys |
| EnhancedService.ApplyBatch | mes-api/app/services/mes_operation_service_enhanced.py:137-154 | the loop counts the passing rows, reports the failing ones in order, and writes the update to each passing row |
| EnhancedService.TransitionContextNeverRaises | mes-api/app/services/mes_operation_service_enhanced.py:186-192 | with the overwritten integer quantities no condition raises, and `quantity_complete` is processed >= desired with defaults 0 and 1 |
| EnhancedService.ConditionsNeverRaise | mes-api/app/domain/operation_state_machine.py:253-278 | a list of conditions that cannot raise gives a verdict |
| EnhancedService.TransitionFailureKinds | mes-api/app/services/mes_operation_service_enhanced.py:182-200 | `transition_state` fails before the update only with the state machine's `ValueError`, exactly when the move is not allowed |
| EnhancedService.ApprovedMoveIsStructural | mes-api/app/services/mes_operation_service_enhanced.py:194-211 | a move the state machine approves is an edge of the plain service's table too |
| EnhancedService.TransitionIntendedMeaning | mes-api/app/services/mes_operation_service_enhanced.py:202-211 | after approval the update succeeds on a consistent row; it sets the start time only when entering IN_PROGRESS without one, and the end time only when entering FINISHED without one |
| EnhancedService.TallyFacts | mes-api/app/services/mes_operation_service_enhanced.py:270-277 | the dict counters add up to the number counted, each key's count is its number of occurrences, and no key repeats |
| EnhancedService.WithStatus | mes-api/app/services/mes_operation_service_enhanced.py:280 | the comprehension keeps exactly the rows in that status: every kept row has it and every row with it is kept |
| EnhancedService.WithStatusCount | mes-api/app/services/mes_operation_service_enhanced.py:280-294 | the comprehension keeps as many rows as the status counter counts for that status |
| EnhancedService.InProgressCountIsTally | mes-api/app/services/mes_operation_service_enhanced.py:270-301 | the dashboard's in-progress count equals the status counter's IN_PROGRESS entry |
| EnhancedService.SummaryCounts | mes-api/app/services/mes_operation_service_enhanced.py:262-277 | the status and workplace counts each add up to the total, count occurrences, and a missing workplace counts as "Unknown" |
| EnhancedService.SummaryPercentage | mes-api/app/services/mes_operation_service_enhanced.py:295-304 | the overdue share lies in [0, 100] and is 0 with no rows |
| EnhancedService.WithStatusDisjoint | mes-api/app/services/mes_operation_service_enhanced.py:280-294 | rows in two different statuses are counted apart |
| EnhancedService.SummaryStatusMetrics | mes-api/app/services/mes_operation_service_enhanced.py:279-294 | efficiency metrics appear only for finished rows with positive actual minutes, and in-progress and finished rows never overlap |
| EnhancedService.Summarize | mes-api/app/services/mes_operation_service_enhanced.py:262-306 | the counting loop computes the dashboard summary of its rows |
| EnhancedService.EnhancedOperationService.GetOperationsPaginated | mes-api/app/services/mes_operation_service_enhanced.py:69-109 | the total is the number of matching rows, and the items are the page `(page-1)*size` of the ordered listing |
| EnhancedService.EnhancedOperationService.BatchUpdate | mes-api/app/services/mes_operation_service_enhanced.py:117-165 | no matches gives the fixed answer; count + failed = matches; over some scan of the matched rows, the count is the passing rows and the failures shown are the first ten failures in scan order; the summary text; exactly the passing rows are written; a nulled NOT NULL column rolls the batch back |
| EnhancedService.EnhancedOperationService.UpdateKeys | mes-api/app/services/mes_operation_service_enhanced.py:127-165 | for the keys the query chose: the same counts, the first ten failures of the scan in order, writes and rollback as the batch update |
| EnhancedService.RunBatch | mes-api/app/services/mes_operation_service_enhanced.py:137-165 | over a scan of the matched rows: the report (counts, the first ten failures in scan order, the summary), the passing rows written, and the integrity failure and unchanged table when a NOT NULL column is nulled on a passing row |
| EnhancedService.ScanReported | mes-api/app/services/mes_operation_service_enhanced.py:137-165 | the loop's count and its failures cut at ten are the batch report of the scan: counts add up, refusals match, and the shown failures are the scan's first ten |
| EnhancedService.EnhancedOperationService.TransitionState | mes-api/app/services/mes_operation_service_enhanced.py:167-227 | as written: not-found, or the state machine's refusal, or else a `TypeError` from the update call; it never succeeds |
| EnhancedService.EnhancedOperationService.TransitionStateIntended | mes-api/app/services/mes_operation_service_enhanced.py:167-227 | with the update call corrected: not-found or refusal write nothing; otherwise the plain update's result and write, with the transition record |
| EnhancedService.EnhancedOperationService.Create | mes-api/app/services/mes_operation_service_enhanced.py:308-317 | as written: refused exactly when the status is not PLANNED or RELEASED, an omitted one included; otherwise answers None |
| EnhancedService.EnhancedOperationService.Update | mes-api/app/services/mes_operation_service_enhanced.py:319-328 | as written: answers None |
| EnhancedService.EnhancedOperationService.Delete | mes-api/app/services/mes_operation_service_enhanced.py:330-333 | as written: answers None |
| EnhancedService.EnhancedOperationService.CreateIntended | mes-api/app/services/mes_operation_service_enhanced.py:308-317 | an omitted status defaults to PLANNED, another status than PLANNED or RELEASED is refused, and the plain create stores the row |
| EnhancedService.EnhancedOperationService.UpdateIntended | mes-api/app/services/mes_operation_service_enhanced.py:319-328 | the plain service's checked update |
| EnhancedService.EnhancedOperationService.DeleteIntended | mes-api/app/services/mes_operation_service_enhanced.py:330-333 | the plain service's checked delete |
| EnhancedService.EnhancedOperationService.GetOperationsSummary | mes-api/app/services/mes_operation_service_enhanced.py:229-306 | the summary of the rows in the workplace and date window |
| EnhancedService.WithInitialStatus | mes-api/app/services/mes_operation_service_enhanced.py:311 | an omitted status becomes PLANNED and the key is kept |
| EnhancedService.OmittedStatusDefault | mes-api/app/services/mes_operation_service_enhanced.py:311-317 | with the default applied, an omitted status creates a PLANNED row |
| Security.ParseRole | mes-api/app/auth/security.py:52-59 | a string names a role exactly when it equals that role's value |
| Security.PermissionValueInjective | mes-api/app/auth/security.py:62-80 | different permissions have different values |
| Security.GetUserPermissions | mes-api/app/auth/security.py:226-228 | the table entry of the named role, and [] for a role absent from the table |
| Security.HasPermissionOfValues | mes-api/app/auth/security.py:230-232 | a token carrying a list's values passes `has_permission` exactly for the listed permissions |
| Security.AdminHoldsEverything | mes-api/app/auth/security.py:133 | ADMIN holds every permission |
| Security.RolesNested | mes-api/app/auth/security.py:108-144 | OPERATOR within SUPERVISOR within MANAGER within ADMIN; MACHINE equals OPERATOR |
| Security.ReadonlyCannotWrite | mes-api/app/auth/security.py:134-138 | READONLY only reads and views reports and analytics |
| Security.OnlyAdminAdministers | mes-api/app/auth/security.py:108-144 | only ADMIN manages users or system configuration |
| Security.WorkplaceAccessMonotone | mes-api/app/auth/security.py:234-239 | a superset of a non-empty access list admits every workplace the smaller list admits; a non-empty list refuses exactly the workplaces not in it |
| Security.FirstMissing | mes-api/app/auth/security.py:322-327 | the reported permission is required and not held |
| Security.FirstMissingMeaning | mes-api/app/auth/security.py:320-329 | nothing is missing exactly when every required permission is held; otherwise it is the first miss in list order |
| Security.RequirePermissions | mes-api/app/auth/security.py:318-329 | returns the user exactly when every required permission is held; otherwise forbidden, naming the first missing one |
| Security.GuardsByRole | mes-api/app/auth/security.py:367-371 | for role-minted tokens, which roles each convenience guard lets through |
| Security.RequireWorkplaceAccess | mes-api/app/auth/security.py:338-363 | refused exactly when a non-empty workplace is requested and the access list does not admit it |
| Security.WorkplaceSourcePrecedence | mes-api/app/auth/security.py:345-353 | the path parameter wins over the query parameter, and a request naming no workplace is never refused |
| RouterV2.TotalPagesIsCeiling | mes-api/app/routers/mes_operations_v2.py:218 | the page count is the ceiling of items over size, and 0 exactly with no items |
| RouterV2.PageBeforeLast | mes-api/app/routers/mes_operations_v2.py:322-330 | page < total pages exactly when items remain after this page |
| RouterV2.PaginationMeaning | mes-api/app/routers/mes_operations_v2.py:322-330 | has_next exactly when items remain after this page; has_previous exactly when the page is not the first |
| RouterV2.PaginationLinksMeaning | mes-api/app/routers/mes_operations_v2.py:207-269 | self always; first and prev exactly when there is a previous page; next and last exactly when there is a next one; first = 1, prev = page - 1, next = page + 1, last = total pages, each pointing at a page that holds items |
| RouterV2.TransitionRels | mes-api/app/routers/mes_operations_v2.py:155-172 | one transition relation for each listed target and no other |
| RouterV2.ActionRels | mes-api/app/routers/mes_operations_v2.py:120-202 | the fixed relations are all shorter than any transition relation, so the two never collide |
| RouterV2.LowerName | mes-api/app/routers/mes_operations_v2.py:157 | the lowercase form of each status value |
| RouterV2.TransitionRelDistinct | mes-api/app/routers/mes_operations_v2.py:155-172 | different targets give different transition relations |
| RouterV2.TransitionRelsOfStatus | mes-api/app/routers/mes_operations_v2.py:155-172 | there is a transition link exactly for each edge target of the status |
| RouterV2.ActionRelsOfStatus | mes-api/app/routers/mes_operations_v2.py:120-202 | the fixed relations of a known status |
| RouterV2.HateoasLinksMeaning | mes-api/app/routers/mes_operations_v2.py:107-204 | self, update and events always; delete exactly when not terminal; one transition link per valid target and no other; start exactly for RELEASED; finish and pause exactly for IN_PROGRESS |
| RouterV2.HateoasLinksUnknownStatus | mes-api/app/routers/mes_operations_v2.py:146-172 | a missing or unknown status gets self, update, delete and events only |
| RouterV2.BatchDryRun | mes-api/app/routers/mes_operations_v2.py:493-510 | the dry run counts every match, previews the first ten in order with their key, status and workplace, and echoes the update |

## Left out

- JWT, bcrypt and Redis are not modelled. These are `create_access_token`, `verify_token`, `blacklist_token`, `get_current_user*`, `get_api_key_user`, `hash_password` and `verify_password`. They are foreign cryptography and network calls. A guard receives the decoded token as a `TokenUser` value.
- Application wiring, database engine, logging and HTTP status mapping are not modelled. Every `_log_operation` call is dropped.
- SQLAlchemy sessions, `commit`, `refresh`, `rollback` and `BaseService.transaction` are not modelled. The store is an atomic map: a failed call leaves it unchanged and a successful one writes all at once.
- Database collation is not modelled. `ORDER BY` on text is codepoint order (`LexLess`).
- Floating point is not modelled. `round(...)` and `float(...)` in the metrics, the efficiency and the summary are left out, and the ratios are exact `real`s.
- EnhancedService.TransitionContext builds a new map. The source's `context or {}` followed by `.update(...)` writes the three keys into the caller's own dictionary whenever it passes a non-empty context (mes-api/app/services/mes_operation_service_enhanced.py:186-192). That aliasing is not modelled; no code in this model reads the caller's context afterwards.
- Column widths are not modelled. `asset_id` and the `qty_*` columns are SQL `Integer` (mes-api/app/models/mes_operation.py:10, 22-24); the model's `int` is unbounded, so a value out of the engine's 32-bit range and the engine's overflow error are not modelled.
- The wall clock is not modelled. Each `datetime.utcnow()` is the parameter `now`, and a datetime is an integer in microseconds.
- Filters.OverdueInSummary, EnhancedService.OverdueCount and EnhancedService.SummaryOf do not model time zones. The dashboard compares a stored `DateTime(timezone=True)` value with the naive `datetime.utcnow()` (mes-api/app/services/mes_operation_service_enhanced.py:297). Python refuses that comparison with `TypeError`, so on an engine that returns aware datetimes the summary raises whenever a matched row has a planned end. The model compares plain integers and gives the evidently intended count. The same holds for the rules' datetime comparisons when a payload mixes aware and naive values.
- RouterV2 does not model the import failure of the v2 router. `MESOperationWithLinks` and its sibling declare `_links` with `Field(default_factory=dict)` (mes-api/app/routers/mes_operations_v2.py:49, :66). Pydantic v2 refuses a field name with a leading underscore by raising `NameError` when the class is created, so the module, and mes-api/app/main_enhanced.py:41 that imports it, fail at import. The RouterV2 members model the evident intent: a `_links` dictionary on each returned operation.
- The `date_filter` windows "today", "this_week" and "this_month" are not worked out from the clock. The summary takes the window's start as `windowStart`.
- The effect handlers only log. An effect is a name, and `failing` says which handlers raise.
- `get_state_description` is a display string and is not modelled.
- URL and query-string assembly in the v2 router is not modelled. A links dictionary is its set of relations, plus the page number for pagination links.
- The v2 router's endpoint handlers are not modelled; only the router's own logic is in scope.
  - The handlers depend on the plain `MESOperationService`, which has no `get_operations_paginated`, `get_by_composite_id`, `transition_state`, `find_operations_by_filters` or `get_operations_summary`.
  - The model gives these operations to `EnhancedService.EnhancedOperationService`, which defines them.
- The enhanced `get_by_id`, `get_by_composite_id` and `find_operations_by_filters` only forward. Their content is `Store.OperationStore.GetOperation` and `EnhancedService.FilterKeys` with `Store.OperationStore.Collect`.
- The plain service's `get_operations` only forwards to `Store.OperationStore.GetOperations`.
- `setattr` guarded by `hasattr` in `batch_update` always sets: every field of the update schema is a column of the row.
- SQL `LIKE` is modelled with `%` and `_` only, case-sensitive, with no escape character.
- EnhancedService.EnhancedOperationService.GetOperationsSummary: the row order of `query.all()` is any scan of the matching keys.
  - The contract states the summary of such a scan.
  - Every count it states is independent of the order.
- EnhancedService.EnhancedOperationService.GetOperationsPaginated: `size` is a natural number, as the router's `ge=1` bound guarantees. A negative size, which only a direct caller could pass, is not modelled.
- Profile and event CRUD, the v1 and enhanced routers, and the `library-api-*` projects are not part of this model.

## Findings

| source | as written | input that shows it | evidently intended | confidence | as-written member | corrected member |
|---|---|---|---|---|---|---|
| mes-api/app/services/mes_operation_service_enhanced.py:211 | `self.update((order_no, asset_id, operation_no), update_data)` passes two arguments to a method that takes four, so every approved transition raises `TypeError` and nothing is written | a stored PLANNED row, target RELEASED, empty context | call the update with the key and the data, as the plain service's `update(key, data)` does, and write the new status and time | not executed | EnhancedService.EnhancedOperationService.TransitionState | EnhancedService.EnhancedOperationService.TransitionStateIntended |
| mes-api/app/services/mes_operation_service_enhanced.py:317 | `create` ends in `super().create(...)`, the abstract base method whose body is `pass` (mes-api/app/services/base_service.py:73-76), so it answers None and stores nothing | a new key with status PLANNED | store the row through the plain service's checked create | not executed | EnhancedService.EnhancedOperationService.Create | EnhancedService.EnhancedOperationService.CreateIntended |
| mes-api/app/services/mes_operation_service_enhanced.py:328 | `update` ends in the abstract base method, so it answers None and writes nothing | a stored row and any update | the plain service's checked update | not executed | EnhancedService.EnhancedOperationService.Update | EnhancedService.EnhancedOperationService.UpdateIntended |
| mes-api/app/services/mes_operation_service_enhanced.py:333 | `delete` ends in the abstract base method, so it answers None, neither True nor False, and removes nothing | a stored PLANNED row | the plain service's checked delete | not executed | EnhancedService.EnhancedOperationService.Delete | EnhancedService.EnhancedOperationService.DeleteIntended |
| mes-api/app/services/mes_operation_service_enhanced.py:311 | `getattr(operation_data, 'status', 'PLANNED')` never uses its default: the schema always has `status`, with default None (mes-api/app/schemas/mes_operation.py:22), so an omitted status is refused | a create payload without a status | an omitted status means PLANNED and the row is stored with status PLANNED, not None: the corrected create both passes the check with PLANNED and writes PLANNED into the row | not executed | EnhancedService.EnhancedOperationService.Create | EnhancedService.OmittedStatusDefault |
