# Grading marks, assignment settings and test results in Dafny

This project models three pieces of the grading logic of MarkUs, a web
application for marking programming assignments. Each is written as pure
functions over immutable records, with exact `real` for decimal marks and
integer seconds for times:

- **The criterion mark** (`Marks`, `MarkProperties`). A `Mark` is stored per
  (result, criterion) pair. Annotations placed on a result's submission use
  annotation texts. A text's category may be tied to a flexible criterion,
  and the text may carry a deduction. `calculate_deduction` sums the
  deductions of the result's annotations tied to the mark's criterion.
  `update_deduction` sets the mark to `max_mark - total`, floored at 0. The
  mark stays `nil` when the total is 0, and nothing changes while the mark is
  overridden. There is one exception: an overridden `nil` mark whose last
  deductive annotation is gone drops its override. Only changes that involve
  a deduction re-run `update_deduction`; placing or removing a comment-only
  annotation leaves the mark, and its override, alone. Switching the override off
  (`ensure_mark_value`) recomputes the mark. Grading actions are explicit
  events (`Annotate`, `Unannotate`, `DestroyAll`, `ChangeTextDeduction`,
  `Grade`) that act on a `Sheet` of texts and annotations and on one mark.
- **Assignment settings** (`AssignmentProperties`). These are the
  record-level validations: group bounds, timed assessments, scanned exams and
  the starter file type. Each one returns the errors it adds, and a
  declarative `Valid` predicate is proved equivalent to "no errors". The
  module also has `duration_parts` (hours and minutes of a duration) and
  `adjusted_duration` (the duration plus penalty-period hours).
- **Test script results** (`TestScriptResults`). This is the validity of one
  test script's result: marks earned, optional marks total, run time, and the
  test script and revision it belongs to.

`Values` holds shared helpers: `Option` for nullable columns, Rails'
`blank?`, the integer check and the truncating integer cast.

The mark's implementation file (`app/models/mark.rb`) is not part of this
model. The mark's behaviour is taken from its behavioural tests in
`spec/models/mark_spec.rb`, and the fixture values those tests imply are
used: a flexible criterion out of 3.0 and texts deducting 1.0.

Two choices follow from those tests:
- A mark whose tied deductions are all zero is `nil`
  (`mark_spec.rb:179-182`), so `nil` is keyed on a total deduction of 0,
  not on whether a deductive annotation remains.
- Annotation categories are tied to criteria only through
  `flexible_criterion_id` (`mark_spec.rb:80`, `mark_spec.rb:188`), so only
  flexible marks receive deductions. Rubric and checkbox marks never do.

## Model

| member | source | states |
|---|---|---|
| `Marks.TypeName` | spec/models/mark_spec.rb:7-8 | The `markable_type` stored for each kind of criterion is a class name, which is never blank. |
| `MarkProperties.RequiredAttributes` | spec/models/mark_spec.rb:2-13 | A mark with a criterion class name as `markable_type` and a boolean `override` is valid. An empty, all-whitespace (Unicode whitespace included) or `nil` `markable_type` is rejected, and so is a `nil` override. |
| `Marks.MarkErrors` | spec/models/mark_spec.rb:15-49 | A mark record has no errors exactly when `markable_type` is present, `override` is a boolean, and the value is `nil` or within `[0, max_mark]`. A value above `max_mark` or below 0 is always reported. |
| `MarkProperties.OutOfRangeInvalid` | spec/models/mark_spec.rb:15-49 | A mark above its criterion's `max_mark` or below 0 is invalid for rubric, flexible and checkbox criteria alike. |
| `Marks.Contribution` | spec/models/mark_spec.rb:86-97 | One annotation's share of the total deduction is 0 unless it is a deductive annotation of the criterion on the result, and it is non-negative when no text deducts a negative amount. |
| `Marks.Deduction` | spec/models/mark_spec.rb:77-97 | The total deduction is non-negative when no text deducts a negative amount. It is 0 when no annotation of the result deducts from the criterion. |
| `MarkProperties.DeductionAppend` | spec/models/mark_spec.rb:86-97 | The total over two batches of annotations is the sum of their totals. |
| `MarkProperties.DeductionRemove` | spec/models/mark_spec.rb:86-97 | Removing one annotation takes exactly its own deduction off the total. |
| `MarkProperties.DeductionPermutation` | spec/models/mark_spec.rb:86-97 | The total depends only on which annotations exist, not on the order they were placed in. |
| `MarkProperties.CalculateDeductionScenarios` | spec/models/mark_spec.rb:86-97 | One 1.0 annotation gives a deduction of 1.0, and two give 2.0. |
| `MarkProperties.DeductionAddNonDeductive` | spec/models/mark_spec.rb:157-172 | An annotation that deducts nothing from the criterion (another criterion, another result, or a comment-only text) adds nothing to the criterion's total. |
| `MarkProperties.DeductionTextFrame` | spec/models/mark_spec.rb:179-182 | Changing the deduction of a text that no annotation of the result uses against the criterion leaves the total unchanged. |
| `Marks.Derived` | spec/models/mark_spec.rb:109-155 | The derived value is `nil` exactly when the total is 0. A positive value plus the total equals `max_mark`. A value of 0 means the total reached `max_mark`. The value lies in `[0, max_mark]`. |
| `Marks.UpdateDeduction` | spec/models/mark_spec.rb:100-191 | The result stays overridden exactly when the mark was overridden and not a `nil` mark without deductive annotations. An overridden result equals the input. A mark that drops its override is `nil`. A non-overridden result shows the derived value. The range `[0, max_mark]` is preserved. |
| `MarkProperties.UpdateDeductionIdempotent` | spec/models/mark_spec.rb:157-172 | Running `update_deduction` again after the annotation callback has run changes nothing. |
| `Marks.Write` | spec/models/mark_spec.rb:193-200 | A write is rejected exactly when the record has validation errors. A stored write keeps the given override. It keeps the given value unless it switches the override off, in which case the value is recomputed from the deductions. A stored mark is in range. |
| `MarkProperties.ClearingOverrideResyncs` | spec/models/mark_spec.rb:193-200 | Switching the override off succeeds for an in-range value, and the mark then shows the value derived from the current deductions. |
| `Marks.NewMark` | spec/models/mark_spec.rb:148-155 | A new result's mark, for a result with no annotations, is not overridden and already shows the value the deductions derive (`nil`), and it lies in `[0, max_mark]`. So the invariants of the grading actions hold from creation on. |
| `Marks.AfterAnnotationChange` | spec/models/mark_spec.rb:109-172 | An annotation that deducts nothing from the mark's result and criterion, a comment-only one included, leaves the mark untouched. A deductive change makes a non-overridden mark show the value derived from the current deductions. An overridden mark with a value is never changed. The range `[0, max_mark]` is preserved. |
| `Marks.AddAnnotation` | spec/models/mark_spec.rb:109-115 | Placing an annotation appends it to the annotations and keeps the mark's result and criterion. |
| `Marks.RemoveAnnotation` | spec/models/mark_spec.rb:184-190 | Destroying an annotation removes exactly that one and keeps the others in order. |
| `Marks.DestroyAllAnnotations` | spec/models/mark_spec.rb:174-177 | After `destroy_all`, no annotation of the result remains, and every other result's annotation is kept as many times as it occurred. |
| `MarkProperties.DestroyAllKeepsOtherTotals` | spec/models/mark_spec.rb:174-177 | `destroy_all` on one result leaves every other result's total deduction, against every criterion, unchanged. |
| `MarkProperties.WithoutResultKeepsOtherTotals` | spec/models/mark_spec.rb:174-177 | Dropping the annotations of one result leaves the total deduction of every other result unchanged. |
| `Marks.WithoutResult` | spec/models/mark_spec.rb:175 | What `destroy_all` removes: exactly the annotations on the result. Each other annotation is kept with its multiplicity, and nothing new appears. |
| `Marks.UpdateTextDeduction` | spec/models/mark_spec.rb:179-182 | Re-valuing a text sets that text's deduction. Its criterion, every other text and the annotations are unchanged. A text that deducted nothing and still deducts nothing leaves the mark unchanged. |
| `Marks.Step` | spec/models/mark_spec.rb:100-191 | A grading action never moves a mark to another result or criterion. |
| `Marks.Run` | spec/models/mark_spec.rb:100-191 | A sequence of grading actions never moves a mark to another result or criterion. |
| `MarkProperties.OtherCriterionIsolation` | spec/models/mark_spec.rb:157-172 | An annotation of another criterion leaves the mark untouched. Recomputing after it gives the same mark as recomputing before it. |
| `MarkProperties.OverrideResetOnLastRemoval` | spec/models/mark_spec.rb:184-190 | Removing the last deductive annotation under an overridden `nil` mark turns the override off and changes nothing else. |
| `MarkProperties.OverrideDroppedOnlyByLastDeductiveRemoval` | spec/models/mark_spec.rb:128-190 | No annotation action changes an overridden mark except one: a `nil` mark drops its override, and nothing else, when the action took away the last annotation deducting from its criterion. |
| `MarkProperties.CommentKeepsOverrideScenario` | spec/models/mark_spec.rb:128-136 | A comment-only annotation leaves an overridden `nil` mark overridden, and a deductive annotation placed afterwards then leaves it unchanged. |
| `MarkProperties.StepKeepsOverriddenValue` | spec/models/mark_spec.rb:128-136 | No annotation action changes an overridden mark that has a value. |
| `MarkProperties.RunKeepsOverriddenValue` | spec/models/mark_spec.rb:128-136 | No sequence of annotation actions changes an overridden mark that has a value. |
| `MarkProperties.StepKeepsSynced` | spec/models/mark_spec.rb:109-155 | Every annotation action keeps a non-overridden mark equal to the value derived from the current deductions. |
| `MarkProperties.RunKeepsSynced` | spec/models/mark_spec.rb:109-155 | Any sequence of annotation actions keeps a non-overridden mark equal to `max(max_mark - total, 0)`, or `nil` for a zero total. |
| `MarkProperties.StepKeepsInRange` | spec/models/mark_spec.rb:138-146 | One action, including a grader write, keeps the mark in `[0, max_mark]` and the texts free of negative deductions. |
| `MarkProperties.RunKeepsInRange` | spec/models/mark_spec.rb:15-49 | No sequence of actions, grader writes included, takes a mark outside `[0, max_mark]`. |
| `MarkProperties.DestroyOneByOne` | spec/models/mark_spec.rb:174-177 | Destroying the result's annotations one at a time, each with its callback, never moves the mark to another result or criterion. |
| `MarkProperties.OneByOneMark` | spec/models/mark_spec.rb:174-177 | After one-by-one destruction, the mark is `nil` and not overridden when some annotation deducted from it, unless it was overridden with a value; otherwise it is unchanged. |
| `MarkProperties.DestroyAllMatchesOneByOne` | spec/models/mark_spec.rb:174-177 | `destroy_all` leaves the mark exactly as destroying the annotations one at a time would. |
| `MarkProperties.FixtureScenario` | spec/models/mark_spec.rb:78-88 | Placing one 1.0 annotation on a fresh mark out of 3.0 gives the fixture mark 2.0. |
| `MarkProperties.SameDeductionScenario` | spec/models/mark_spec.rb:109-115 | A second 1.0 annotation gives 3 - 2 = 1.0. |
| `MarkProperties.DifferentDeductionScenario` | spec/models/mark_spec.rb:117-126 | An added 1.5 annotation gives 3 - 2.5 = 0.5. |
| `MarkProperties.OverrideKeepsValueScenario` | spec/models/mark_spec.rb:128-136 | An overridden 3.0 stays 3.0 after an annotation is added. |
| `MarkProperties.FlooredAtZeroScenario` | spec/models/mark_spec.rb:138-146 | Three more annotations give 3 - 4, which is floored to 0.0. |
| `MarkProperties.NoDeductionsScenario` | spec/models/mark_spec.rb:148-155 | With no deductions, the mark stays `nil`. |
| `MarkProperties.OtherCriterionScenario` | spec/models/mark_spec.rb:157-172 | An annotation of another criterion leaves the mark at 2.0. |
| `MarkProperties.DestroyAllScenario` | spec/models/mark_spec.rb:174-177 | Destroying all annotations makes the mark `nil`, not `max_mark`. |
| `MarkProperties.ZeroDeductionScenario` | spec/models/mark_spec.rb:179-182 | Re-valuing the only deductive text to 0 makes the mark `nil`. |
| `MarkProperties.OverrideResetScenario` | spec/models/mark_spec.rb:184-190 | An overridden `nil` mark loses its override when its last deductive annotation is destroyed. |
| `MarkProperties.EnsureMarkValueScenario` | spec/models/mark_spec.rb:193-200 | Switching off the override of a 3.0 mark recomputes it to 2.0. |
| `AssignmentProperties.PositiveInteger` | app/models/assignment_properties.rb:6-7 | A group bound passes exactly when it is a positive whole number. Otherwise exactly one error is added, on that attribute. |
| `AssignmentProperties.Presence` | app/models/assignment_properties.rb:11-12 | A group bound passes exactly when it is not `nil`. A `nil` bound gets exactly one blank error, on that attribute. |
| `Values.Truncate` | app/models/assignment_properties.rb:107 | The integer column cast truncates toward zero: it is the largest integer not above a non-negative value and the smallest not below a negative one. |
| `AssignmentProperties.MinimumNumberOfGroups` | app/models/assignment_properties.rb:106-110 | There is no error when either bound is `nil`. With whole-number bounds, the single error is added exactly when `group_max < group_min`. |
| `AssignmentProperties.DurationValidation` | app/models/assignment_properties.rb:54-55 | A timed assessment passes exactly when its duration is present and positive. An untimed one always passes. |
| `AssignmentProperties.StartTimePresence` | app/models/assignment_properties.rb:56 | A timed assessment needs a start time. |
| `AssignmentProperties.StartBeforeDue` | app/models/assignment_properties.rb:118-127 | For a timed assessment with a start time and a duration, an error is added exactly when `start_time > due_date - duration`. There is no error when either is `nil` or the assessment is untimed. |
| `AssignmentProperties.NotTimedAndScanned` | app/models/assignment_properties.rb:129-134 | A base error is added exactly when the assignment is both timed and a scanned exam. |
| `AssignmentProperties.StarterFileTypeInclusion` | app/models/assignment_properties.rb:60-62 | Only `simple`, `sections`, `shuffle` and `group` are accepted. |
| `AssignmentProperties.Errors` | app/models/assignment_properties.rb:52-62 | A timed scanned exam always carries the base error among the record's errors. |
| `AssignmentProperties.ErrorsEmptyIffValid` | app/models/assignment_properties.rb:6-62 | The validations add no error exactly when the declarative `Valid` holds. `Valid` requires positive whole bounds in order; for a timed assessment, a positive duration and a start that leaves the whole duration before the due date; not timed and scanned at once; and a known starter file type. |
| `AssignmentProperties.TimedScannedExclusive` | app/models/assignment_properties.rb:54-56 | A timed assessment that passes every validation is not a scanned exam, has a positive duration and a start time, and starts no later than `due_date - duration`. |
| `AssignmentProperties.SplitDuration` | app/models/assignment_properties.rb:84-97 | `minutes < 60` and `3600*hours + 60*minutes <= d < 3600*hours + 60*minutes + 60`, so leftover seconds are dropped. A `nil` duration counts as 0 seconds. |
| `AssignmentProperties.SplitDurationInverse` | app/models/assignment_properties.rb:73-97 | Splitting `h` hours, `m < 60` minutes and fewer than 60 stray seconds gives back `{hours: h, minutes: m}`. |
| `AssignmentProperties.SplitDurationExample` | app/models/assignment_properties.rb:76-89 | 10 hours 4 minutes gives `{hours: 10, minutes: 4}`, and `nil` gives `{0, 0}`. |
| `AssignmentProperties.AdjustedDuration` | app/models/assignment_properties.rb:99-102 | The adjusted duration differs from the duration by whole hours and is never shorter when period hours are non-negative. |
| `AssignmentProperties.NonNegativeTotal` | app/models/assignment_properties.rb:99-102 | Non-negative period hours add up to a non-negative total. |
| `AssignmentProperties.AdjustedDurationAppend` | app/models/assignment_properties.rb:99-102 | Adding penalty periods lengthens the adjusted duration by exactly `3600 *` their hours. |
| `AssignmentProperties.AdjustedDurationNoPeriods` | app/models/assignment_properties.rb:99-102 | With no penalty periods, the adjusted duration is the duration. |
| `AssignmentProperties.TokensPerPeriodGuard` | app/models/assignment_properties.rb:38-43 | The guard as written never holds, whatever the attributes, so the `tokens_per_period` validation never runs. |
| `AssignmentProperties.TokenPeriodGuard` | app/models/assignment_properties.rb:44-48 | The guard as written never holds, so the `token_period` validation never runs. |
| `TestScriptResults.NonNegativeNumber` | spec/models/test_script_result_spec.rb:96-119 | A numeric field passes exactly when it is a non-negative number (a whole one where required), or `nil` where allowed. A non-numeric value always fails. |
| `TestScriptResults.EarnedWithinTotal` | spec/models/test_script_result_spec.rb:106-109 | An error is added exactly when a total is given and the marks earned exceed it. |
| `TestScriptResults.Errors` | spec/models/test_script_result_spec.rb:7-10 | A result without a test script always carries the blank error. |
| `TestScriptResults.ErrorsEmptyIffValid` | spec/models/test_script_result_spec.rb:44-120 | No error exactly when the result has a test script and a revision, non-negative numeric marks earned within any given non-negative total, and a non-negative whole time. |
| `TestScriptResults.EarnedRange` | spec/models/test_script_result_spec.rb:52-62 | Against a given total, the earned mark is valid exactly when it is between 0 and the total, fractions included. |
| `TestScriptResults.EarnedWithoutTotal` | spec/models/test_script_result_spec.rb:77-81 | Without a total, any non-negative earned mark is valid. |
| `TestScriptResults.TimeRange` | spec/models/test_script_result_spec.rb:111-119 | The time is valid exactly when it is a non-negative whole number. |
| `TestScriptResults.ValidScenarios` | spec/models/test_script_result_spec.rb:44-87 | These are valid: the fixture; earned 0 or 0.5; total 1.5; earned and total both 0; total `nil`. |
| `TestScriptResults.InvalidScenarios` | spec/models/test_script_result_spec.rb:7-120 | These are invalid: no test script; earned -1; total -1; earned 2 of 1; time -1 or 0.5; missing or non-numeric marks earned; a missing or blank (no-break space) revision. |

## Left out

- Persistence, associations, `reload`, and the callback wiring of the
  framework are left out. Annotation and text changes are explicit events,
  and each updates the mark the way its callback would.
- A text id that does not name a text is treated as tied to no criterion.
  The database rules such references out.
- The texts' own validation (no negative deduction) is not modelled as a
  rejection. It is a hypothesis (`ValidTexts`, `NoNegativeDeductions`) of the
  range lemmas.
- `#scale_mark` is left out because its shared example is not available.
  The "mark times weight" test is left out because it depends on factory
  values that are not available.
- The annotation and annotation-text callbacks are not part of this model.
  The model re-runs the mark's update for a placed or removed annotation only
  when it deducts from the mark's criterion, and for a re-valued text only
  when it deducts before or after the change. That is the behaviour the
  mark's tests exercise.
- The private callbacks `ensure_not_released_to_students` and
  `update_grouping_mark` are left out. Their tests are empty.
- `Marks.AddAnnotation`: the contract states only the appended annotation
  and that the mark keeps its result and criterion. The effect on the mark is
  stated by `AfterAnnotationChange` and the `Step…` lemmas.
- `Marks.RemoveAnnotation`: the contract states only the removed annotation
  and that the mark keeps its result and criterion. The effect on the mark is
  stated by `AfterAnnotationChange` and the `Step…` lemmas.
- `Marks.DestroyAllAnnotations`: the contract states only which annotations
  remain and that the mark keeps its result and criterion. The effect on the
  mark is stated by `OneByOneMark` and `DestroyAllMatchesOneByOne`.
- `Marks.UpdateTextDeduction`: the contract states only the texts after the
  change, that a text deducting nothing before and after leaves the mark
  alone, and that the mark keeps its result and criterion. The rest of the
  effect on the mark is stated by `UpdateDeduction`, `DeductionTextFrame` and
  the `Step…` lemmas.
- `Marks.Step`: the contract states only that a mark keeps its result and
  criterion. Its effect on the mark is stated by the `Step…` lemmas.
- `Marks.Run`: the contract states only that a mark keeps its result and
  criterion. Its effect on the mark is stated by the `Run…` lemmas.
- `repository_folder` is not modelled: `Props` has no such field, so
  neither its presence check nor its exclusion from the reserved folder names
  is part of `Valid`. The reserved names come from the external repository
  class, and so does `update_permissions_if_vcs_changed`, which is left out
  too.
- `repository_folder_unchanged` is left out because it depends on the
  framework's change tracking.
- The presence check on the owning assignment is left out.
- Error messages are not modelled. Most are translation lookups
  (`assignment_properties.rb:125`, `:132`) or the validators' default
  messages. The one literal message (`assignment_properties.rb:108`) is
  represented by the kind `BelowGroupMin`. Only which attribute gets which
  kind of error is modelled.
- The token validations are left out as constraints. Their guards test
  symbol literals, which are always truthy, so those validations never run.
  `TokensPerPeriodGuard` and `TokenPeriodGuard` record that. The
  `token_start_date` presence check and the boolean inclusion checks are left
  out as well.
- `AssignmentProperties.PositiveInteger`: a whole-valued decimal such as
  `2.0` is treated as an integer. Rails' `only_integer` tests the text of
  the raw value, so it rejects `2.0` as not an integer; the model accepts it.
- `TestScriptResults.NonNegativeNumber`: the same reading of `only_integer`
  applies to the time, so a time of `2.0` is accepted here.
- Group bounds given as non-numeric text are left out. Group bounds are
  numbers or `nil`.
- Time-zone and `Duration` object semantics are left out. Times are integer
  seconds. Penalty-period hours are whole numbers. `due_date` is always
  present, since a missing one would raise in `start_before_due`.
- `AssignmentProperties.AdjustedDuration`: a `nil` duration, which raises in
  Ruby, is not modelled.
- For a test script result, treating a `nil` time as invalid is a choice of
  this model. The tests leave that case open.
- The test-script-result implementation file is not part of this model. Its
  validations are stated from its tests.
