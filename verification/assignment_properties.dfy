/**
  The assignment settings record: its cross-field validations (group sizes,
  timed assessments, scanned exams, starter file type) and its duration
  arithmetic. Times are whole seconds; `due_date` belongs to the assignment
  the settings describe.
 */
module AssignmentProperties {
  import opened Values

  const SecondsPerHour := 3600
  const SecondsPerMinute := 60

  /** The allowed values of `starter_file_type`. */
  const StarterFileTypes: seq<string> := ["simple", "sections", "shuffle", "group"]

  datatype Props = Props(
    groupMin: Option<real>,
    groupMax: Option<real>,
    isTimed: bool,
    scannedExam: bool,
    duration: Option<int>,
    startTime: Option<int>,
    dueDate: int,
    starterFileType: Option<string>)

  datatype Attribute = GroupMin | GroupMax | Duration | StartTime | Base | StarterFileType

  datatype Problem =
    | NotANumber
    | NotAnInteger
    | NotGreaterThanZero
    | IsBlank
    | BelowGroupMin
    | AfterDueDateLessDuration
    | TimedAndScanned
    | NotIncluded

  datatype Error = Error(attribute: Attribute, problem: Problem)

  /** `validates_numericality_of attr, only_integer: true, greater_than: 0`. */
  function PositiveInteger(attr: Attribute, x: Option<real>): (errs: seq<Error>)
    ensures |errs| <= 1
    ensures |errs| == 0 <==> x.Some? && IsInteger(x.value) && x.value > 0.0
    ensures forall e :: e in errs ==> e.attribute == attr
  {
    if x.None? then [Error(attr, NotANumber)]
    else if !IsInteger(x.value) then [Error(attr, NotAnInteger)]
    else if x.value <= 0.0 then [Error(attr, NotGreaterThanZero)]
    else []
  }

  /** `validates_presence_of attr` on a numeric column. */
  function Presence(attr: Attribute, x: Option<real>): (errs: seq<Error>)
    ensures |errs| == 0 <==> x.Some?
    ensures x.None? ==> errs == [Error(attr, IsBlank)]
  {
    if x.Some? then [] else [Error(attr, IsBlank)]
  }

  /**
    `minimum_number_of_groups`: when both bounds are set, the maximum may not
    be below the minimum. The bounds are compared as the integer column
    stores them (truncated).
   */
  function MinimumNumberOfGroups(p: Props): (errs: seq<Error>)
    ensures |errs| <= 1
    ensures p.groupMin.None? || p.groupMax.None? ==> errs == []
    ensures p.groupMin.Some? && p.groupMax.Some? && IsInteger(p.groupMin.value) && IsInteger(p.groupMax.value)
            ==> (errs == [Error(GroupMax, BelowGroupMin)] <==> p.groupMax.value < p.groupMin.value)
  {
    if p.groupMax.Some? && p.groupMin.Some? && Truncate(p.groupMax.value) < Truncate(p.groupMin.value) then
      [Error(GroupMax, BelowGroupMin)]
    else
      []
  }

  /** A timed assessment needs a positive duration (`nil` is not a number). */
  function DurationValidation(p: Props): (errs: seq<Error>)
    ensures |errs| == 0 <==> (p.isTimed ==> p.duration.Some? && p.duration.value > 0)
  {
    if !p.isTimed then []
    else if p.duration.None? then [Error(Duration, NotANumber)]
    else if p.duration.value <= 0 then [Error(Duration, NotGreaterThanZero)]
    else []
  }

  /** A timed assessment needs a start time. */
  function StartTimePresence(p: Props): (errs: seq<Error>)
    ensures |errs| == 0 <==> (p.isTimed ==> p.startTime.Some?)
  {
    if p.isTimed && p.startTime.None? then [Error(StartTime, IsBlank)] else []
  }

  /**
    `start_before_due`, run for timed assessments only: the whole duration
    must fit between the start time and the due date. Silent when the start
    time or the duration is missing, which other validations report.
   */
  function StartBeforeDue(p: Props): (errs: seq<Error>)
    ensures !p.isTimed || p.startTime.None? || p.duration.None? ==> errs == []
    ensures p.isTimed && p.startTime.Some? && p.duration.Some?
            ==> (|errs| > 0 <==> p.startTime.value + p.duration.value > p.dueDate)
  {
    if !p.isTimed || p.startTime.None? || p.duration.None? then []
    else if p.startTime.value > p.dueDate - p.duration.value then [Error(StartTime, AfterDueDateLessDuration)]
    else []
  }

  /** `not_timed_and_scanned`: a base error for a timed scanned exam. */
  function NotTimedAndScanned(p: Props): (errs: seq<Error>)
    ensures |errs| > 0 <==> p.isTimed && p.scannedExam
    ensures forall e :: e in errs ==> e.attribute == Base
  {
    if p.isTimed && p.scannedExam then [Error(Base, TimedAndScanned)] else []
  }

  /** `validates_inclusion_of :starter_file_type, in: STARTER_FILE_TYPES`. */
  function StarterFileTypeInclusion(p: Props): (errs: seq<Error>)
    ensures |errs| == 0 <==> p.starterFileType.Some? && p.starterFileType.value in StarterFileTypes
  {
    if p.starterFileType.Some? && p.starterFileType.value in StarterFileTypes then []
    else [Error(StarterFileType, NotIncluded)]
  }

  /** Every error the record's validations add, in declaration order. */
  function Errors(p: Props): (errs: seq<Error>)
    ensures p.isTimed && p.scannedExam ==> Error(Base, TimedAndScanned) in errs
  {
    PositiveInteger(GroupMin, p.groupMin)
    + PositiveInteger(GroupMax, p.groupMax)
    + Presence(GroupMin, p.groupMin)
    + Presence(GroupMax, p.groupMax)
    + MinimumNumberOfGroups(p)
    + DurationValidation(p)
    + StartTimePresence(p)
    + StartBeforeDue(p)
    + NotTimedAndScanned(p)
    + StarterFileTypeInclusion(p)
  }

  /**
    What a valid settings record is, stated directly: positive whole group
    bounds in order; for a timed assessment a positive duration and a start
    time leaving the whole duration before the due date; never timed and
    scanned at once; a known starter file type.
   */
  predicate Valid(p: Props) {
    && p.groupMin.Some? && IsInteger(p.groupMin.value) && p.groupMin.value > 0.0
    && p.groupMax.Some? && IsInteger(p.groupMax.value) && p.groupMax.value > 0.0
    && p.groupMin.value <= p.groupMax.value
    && (p.isTimed ==> && p.duration.Some? && p.duration.value > 0
                      && p.startTime.Some? && p.startTime.value + p.duration.value <= p.dueDate)
    && !(p.isTimed && p.scannedExam)
    && p.starterFileType.Some? && p.starterFileType.value in StarterFileTypes
  }

  /** The validations add no error exactly when the record is valid. */
  lemma ErrorsEmptyIffValid(p: Props)
    ensures Errors(p) == [] <==> Valid(p)
  {
  }

  /**
    A timed assessment that passes every validation is not a scanned exam,
    has a positive duration and a start time, and starts early enough for the
    whole duration to fit before the due date.
   */
  lemma TimedScannedExclusive(p: Props)
    requires Errors(p) == [] && p.isTimed
    ensures !p.scannedExam
    ensures p.duration.Some? && p.duration.value > 0 && p.startTime.Some?
    ensures p.startTime.value <= p.dueDate - p.duration.value
  {
    ErrorsEmptyIffValid(p);
  }

  datatype DurationParts = DurationParts(hours: int, minutes: int)

  /**
    `AssignmentProperties.duration_parts`: whole hours, then whole minutes of
    what is left; leftover seconds are dropped. A `nil` duration reads as 0
    seconds (`nil.to_i`). Ruby's integer division rounds down, as Dafny's
    does for a positive divisor, so negative durations split the same way.
   */
  function SplitDuration(dur: Option<int>): (p: DurationParts)
    ensures 0 <= p.minutes < 60
    ensures var d := dur.GetOr(0);
            p.hours * SecondsPerHour + p.minutes * SecondsPerMinute <= d
            < p.hours * SecondsPerHour + p.minutes * SecondsPerMinute + SecondsPerMinute
  {
    var d := dur.GetOr(0);
    var hours := d / SecondsPerHour;
    var rest := d - hours * SecondsPerHour;
    var minutes := rest / SecondsPerMinute;
    DurationParts(hours, minutes)
  }

  /** Splitting `h` hours, `m` minutes and `s` stray seconds gives back `h` and `m`. */
  lemma SplitDurationInverse(h: int, m: int, s: int)
    requires 0 <= m < 60 && 0 <= s < 60
    ensures SplitDuration(Some(h * SecondsPerHour + m * SecondsPerMinute + s)) == DurationParts(h, m)
  {
  }

  /** 10 hours and 4 minutes split into `{hours: 10, minutes: 4}`. */
  lemma SplitDurationExample()
    ensures SplitDuration(Some(10 * SecondsPerHour + 4 * SecondsPerMinute)) == DurationParts(10, 4)
    ensures SplitDuration(None) == DurationParts(0, 0)
  {
  }

  /** The total hours of the submission rule's penalty periods. */
  function TotalHours(periodHours: seq<int>): int
    decreases |periodHours|
  {
    if |periodHours| == 0 then 0 else TotalHours(periodHours[..|periodHours| - 1]) + periodHours[|periodHours| - 1]
  }

  /** `adjusted_duration`: the duration plus every penalty period's hours. */
  function AdjustedDuration(duration: int, periodHours: seq<int>): (r: int)
    ensures (forall i :: 0 <= i < |periodHours| ==> periodHours[i] >= 0) ==> r >= duration
    ensures (r - duration) % SecondsPerHour == 0
  {
    NonNegativeTotal(periodHours);
    duration + TotalHours(periodHours) * SecondsPerHour
  }

  lemma {:induction false} NonNegativeTotal(periodHours: seq<int>)
    ensures (forall i :: 0 <= i < |periodHours| ==> periodHours[i] >= 0) ==> TotalHours(periodHours) >= 0
    decreases |periodHours|
  {
    if |periodHours| > 0 {
      NonNegativeTotal(periodHours[..|periodHours| - 1]);
    }
  }

  /** Adding penalty periods lengthens the adjusted duration by exactly their hours. */
  lemma {:induction false} AdjustedDurationAppend(duration: int, ps: seq<int>, qs: seq<int>)
    ensures AdjustedDuration(duration, ps + qs) == AdjustedDuration(duration, ps) + TotalHours(qs) * SecondsPerHour
    decreases |qs|
  {
    if |qs| == 0 {
      assert ps + qs == ps;
    } else {
      var qs' := qs[..|qs| - 1];
      assert (ps + qs)[..|ps + qs| - 1] == ps + qs';
      AdjustedDurationAppend(duration, ps, qs');
    }
  }

  /** No penalty periods: the adjusted duration is the duration. */
  lemma AdjustedDurationNoPeriods(duration: int)
    ensures AdjustedDuration(duration, []) == duration
  {
  }

  /** A Ruby value as a condition sees it: only `nil` and `false` are falsy. */
  datatype RubyValue = Nil | Boolean(b: bool) | Symbol(name: string)

  predicate Truthy(v: RubyValue) {
    !(v.Nil? || v == Boolean(false))
  }

  /**
    The guard of the `tokens_per_period` validation as written: it tests the
    symbol literals `:enable_student_tests` and `:unlimited_tokens` rather than
    the attributes they name, and a symbol is always truthy, so the guard
    never holds and the validation never runs, whatever the attributes are.
   */
  function TokensPerPeriodGuard(): (fires: bool)
    ensures !fires
  {
    Truthy(Symbol("enable_student_tests")) && !Truthy(Symbol("unlimited_tokens"))
  }

  /** The guard of the `token_period` validation as written: never holds either. */
  function TokenPeriodGuard(): (fires: bool)
    ensures !fires
  {
    !Truthy(Symbol("non_regenerating_tokens")) && Truthy(Symbol("enable_student_tests"))
    && !Truthy(Symbol("unlimited_tokens"))
  }
}
