/**
  The validity of one test script's result on a submission: marks earned out
  of an optional total, the run time in whole seconds, and the test script and
  repository revision it belongs to.
 */
module TestScriptResults {
  import opened Values

  /** A raw attribute as assigned: `nil`, a number, or text that does not read as a number. */
  datatype Field = Nil | Number(x: real) | NonNumeric(text: string)

  datatype TestScriptResult = TestScriptResult(
    hasTestScript: bool,
    marksEarned: Field,
    marksTotal: Field,
    repoRevision: Option<string>,
    time: Field)

  datatype Attribute = TestScript | MarksEarned | MarksTotal | RepoRevision | Time

  datatype Problem = IsBlank | NotANumber | NotAnInteger | Negative | AboveMarksTotal

  datatype Error = Error(attribute: Attribute, problem: Problem)

  /** `presence: true`: `nil` and blank text are missing; a number never is. */
  predicate Present(f: Field) {
    match f
    case Nil => false
    case Number(_) => true
    case NonNumeric(s) => !Blank(s)
  }

  /**
    `numericality: { greater_than_or_equal_to: 0 }`, optionally `only_integer`
    and `allow_nil`.
   */
  function NonNegativeNumber(attr: Attribute, f: Field, onlyInteger: bool, allowNil: bool): (errs: seq<Error>)
    ensures |errs| <= 1
    ensures |errs| == 0 <==> (f.Nil? && allowNil) || (f.Number? && f.x >= 0.0 && (onlyInteger ==> IsInteger(f.x)))
  {
    match f
    case Nil => if allowNil then [] else [Error(attr, NotANumber)]
    case NonNumeric(_) => [Error(attr, NotANumber)]
    case Number(x) =>
      if onlyInteger && !IsInteger(x) then [Error(attr, NotAnInteger)]
      else if x < 0.0 then [Error(attr, Negative)]
      else []
  }

  /** Marks earned may not exceed a total that is given. */
  function EarnedWithinTotal(t: TestScriptResult): (errs: seq<Error>)
    ensures |errs| > 0 <==> t.marksEarned.Number? && t.marksTotal.Number? && t.marksEarned.x > t.marksTotal.x
  {
    if t.marksEarned.Number? && t.marksTotal.Number? && t.marksEarned.x > t.marksTotal.x then
      [Error(MarksEarned, AboveMarksTotal)]
    else
      []
  }

  /** Every error the validations add. */
  function Errors(t: TestScriptResult): (errs: seq<Error>)
    ensures !t.hasTestScript ==> Error(TestScript, IsBlank) in errs
  {
    (if t.hasTestScript then [] else [Error(TestScript, IsBlank)])
    + (if Present(t.marksEarned) then [] else [Error(MarksEarned, IsBlank)])
    + (if PresentString(t.repoRevision) then [] else [Error(RepoRevision, IsBlank)])
    + NonNegativeNumber(MarksEarned, t.marksEarned, false, false)
    + NonNegativeNumber(MarksTotal, t.marksTotal, false, true)
    + EarnedWithinTotal(t)
    + NonNegativeNumber(Time, t.time, true, false)
  }

  /**
    A valid result, stated directly: it belongs to a test script and a
    revision, earned a non-negative number of marks not above the total when
    a total is given, the total if given is a non-negative number, and the
    time is a non-negative whole number.
   */
  predicate Valid(t: TestScriptResult) {
    && t.hasTestScript
    && PresentString(t.repoRevision)
    && t.marksEarned.Number? && t.marksEarned.x >= 0.0
    && (t.marksTotal.Nil? || (t.marksTotal.Number? && 0.0 <= t.marksTotal.x && t.marksEarned.x <= t.marksTotal.x))
    && t.time.Number? && t.time.x >= 0.0 && IsInteger(t.time.x)
  }

  /** The validations add no error exactly when the result is valid. */
  lemma ErrorsEmptyIffValid(t: TestScriptResult)
    ensures Errors(t) == [] <==> Valid(t)
  {
  }

  /**
    Against a given total, a valid result may have any earned mark from 0 up
    to the total, fractions included, and nothing outside that range.
   */
  lemma EarnedRange(t: TestScriptResult, earned: real)
    requires Valid(t) && t.marksTotal.Number?
    ensures Valid(t.(marksEarned := Number(earned))) <==> 0.0 <= earned <= t.marksTotal.x
  {
  }

  /** Without a total, any non-negative earned mark is valid. */
  lemma EarnedWithoutTotal(t: TestScriptResult, earned: real)
    requires Valid(t)
    ensures Valid(t.(marksTotal := Nil, marksEarned := Number(earned))) <==> 0.0 <= earned
  {
  }

  /** The time must be a whole, non-negative number of seconds. */
  lemma TimeRange(t: TestScriptResult, time: real)
    requires Valid(t)
    ensures Valid(t.(time := Number(time))) <==> 0.0 <= time && IsInteger(time)
  {
  }

  /** The result created before each test: 1 of 1 marks at revision 0, in no time. */
  const Fixture := TestScriptResult(true, Number(1.0), Number(1.0), Some("0"), Number(0.0))

  lemma ValidScenarios()
    ensures Valid(Fixture)
    ensures Valid(Fixture.(marksEarned := Number(0.0)))
    ensures Valid(Fixture.(marksEarned := Number(0.5)))
    ensures Valid(Fixture.(marksTotal := Number(1.5)))
    ensures Valid(Fixture.(marksEarned := Number(0.0), marksTotal := Number(0.0)))
    ensures Valid(Fixture.(marksTotal := Nil))
  {
    assert Fixture.repoRevision.value[0] == '0' && !IsSpace('0');
    assert !Blank(Fixture.repoRevision.value);
  }

  lemma InvalidScenarios()
    ensures !Valid(Fixture.(hasTestScript := false))
    ensures !Valid(Fixture.(marksEarned := Number(-1.0)))
    ensures !Valid(Fixture.(marksTotal := Number(-1.0)))
    ensures !Valid(Fixture.(marksEarned := Number(2.0)))
    ensures !Valid(Fixture.(time := Number(-1.0)))
    ensures !Valid(Fixture.(time := Number(0.5)))
    ensures !Valid(Fixture.(marksEarned := Nil))
    ensures !Valid(Fixture.(marksEarned := NonNumeric("abcd")))
    ensures !Valid(Fixture.(repoRevision := None))
    ensures !Valid(Fixture.(repoRevision := Some("\U{00A0}")))
  {
  }
}
