/**
  The mark a grader sees for one criterion of one grading result, and how it
  follows the deductive annotations placed on that result.

  A mark is derived (`max_mark` minus the deductions of the annotations tied
  to its criterion, floored at zero, or `nil` when nothing is deducted) until a
  grader overrides it; an overridden mark ignores annotation changes until the
  override is switched back off, which recomputes it.
 */
module Marks {
  import opened Values

  datatype CriterionKind = Rubric | Flexible | Checkbox

  /** A criterion a mark is awarded against (the mark's "markable"). */
  datatype Criterion = Criterion(kind: CriterionKind, id: nat, maxMark: real)

  /**
    A reusable annotation comment. `flexibleCriterionId` is the flexible
    criterion its annotation category is tied to, if any; `deduction` is the
    amount each use of the text takes off that criterion, if any.
   */
  datatype AnnotationText = AnnotationText(flexibleCriterionId: Option<nat>, deduction: Option<real>)

  /** One use of an annotation text on the submission of one result. */
  datatype Annotation = Annotation(resultId: nat, textId: nat)

  /** The annotation texts of an assignment and the annotations placed with them. */
  datatype Sheet = Sheet(texts: map<nat, AnnotationText>, annotations: seq<Annotation>)

  /** The stored mark of one (result, criterion) pair. `value` is the `mark` column. */
  datatype Mark = Mark(resultId: nat, markable: Criterion, value: Option<real>, override: bool)

  datatype MarkError = MarkableTypeBlank | OverrideNotBoolean | BelowZero | AboveMaxMark

  /** The outcome of a write: the stored mark, or the validation errors that rejected it. */
  datatype WriteOutcome = Success(mark: Mark) | Failure(errors: seq<MarkError>)

  /** The class name stored in `markable_type` for each kind of criterion. */
  function TypeName(kind: CriterionKind): (name: string)
    ensures !Blank(name)
  {
    var name := match kind
      case Rubric => "RubricCriterion"
      case Flexible => "FlexibleCriterion"
      case Checkbox => "CheckboxCriterion";
    assert !IsSpace(name[0]);
    name
  }

  /** A mark's value lies in the criterion's range `[0, max_mark]`, or is `nil`. */
  predicate InRange(value: Option<real>, maxMark: real) {
    value.None? || (0.0 <= value.value <= maxMark)
  }

  /** Texts may carry no negative deduction. */
  predicate ValidTexts(texts: map<nat, AnnotationText>) {
    forall id :: id in texts && texts[id].deduction.Some? ==> texts[id].deduction.value >= 0.0
  }

  /**
    Annotation `a` counts against the criterion `c` in result `resultId`: it is
    on that result and its text's category is tied to `c`. Categories are tied
    to flexible criteria only, so marks of other kinds have no tied annotations.
   */
  predicate Tied(texts: map<nat, AnnotationText>, a: Annotation, resultId: nat, c: Criterion) {
    && a.resultId == resultId
    && c.kind == Flexible
    && a.textId in texts
    && texts[a.textId].flexibleCriterionId == Some(c.id)
  }

  /** A tied annotation whose text carries a (possibly zero) deduction. */
  predicate Deductive(texts: map<nat, AnnotationText>, a: Annotation, resultId: nat, c: Criterion) {
    Tied(texts, a, resultId, c) && texts[a.textId].deduction.Some?
  }

  /** The amount annotation `a` takes off criterion `c` in result `resultId`. */
  function Contribution(texts: map<nat, AnnotationText>, a: Annotation, resultId: nat, c: Criterion): (d: real)
    ensures !Deductive(texts, a, resultId, c) ==> d == 0.0
    ensures ValidTexts(texts) ==> d >= 0.0
  {
    if Tied(texts, a, resultId, c) then texts[a.textId].deduction.GetOr(0.0) else 0.0
  }

  /** No annotation of the result carries a deduction against criterion `c`. */
  predicate DeductiveAbsent(texts: map<nat, AnnotationText>, annots: seq<Annotation>, resultId: nat, c: Criterion) {
    forall i :: 0 <= i < |annots| ==> !Deductive(texts, annots[i], resultId, c)
  }

  /**
    `calculate_deduction`: the total deduction of the annotations in `annots`
    against criterion `c` in result `resultId`.
   */
  function Deduction(texts: map<nat, AnnotationText>, annots: seq<Annotation>, resultId: nat, c: Criterion): (total: real)
    ensures ValidTexts(texts) ==> total >= 0.0
    ensures DeductiveAbsent(texts, annots, resultId, c) ==> total == 0.0
    decreases |annots|
  {
    if |annots| == 0 then 0.0
    else Deduction(texts, annots[..|annots| - 1], resultId, c) + Contribution(texts, annots[|annots| - 1], resultId, c)
  }

  /**
    The value a non-overridden mark takes for a total deduction: `nil` when
    nothing is deducted, otherwise `max_mark - total` floored at zero.
   */
  function Derived(maxMark: real, total: real): (v: Option<real>)
    ensures v.None? <==> total == 0.0
    ensures v.Some? && v.value > 0.0 ==> v.value + total == maxMark
    ensures v.Some? ==> v.value >= 0.0 && (v.value == 0.0 ==> total >= maxMark)
    ensures 0.0 <= maxMark && 0.0 <= total ==> InRange(v, maxMark)
  {
    if total == 0.0 then None
    else if maxMark - total > 0.0 then Some(maxMark - total)
    else Some(0.0)
  }

  /** The mark of `m`'s result and criterion as the current annotations derive it. */
  function DerivedValue(m: Mark, s: Sheet): Option<real> {
    Derived(m.markable.maxMark, Deduction(s.texts, s.annotations, m.resultId, m.markable))
  }

  /**
    `update_deduction`. An overridden mark is left alone, except that an
    overridden `nil` mark whose last deductive annotation is gone drops its
    override; any other mark takes the value the deductions derive.
   */
  function UpdateDeduction(m: Mark, s: Sheet): (r: Mark)
    ensures r.resultId == m.resultId && r.markable == m.markable
    ensures !r.override
            ==> r.value == Derived(m.markable.maxMark, Deduction(s.texts, s.annotations, m.resultId, m.markable))
    ensures r.override <==> m.override && !(m.value.None? && DeductiveAbsent(s.texts, s.annotations, m.resultId, m.markable))
    ensures r.override ==> r == m
    ensures m.override && !r.override ==> r.value.None?
    ensures ValidTexts(s.texts) && 0.0 <= m.markable.maxMark && InRange(m.value, m.markable.maxMark)
            ==> InRange(r.value, r.markable.maxMark)
  {
    if m.override && m.value.None? && DeductiveAbsent(s.texts, s.annotations, m.resultId, m.markable) then
      m.(override := false)
    else if m.override then
      m
    else
      m.(value := DerivedValue(m, s))
  }

  /**
    The validation errors of a mark record: `markable_type` must be present,
    `override` must be a boolean, and a non-nil mark must lie in
    `[0, max_mark]` of its criterion, whatever the criterion's kind.
   */
  function MarkErrors(markableType: Option<string>, value: Option<real>, override: Option<bool>, maxMark: real): (errs: seq<MarkError>)
    ensures |errs| == 0 <==> PresentString(markableType) && override.Some? && InRange(value, maxMark)
    ensures value.Some? && value.value > maxMark ==> AboveMaxMark in errs
    ensures value.Some? && value.value < 0.0 ==> BelowZero in errs
  {
    (if PresentString(markableType) then [] else [MarkableTypeBlank])
    + (if override.Some? then [] else [OverrideNotBoolean])
    + (if value.Some? && value.value < 0.0 then [BelowZero] else [])
    + (if value.Some? && value.value > maxMark then [AboveMaxMark] else [])
  }

  /**
    `mark.update!(mark: value, override: override)`: the record is validated
    and rejected if invalid; otherwise it is stored, and switching the override
    from on to off (`ensure_mark_value`) recomputes the value from the current
    deductions.
   */
  function Write(m: Mark, s: Sheet, value: Option<real>, override: Option<bool>): (r: WriteOutcome)
    ensures r.Failure? <==> |MarkErrors(Some(TypeName(m.markable.kind)), value, override, m.markable.maxMark)| > 0
    ensures r.Success? ==> r.mark.resultId == m.resultId && r.mark.markable == m.markable
    ensures r.Success? ==> r.mark.override == override.value
    ensures r.Success? && (override.value || !m.override) ==> r.mark.value == value
    ensures r.Success? && m.override && !override.value ==> r.mark.value == DerivedValue(m, s)
    ensures r.Success? && ValidTexts(s.texts) && 0.0 <= m.markable.maxMark ==> InRange(r.mark.value, m.markable.maxMark)
  {
    var errs := MarkErrors(Some(TypeName(m.markable.kind)), value, override, m.markable.maxMark);
    if |errs| > 0 then Failure(errs)
    else
      var stored := m.(value := value, override := override.value);
      if m.override && !stored.override then Success(stored.(value := DerivedValue(stored, s)))
      else Success(stored)
  }

  /**
    The mark of criterion `c` for a result that has just been created: it
    already agrees with the deductions of a result that has no annotations,
    so the invariants of the grading actions hold from creation on.
   */
  function NewMark(resultId: nat, c: Criterion): (m: Mark)
    ensures m.resultId == resultId && m.markable == c
    ensures forall s: Sheet :: (forall i :: 0 <= i < |s.annotations| ==> s.annotations[i].resultId != resultId)
              ==> !m.override && m.value == DerivedValue(m, s)
    ensures InRange(m.value, c.maxMark)
  {
    Mark(resultId, c, None, false)
  }

  /**
    Placing or removing a deductive annotation re-runs `update_deduction` on
    the mark of the annotation's own result and criterion. An annotation that
    deducts nothing from the mark, a comment-only one included, leaves it
    untouched, so an override is only ever dropped when a deductive annotation
    goes.
   */
  function AfterAnnotationChange(m: Mark, texts: map<nat, AnnotationText>, a: Annotation, s: Sheet): (r: Mark)
    ensures r.resultId == m.resultId && r.markable == m.markable
    ensures !Deductive(texts, a, m.resultId, m.markable) ==> r == m
    ensures Deductive(texts, a, m.resultId, m.markable) && !m.override ==> !r.override && r.value == DerivedValue(m, s)
    ensures m.override && m.value.Some? ==> r == m
    ensures ValidTexts(s.texts) && 0.0 <= m.markable.maxMark && InRange(m.value, m.markable.maxMark)
            ==> InRange(r.value, r.markable.maxMark)
  {
    if Deductive(texts, a, m.resultId, m.markable) then UpdateDeduction(m, s) else m
  }

  /** A grader places an annotation. */
  function AddAnnotation(s: Sheet, m: Mark, a: Annotation): (r: (Sheet, Mark))
    ensures r.0.texts == s.texts && r.0.annotations == s.annotations + [a]
    ensures r.1.resultId == m.resultId && r.1.markable == m.markable
  {
    var s' := s.(annotations := s.annotations + [a]);
    (s', AfterAnnotationChange(m, s.texts, a, s'))
  }

  /** A grader removes the annotation at position `i`. */
  function RemoveAnnotation(s: Sheet, m: Mark, i: nat): (r: (Sheet, Mark))
    requires i < |s.annotations|
    ensures r.0.texts == s.texts && r.0.annotations == s.annotations[..i] + s.annotations[i + 1..]
    ensures |r.0.annotations| + 1 == |s.annotations|
    ensures r.1.resultId == m.resultId && r.1.markable == m.markable
  {
    var s' := s.(annotations := s.annotations[..i] + s.annotations[i + 1..]);
    (s', AfterAnnotationChange(m, s.texts, s.annotations[i], s'))
  }

  /** Annotations other than those on result `resultId`. */
  function WithoutResult(annots: seq<Annotation>, resultId: nat): (r: seq<Annotation>)
    ensures forall i :: 0 <= i < |r| ==> r[i].resultId != resultId
    ensures forall a :: a in r ==> a in annots
    ensures forall a: Annotation :: a.resultId != resultId ==> multiset(r)[a] == multiset(annots)[a]
    ensures |r| <= |annots|
  {
    if |annots| == 0 then []
    else
      assert annots == [annots[0]] + annots[1..];
      if annots[0].resultId == resultId then WithoutResult(annots[1..], resultId)
      else [annots[0]] + WithoutResult(annots[1..], resultId)
  }

  /**
    `result.annotations.destroy_all`: every annotation of the mark's result is
    removed, each removal of a deductive annotation re-running the update of
    its criterion's mark.
   */
  function DestroyAllAnnotations(s: Sheet, m: Mark): (r: (Sheet, Mark))
    ensures r.0.texts == s.texts
    ensures forall i :: 0 <= i < |r.0.annotations| ==> r.0.annotations[i].resultId != m.resultId
    ensures forall a: Annotation :: a.resultId != m.resultId ==> multiset(r.0.annotations)[a] == multiset(s.annotations)[a]
    ensures r.1.resultId == m.resultId && r.1.markable == m.markable
  {
    var s' := s.(annotations := WithoutResult(s.annotations, m.resultId));
    if !DeductiveAbsent(s.texts, s.annotations, m.resultId, m.markable) then
      (s', UpdateDeduction(m, s'))
    else
      (s', m)
  }

  /**
    `annotation_text.update!(deduction: d)`: the text's new deduction applies
    to every annotation using it, and each result holding such an annotation
    has the mark of the text's criterion updated, unless the text deducted
    nothing before and deducts nothing after.
   */
  function UpdateTextDeduction(s: Sheet, m: Mark, textId: nat, d: Option<real>): (r: (Sheet, Mark))
    requires textId in s.texts
    ensures r.0.annotations == s.annotations && r.0.texts.Keys == s.texts.Keys
    ensures r.0.texts[textId].deduction == d
    ensures r.0.texts[textId].flexibleCriterionId == s.texts[textId].flexibleCriterionId
    ensures forall u :: u in s.texts && u != textId ==> r.0.texts[u] == s.texts[u]
    ensures s.texts[textId].deduction.None? && d.None? ==> r.1 == m
    ensures r.1.resultId == m.resultId && r.1.markable == m.markable
  {
    var s' := s.(texts := s.texts[textId := s.texts[textId].(deduction := d)]);
    if (s.texts[textId].deduction.Some? || d.Some?)
       && exists i :: 0 <= i < |s.annotations| && s.annotations[i].textId == textId
                      && Tied(s.texts, s.annotations[i], m.resultId, m.markable) then
      (s', UpdateDeduction(m, s'))
    else
      (s', m)
  }

  /** The grading actions that change a mark or the annotations it follows. */
  datatype Event =
    | Annotate(annotation: Annotation)
    | Unannotate(index: nat)
    | DestroyAll
    | ChangeTextDeduction(textId: nat, deduction: Option<real>)
    | Grade(value: Option<real>, override: Option<bool>)

  /**
    One action. Removing an annotation that does not exist, changing a text
    that does not exist and a rejected write change nothing.
   */
  function Step(s: Sheet, m: Mark, e: Event): (r: (Sheet, Mark))
    ensures r.1.resultId == m.resultId && r.1.markable == m.markable
  {
    match e
    case Annotate(a) => AddAnnotation(s, m, a)
    case Unannotate(i) => if i < |s.annotations| then RemoveAnnotation(s, m, i) else (s, m)
    case DestroyAll => DestroyAllAnnotations(s, m)
    case ChangeTextDeduction(t, d) => if t in s.texts then UpdateTextDeduction(s, m, t, d) else (s, m)
    case Grade(v, o) =>
      match Write(m, s, v, o)
      case Success(m') => (s, m')
      case Failure(_) => (s, m)
  }

  /** A sequence of actions, first to last. */
  function Run(s: Sheet, m: Mark, events: seq<Event>): (r: (Sheet, Mark))
    ensures r.1.resultId == m.resultId && r.1.markable == m.markable
    decreases |events|
  {
    if |events| == 0 then (s, m)
    else
      var next := Step(s, m, events[0]);
      Run(next.0, next.1, events[1..])
  }
}
