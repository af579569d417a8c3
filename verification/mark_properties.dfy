/**
  Properties of the mark model: how the total deduction composes, why marks
  of other criteria are isolated from an annotation, the invariants every
  grading action keeps, and the scenarios of the mark's behavioural tests.
 */
module MarkProperties {
  import opened Values
  import opened Marks

  // ----- the total deduction -------------------------------------------------

  lemma {:induction false} DeductionAppend(texts: map<nat, AnnotationText>, a: seq<Annotation>, b: seq<Annotation>, resultId: nat, c: Criterion)
    ensures Deduction(texts, a + b, resultId, c) == Deduction(texts, a, resultId, c) + Deduction(texts, b, resultId, c)
    decreases |b|
  {
    if |b| == 0 {
      assert a + b == a;
    } else {
      var b' := b[..|b| - 1];
      assert (a + b)[..|a + b| - 1] == a + b';
      assert (a + b)[|a + b| - 1] == b[|b| - 1];
      DeductionAppend(texts, a, b', resultId, c);
    }
  }

  /** Taking one annotation away takes exactly its own deduction off the total. */
  lemma {:induction false} DeductionRemove(texts: map<nat, AnnotationText>, annots: seq<Annotation>, i: nat, resultId: nat, c: Criterion)
    requires i < |annots|
    ensures Deduction(texts, annots, resultId, c)
            == Deduction(texts, annots[..i] + annots[i + 1..], resultId, c) + Contribution(texts, annots[i], resultId, c)
  {
    assert annots == (annots[..i] + [annots[i]]) + annots[i + 1..];
    DeductionAppend(texts, annots[..i] + [annots[i]], annots[i + 1..], resultId, c);
    DeductionAppend(texts, annots[..i], [annots[i]], resultId, c);
    DeductionAppend(texts, annots[..i], annots[i + 1..], resultId, c);
    assert [annots[i]][..0] == [];
  }

  /** Removing position `j` removes one occurrence of its element. */
  lemma MultisetRemoveAt<T>(b: seq<T>, j: nat)
    requires j < |b|
    ensures multiset(b[..j] + b[j + 1..]) == multiset(b) - multiset{b[j]}
  {
    assert b == b[..j] + [b[j]] + b[j + 1..];
    assert multiset(b) == multiset(b[..j]) + multiset{b[j]} + multiset(b[j + 1..]);
  }

  /**
    The total deduction does not depend on the order the annotations were
    placed in: it is recomputed from the collection each time.
   */
  lemma {:induction false} DeductionPermutation(texts: map<nat, AnnotationText>, a: seq<Annotation>, b: seq<Annotation>, resultId: nat, c: Criterion)
    requires multiset(a) == multiset(b)
    ensures Deduction(texts, a, resultId, c) == Deduction(texts, b, resultId, c)
    decreases |a|
  {
    if |a| == 0 {
      assert |b| == |multiset(b)| == 0;
    } else {
      var n := |a| - 1;
      var x := a[n];
      assert x in multiset(b);
      var j :| 0 <= j < |b| && b[j] == x;
      var b' := b[..j] + b[j + 1..];
      MultisetRemoveAt(a, n);
      MultisetRemoveAt(b, j);
      assert a[..n] + a[n + 1..] == a[..n];
      DeductionPermutation(texts, a[..n], b', resultId, c);
      DeductionRemove(texts, b, j, resultId, c);
    }
  }

  /**
    An annotation that deducts nothing from the criterion (one of another
    criterion or result, or a comment-only one) adds nothing to its total.
   */
  lemma DeductionAddNonDeductive(texts: map<nat, AnnotationText>, annots: seq<Annotation>, a: Annotation, resultId: nat, c: Criterion)
    requires !Deductive(texts, a, resultId, c)
    ensures Deduction(texts, annots + [a], resultId, c) == Deduction(texts, annots, resultId, c)
  {
  }

  /**
    Changing the deduction of a text that no annotation of the result uses
    against the criterion leaves the criterion's total unchanged.
   */
  lemma {:induction false} DeductionTextFrame(texts: map<nat, AnnotationText>, annots: seq<Annotation>, t: nat, d: Option<real>, resultId: nat, c: Criterion)
    requires t in texts
    requires forall i :: 0 <= i < |annots| && annots[i].textId == t ==> !Tied(texts, annots[i], resultId, c)
    ensures Deduction(texts[t := texts[t].(deduction := d)], annots, resultId, c) == Deduction(texts, annots, resultId, c)
    decreases |annots|
  {
    if |annots| > 0 {
      DeductionTextFrame(texts, annots[..|annots| - 1], t, d, resultId, c);
    }
  }

  // ----- single actions -------------------------------------------------------

  /** Recomputing twice gives what recomputing once gives. */
  lemma UpdateDeductionIdempotent(m: Mark, s: Sheet)
    ensures UpdateDeduction(UpdateDeduction(m, s), s) == UpdateDeduction(m, s)
  {
  }

  /**
    Deductions from annotations of another criterion or another result never
    affect a mark: placing one does not touch it, and recomputing it afterwards
    gives what recomputing it before would have given.
   */
  lemma OtherCriterionIsolation(s: Sheet, m: Mark, a: Annotation)
    requires !Tied(s.texts, a, m.resultId, m.markable)
    ensures AddAnnotation(s, m, a).1 == m
    ensures UpdateDeduction(m, AddAnnotation(s, m, a).0) == UpdateDeduction(m, s)
  {
  }

  /**
    An overridden `nil` mark loses its override when the last deductive
    annotation of its criterion is removed.
   */
  lemma OverrideResetOnLastRemoval(s: Sheet, m: Mark, i: nat)
    requires i < |s.annotations|
    requires m.override && m.value.None?
    requires Deductive(s.texts, s.annotations[i], m.resultId, m.markable)
    requires forall j :: 0 <= j < |s.annotations| && j != i ==> !Deductive(s.texts, s.annotations[j], m.resultId, m.markable)
    ensures RemoveAnnotation(s, m, i).1 == m.(override := false)
  {
  }

  /** Switching the override off makes the mark follow the deductions again. */
  lemma ClearingOverrideResyncs(m: Mark, s: Sheet, value: Option<real>)
    requires m.override
    requires InRange(value, m.markable.maxMark)
    ensures Write(m, s, value, Some(false)).Success?
    ensures Write(m, s, value, Some(false)).mark == m.(override := false, value := DerivedValue(m, s))
  {
  }

  // ----- destroying every annotation of a result ------------------------------

  /** Position of the first annotation on result `resultId`. */
  function FirstOnResult(annots: seq<Annotation>, resultId: nat): (i: nat)
    requires exists j :: 0 <= j < |annots| && annots[j].resultId == resultId
    ensures i < |annots| && annots[i].resultId == resultId
    decreases |annots|
  {
    if annots[0].resultId == resultId then 0
    else
      assert exists j :: 0 <= j < |annots[1..]| && annots[1..][j].resultId == resultId by {
        var j :| 0 <= j < |annots| && annots[j].resultId == resultId;
        assert annots[1..][j - 1] == annots[j];
      }
      1 + FirstOnResult(annots[1..], resultId)
  }

  /**
    `destroy_all` as the framework runs it: the annotations of the result are
    destroyed one at a time, each destruction running its own callback.
   */
  function DestroyOneByOne(s: Sheet, m: Mark): (r: (Sheet, Mark))
    ensures r.1.resultId == m.resultId && r.1.markable == m.markable
    decreases |s.annotations|
  {
    if exists j :: 0 <= j < |s.annotations| && s.annotations[j].resultId == m.resultId then
      var next := RemoveAnnotation(s, m, FirstOnResult(s.annotations, m.resultId));
      DestroyOneByOne(next.0, next.1)
    else
      (s, m)
  }

  /** Some annotation of the result deducts from the mark's criterion. */
  predicate AnyDeductive(s: Sheet, m: Mark) {
    exists j :: 0 <= j < |s.annotations| && Deductive(s.texts, s.annotations[j], m.resultId, m.markable)
  }

  /** What removing every deductive annotation makes of a mark: `nil` and not overridden, unless overridden with a value. */
  function Cleared(m: Mark): Mark {
    if m.override && m.value.Some? then m else m.(override := false, value := None)
  }

  /** Once no annotation of the result deducts from the criterion, recomputing clears the mark. */
  lemma UpdateWithoutDeductiveClears(s: Sheet, m: Mark)
    requires !AnyDeductive(s, m)
    ensures UpdateDeduction(m, s) == Cleared(m)
  {
  }

  lemma RemovalKeepsOthers(s: Sheet, m: Mark, i: nat)
    requires i < |s.annotations|
    ensures AnyDeductive(RemoveAnnotation(s, m, i).0, m) ==> AnyDeductive(s, m)
    ensures !Deductive(s.texts, s.annotations[i], m.resultId, m.markable) && AnyDeductive(s, m)
            ==> AnyDeductive(RemoveAnnotation(s, m, i).0, m)
  {
    var rest := RemoveAnnotation(s, m, i).0.annotations;
    assert forall j :: 0 <= j < |rest| ==> rest[j] == (if j < i then s.annotations[j] else s.annotations[j + 1]);
    if !Deductive(s.texts, s.annotations[i], m.resultId, m.markable) && AnyDeductive(s, m) {
      var j :| 0 <= j < |s.annotations| && Deductive(s.texts, s.annotations[j], m.resultId, m.markable);
      if j < i {
        assert rest[j] == s.annotations[j];
      } else {
        assert rest[j - 1] == s.annotations[j];
      }
    }
  }

  lemma {:induction false} OneByOneMark(s: Sheet, m: Mark)
    ensures DestroyOneByOne(s, m).1 == (if AnyDeductive(s, m) then Cleared(m) else m)
    decreases |s.annotations|
  {
    if exists j :: 0 <= j < |s.annotations| && s.annotations[j].resultId == m.resultId {
      var i := FirstOnResult(s.annotations, m.resultId);
      var next := RemoveAnnotation(s, m, i);
      OneByOneMark(next.0, next.1);
      RemovalKeepsOthers(s, m, i);
      assert AnyDeductive(next.0, next.1) == AnyDeductive(next.0, m);
      if Deductive(s.texts, s.annotations[i], m.resultId, m.markable) {
        if !AnyDeductive(next.0, m) {
          UpdateWithoutDeductiveClears(next.0, m);
        }
      }
    } else {
      assert !AnyDeductive(s, m);
    }
  }

  /**
    Destroying all of a result's annotations at once leaves the mark exactly
    as destroying them one by one, each with its callback, would.
   */
  lemma DestroyAllMatchesOneByOne(s: Sheet, m: Mark)
    ensures DestroyAllAnnotations(s, m).1 == DestroyOneByOne(s, m).1
  {
    OneByOneMark(s, m);
    var s' := DestroyAllAnnotations(s, m).0;
    if AnyDeductive(s, m) {
      UpdateWithoutDeductiveClears(s', m);
    }
  }

  /** Dropping the annotations of one result leaves every other result's totals as they were. */
  lemma {:induction false} WithoutResultKeepsOtherTotals(texts: map<nat, AnnotationText>, annots: seq<Annotation>, dropped: nat, resultId: nat, c: Criterion)
    requires resultId != dropped
    ensures Deduction(texts, WithoutResult(annots, dropped), resultId, c) == Deduction(texts, annots, resultId, c)
    decreases |annots|
  {
    if |annots| > 0 {
      var rest := annots[1..];
      assert annots == [annots[0]] + rest;
      WithoutResultKeepsOtherTotals(texts, rest, dropped, resultId, c);
      DeductionAppend(texts, [annots[0]], rest, resultId, c);
      assert [annots[0]][..0] == [];
      if annots[0].resultId != dropped {
        DeductionAppend(texts, [annots[0]], WithoutResult(rest, dropped), resultId, c);
      }
    }
  }

  /**
    `destroy_all` on one result leaves the total deduction of every other
    result, against every criterion, unchanged.
   */
  lemma DestroyAllKeepsOtherTotals(s: Sheet, m: Mark, resultId: nat, c: Criterion)
    requires resultId != m.resultId
    ensures Deduction(s.texts, DestroyAllAnnotations(s, m).0.annotations, resultId, c)
            == Deduction(s.texts, s.annotations, resultId, c)
  {
    WithoutResultKeepsOtherTotals(s.texts, s.annotations, m.resultId, resultId, c);
  }

  // ----- runs of actions ------------------------------------------------------

  /** Annotation actions only: no grader writes. */
  predicate AnnotationEvents(events: seq<Event>) {
    forall k :: 0 <= k < |events| ==> !events[k].Grade?
  }

  /** Text changes never set a negative deduction. */
  predicate NoNegativeDeductions(events: seq<Event>) {
    forall k :: 0 <= k < |events| && events[k].ChangeTextDeduction? && events[k].deduction.Some?
      ==> events[k].deduction.value >= 0.0
  }

  /** A mark that is not overridden shows what the current deductions derive. */
  predicate Synced(s: Sheet, m: Mark) {
    !m.override ==> m.value == DerivedValue(m, s)
  }

  lemma StepKeepsOverriddenValue(s: Sheet, m: Mark, e: Event)
    requires m.override && m.value.Some? && !e.Grade?
    ensures Step(s, m, e).1 == m
  {
  }

  /**
    The override wins over every annotation action but one: an overridden
    mark loses its override only when it is `nil` and the action took away
    the last annotation deducting from its criterion. Nothing else changes
    while the override holds.
   */
  lemma OverrideDroppedOnlyByLastDeductiveRemoval(s: Sheet, m: Mark, e: Event)
    requires m.override && !e.Grade?
    ensures Step(s, m, e).1.override ==> Step(s, m, e).1 == m
    ensures !Step(s, m, e).1.override
            ==> && Step(s, m, e).1 == m.(override := false)
                && m.value.None?
                && !DeductiveAbsent(s.texts, s.annotations, m.resultId, m.markable)
                && DeductiveAbsent(Step(s, m, e).0.texts, Step(s, m, e).0.annotations, m.resultId, m.markable)
  {
  }

  /** An overridden mark with a value is immune to every annotation action. */
  lemma {:induction false} RunKeepsOverriddenValue(s: Sheet, m: Mark, events: seq<Event>)
    requires m.override && m.value.Some?
    requires AnnotationEvents(events)
    ensures Run(s, m, events).1 == m
    decreases |events|
  {
    if |events| > 0 {
      StepKeepsOverriddenValue(s, m, events[0]);
      var next := Step(s, m, events[0]);
      assert AnnotationEvents(events[1..]) by {
        forall k | 0 <= k < |events[1..]| ensures !events[1..][k].Grade? {
          assert events[1..][k] == events[k + 1];
        }
      }
      RunKeepsOverriddenValue(next.0, next.1, events[1..]);
    }
  }

  lemma StepKeepsSynced(s: Sheet, m: Mark, e: Event)
    requires Synced(s, m) && !e.Grade?
    ensures Synced(Step(s, m, e).0, Step(s, m, e).1)
  {
    match e
    case Annotate(a) =>
      if !Deductive(s.texts, a, m.resultId, m.markable) {
        DeductionAddNonDeductive(s.texts, s.annotations, a, m.resultId, m.markable);
      }
    case Unannotate(i) =>
      if i < |s.annotations| && !Deductive(s.texts, s.annotations[i], m.resultId, m.markable) {
        DeductionRemove(s.texts, s.annotations, i, m.resultId, m.markable);
      }
    case DestroyAll =>
    case ChangeTextDeduction(t, d) =>
      if t in s.texts {
        if s.texts[t].deduction.None? && d.None? {
          assert s.texts[t := s.texts[t].(deduction := d)] == s.texts;
        } else if !(exists i :: 0 <= i < |s.annotations| && s.annotations[i].textId == t
                                && Tied(s.texts, s.annotations[i], m.resultId, m.markable)) {
          DeductionTextFrame(s.texts, s.annotations, t, d, m.resultId, m.markable);
        }
      }
  }

  /**
    Whatever annotations are placed, removed or re-valued, a mark that is not
    overridden keeps showing `max_mark` minus the current total deduction,
    floored at zero, or `nil` when nothing is deducted.
   */
  lemma {:induction false} RunKeepsSynced(s: Sheet, m: Mark, events: seq<Event>)
    requires Synced(s, m)
    requires AnnotationEvents(events)
    ensures Synced(Run(s, m, events).0, Run(s, m, events).1)
    decreases |events|
  {
    if |events| > 0 {
      StepKeepsSynced(s, m, events[0]);
      var next := Step(s, m, events[0]);
      assert AnnotationEvents(events[1..]) by {
        forall k | 0 <= k < |events[1..]| ensures !events[1..][k].Grade? {
          assert events[1..][k] == events[k + 1];
        }
      }
      RunKeepsSynced(next.0, next.1, events[1..]);
    }
  }

  lemma StepKeepsInRange(s: Sheet, m: Mark, e: Event)
    requires ValidTexts(s.texts) && 0.0 <= m.markable.maxMark && InRange(m.value, m.markable.maxMark)
    requires e.ChangeTextDeduction? && e.deduction.Some? ==> e.deduction.value >= 0.0
    ensures ValidTexts(Step(s, m, e).0.texts)
    ensures InRange(Step(s, m, e).1.value, m.markable.maxMark)
  {
  }

  /**
    No sequence of grading actions, grader writes included, can take a mark
    outside `[0, max_mark]`: deductions never push it below zero and writes
    outside the range are rejected.
   */
  lemma {:induction false} RunKeepsInRange(s: Sheet, m: Mark, events: seq<Event>)
    requires ValidTexts(s.texts) && 0.0 <= m.markable.maxMark && InRange(m.value, m.markable.maxMark)
    requires NoNegativeDeductions(events)
    ensures InRange(Run(s, m, events).1.value, m.markable.maxMark)
    decreases |events|
  {
    if |events| > 0 {
      StepKeepsInRange(s, m, events[0]);
      var next := Step(s, m, events[0]);
      assert NoNegativeDeductions(events[1..]) by {
        forall k | 0 <= k < |events[1..]| && events[1..][k].ChangeTextDeduction? && events[1..][k].deduction.Some?
          ensures events[1..][k].deduction.value >= 0.0
        {
          assert events[1..][k] == events[k + 1];
        }
      }
      RunKeepsInRange(next.0, next.1, events[1..]);
    }
  }

  // ----- the scenarios of the mark's behavioural tests ------------------------

  /** The flexible criterion of the fixture: out of 3. */
  const Crit := Criterion(Flexible, 1, 3.0)
  /** Text 1 deducts 1.0 from `Crit`; text 3 deducts 1.0 from another criterion (id 2). */
  const Texts := map[1 := AnnotationText(Some(1), Some(1.0)), 3 := AnnotationText(Some(2), Some(1.0))]
  const Ann := Annotation(7, 1)
  /** The assignment with deductive annotations: one 1.0 annotation on result 7 ... */
  const FixSheet := Sheet(Texts, [Ann])
  /** ... and the mark it leaves, 3 - 1. */
  const FixMark := Mark(7, Crit, Some(2.0), false)

  /** Placing the fixture's annotation on a fresh mark gives the fixture's mark. */
  lemma FixtureScenario()
    ensures AddAnnotation(Sheet(Texts, []), NewMark(7, Crit), Ann) == (FixSheet, FixMark)
  {
  }

  lemma CalculateDeductionScenarios()
    ensures Deduction(Texts, [Ann], 7, Crit) == 1.0
    ensures Deduction(Texts, [Ann, Ann], 7, Crit) == 2.0
  {
  }

  /** A second annotation with the same text: 3 - 2. */
  lemma SameDeductionScenario()
    ensures AddAnnotation(FixSheet, FixMark, Ann).1.value == Some(1.0)
  {
    CalculateDeductionScenarios();
    assert FixSheet.annotations + [Ann] == [Ann, Ann];
  }

  /** An annotation with a new 1.5 text: 3 - 2.5. */
  lemma DifferentDeductionScenario()
    ensures AddAnnotation(FixSheet.(texts := Texts[2 := AnnotationText(Some(1), Some(1.5))]), FixMark, Annotation(7, 2)).1.value
            == Some(0.5)
  {
    var texts := Texts[2 := AnnotationText(Some(1), Some(1.5))];
    var a2 := Annotation(7, 2);
    assert Contribution(texts, Ann, 7, Crit) == 1.0;
    assert Contribution(texts, a2, 7, Crit) == 1.5;
    assert [Ann, a2][..1] == [Ann];
    assert Deduction(texts, [Ann], 7, Crit) == 1.0;
    assert Deduction(texts, [Ann, a2], 7, Crit) == 2.5;
    assert FixSheet.annotations + [a2] == [Ann, a2];
  }

  /** Three more annotations: 3 - 4 is floored at 0, never negative. */
  lemma FlooredAtZeroScenario()
    ensures Run(FixSheet, FixMark, [Annotate(Ann), Annotate(Ann), Annotate(Ann)]).1.value == Some(0.0)
  {
    var events := [Annotate(Ann), Annotate(Ann), Annotate(Ann)];
    var (s1, m1) := Step(FixSheet, FixMark, events[0]);
    var (s2, m2) := Step(s1, m1, events[1]);
    var (s3, m3) := Step(s2, m2, events[2]);
    assert s3.annotations == [Ann, Ann, Ann, Ann];
    assert Deduction(Texts, [Ann, Ann, Ann, Ann], 7, Crit) == 4.0 by {
      CalculateDeductionScenarios();
      assert [Ann, Ann, Ann][..2] == [Ann, Ann];
      assert Deduction(Texts, [Ann, Ann, Ann], 7, Crit) == 3.0;
      assert [Ann, Ann, Ann, Ann][..3] == [Ann, Ann, Ann];
    }
    assert m3.value == Some(0.0);
    assert events[1..][1..][1..] == [];
    assert Run(s2, m2, events[1..][1..]) == (s3, m3);
    assert Run(s1, m1, events[1..]) == (s3, m3);
  }

  /** An overridden 3.0 stays 3.0 when an annotation is placed. */
  lemma OverrideKeepsValueScenario()
    ensures Run(FixSheet, FixMark, [Grade(Some(3.0), Some(false)), Grade(Some(3.0), Some(true)), Annotate(Ann)]).1.value
            == Some(3.0)
  {
    var events := [Grade(Some(3.0), Some(false)), Grade(Some(3.0), Some(true)), Annotate(Ann)];
    var (s1, m1) := Step(FixSheet, FixMark, events[0]);
    assert m1.value == Some(3.0) && !m1.override;
    var (s2, m2) := Step(s1, m1, events[1]);
    assert m2.value == Some(3.0) && m2.override;
    var (s3, m3) := Step(s2, m2, events[2]);
    assert m3 == m2;
    assert events[1..][1..][1..] == [];
    assert Run(s2, m2, events[1..][1..]) == (s3, m3);
    assert Run(s1, m1, events[1..]) == (s3, m3);
  }

  /** An assignment with no deductions at all leaves the mark `nil`. */
  lemma NoDeductionsScenario()
    ensures UpdateDeduction(NewMark(7, Crit), Sheet(map[], [])).value.None?
  {
  }

  /** A deduction on another criterion: this mark stays at 3 - 1. */
  lemma OtherCriterionScenario()
    ensures var (s, m) := AddAnnotation(FixSheet, FixMark, Annotation(7, 3));
            UpdateDeduction(m, s).value == Some(2.0)
  {
    var a3 := Annotation(7, 3);
    assert !Tied(Texts, a3, 7, Crit);
    OtherCriterionIsolation(FixSheet, FixMark, a3);
    CalculateDeductionScenarios();
  }

  /** Destroying all annotations of the result leaves the mark `nil`, not `max_mark`. */
  lemma DestroyAllScenario()
    ensures DestroyAllAnnotations(FixSheet, FixMark).1.value.None?
  {
  }

  /** Re-valuing the only deductive text to 0 leaves the mark `nil`. */
  lemma ZeroDeductionScenario()
    ensures UpdateTextDeduction(FixSheet, FixMark, 1, Some(0.0)).1.value.None?
  {
    assert FixSheet.annotations[0].textId == 1 && Tied(Texts, FixSheet.annotations[0], 7, Crit);
    var texts := Texts[1 := Texts[1].(deduction := Some(0.0))];
    assert [Ann][..0] == [];
    assert Deduction(texts, [Ann], 7, Crit) == 0.0;
  }

  /** An overridden `nil` mark whose last deductive annotation is destroyed loses its override. */
  lemma OverrideResetScenario()
    ensures !RemoveAnnotation(FixSheet, Write(FixMark, FixSheet, None, Some(true)).mark, 0).1.override
  {
  }

  /**
    A comment-only annotation on the criterion leaves an overridden `nil` mark
    overridden, so a deductive annotation placed afterwards does not change it.
   */
  lemma CommentKeepsOverrideScenario()
    ensures var texts := Texts[4 := AnnotationText(Some(1), None)];
            var m := Mark(7, Crit, None, true);
            Run(Sheet(texts, []), m, [Annotate(Annotation(7, 4)), Annotate(Ann)]).1 == m
  {
    var texts := Texts[4 := AnnotationText(Some(1), None)];
    var m := Mark(7, Crit, None, true);
    var events := [Annotate(Annotation(7, 4)), Annotate(Ann)];
    var (s1, m1) := Step(Sheet(texts, []), m, events[0]);
    assert m1 == m;
    var (s2, m2) := Step(s1, m1, events[1]);
    assert s2.annotations == [Annotation(7, 4), Ann];
    assert Deductive(texts, s2.annotations[1], 7, Crit);
    assert m2 == m;
    assert events[1..][1..] == [];
    assert Run(s1, m1, events[1..]) == (s2, m2);
  }

  /** Switching the override of a `max_mark` mark off recomputes 3 - 1. */
  lemma EnsureMarkValueScenario()
    ensures var m := Write(FixMark, FixSheet, Some(3.0), Some(true)).mark;
            Write(m, FixSheet, m.value, Some(false)).mark.value == Some(2.0)
  {
  }

  /**
    A mark above the criterion's maximum or below zero is invalid, whatever
    the kind of criterion.
   */
  lemma OutOfRangeInvalid(kind: CriterionKind, maxMark: real, v: real, override: bool)
    requires v > maxMark || v < 0.0
    ensures |MarkErrors(Some(TypeName(kind)), Some(v), Some(override), maxMark)| > 0
  {
  }

  /** `markable_type` and `override` must be present. */
  lemma RequiredAttributes(kind: CriterionKind, maxMark: real)
    requires 0.0 <= maxMark
    ensures MarkErrors(Some(TypeName(kind)), None, Some(false), maxMark) == []
    ensures MarkErrors(Some(TypeName(kind)), None, Some(true), maxMark) == []
    ensures MarkErrors(Some(TypeName(kind)), None, None, maxMark) == [OverrideNotBoolean]
    ensures MarkErrors(Some(""), None, Some(false), maxMark) == [MarkableTypeBlank]
    ensures MarkErrors(None, None, Some(false), maxMark) == [MarkableTypeBlank]
    ensures MarkErrors(Some("\U{00A0}\U{3000}"), None, Some(false), maxMark) == [MarkableTypeBlank]
  {
  }
}
