/** The package form (src/components/packages/PackageForm.tsx): its default values,
    the course checkboxes that edit `courseIds`, and the submit-disabled rule. The
    form state lives in react-hook-form; the checkbox handler is a pure function of
    the current `courseIds` value, and is modelled as one. */
module PackageForm {
  import opened Wrappers
  import opened Domain
  import Js
  import PackageSchema

  /** `defaultValues`: each field from the initial data, else empty. */
  function Defaults(initial: PartialPackageForm): (v: PackageFormValues)
    ensures v.title == (if Js.Truthy(initial.title) then initial.title.value else "")
    ensures v.courseIds == initial.courseIds.GetOr([])
    ensures v.image == Some(Js.OrElse(initial.image, ""))
  {
    PackageFormValues(Js.OrElse(initial.title, ""), initial.courseIds.GetOr([]), Some(Js.OrElse(initial.image, "")))
  }

  /** A course's checkbox is ticked when its Mongo `_id` is in the current value. */
  predicate IsChecked(value: Option<seq<string>>, course: Course) {
    value.Some? && course.mongoId in value.value
  }

  /** `onCheckedChange(checked)` for `course`: append its `_id`, or drop every copy of it. */
  function Toggle(value: Option<seq<string>>, course: Course, checked: bool): seq<string> {
    var current := value.GetOr([]);
    if checked then current + [course.mongoId]
    else Js.Filter(current, (x: string) => x != course.mongoId)
  }

  /** `isLoading || availableCourses.length === 0`. */
  function SubmitDisabled(isLoading: bool, availableCourses: seq<Course>): (d: bool)
    ensures !d <==> !isLoading && |availableCourses| > 0
  {
    isLoading || |availableCourses| == 0
  }

  /** An enabled submit button means at least one course is offered, so ticking the
      first of them gives a selection that meets the package schema's non-empty rule. */
  lemma {:induction false} EnabledSubmitAllowsSelection(isLoading: bool, availableCourses: seq<Course>)
    requires !SubmitDisabled(isLoading, availableCourses)
    ensures |availableCourses| > 0
    ensures var ids := Toggle(None, availableCourses[0], true);
      ids == [availableCourses[0].mongoId] && IsChecked(Some(ids), availableCourses[0])
      && forall x :: x in PackageSchema.CourseIdsIssues(ids) ==> x.message != PackageSchema.NoCoursesMessage
  {
    var ids := Toggle(None, availableCourses[0], true);
    assert ids == [availableCourses[0].mongoId];
    assert ids[0] == availableCourses[0].mongoId;
  }

  /** Ticking appends the `_id` at the end and leaves the box ticked. */
  lemma CheckAppends(value: Option<seq<string>>, course: Course)
    ensures var r := Toggle(value, course, true);
      && r == value.GetOr([]) + [course.mongoId]
      && IsChecked(Some(r), course)
  {
    var r := Toggle(value, course, true);
    assert r[|r| - 1] == course.mongoId;
  }

  /** Unticking removes every copy of the `_id`, keeps every other id with its
      multiplicity, and leaves the box unticked. */
  lemma {:induction false} UncheckRemovesAll(value: Option<seq<string>>, course: Course, other: string)
    ensures var r := Toggle(value, course, false);
      && !IsChecked(Some(r), course)
      && (other != course.mongoId ==> multiset(r)[other] == multiset(value.GetOr([]))[other])
      && |r| <= |value.GetOr([])|
  {
    var keep := (x: string) => x != course.mongoId;
    var r := Toggle(value, course, false);
    assert r == Js.Filter(value.GetOr([]), keep);
    Js.FilterMultiset(value.GetOr([]), keep, course.mongoId);
    Js.FilterMultiset(value.GetOr([]), keep, other);
  }

  /** Ticking then unticking a course that was not selected restores the value. */
  lemma {:induction false} CheckThenUncheck(ids: seq<string>, course: Course)
    requires course.mongoId !in ids
    ensures Toggle(Some(Toggle(Some(ids), course, true)), course, false) == ids
  {
    var keep := (x: string) => x != course.mongoId;
    Js.FilterConcat(ids, [course.mongoId], keep);
    Js.FilterKeepsAll(ids, keep);
    assert Js.Filter([course.mongoId], keep) == [];
  }

  /** The box follows `_id` alone: two courses with the same `_id` are toggled alike,
      whatever their public `courseId`. */
  lemma SelectionUsesMongoId(value: Option<seq<string>>, a: Course, b: Course, checked: bool)
    requires a.mongoId == b.mongoId
    ensures Toggle(value, a, checked) == Toggle(value, b, checked)
    ensures IsChecked(value, a) == IsChecked(value, b)
  {
  }
}
