/** `packageSchema` (src/lib/validations/package.ts). */
module PackageSchema {
  import opened Wrappers
  import opened Domain
  import opened Zod

  const TitleMessage: string := "Package title must be at least 3 characters."
  const NoCoursesMessage: string := "Please select at least one course for the package."
  const EmptyIdMessage: string := "Course ID cannot be empty"

  predicate Acceptable(v: PackageFormValues, isUrl: string -> bool) {
    && |v.title| >= 3
    && |v.courseIds| > 0
    && (forall i :: 0 <= i < |v.courseIds| ==> v.courseIds[i] != "")
    && (v.image.None? || v.image.value == "" || isUrl(v.image.value))
  }

  /** One issue per empty id, indexed by its position; `from` is the position of `ids[0]`. */
  function ElementIssues(ids: seq<string>, from: nat): (r: seq<Issue>)
    ensures r == [] <==> forall i :: 0 <= i < |ids| ==> ids[i] != ""
    ensures forall k :: 0 <= k < |r| ==> r[k].field == "courseIds" && r[k].message == EmptyIdMessage
  {
    if ids == [] then []
    else
      (if ids[0] == "" then [Issue("courseIds", Some(from), EmptyIdMessage)] else [])
      + ElementIssues(ids[1..], from + 1)
  }

  /** The array check: the length rule is reported before the element rules. */
  function CourseIdsIssues(ids: seq<string>): (r: seq<Issue>)
    ensures r == [] <==> |ids| > 0 && forall i :: 0 <= i < |ids| ==> ids[i] != ""
  {
    (if ids == [] then [Issue("courseIds", None, NoCoursesMessage)] else []) + ElementIssues(ids, 0)
  }

  function Issues(v: PackageFormValues, isUrl: string -> bool): seq<Issue> {
    MinLength("title", v.title, 3, TitleMessage) + CourseIdsIssues(v.courseIds) + UrlOrEmpty("image", v.image, isUrl)
  }

  /** `packageSchema.safeParse`. */
  function Validate(v: PackageFormValues, isUrl: string -> bool): (r: Result<PackageFormValues, seq<Issue>>)
    ensures r.Success? <==> Acceptable(v, isUrl)
    ensures r.Success? ==> r.value == v
    ensures r.Failure? ==> r.error != []
  {
    var issues := Issues(v, isUrl);
    if issues == [] then Success(v) else Failure(issues)
  }

  /** Every element issue carries an index inside the array. */
  lemma {:induction false} ElementIssuesIndexed(ids: seq<string>, from: nat, x: Issue)
    requires x in ElementIssues(ids, from)
    ensures x.index.Some? && from <= x.index.value < from + |ids|
    decreases |ids|
  {
    var head := if ids[0] == "" then [Issue("courseIds", Some(from), EmptyIdMessage)] else [];
    assert ElementIssues(ids, from) == head + ElementIssues(ids[1..], from + 1);
    if x !in head {
      ElementIssuesIndexed(ids[1..], from + 1, x);
    }
  }

  /** An element issue at position `from + k` is reported exactly for an empty `ids[k]`. */
  lemma {:induction false} ElementIssueAt(ids: seq<string>, from: nat, k: nat)
    ensures Issue("courseIds", Some(from + k), EmptyIdMessage) in ElementIssues(ids, from)
            <==> k < |ids| && ids[k] == ""
    decreases |ids|
  {
    var x := Issue("courseIds", Some(from + k), EmptyIdMessage);
    if ids != [] {
      var head := if ids[0] == "" then [Issue("courseIds", Some(from), EmptyIdMessage)] else [];
      var tail := ElementIssues(ids[1..], from + 1);
      assert ElementIssues(ids, from) == head + tail;
      if k == 0 {
        if x in tail {
          ElementIssuesIndexed(ids[1..], from + 1, x);
        }
      } else {
        ElementIssueAt(ids[1..], from + 1, k - 1);
        assert from + 1 + (k - 1) == from + k;
        assert x !in head;
      }
    }
  }

  /** The empty selection reports the "select at least one" message; an id is
      reported as empty by its index exactly when it is the empty string. */
  lemma {:induction false} CourseIdsMessages(ids: seq<string>, k: nat)
    ensures Issue("courseIds", None, NoCoursesMessage) in CourseIdsIssues(ids) <==> ids == []
    ensures Issue("courseIds", Some(k), EmptyIdMessage) in CourseIdsIssues(ids) <==> k < |ids| && ids[k] == ""
  {
    var head := if ids == [] then [Issue("courseIds", None, NoCoursesMessage)] else [];
    assert CourseIdsIssues(ids) == head + ElementIssues(ids, 0);
    ElementIssueAt(ids, 0, k);
    if Issue("courseIds", None, NoCoursesMessage) in ElementIssues(ids, 0) {
      ElementIssuesIndexed(ids, 0, Issue("courseIds", None, NoCoursesMessage));
    }
  }
}
