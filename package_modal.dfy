/** The package dialog (src/components/packages/PackageModal.tsx): the initial data it
    hands to the package form, its texts, and the form's submit-disabled state, which
    depends on the `isLoading` and `availableCourses` the dialog forwards. */
module PackageModal {
  import opened Wrappers
  import opened Domain
  import PackageForm

  datatype Mode = Create | Edit

  datatype ModalView = ModalView(
    formData: Option<PartialPackageForm>,
    dialogTitle: string,
    submitText: string,
    submitDisabled: bool)

  /** `_id` of each entry: a bare id is kept, a populated course gives its `_id`. */
  function CourseIdsOf(cs: seq<CourseRef>): (r: seq<string>)
    ensures |r| == |cs|
    ensures forall i :: 0 <= i < |cs| ==>
      r[i] == (match cs[i] case CourseIdRef(id) => id case CourseEntry(c) => c.mongoId)
  {
    if cs == [] then []
    else [match cs[0] case CourseIdRef(id) => id case CourseEntry(c) => c.mongoId] + CourseIdsOf(cs[1..])
  }

  /** `formInitialData`: title and image copied; `courseIds` only when non-empty. */
  function FormInitialData(initial: Option<Package>): (r: Option<PartialPackageForm>)
    ensures r.None? <==> initial.None?
    ensures r.Some? ==> r.value.title == Some(initial.value.title) && r.value.image == initial.value.image
    ensures r.Some? ==> (r.value.courseIds.Some? <==> initial.value.courses.Some? && |initial.value.courses.value| > 0)
    ensures r.Some? && r.value.courseIds.Some? ==> r.value.courseIds.value == CourseIdsOf(initial.value.courses.value)
  {
    if initial.None? then None
    else
      var p := initial.value;
      var ids := if p.courses.Some? then CourseIdsOf(p.courses.value) else [];
      Some(PartialPackageForm(Some(p.title), if |ids| > 0 then Some(ids) else None, p.image))
  }

  /** The dialog; nothing when closed. `mode` defaults to create. */
  function Render(isOpen: bool, initial: Option<Package>, mode: Option<Mode>,
                  isLoading: bool, availableCourses: seq<Course>): (r: Option<ModalView>)
    ensures r.None? <==> !isOpen
    ensures r.Some? ==> (!r.value.submitDisabled <==> !isLoading && |availableCourses| > 0)
    ensures r.Some? ==> r.value.formData == FormInitialData(initial)
    ensures r.Some? ==> (r.value.submitText == "Create Package" <==> mode.GetOr(Create) == Create)
    ensures r.Some? && mode.GetOr(Create) == Edit ==> r.value.submitText == "Save Changes"
  {
    if !isOpen then None
    else
      var create := mode.GetOr(Create) == Create;
      Some(ModalView(
        FormInitialData(initial),
        if create then "Create New Package" else "Edit Package",
        if create then "Create Package" else "Save Changes",
        PackageForm.SubmitDisabled(isLoading, availableCourses)))
  }

  /** Editing a package ticks exactly its courses' `_id`s, in order; the non-empty
      guard does not change what the form starts with. */
  lemma {:induction false} EditPrefillsSelection(p: Package)
    ensures var d := PackageForm.Defaults(FormInitialData(Some(p)).value);
      && d.courseIds == (if p.courses.Some? then CourseIdsOf(p.courses.value) else [])
      && d.title == p.title
  {
    var ids := if p.courses.Some? then CourseIdsOf(p.courses.value) else [];
    if |ids| == 0 {
      assert ids == [];
    }
  }
}
