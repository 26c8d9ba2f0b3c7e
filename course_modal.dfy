/** The course dialog (src/components/courses/CourseModal.tsx): the initial data it
    hands to the course form and its texts. */
module CourseModal {
  import opened Wrappers
  import opened Domain
  import Js
  import CourseForm

  datatype Mode = Create | Edit

  datatype ModalView = ModalView(formData: Option<PartialCourseForm>, dialogTitle: string, submitText: string)

  /** `formInitialData`: the four form fields copied from the course. */
  function FormInitialData(initial: Option<Course>): (r: Option<PartialCourseForm>)
    ensures r.None? <==> initial.None?
    ensures r.Some? ==>
      && r.value.title == Some(initial.value.title)
      && r.value.description == initial.value.description
      && r.value.price == Some(initial.value.price)
      && r.value.image == initial.value.image
  {
    if initial.None? then None
    else
      var c := initial.value;
      Some(PartialCourseForm(Some(c.title), c.description, Some(c.price), c.image))
  }

  /** The dialog; nothing when closed. `mode` defaults to create. */
  function Render(isOpen: bool, initial: Option<Course>, mode: Option<Mode>): (r: Option<ModalView>)
    ensures r.None? <==> !isOpen
    ensures r.Some? ==> r.value.formData == FormInitialData(initial)
    ensures r.Some? ==> (r.value.submitText == "Create Course" <==> mode.GetOr(Create) == Create)
    ensures r.Some? && mode.GetOr(Create) == Edit ==> r.value.submitText == "Save Changes"
    ensures r.Some? ==> (r.value.dialogTitle == "Create New Course" <==> mode.GetOr(Create) == Create)
  {
    if !isOpen then None
    else
      var create := mode.GetOr(Create) == Create;
      Some(ModalView(
        FormInitialData(initial),
        if create then "Create New Course" else "Edit Course",
        if create then "Create Course" else "Save Changes"))
  }

  /** Editing a course starts the form from that course: its title and price as they
      are, a missing description or image as "". */
  lemma EditPrefillsCourse(c: Course)
    ensures var v := CourseForm.Defaults(FormInitialData(Some(c)).value);
      && v.title == c.title
      && v.price == Some(c.price)
      && v.description == Some(Js.OrElse(c.description, ""))
      && v.image == Some(Js.OrElse(c.image, ""))
  {
  }
}
