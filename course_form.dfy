/** The course form (src/components/courses/CourseForm.tsx): default values, the
    `imageUrl` state kept beside the form values, the upload and remove handlers,
    the image override on submit and the disabled rules. */
module CourseForm {
  import opened Wrappers
  import opened Domain
  import Js
  import ImageUpload
  import CourseSchema
  import Zod

  /** `defaultValues`: title, description and image fall back to "", the price to 0
      (a price of 0 falls back to 0 as well). */
  function Defaults(initial: PartialCourseForm): (v: CourseSchema.CourseInput)
    ensures v.title == Js.OrElse(initial.title, "")
    ensures v.description == Some(Js.OrElse(initial.description, ""))
    ensures v.price == Some(if initial.price.Some? then initial.price.value else 0.0)
    ensures v.image == Some(Js.OrElse(initial.image, ""))
  {
    CourseSchema.CourseInput(
      Js.OrElse(initial.title, ""),
      Some(Js.OrElse(initial.description, "")),
      Some(if initial.price.Some? && initial.price.value != 0.0 then initial.price.value else 0.0),
      Some(Js.OrElse(initial.image, "")))
  }

  /** `{ ...values, image: imageUrl || "" }`. */
  function FinalValues(values: CourseFormValues, imageUrl: Option<string>): (r: CourseFormValues)
    ensures r.title == values.title && r.description == values.description && r.price == values.price
    ensures r.image == Some(Js.OrElse(imageUrl, ""))
  {
    values.(image := Some(Js.OrElse(imageUrl, "")))
  }

  /** The form's state: the react-hook-form values, the preview `imageUrl`, the
      uploading flag, and the upload requests sent so far. */
  class CourseFormState {
    var values: CourseSchema.CourseInput
    var imageUrl: Option<string>
    var isUploadingImage: bool
    var uploads: seq<ImageUpload.UploadRequest>

    /** The effect on `imageUrl` keeps the form's image equal to `imageUrl || ""`. */
    ghost predicate Valid()
      reads this
    {
      values.image == Some(Js.OrElse(imageUrl, "")) && !isUploadingImage
    }

    constructor (initial: PartialCourseForm)
      ensures values == Defaults(initial)
      ensures imageUrl == Js.OrUndefined(initial.image)
      ensures !isUploadingImage && uploads == []
      ensures Valid()
      ensures UploadDisabled(false) <==> Js.Truthy(initial.image)
      ensures !SubmitDisabled(false)
    {
      values := Defaults(initial);
      imageUrl := Js.OrUndefined(initial.image);
      isUploadingImage := false;
      uploads := [];
    }

    /** The user typing into the title, description and price inputs. */
    method EditText(title: string, description: string, price: Option<real>)
      requires Valid()
      modifies this
      ensures values == old(values).(title := title, description := Some(description), price := price)
      ensures imageUrl == old(imageUrl) && isUploadingImage == old(isUploadingImage) && uploads == old(uploads)
      ensures Valid()
    {
      values := values.(title := title, description := Some(description), price := price);
    }

    /** `handleImageUpload`: no file, no change; otherwise one upload is sent and its
        outcome decides. A success sets both `imageUrl` and the form image to the url,
        a failure keeps both; the uploading flag ends false either way. */
    method HandleImageUpload(file: Option<ImageUpload.File>, outcome: ImageUpload.Outcome)
      requires Valid()
      modifies this
      ensures file.None? ==>
        values == old(values) && imageUrl == old(imageUrl) && uploads == old(uploads)
      ensures file.Some? ==> uploads == old(uploads) + [ImageUpload.RequestFor(file.value)]
      ensures file.Some? && ImageUpload.UploadImage(outcome).Success? ==>
        var url := ImageUpload.UploadImage(outcome).value;
        imageUrl == Some(url) && values == old(values).(image := Some(url))
      ensures file.Some? && ImageUpload.UploadImage(outcome).Failure? ==>
        imageUrl == old(imageUrl) && values == old(values)
      ensures !isUploadingImage
      ensures Valid()
      ensures file.Some? && ImageUpload.UploadImage(outcome).Success? && ImageUpload.UploadImage(outcome).value != "" ==>
        UploadDisabled(false)
      ensures ImageUpload.UploadImage(outcome).Failure? ==> UploadDisabled(false) == old(UploadDisabled(false))
      ensures !SubmitDisabled(false)
    {
      if file.None? {
        return;
      }
      isUploadingImage := true;
      uploads := uploads + [ImageUpload.RequestFor(file.value)];
      var result := ImageUpload.UploadImage(outcome);
      if result.Success? {
        imageUrl := Some(result.value);
        values := values.(image := Some(result.value));
      }
      isUploadingImage := false;
    }

    /** `removeImage`. */
    method RemoveImage()
      requires Valid()
      modifies this
      ensures imageUrl.None? && values == old(values).(image := Some(""))
      ensures isUploadingImage == old(isUploadingImage) && uploads == old(uploads)
      ensures Valid()
      ensures !UploadDisabled(false) && UploadDisabled(true)
    {
      imageUrl := None;
      values := values.(image := Some(""));
    }

    /** What `onSubmit` receives: the validated values with the image from `imageUrl`,
        or the validation issues, in which case nothing is submitted. */
    function Submitted(isUrl: string -> bool): (r: Result<CourseFormValues, seq<Zod.Issue>>)
      reads this
      ensures r.Success? <==> CourseSchema.Acceptable(values, isUrl)
      ensures r.Success? ==> r.value.title == values.title && r.value.description == values.description
      ensures r.Success? ==> Some(r.value.price) == values.price && r.value.image == Some(Js.OrElse(imageUrl, ""))
    {
      var parsed := CourseSchema.Validate(values, isUrl);
      if parsed.Success? then Success(FinalValues(parsed.value, imageUrl)) else parsed
    }

    /** The upload button: `isUploadingImage || isLoading || !!imageUrl`. */
    function UploadDisabled(isLoading: bool): (d: bool)
      reads this
      ensures !d <==> !isUploadingImage && !isLoading && (imageUrl.None? || imageUrl.value == "")
    {
      isUploadingImage || isLoading || Js.Truthy(imageUrl)
    }

    /** The submit button: `isUploadingImage || isLoading`. */
    function SubmitDisabled(isLoading: bool): (d: bool)
      reads this
      ensures d <==> isUploadingImage || isLoading
      ensures UploadDisabled(isLoading) || !d
    {
      isUploadingImage || isLoading
    }
  }

  /** With the form in its synchronised state the submit override agrees with the
      validated image, so the submitted values are exactly the validated ones. */
  lemma SubmitOverrideAgrees(f: CourseFormState, isUrl: string -> bool)
    requires f.Valid()
    ensures f.Submitted(isUrl).Success? <==> CourseSchema.Acceptable(f.values, isUrl)
    ensures f.Submitted(isUrl).Success? ==>
      f.Submitted(isUrl).value
        == CourseFormValues(f.values.title, f.values.description, f.values.price.value, f.values.image)
  {
  }
}
