/** The owner's course dashboard (src/app/dashboard/my-courses/page.tsx): loading the
    owner's courses, the login redirect, the create/edit dialog, the save payload and
    the delete confirmation. Network calls are recorded in `requests` and their
    outcomes are inputs; `router.push` is recorded in `navigation`. */
module MyCoursesPage {
  import opened Wrappers
  import opened Domain
  import Js
  import Api
  import CourseCard
  import CourseModal
  import opened LocationParam

  const LoginRedirect: string := "/login?redirect=/dashboard/my-courses"

  /** The save payload: the form values with an empty image or description sent as undefined. */
  function PayloadOf(values: CourseFormValues): (p: CoursePayload)
    ensures p.title == values.title && p.price == values.price
    ensures p.image.None? <==> !Js.Truthy(values.image)
    ensures p.image.Some? ==> p.image == values.image
    ensures p.description.None? <==> !Js.Truthy(values.description)
    ensures p.description.Some? ==> p.description == values.description
  {
    CoursePayload(values.title, Js.OrUndefined(values.description), values.price, Js.OrUndefined(values.image))
  }

  /** The save request: update the course being edited, else create. */
  function SaveRequest(editing: Option<Course>, values: CourseFormValues): (r: Api.Request)
    ensures editing.Some? ==> r == Api.RequestOf(Api.UpdateCourse(editing.value.courseId, PayloadOf(values)))
    ensures editing.None? ==> r == Api.RequestOf(Api.CreateCourse(PayloadOf(values)))
  {
    if editing.Some? then Api.RequestOf(Api.UpdateCourse(editing.value.courseId, PayloadOf(values)))
    else Api.RequestOf(Api.CreateCourse(PayloadOf(values)))
  }

  /** `prev.filter(c => c.courseId !== id)`. */
  function RemoveCourse(cs: seq<Course>, id: string): seq<Course> {
    Js.Filter(cs, (c: Course) => c.courseId != id)
  }

  /** Whether `loadMyCourses` gets past its guard. */
  predicate LoadsNow(env: Env) {
    env.isAuthenticated && !env.isAuthLoading && !env.isLocationLoading
  }

  datatype View = View(
    fullPageLoader: bool,
    viewingPricesIn: Option<string>,
    refreshing: bool,
    showsEmpty: bool,
    cards: seq<CourseCard.View>,
    modal: Option<CourseModal.ModalView>,
    deleteDialogFor: Option<string>)

  class Page {
    var myCourses: seq<Course>
    var isLoadingPage: bool
    var isModalOpen: bool
    var isSubmitting: bool
    var editingCourse: Option<Course>
    var courseToDelete: Option<(string, string)>
    var requests: seq<Api.Request>
    var navigation: seq<string>

    constructor ()
      ensures myCourses == [] && isLoadingPage && !isModalOpen && !isSubmitting
      ensures editingCourse.None? && courseToDelete.None? && requests == [] && navigation == []
    {
      myCourses := [];
      isLoadingPage := true;
      isModalOpen := false;
      isSubmitting := false;
      editingCourse := None;
      courseToDelete := None;
      requests := [];
      navigation := [];
    }

    /** `loadMyCourses`. A failed fetch keeps the old list and shows no error. */
    method LoadMyCourses(env: Env, reply: Result<seq<Course>, ApiError>)
      modifies this
      ensures !LoadsNow(env) ==> isLoadingPage && myCourses == old(myCourses) && requests == old(requests)
      ensures LoadsNow(env) ==>
        && !isLoadingPage
        && requests == old(requests) + [Api.RequestOf(Api.ListMyCourses(Resolve(env.selectedCountry, env.user)))]
        && myCourses == (if reply.Success? then reply.value else old(myCourses))
      ensures isModalOpen == old(isModalOpen) && isSubmitting == old(isSubmitting)
      ensures editingCourse == old(editingCourse) && courseToDelete == old(courseToDelete)
      ensures navigation == old(navigation)
    {
      if !LoadsNow(env) {
        isLoadingPage := true;
        return;
      }
      isLoadingPage := true;
      var locationParam := Resolve(env.selectedCountry, env.user);
      requests := requests + [Api.RequestOf(Api.ListMyCourses(locationParam))];
      if reply.Success? {
        myCourses := reply.value;
      }
      isLoadingPage := false;
    }

    /** The auth effect: redirect to login once auth has settled unauthenticated,
        load when authenticated. */
    method AuthEffect(env: Env, reply: Result<seq<Course>, ApiError>)
      modifies this
      ensures !env.isAuthLoading && !env.isAuthenticated ==>
        && navigation == old(navigation) + [LoginRedirect]
        && requests == old(requests) && myCourses == old(myCourses) && isLoadingPage == old(isLoadingPage)
      ensures env.isAuthenticated ==> navigation == old(navigation)
      ensures LoadsNow(env) ==>
        && requests == old(requests) + [Api.RequestOf(Api.ListMyCourses(Resolve(env.selectedCountry, env.user)))]
        && myCourses == (if reply.Success? then reply.value else old(myCourses))
        && !isLoadingPage
      ensures env.isAuthenticated && !LoadsNow(env) ==>
        requests == old(requests) && myCourses == old(myCourses) && isLoadingPage
      ensures env.isAuthLoading && !env.isAuthenticated ==>
        && navigation == old(navigation) && requests == old(requests) && myCourses == old(myCourses)
        && isLoadingPage == old(isLoadingPage)
      ensures isModalOpen == old(isModalOpen) && isSubmitting == old(isSubmitting)
      ensures editingCourse == old(editingCourse) && courseToDelete == old(courseToDelete)
    {
      if !env.isAuthLoading && !env.isAuthenticated {
        navigation := navigation + [LoginRedirect];
      } else if env.isAuthenticated {
        LoadMyCourses(env, reply);
      }
    }

    method OpenCreateModal()
      modifies this
      ensures isModalOpen && editingCourse.None?
      ensures myCourses == old(myCourses) && requests == old(requests) && courseToDelete == old(courseToDelete)
      ensures isSubmitting == old(isSubmitting) && isLoadingPage == old(isLoadingPage)
      ensures navigation == old(navigation)
    {
      editingCourse := None;
      isModalOpen := true;
    }

    method OpenEditModal(course: Course)
      modifies this
      ensures isModalOpen && editingCourse == Some(course)
      ensures myCourses == old(myCourses) && requests == old(requests) && courseToDelete == old(courseToDelete)
      ensures isSubmitting == old(isSubmitting) && isLoadingPage == old(isLoadingPage)
      ensures navigation == old(navigation)
    {
      editingCourse := Some(course);
      isModalOpen := true;
    }

    method CloseModal()
      modifies this
      ensures !isModalOpen && editingCourse.None?
      ensures myCourses == old(myCourses) && requests == old(requests) && courseToDelete == old(courseToDelete)
      ensures isSubmitting == old(isSubmitting) && isLoadingPage == old(isLoadingPage)
      ensures navigation == old(navigation)
    {
      isModalOpen := false;
      editingCourse := None;
    }

    /** `handleFormSubmit`: save, then on success close the dialog and reload. */
    method FormSubmit(values: CourseFormValues, env: Env,
                      saveReply: Result<Course, ApiError>, reloadReply: Result<seq<Course>, ApiError>)
      modifies this
      ensures !isSubmitting && navigation == old(navigation) && courseToDelete == old(courseToDelete)
      ensures saveReply.Failure? ==>
        && requests == old(requests) + [SaveRequest(old(editingCourse), values)]
        && isModalOpen == old(isModalOpen) && editingCourse == old(editingCourse)
        && myCourses == old(myCourses) && isLoadingPage == old(isLoadingPage)
      ensures saveReply.Success? ==> !isModalOpen && editingCourse.None?
      ensures saveReply.Success? && LoadsNow(env) ==>
        && requests == old(requests) + [SaveRequest(old(editingCourse), values),
                                        Api.RequestOf(Api.ListMyCourses(Resolve(env.selectedCountry, env.user)))]
        && myCourses == (if reloadReply.Success? then reloadReply.value else old(myCourses))
        && !isLoadingPage
      ensures saveReply.Success? && !LoadsNow(env) ==>
        && requests == old(requests) + [SaveRequest(old(editingCourse), values)]
        && myCourses == old(myCourses) && isLoadingPage
    {
      isSubmitting := true;
      requests := requests + [SaveRequest(editingCourse, values)];
      if saveReply.Success? {
        CloseModal();
        LoadMyCourses(env, reloadReply);
      }
      isSubmitting := false;
    }

    method DeleteConfirmation(id: string, title: string)
      modifies this
      ensures courseToDelete == Some((id, title))
      ensures myCourses == old(myCourses) && requests == old(requests) && isModalOpen == old(isModalOpen)
      ensures isSubmitting == old(isSubmitting) && editingCourse == old(editingCourse)
      ensures isLoadingPage == old(isLoadingPage) && navigation == old(navigation)
    {
      courseToDelete := Some((id, title));
    }

    /** `handleConfirmDelete`: no pending target, no change; otherwise one delete and,
        on success, the course is dropped from the list. The target is cleared and
        `isSubmitting` reset on success or failure. */
    method ConfirmDelete(reply: Result<(), ApiError>)
      modifies this
      ensures old(courseToDelete).None? ==>
        courseToDelete.None? && myCourses == old(myCourses) && requests == old(requests)
        && isSubmitting == old(isSubmitting)
      ensures old(courseToDelete).Some? ==>
        var id := old(courseToDelete).value.0;
        && requests == old(requests) + [Api.RequestOf(Api.DeleteCourse(id))]
        && myCourses == (if reply.Success? then RemoveCourse(old(myCourses), id) else old(myCourses))
        && courseToDelete.None? && !isSubmitting
      ensures isModalOpen == old(isModalOpen) && editingCourse == old(editingCourse) && navigation == old(navigation)
      ensures isLoadingPage == old(isLoadingPage)
    {
      if courseToDelete.None? {
        return;
      }
      var id := courseToDelete.value.0;
      isSubmitting := true;
      requests := requests + [Api.RequestOf(Api.DeleteCourse(id))];
      if reply.Success? {
        myCourses := RemoveCourse(myCourses, id);
      }
      isSubmitting := false;
      courseToDelete := None;
    }

    function Render(env: Env): (v: View)
      reads this
      ensures v.fullPageLoader <==>
        env.isAuthLoading || (env.isAuthenticated && env.isLocationLoading && isLoadingPage && myCourses == [])
      ensures !v.fullPageLoader ==> v.refreshing == (isLoadingPage && myCourses != [])
      ensures !v.fullPageLoader ==> v.showsEmpty == (!isLoadingPage && myCourses == [])
      ensures !v.fullPageLoader ==> |v.cards| == |myCourses|
      ensures !v.fullPageLoader ==> forall i :: 0 <= i < |myCourses| ==>
        v.cards[i] == CourseCard.Render(myCourses[i], Some(true), true, true)
      ensures !v.fullPageLoader ==> v.modal == CourseModal.Render(isModalOpen, editingCourse,
        Some(if editingCourse.Some? then CourseModal.Edit else CourseModal.Create))
      ensures !v.fullPageLoader && courseToDelete.Some? ==> v.deleteDialogFor == Some(courseToDelete.value.1)
    {
      var cs := myCourses;
      if env.isAuthLoading || (env.isAuthenticated && env.isLocationLoading && isLoadingPage && cs == []) then
        View(true, None, false, false, [], None, None)
      else
        View(
          false,
          if !(env.isAuthLoading || env.isLocationLoading) && SelectsCountry(env.selectedCountry)
          then Some(env.selectedCountry.value.name) else None,
          isLoadingPage && cs != [],
          !isLoadingPage && cs == [],
          OwnerCards(cs),
          CourseModal.Render(isModalOpen, editingCourse,
            Some(if editingCourse.Some? then CourseModal.Edit else CourseModal.Create)),
          if courseToDelete.Some? then Some(courseToDelete.value.1) else None)
    }
  }

  /** The owner's cards: Edit and Delete buttons on each. */
  function OwnerCards(cs: seq<Course>): (r: seq<CourseCard.View>)
    ensures |r| == |cs|
    ensures forall i :: 0 <= i < |cs| ==> r[i] == CourseCard.Render(cs[i], Some(true), true, true)
    ensures forall i :: 0 <= i < |cs| ==> r[i].showsEdit && r[i].deleteArgs == Some((cs[i].courseId, cs[i].title))
  {
    if cs == [] then [] else [CourseCard.Render(cs[0], Some(true), true, true)] + OwnerCards(cs[1..])
  }

  /** Deleting removes exactly the courses with the deleted `courseId`: none is left,
      and every other course keeps its number of occurrences. */
  lemma {:induction false} RemoveCourseExact(cs: seq<Course>, id: string, c: Course)
    ensures forall i :: 0 <= i < |RemoveCourse(cs, id)| ==> RemoveCourse(cs, id)[i].courseId != id
    ensures multiset(RemoveCourse(cs, id))[c] == if c.courseId == id then 0 else multiset(cs)[c]
  {
    Js.FilterMultiset(cs, (x: Course) => x.courseId != id, c);
  }

  /** Deleting keeps the remaining courses in their order: removing from a list split
      in two removes from each part. */
  lemma {:induction false} RemoveCourseKeepsOrder(a: seq<Course>, b: seq<Course>, id: string)
    ensures RemoveCourse(a + b, id) == RemoveCourse(a, id) + RemoveCourse(b, id)
  {
    Js.FilterConcat(a, b, (x: Course) => x.courseId != id);
  }

  /** Deleting an id no course has leaves the list as it was. */
  lemma {:induction false} RemoveAbsentCourse(cs: seq<Course>, id: string)
    requires forall i :: 0 <= i < |cs| ==> cs[i].courseId != id
    ensures RemoveCourse(cs, id) == cs
  {
    Js.FilterKeepsAll(cs, (x: Course) => x.courseId != id);
  }
}
