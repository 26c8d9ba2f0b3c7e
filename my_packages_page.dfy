/** The owner's package dashboard (src/app/dashboard/my-packages/page.tsx): loading
    the owner's packages and the courses offered for selection, the login redirect,
    the dialog guards, the save payload and the delete handler. */
module MyPackagesPage {
  import opened Wrappers
  import opened Domain
  import Js
  import Api
  import PackageCard
  import PackageModal
  import opened LocationParam

  const LoginRedirect: string := "/login?redirect=/dashboard/my-packages"

  /** The save payload: the form values with an empty image sent as undefined. */
  function PayloadOf(values: PackageFormValues): (p: PackagePayload)
    ensures p.title == values.title && p.courseIds == values.courseIds
    ensures p.image.None? <==> !Js.Truthy(values.image)
    ensures p.image.Some? ==> p.image == values.image
  {
    PackagePayload(values.title, values.courseIds, Js.OrUndefined(values.image))
  }

  /** The save request: update the package being edited by its `packageId`, else create. */
  function SaveRequest(editing: Option<Package>, values: PackageFormValues): (r: Api.Request)
    ensures editing.Some? ==> r == Api.RequestOf(Api.UpdatePackage(editing.value.packageId, PayloadOf(values)))
    ensures editing.None? ==> r == Api.RequestOf(Api.CreatePackage(PayloadOf(values)))
  {
    if editing.Some? then Api.RequestOf(Api.UpdatePackage(editing.value.packageId, PayloadOf(values)))
    else Api.RequestOf(Api.CreatePackage(PayloadOf(values)))
  }

  predicate LoadsNow(env: Env) {
    env.isAuthenticated && !env.isAuthLoading && !env.isLocationLoading
  }

  class Page {
    var myPackages: seq<Package>
    var myAvailableCourses: seq<Course>
    var isLoadingPage: bool
    var isLoadingCourses: bool
    var isModalOpen: bool
    var isSubmitting: bool
    var editingPackage: Option<Package>
    var packageToDelete: Option<(string, string)>
    var requests: seq<Api.Request>
    var navigation: seq<string>

    constructor ()
      ensures myPackages == [] && myAvailableCourses == [] && isLoadingPage && isLoadingCourses
      ensures !isModalOpen && !isSubmitting && editingPackage.None? && packageToDelete.None?
      ensures requests == [] && navigation == []
    {
      myPackages := [];
      myAvailableCourses := [];
      isLoadingPage := true;
      isLoadingCourses := true;
      isModalOpen := false;
      isSubmitting := false;
      editingPackage := None;
      packageToDelete := None;
      requests := [];
      navigation := [];
    }

    /** `loadAvailableCourses`: the owner's courses, fetched without a location. */
    method LoadAvailableCourses(env: Env, reply: Result<seq<Course>, ApiError>)
      modifies this
      ensures !env.isAuthenticated ==>
        requests == old(requests) && myAvailableCourses == old(myAvailableCourses)
        && isLoadingCourses == old(isLoadingCourses)
      ensures env.isAuthenticated ==>
        && requests == old(requests) + [Api.RequestOf(Api.ListMyCourses(None))]
        && myAvailableCourses == (if reply.Success? then reply.value else old(myAvailableCourses))
        && !isLoadingCourses
      ensures myPackages == old(myPackages) && isLoadingPage == old(isLoadingPage)
      ensures isModalOpen == old(isModalOpen) && editingPackage == old(editingPackage)
      ensures packageToDelete == old(packageToDelete) && isSubmitting == old(isSubmitting)
      ensures navigation == old(navigation)
    {
      if !env.isAuthenticated {
        return;
      }
      isLoadingCourses := true;
      requests := requests + [Api.RequestOf(Api.ListMyCourses(None))];
      if reply.Success? {
        myAvailableCourses := reply.value;
      }
      isLoadingCourses := false;
    }

    /** `loadMyPackages`: the same guard and location rule as the course dashboard. */
    method LoadMyPackages(env: Env, reply: Result<seq<Package>, ApiError>)
      modifies this
      ensures !LoadsNow(env) ==> isLoadingPage && myPackages == old(myPackages) && requests == old(requests)
      ensures LoadsNow(env) ==>
        && !isLoadingPage
        && requests == old(requests) + [Api.RequestOf(Api.ListMyPackages(Resolve(env.selectedCountry, env.user)))]
        && myPackages == (if reply.Success? then reply.value else old(myPackages))
      ensures myAvailableCourses == old(myAvailableCourses) && isLoadingCourses == old(isLoadingCourses)
      ensures isModalOpen == old(isModalOpen) && editingPackage == old(editingPackage)
      ensures packageToDelete == old(packageToDelete) && isSubmitting == old(isSubmitting)
      ensures navigation == old(navigation)
    {
      if !LoadsNow(env) {
        isLoadingPage := true;
        return;
      }
      isLoadingPage := true;
      var locationParam := Resolve(env.selectedCountry, env.user);
      requests := requests + [Api.RequestOf(Api.ListMyPackages(locationParam))];
      if reply.Success? {
        myPackages := reply.value;
      }
      isLoadingPage := false;
    }

    /** The auth effect: redirect once auth has settled unauthenticated; when
        authenticated, load the packages and then the selectable courses. */
    method AuthEffect(env: Env, packagesReply: Result<seq<Package>, ApiError>, coursesReply: Result<seq<Course>, ApiError>)
      modifies this
      ensures !env.isAuthenticated ==>
        && requests == old(requests) && myPackages == old(myPackages) && isLoadingPage == old(isLoadingPage)
        && myAvailableCourses == old(myAvailableCourses) && isLoadingCourses == old(isLoadingCourses)
      ensures !env.isAuthLoading && !env.isAuthenticated ==> navigation == old(navigation) + [LoginRedirect]
      ensures env.isAuthLoading && !env.isAuthenticated ==> navigation == old(navigation)
      ensures env.isAuthenticated ==>
        && navigation == old(navigation)
        && myAvailableCourses == (if coursesReply.Success? then coursesReply.value else old(myAvailableCourses))
        && !isLoadingCourses
      ensures LoadsNow(env) ==>
        && requests == old(requests) + [Api.RequestOf(Api.ListMyPackages(Resolve(env.selectedCountry, env.user))),
                                        Api.RequestOf(Api.ListMyCourses(None))]
        && myPackages == (if packagesReply.Success? then packagesReply.value else old(myPackages))
        && !isLoadingPage
      ensures env.isAuthenticated && !LoadsNow(env) ==>
        && requests == old(requests) + [Api.RequestOf(Api.ListMyCourses(None))]
        && myPackages == old(myPackages) && isLoadingPage
      ensures isModalOpen == old(isModalOpen) && editingPackage == old(editingPackage)
      ensures packageToDelete == old(packageToDelete) && isSubmitting == old(isSubmitting)
    {
      if !env.isAuthLoading && !env.isAuthenticated {
        navigation := navigation + [LoginRedirect];
      } else if env.isAuthenticated {
        LoadMyPackages(env, packagesReply);
        LoadAvailableCourses(env, coursesReply);
      }
    }

    /** Opening the dialog waits for the selectable courses: while they load, nothing changes. */
    method OpenCreateModal()
      modifies this
      ensures old(isLoadingCourses) ==> isModalOpen == old(isModalOpen) && editingPackage == old(editingPackage)
      ensures !old(isLoadingCourses) ==> isModalOpen && editingPackage.None?
      ensures myPackages == old(myPackages) && requests == old(requests) && isLoadingCourses == old(isLoadingCourses)
      ensures myAvailableCourses == old(myAvailableCourses) && packageToDelete == old(packageToDelete)
      ensures isSubmitting == old(isSubmitting) && isLoadingPage == old(isLoadingPage)
      ensures navigation == old(navigation)
    {
      if isLoadingCourses {
        return;
      }
      editingPackage := None;
      isModalOpen := true;
    }

    method OpenEditModal(pkg: Package)
      modifies this
      ensures old(isLoadingCourses) ==> isModalOpen == old(isModalOpen) && editingPackage == old(editingPackage)
      ensures !old(isLoadingCourses) ==> isModalOpen && editingPackage == Some(pkg)
      ensures myPackages == old(myPackages) && requests == old(requests) && isLoadingCourses == old(isLoadingCourses)
      ensures myAvailableCourses == old(myAvailableCourses) && packageToDelete == old(packageToDelete)
      ensures isSubmitting == old(isSubmitting) && isLoadingPage == old(isLoadingPage)
      ensures navigation == old(navigation)
    {
      if isLoadingCourses {
        return;
      }
      editingPackage := Some(pkg);
      isModalOpen := true;
    }

    method CloseModal()
      modifies this
      ensures !isModalOpen && editingPackage.None?
      ensures myPackages == old(myPackages) && requests == old(requests) && packageToDelete == old(packageToDelete)
      ensures myAvailableCourses == old(myAvailableCourses) && isLoadingCourses == old(isLoadingCourses)
      ensures isSubmitting == old(isSubmitting) && isLoadingPage == old(isLoadingPage)
      ensures navigation == old(navigation)
    {
      isModalOpen := false;
      editingPackage := None;
    }

    /** `handleFormSubmit`: save, then on success close the dialog and reload the packages. */
    method FormSubmit(values: PackageFormValues, env: Env,
                      saveReply: Result<Package, ApiError>, reloadReply: Result<seq<Package>, ApiError>)
      modifies this
      ensures !isSubmitting && navigation == old(navigation) && packageToDelete == old(packageToDelete)
      ensures saveReply.Failure? ==>
        && requests == old(requests) + [SaveRequest(old(editingPackage), values)]
        && isModalOpen == old(isModalOpen) && editingPackage == old(editingPackage)
        && myPackages == old(myPackages) && isLoadingPage == old(isLoadingPage)
      ensures saveReply.Success? ==> !isModalOpen && editingPackage.None?
      ensures saveReply.Success? && LoadsNow(env) ==>
        && requests == old(requests) + [SaveRequest(old(editingPackage), values),
                                        Api.RequestOf(Api.ListMyPackages(Resolve(env.selectedCountry, env.user)))]
        && myPackages == (if reloadReply.Success? then reloadReply.value else old(myPackages))
        && !isLoadingPage
      ensures saveReply.Success? && !LoadsNow(env) ==>
        && requests == old(requests) + [SaveRequest(old(editingPackage), values)]
        && myPackages == old(myPackages) && isLoadingPage
      ensures myAvailableCourses == old(myAvailableCourses) && isLoadingCourses == old(isLoadingCourses)
    {
      isSubmitting := true;
      requests := requests + [SaveRequest(editingPackage, values)];
      if saveReply.Success? {
        CloseModal();
        LoadMyPackages(env, reloadReply);
      }
      isSubmitting := false;
    }

    method DeleteConfirmation(id: string, title: string)
      modifies this
      ensures packageToDelete == Some((id, title))
      ensures myPackages == old(myPackages) && requests == old(requests) && isModalOpen == old(isModalOpen)
      ensures myAvailableCourses == old(myAvailableCourses) && isLoadingCourses == old(isLoadingCourses)
      ensures isSubmitting == old(isSubmitting) && isLoadingPage == old(isLoadingPage)
      ensures editingPackage == old(editingPackage) && navigation == old(navigation)
    {
      packageToDelete := Some((id, title));
    }

    /** `handleConfirmDelete`: one delete request; the list is left as it was whatever
        the outcome, since no reload follows. */
    method ConfirmDelete(reply: Result<(), ApiError>)
      modifies this
      ensures old(packageToDelete).None? ==>
        packageToDelete.None? && requests == old(requests) && isSubmitting == old(isSubmitting)
      ensures old(packageToDelete).Some? ==>
        && requests == old(requests) + [Api.RequestOf(Api.DeletePackage(old(packageToDelete).value.0))]
        && packageToDelete.None? && !isSubmitting
      ensures myPackages == old(myPackages)
      ensures isModalOpen == old(isModalOpen) && editingPackage == old(editingPackage) && navigation == old(navigation)
      ensures isLoadingPage == old(isLoadingPage)
      ensures myAvailableCourses == old(myAvailableCourses) && isLoadingCourses == old(isLoadingCourses)
    {
      if packageToDelete.None? {
        return;
      }
      isSubmitting := true;
      requests := requests + [Api.RequestOf(Api.DeletePackage(packageToDelete.value.0))];
      isSubmitting := false;
      packageToDelete := None;
    }

    /** The full-page loader condition. */
    function FullPageLoader(env: Env): (b: bool)
      reads this
      ensures env.isAuthLoading ==> b
      ensures b && !env.isAuthLoading ==> env.isAuthenticated && myPackages == [] && (env.isLocationLoading || isLoadingPage)
      ensures env.isAuthenticated && (env.isLocationLoading || isLoadingPage) && myPackages == [] ==> b
    {
      env.isAuthLoading || (env.isAuthenticated && (env.isLocationLoading || isLoadingPage) && myPackages == [])
    }

    /** The dialog: the page passes `isSubmitting || isLoadingCourses` as its loading
        flag and the selectable courses, so its submit button stays disabled while those
        courses load and when the owner has none. */
    function Modal(): (r: Option<PackageModal.ModalView>)
      reads this
      ensures r.None? <==> !isModalOpen
      ensures r.Some? ==> r.value.formData == PackageModal.FormInitialData(editingPackage)
      ensures r.Some? ==> (r.value.submitText == "Save Changes" <==> editingPackage.Some?)
      ensures r.Some? ==> (r.value.submitDisabled <==> isSubmitting || isLoadingCourses || myAvailableCourses == [])
    {
      PackageModal.Render(isModalOpen, editingPackage,
        Some(if editingPackage.Some? then PackageModal.Edit else PackageModal.Create),
        isSubmitting || isLoadingCourses, myAvailableCourses)
    }
  }

  /** The owner's cards: one owner card per package, in order, with Edit and Delete
      buttons on each. */
  function OwnerCards(ps: seq<Package>): (r: seq<PackageCard.View>)
    ensures |r| == |ps|
    ensures forall i :: 0 <= i < |ps| ==> r[i] == PackageCard.Render(ps[i], Some(true), true, true)
    ensures forall i :: 0 <= i < |ps| ==> r[i].showsEdit && r[i].deleteArgs == Some((ps[i].packageId, ps[i].title))
  {
    if ps == [] then [] else [PackageCard.Render(ps[0], Some(true), true, true)] + OwnerCards(ps[1..])
  }
}
