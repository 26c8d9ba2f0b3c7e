/** The public course list (src/app/courses/page.tsx). The fetch is not performed:
    `LoadCourses` records the request it sends and takes what `fetchAllCourses`
    resolves or rejects with as an input. */
module CoursesPage {
  import opened Wrappers
  import opened Domain
  import Api
  import CourseCard
  import opened LocationParam

  const LoadError: string := "Failed to load courses. Please try again later."

  /** Which parts of the page render. `grid` holds the cards when the grid shows. */
  datatype View = View(
    pricesShownFor: Option<string>,
    showsLoader: bool,
    showsEmpty: bool,
    grid: Option<seq<CourseCard.View>>)

  class Page {
    var courses: seq<Course>
    var isLoadingPage: bool
    var error: Option<string>
    var requests: seq<Api.Request>

    constructor ()
      ensures courses == [] && isLoadingPage && error.None? && requests == []
    {
      courses := [];
      isLoadingPage := true;
      error := None;
      requests := [];
    }

    /** `loadCourses`: nothing but the loader while a context is loading; otherwise one
        request with the resolved location, then the list or the fixed error. */
    method LoadCourses(env: Env, reply: Result<seq<Course>, ApiError>)
      modifies this
      ensures env.isAuthLoading || env.isLocationLoading ==>
        isLoadingPage && courses == old(courses) && error == old(error) && requests == old(requests)
      ensures !(env.isAuthLoading || env.isLocationLoading) ==>
        && !isLoadingPage
        && requests == old(requests) + [Api.RequestOf(Api.ListCourses(Resolve(env.selectedCountry, env.user)))]
        && (reply.Success? ==> courses == reply.value && error.None?)
        && (reply.Failure? ==> courses == old(courses) && error == Some(LoadError))
    {
      if env.isAuthLoading || env.isLocationLoading {
        isLoadingPage := true;
        return;
      }
      isLoadingPage := true;
      error := None;
      var locationParam := Resolve(env.selectedCountry, env.user);
      requests := requests + [Api.RequestOf(Api.ListCourses(locationParam))];
      if reply.Success? {
        courses := reply.value;
      } else {
        error := Some(LoadError);
      }
      isLoadingPage := false;
    }

    /** What renders. The error text is stored but this page never renders it. */
    function Render(env: Env): (v: View)
      reads this
      ensures v.pricesShownFor.Some? <==>
        !(env.isAuthLoading || env.isLocationLoading) && SelectsCountry(env.selectedCountry)
      ensures v.pricesShownFor.Some? ==> v.pricesShownFor.value == env.selectedCountry.value.name
      ensures v.showsLoader <==> isLoadingPage || env.isAuthLoading || env.isLocationLoading
      ensures v.showsEmpty <==> !isLoadingPage && !env.isLocationLoading && error.None? && courses == []
      ensures v.grid.Some? <==> !isLoadingPage && !env.isLocationLoading && error.None? && courses != []
      ensures v.grid.Some? ==> |v.grid.value| == |courses|
      ensures v.grid.Some? ==> forall i :: 0 <= i < |courses| ==> v.grid.value[i] == CourseCard.Render(courses[i], None, false, false)
    {
      var cs := courses;
      var ready := !isLoadingPage && !env.isLocationLoading && error.None?;
      View(
        if !(env.isAuthLoading || env.isLocationLoading) && SelectsCountry(env.selectedCountry)
        then Some(env.selectedCountry.value.name) else None,
        isLoadingPage || env.isAuthLoading || env.isLocationLoading,
        ready && cs == [],
        if ready && cs != [] then Some(Cards(cs)) else None)
    }
  }

  /** The public cards: no owner buttons. */
  function Cards(cs: seq<Course>): (r: seq<CourseCard.View>)
    ensures |r| == |cs|
    ensures forall i :: 0 <= i < |cs| ==> r[i] == CourseCard.Render(cs[i], None, false, false)
  {
    if cs == [] then [] else [CourseCard.Render(cs[0], None, false, false)] + Cards(cs[1..])
  }

  /** After a failed load with both contexts ready, the page shows only its heading:
      no loader, no empty message, no grid. */
  lemma FailedLoadShowsNoList(p: Page, env: Env)
    requires p.error.Some? && !p.isLoadingPage && !env.isAuthLoading && !env.isLocationLoading
    ensures var v := p.Render(env); !v.showsLoader && !v.showsEmpty && v.grid.None?
  {
  }

  /** Once loaded without error, exactly one of the empty message and the grid shows. */
  lemma LoadedShowsOneList(p: Page, env: Env)
    requires p.error.None? && !p.isLoadingPage && !env.isLocationLoading
    ensures var v := p.Render(env); v.showsEmpty != v.grid.Some?
  {
  }
}
