/** The public package list (src/app/packages/page.tsx), structured like the course list. */
module PackagesPage {
  import opened Wrappers
  import opened Domain
  import Api
  import PackageCard
  import opened LocationParam

  const LoadError: string := "Failed to load packages. Please try again later."

  datatype View = View(
    pricesShownFor: Option<string>,
    showsLoader: bool,
    errorText: Option<string>,
    showsEmpty: bool,
    grid: Option<seq<PackageCard.View>>)

  class Page {
    var packages: seq<Package>
    var isLoadingPage: bool
    var error: Option<string>
    var requests: seq<Api.Request>

    constructor ()
      ensures packages == [] && isLoadingPage && error.None? && requests == []
    {
      packages := [];
      isLoadingPage := true;
      error := None;
      requests := [];
    }

    /** `loadPackages`. */
    method LoadPackages(env: Env, reply: Result<seq<Package>, ApiError>)
      modifies this
      ensures env.isAuthLoading || env.isLocationLoading ==>
        isLoadingPage && packages == old(packages) && error == old(error) && requests == old(requests)
      ensures !(env.isAuthLoading || env.isLocationLoading) ==>
        && !isLoadingPage
        && requests == old(requests) + [Api.RequestOf(Api.ListPackages(Resolve(env.selectedCountry, env.user)))]
        && (reply.Success? ==> packages == reply.value && error.None?)
        && (reply.Failure? ==> packages == old(packages) && error == Some(LoadError))
    {
      if env.isAuthLoading || env.isLocationLoading {
        isLoadingPage := true;
        return;
      }
      isLoadingPage := true;
      error := None;
      var locationParam := Resolve(env.selectedCountry, env.user);
      requests := requests + [Api.RequestOf(Api.ListPackages(locationParam))];
      if reply.Success? {
        packages := reply.value;
      } else {
        error := Some(LoadError);
      }
      isLoadingPage := false;
    }

    function Render(env: Env): (v: View)
      reads this
      ensures v.pricesShownFor.Some? <==>
        !(env.isAuthLoading || env.isLocationLoading) && SelectsCountry(env.selectedCountry)
      ensures v.pricesShownFor.Some? ==> v.pricesShownFor.value == env.selectedCountry.value.name
      ensures v.showsLoader <==> isLoadingPage || env.isAuthLoading || env.isLocationLoading
      ensures v.errorText == error
      ensures v.showsEmpty <==>
        !isLoadingPage && !env.isAuthLoading && !env.isLocationLoading && error.None? && packages == []
      ensures v.grid.Some? <==>
        !isLoadingPage && !env.isAuthLoading && !env.isLocationLoading && error.None? && packages != []
      ensures v.grid.Some? ==> |v.grid.value| == |packages|
      ensures v.grid.Some? ==> forall i :: 0 <= i < |packages| ==> v.grid.value[i] == PackageCard.Render(packages[i], None, false, false)
    {
      var ps := packages;
      var ready := !isLoadingPage && !env.isAuthLoading && !env.isLocationLoading && error.None?;
      View(
        if !(env.isAuthLoading || env.isLocationLoading) && SelectsCountry(env.selectedCountry)
        then Some(env.selectedCountry.value.name) else None,
        isLoadingPage || env.isAuthLoading || env.isLocationLoading,
        error,
        ready && ps == [],
        if ready && ps != [] then Some(Cards(ps)) else None)
    }
  }

  function Cards(ps: seq<Package>): (r: seq<PackageCard.View>)
    ensures |r| == |ps|
    ensures forall i :: 0 <= i < |ps| ==> r[i] == PackageCard.Render(ps[i], None, false, false)
  {
    if ps == [] then [] else [PackageCard.Render(ps[0], None, false, false)] + Cards(ps[1..])
  }

  /** The empty message, the grid and the error text exclude one another. */
  lemma ViewsExclusive(p: Page, env: Env)
    ensures var v := p.Render(env);
      && !(v.showsEmpty && v.grid.Some?)
      && (v.errorText.Some? ==> !v.showsEmpty && v.grid.None?)
      && (v.showsEmpty || v.grid.Some? ==> !v.showsLoader)
  {
  }
}
