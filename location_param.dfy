/** The location-parameter precedence that the course list, package list,
    my-courses and my-packages pages each write out inline
    (src/app/courses/page.tsx, src/app/packages/page.tsx,
    src/app/dashboard/my-courses/page.tsx, src/app/dashboard/my-packages/page.tsx). */
module LocationParam {
  import opened Wrappers
  import opened Domain
  import opened Countries
  import Js

  /** What a page reads from the auth and location contexts when it runs. */
  datatype Env = Env(
    user: Option<User>,
    isAuthenticated: bool,
    isAuthLoading: bool,
    selectedCountry: Option<Country>,
    isLocationLoading: bool)

  /** A selection counts when it is present and its code is not "GLOBAL". */
  predicate SelectsCountry(selected: Option<Country>) {
    selected.Some? && selected.value.code != GlobalCode
  }

  /** Priority: the selected country's name, then the user's profile location, then nothing. */
  function Resolve(selected: Option<Country>, user: Option<User>): (r: Option<string>)
    ensures SelectsCountry(selected) ==> r == Some(selected.value.name)
    ensures !SelectsCountry(selected) && user.Some? && Js.Truthy(user.value.location) ==> r == user.value.location
    ensures r.None? <==> !SelectsCountry(selected) && (user.None? || !Js.Truthy(user.value.location))
  {
    if SelectsCountry(selected) then Some(selected.value.name)
    else if user.Some? && Js.Truthy(user.value.location) then user.value.location
    else None
  }

  /** A counting selection makes the profile location irrelevant. */
  lemma SelectionOverridesProfile(selected: Option<Country>, u1: Option<User>, u2: Option<User>)
    requires SelectsCountry(selected)
    ensures Resolve(selected, u1) == Resolve(selected, u2)
  {
  }

  /** Every catalog entry counts as a selection (none has the code "GLOBAL"), so while
      a catalog entry is selected the profile location is never consulted. */
  lemma {:induction false} CatalogSelectionWins(i: nat, user: Option<User>)
    requires i < |Catalog|
    ensures Resolve(Some(Catalog[i]), user) == Some(Catalog[i].name)
    ensures Js.Truthy(Resolve(Some(Catalog[i]), user))
  {
    GlobalIsAbsent();
    CatalogFieldsNonEmpty();
  }

  /** Whatever is sent is either the selected country's name or a non-empty profile location. */
  lemma ResolvedComesFromInputs(selected: Option<Country>, user: Option<User>)
    ensures var r := Resolve(selected, user);
      r.Some? ==>
        || (selected.Some? && r.value == selected.value.name)
        || (user.Some? && user.value.location == r && r.value != "")
  {
  }
}
