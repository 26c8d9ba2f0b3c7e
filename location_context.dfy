/** The process-wide selected location (src/contexts/LocationContext.tsx):
    initialised once from the stored preference, changed only by
    `setSelectedLocation`, which also writes the preference. */
module LocationContext {
  import opened Wrappers
  import opened Domain
  import opened Countries
  import Js

  /** The localStorage key of the stored preference. */
  const PreferenceKey: string := "userLocationPreference"

  class LocationProvider {
    var selectedCountry: Option<Country>
    var isLoading: bool
    /** The browser's localStorage. */
    var storage: map<string, string>

    /** The provider's first render: nothing selected yet and still loading. */
    constructor (storage: map<string, string>)
      ensures selectedCountry == None && isLoading && this.storage == storage
    {
      selectedCountry := None;
      isLoading := true;
      this.storage := storage;
    }

    /** The mount effect. A stored preference that names a catalog code selects the
        first entry with that code; otherwise the "GLOBAL" entry is tried and, as there
        is none, the first catalog entry ("Default INR") is selected. */
    method Initialize()
      modifies this
      ensures storage == old(storage) && !isLoading
      ensures var stored := Js.GetItem(storage, PreferenceKey);
        if Js.Truthy(stored) && FindByCode(Catalog, stored.value).Some?
        then selectedCountry == FindByCode(Catalog, stored.value)
        else selectedCountry == Some(Catalog[0])
      ensures selectedCountry.Some?
    {
      isLoading := true;
      var storedLocationCode := Js.GetItem(storage, PreferenceKey);
      var initialCountry: Option<Country> := None;
      if Js.Truthy(storedLocationCode) {
        initialCountry := FindByCode(Catalog, storedLocationCode.value);
      }
      if initialCountry.None? {
        GlobalIsAbsent();
        var global := FindByCode(Catalog, GlobalCode);
        initialCountry := if global.Some? then global else Some(Catalog[0]);
      }
      selectedCountry := initialCountry;
      isLoading := false;
    }

    /** `setSelectedLocation(countryCode)`. A catalog code selects the first entry with
        that code and stores that code; "GLOBAL" selects the (absent) "GLOBAL" entry, that
        is nothing, and stores "GLOBAL"; any other code changes nothing. */
    method SetSelectedLocation(countryCode: string)
      modifies this
      ensures isLoading == old(isLoading)
      ensures var found := FindByCode(Catalog, countryCode);
        if found.Some? then
          selectedCountry == found && storage == old(storage)[PreferenceKey := countryCode]
        else if countryCode == GlobalCode then
          selectedCountry == None && storage == old(storage)[PreferenceKey := GlobalCode]
        else
          selectedCountry == old(selectedCountry) && storage == old(storage)
    {
      var country := FindByCode(Catalog, countryCode);
      if country.Some? {
        FoundIsInCatalog(Catalog, countryCode);
        selectedCountry := country;
        storage := storage[PreferenceKey := country.value.code];
      } else if countryCode == GlobalCode {
        var globalDefault := FindByCode(Catalog, GlobalCode);
        selectedCountry := if globalDefault.Some? then globalDefault else None;
        storage := storage[PreferenceKey := GlobalCode];
      }
    }
  }

  /** A stored "IN" preference selects the "Default INR" entry, never "India". */
  method StoredInScenario() returns (p: LocationProvider)
    ensures fresh(p) && !p.isLoading
    ensures p.selectedCountry == Some(Catalog[0]) && p.selectedCountry.value.name == "Default INR"
  {
    InLooksUpDefaultInr();
    p := new LocationProvider(map[PreferenceKey := "IN"]);
    p.Initialize();
  }

  /** Choosing "GLOBAL" clears the selection and stores "GLOBAL"; an unknown code
      afterwards leaves both alone. */
  method ResetScenario(p: LocationProvider)
    modifies p
    ensures p.selectedCountry == None
    ensures p.storage == old(p.storage)[PreferenceKey := GlobalCode]
  {
    GlobalIsAbsent();
    p.SetSelectedLocation(GlobalCode);
    ghost var afterReset := p.storage;
    OtherLengthsFindNothing("EU27");
    p.SetSelectedLocation("EU27");
    assert p.storage == afterReset;
  }
}
