/** The static country catalog and lookup by code (src/lib/countries.ts). */
module Countries {
  import opened Wrappers
  import opened Domain

  /** `countries`, in declaration order. Note the two "IN" entries. */
  const Catalog: seq<Country> := [
    Country("IN", "Default INR", "INR"),
    Country("US", "United States", "USD"),
    Country("IN", "India", "INR"),
    Country("GB", "United Kingdom", "GBP"),
    Country("CA", "Canada", "CAD"),
    Country("AU", "Australia", "AUD"),
    Country("DE", "Germany", "EUR"),
    Country("FR", "France", "EUR"),
    Country("JP", "Japan", "JPY")
  ]

  /** The code the location context and the pages treat as "no specific country". */
  const GlobalCode: string := "GLOBAL"

  /** `i` is the position of the first entry of `cs` whose code is `code`. */
  ghost predicate IsFirstMatch(cs: seq<Country>, code: string, i: int) {
    0 <= i < |cs| && cs[i].code == code && forall j :: 0 <= j < i ==> cs[j].code != code
  }

  /** `cs.find(c => c.code === code)`. */
  function FindByCode(cs: seq<Country>, code: string): (r: Option<Country>)
    ensures r.None? <==> forall i :: 0 <= i < |cs| ==> cs[i].code != code
    ensures r.Some? ==> exists i :: IsFirstMatch(cs, code, i) && cs[i] == r.value
  {
    if cs == [] then None
    else if cs[0].code == code then
      assert IsFirstMatch(cs, code, 0);
      Some(cs[0])
    else
      var r := FindByCode(cs[1..], code);
      assert forall i :: IsFirstMatch(cs[1..], code, i) ==> IsFirstMatch(cs, code, i + 1);
      r
  }

  /** `getCountryNameByCode`. */
  function CountryNameByCode(code: string): (r: Option<string>)
    ensures r.None? <==> forall i :: 0 <= i < |Catalog| ==> Catalog[i].code != code
    ensures r.Some? ==> exists i :: IsFirstMatch(Catalog, code, i) && Catalog[i].name == r.value
  {
    match FindByCode(Catalog, code)
    case None => None
    case Some(c) => Some(c.name)
  }

  /** Lookup is by first match: "IN" names the sentinel entry, never "India". */
  lemma InLooksUpDefaultInr()
    ensures FindByCode(Catalog, "IN") == Some(Catalog[0])
    ensures CountryNameByCode("IN") == Some("Default INR")
  {
  }

  /** There is no "GLOBAL" entry, so looking it up yields nothing. */
  lemma GlobalIsAbsent()
    ensures FindByCode(Catalog, GlobalCode) == None
    ensures CountryNameByCode(GlobalCode) == None
  {
  }

  /** The catalog has nine entries; "IN" occurs at positions 0 and 2 and every other code once. */
  lemma CatalogShape()
    ensures |Catalog| == 9
    ensures Catalog[0].code == Catalog[2].code == "IN"
    ensures forall i, j :: 0 <= i < j < |Catalog| && Catalog[i].code == Catalog[j].code ==> i == 0 && j == 2
  {
  }

  /** Every entry has a non-empty code, name and currency. */
  lemma CatalogFieldsNonEmpty()
    ensures forall i :: 0 <= i < |Catalog| ==>
      Catalog[i].code != "" && Catalog[i].name != "" && Catalog[i].currency != ""
  {
  }

  /** Every catalog code has two letters. */
  lemma CatalogCodesHaveTwoLetters()
    ensures forall i :: 0 <= i < |Catalog| ==> |Catalog[i].code| == 2
  {
  }

  /** In a list whose codes all have two letters, a code of any other length finds nothing. */
  lemma NoMatchOfOtherLength(cs: seq<Country>, code: string)
    requires forall i :: 0 <= i < |cs| ==> |cs[i].code| == 2
    requires |code| != 2
    ensures FindByCode(cs, code) == None
  {
  }

  /** So a code of any length but two finds nothing in the catalog. */
  lemma {:induction false} OtherLengthsFindNothing(code: string)
    requires |code| != 2
    ensures FindByCode(Catalog, code) == None
  {
    CatalogCodesHaveTwoLetters();
    NoMatchOfOtherLength(Catalog, code);
  }

  /** No code whatever finds the "India" entry. */
  lemma IndiaNeverFoundByCode(code: string)
    ensures FindByCode(Catalog, code) != Some(Catalog[2])
  {
    if code == "IN" {
      InLooksUpDefaultInr();
    }
  }

  /** Whatever a lookup finds is an entry of the catalog. */
  lemma {:induction false} FoundIsInCatalog(cs: seq<Country>, code: string)
    requires FindByCode(cs, code).Some?
    ensures FindByCode(cs, code).value in cs && FindByCode(cs, code).value.code == code
  {
    var i :| IsFirstMatch(cs, code, i) && cs[i] == FindByCode(cs, code).value;
  }
}
