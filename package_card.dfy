/** What a package card shows (src/components/packages/PackageCard.tsx). */
module PackageCard {
  import opened Wrappers
  import opened Domain
  import opened PriceDisplay
  import Js
  import CourseCard

  datatype View = View(
    badge: PriceText,
    multiplier: MultiplierText,
    creatorName: string,
    courseCount: nat,
    countLabel: string,
    summary: string,
    showsImage: bool,
    viewHref: string,
    showsEdit: bool,
    deleteArgs: Option<(string, string)>)

  const FallbackSummary: string := "No specific course details available in summary."

  /** `Array.isArray(pkg.courses) ? pkg.courses.length : 0`. */
  function CourseCount(courses: Option<seq<CourseRef>>): nat {
    if courses.Some? then |courses.value| else 0
  }

  /** "Course" for exactly one course, "Courses" otherwise. */
  function CountLabel(n: nat): string {
    if n == 1 then "Course" else "Courses"
  }

  /** `c.title` of an entry: a bare id string has no title, and `join` renders the
      resulting `undefined` as the empty string. */
  function TitleOf(c: CourseRef): string {
    match c
    case CourseEntry(course) => course.title
    case CourseIdRef(_) => ""
  }

  /** `cs.map(c => c.title)`. */
  function Titles(cs: seq<CourseRef>): (r: seq<string>)
    ensures |r| == |cs|
    ensures forall i :: 0 <= i < |cs| ==> r[i] == TitleOf(cs[i])
  {
    if cs == [] then [] else [TitleOf(cs[0])] + Titles(cs[1..])
  }

  /** The description line: up to three titles joined by ", ", then "..." if more remain. */
  function Summary(courses: Option<seq<CourseRef>>): string {
    if courses.Some? && |courses.value| > 0 then
      var cs := courses.value;
      Js.Join(Titles(cs[..if |cs| < 3 then |cs| else 3]), ", ") + (if |cs| > 3 then "..." else "")
    else FallbackSummary
  }

  /** The card for `pkg`; `isOwner` is `undefined` (hence false) when omitted. */
  function Render(pkg: Package, isOwner: Option<bool>, hasOnEdit: bool, hasOnDelete: bool): (v: View)
    ensures var info := pkg.localizedPriceInfo;
      v.badge.NotAvailable? <==>
        || DisplayAmount(info, pkg.baseTotalPriceUSD).None?
        || (info.Some? && info.value.localizedCurrency == Some(""))
    ensures pkg.localizedPriceInfo.None? && pkg.baseTotalPriceUSD.None? ==> v.badge == NotAvailable
    ensures pkg.localizedPriceInfo.None? && pkg.baseTotalPriceUSD.Some? ==>
      v.badge == Formatted(pkg.baseTotalPriceUSD.value, "USD")
    ensures var info := pkg.localizedPriceInfo;
      v.multiplier == ZeroText <==> info.Some? && info.value.appliedMultiplier == Some(0.0)
    ensures v.multiplier.Note? ==>
      && v.multiplier.multiplier != 1.0
      && pkg.localizedPriceInfo.Some? && pkg.localizedPriceInfo.value.appliedMultiplier == Some(v.multiplier.multiplier)
    ensures var info := pkg.localizedPriceInfo;
      v.badge.Formatted? ==>
        && v.badge.amount == (if info.Some? && info.value.localizedPrice.Some? then info.value.localizedPrice.value else pkg.baseTotalPriceUSD.value)
        && v.badge.currency == (if info.Some? && info.value.localizedCurrency.Some? then info.value.localizedCurrency.value else "USD")
    ensures var info := pkg.localizedPriceInfo;
      info.Some? && info.value.appliedMultiplier.Some?
      && info.value.appliedMultiplier.value != 0.0 && info.value.appliedMultiplier.value != 1.0
      ==> v.multiplier == Note(info.value.appliedMultiplier.value)
    ensures v.badge == Badge(pkg.localizedPriceInfo, pkg.baseTotalPriceUSD)
    ensures v.multiplier == MultiplierNote(pkg.localizedPriceInfo)
    ensures v.courseCount == (if pkg.courses.Some? then |pkg.courses.value| else 0)
    ensures v.countLabel == "Course" <==> v.courseCount == 1
    ensures v.summary == Summary(pkg.courses)
    ensures pkg.creator.CreatorRef? ==> v.creatorName == pkg.creator.info.name
    ensures pkg.creator.CreatorId? ==> v.creatorName == "Unknown Creator"
    ensures v.showsEdit <==> isOwner == Some(true) && hasOnEdit
    ensures v.deleteArgs.Some? <==> isOwner == Some(true) && hasOnDelete
    ensures v.deleteArgs.Some? ==> v.deleteArgs.value == (pkg.packageId, pkg.title)
  {
    var owner := isOwner == Some(true);
    var count := CourseCount(pkg.courses);
    BadgeSelection(pkg.localizedPriceInfo, pkg.baseTotalPriceUSD);
    View(
      Badge(pkg.localizedPriceInfo, pkg.baseTotalPriceUSD),
      MultiplierNote(pkg.localizedPriceInfo),
      CourseCard.CreatorName(pkg.creator),
      count,
      CountLabel(count),
      Summary(pkg.courses),
      Js.Truthy(pkg.image),
      "/packages/" + pkg.packageId,
      owner && hasOnEdit,
      if owner && hasOnDelete then Some((pkg.packageId, pkg.title)) else None)
  }

  /** No array, or an empty one, gives the fixed fallback text. */
  lemma SummaryFallback(courses: Option<seq<CourseRef>>)
    requires courses.None? || courses.value == []
    ensures Summary(courses) == FallbackSummary
  {
  }

  /** A non-empty list opens the summary with its first title. */
  lemma {:induction false} SummaryStartsWithFirstTitle(cs: seq<CourseRef>)
    requires |cs| > 0
    ensures TitleOf(cs[0]) <= Summary(Some(cs))
  {
    var shown := Titles(cs[..if |cs| < 3 then |cs| else 3]);
    Js.JoinStartsWithFirst(shown, ", ");
  }

  /** Up to three courses: every title is shown, nothing is appended. */
  lemma SummaryOfAtMostThree(cs: seq<CourseRef>)
    requires 0 < |cs| <= 3
    ensures Summary(Some(cs)) == Js.Join(Titles(cs), ", ")
  {
    assert cs[..|cs|] == cs;
  }

  /** More than three: the summary ends in "..." and depends only on the first three. */
  lemma SummaryOfMoreThanThree(a: seq<CourseRef>, b: seq<CourseRef>)
    requires |a| > 3 && |b| > 3 && a[..3] == b[..3]
    ensures Summary(Some(a)) == Summary(Some(b))
    ensures var s := Summary(Some(a)); |s| >= 3 && s[|s| - 3..] == "..."
  {
  }
}
