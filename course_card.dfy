/** What a course card shows (src/components/courses/CourseCard.tsx). */
module CourseCard {
  import opened Wrappers
  import opened Domain
  import opened PriceDisplay
  import Js

  /** The decisions a card makes; markup is left out. `deleteArgs` are the arguments
      the Delete button passes to `onDelete`. */
  datatype View = View(
    badge: PriceText,
    multiplier: MultiplierText,
    creatorName: string,
    description: string,
    showsImage: bool,
    viewHref: string,
    showsEdit: bool,
    deleteArgs: Option<(string, string)>)

  /** `creatorName`: the populated creator's name, else "Unknown Creator". */
  function CreatorName(c: Creator): string {
    match c
    case CreatorRef(info) => info.name
    case CreatorId(_) => "Unknown Creator"
  }

  /** The card for `course`; `isOwner` is `undefined` (hence false) when omitted. */
  function Render(course: Course, isOwner: Option<bool>, hasOnEdit: bool, hasOnDelete: bool): (v: View)
    ensures var info := course.localizedPriceInfo;
      v.badge.NotAvailable? <==> info.Some? && info.value.localizedCurrency == Some("")
    ensures course.localizedPriceInfo.None? ==> v.badge == Formatted(course.price, "USD") && v.multiplier == NoNote
    ensures var info := course.localizedPriceInfo;
      v.multiplier == ZeroText <==> info.Some? && info.value.appliedMultiplier == Some(0.0)
    ensures v.multiplier.Note? ==>
      && v.multiplier.multiplier != 1.0
      && course.localizedPriceInfo.Some? && course.localizedPriceInfo.value.appliedMultiplier == Some(v.multiplier.multiplier)
    ensures var info := course.localizedPriceInfo;
      v.badge.Formatted? ==>
        && v.badge.amount == (if info.Some? && info.value.localizedPrice.Some? then info.value.localizedPrice.value else course.price)
        && v.badge.currency == (if info.Some? && info.value.localizedCurrency.Some? then info.value.localizedCurrency.value else "USD")
    ensures var info := course.localizedPriceInfo;
      info.Some? && info.value.appliedMultiplier.Some?
      && info.value.appliedMultiplier.value != 0.0 && info.value.appliedMultiplier.value != 1.0
      ==> v.multiplier == Note(info.value.appliedMultiplier.value)
    ensures v.badge == Badge(course.localizedPriceInfo, Some(course.price))
    ensures v.multiplier == MultiplierNote(course.localizedPriceInfo)
    ensures v.showsEdit <==> isOwner == Some(true) && hasOnEdit
    ensures v.deleteArgs.Some? <==> isOwner == Some(true) && hasOnDelete
    ensures v.deleteArgs.Some? ==> v.deleteArgs.value == (course.courseId, course.title)
    ensures course.creator.CreatorRef? ==> v.creatorName == course.creator.info.name
    ensures course.creator.CreatorId? ==> v.creatorName == "Unknown Creator"
  {
    var owner := isOwner == Some(true);
    BadgeSelection(course.localizedPriceInfo, Some(course.price));
    View(
      Badge(course.localizedPriceInfo, Some(course.price)),
      MultiplierNote(course.localizedPriceInfo),
      CreatorName(course.creator),
      Js.OrElse(course.description, "No description available."),
      Js.Truthy(course.image),
      "/courses/" + course.courseId,
      owner && hasOnEdit,
      if owner && hasOnDelete then Some((course.courseId, course.title)) else None)
  }

  function SampleCourse(info: Option<LocalizedPriceInfo>): Course {
    Course("m1", "c1", "Intro", None, 49.99, None, CreatorId("u1"), info)
  }

  /** A course priced 49.99 USD without localized pricing shows 49.99 in USD. */
  lemma UsdCourseExample()
    ensures Render(SampleCourse(None), None, false, false).badge == Formatted(49.99, "USD")
  {
  }

  /** A multiplier of 0 leaves a stray "0" after the price instead of no note. */
  lemma ZeroMultiplierExample()
    ensures var info := LocalizedPriceInfo(49.99, "USD", Some(0.0), Some("INR"), Some(0.0), None, None, None);
      var v := Render(SampleCourse(Some(info)), None, false, false);
      v.badge == Formatted(0.0, "INR") && v.multiplier == ZeroText
  {
  }

  /** Localized at 4150 INR with multiplier 1.2, the card shows 4150 INR and the note "x1.2". */
  lemma LocalizedCourseExample()
    ensures var info := LocalizedPriceInfo(49.99, "USD", Some(4150.0), Some("INR"), Some(1.2), None, None, None);
      var v := Render(SampleCourse(Some(info)), None, false, false);
      v.badge == Formatted(4150.0, "INR") && v.multiplier == Note(1.2)
  {
  }
}
