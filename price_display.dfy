/** The price badge rule shared, character for character, by the course card and the
    package card (src/components/courses/CourseCard.tsx, src/components/packages/PackageCard.tsx):
    the `formatPrice` guard, the amount and currency picked independently with `??`,
    and the multiplier note. Locale formatting itself is left out: a formatted badge
    records the amount and currency code it would format. */
module PriceDisplay {
  import opened Wrappers
  import opened Domain
  import Js

  /** "N/A", or the `Intl.NumberFormat` rendering of an amount in a currency. */
  datatype PriceText = NotAvailable | Formatted(amount: real, currency: string)

  /** `formatPrice(price, currency)`. */
  function FormatPrice(price: Option<real>, currency: Option<string>): (r: PriceText)
    ensures r.NotAvailable? <==> price.None? || !Js.Truthy(currency)
    ensures r.Formatted? ==> r.amount == price.value && r.currency == currency.value
  {
    if price.None? || !Js.Truthy(currency) then NotAvailable else Formatted(price.value, currency.value)
  }

  /** `info?.localizedPrice ?? fallback`. */
  function DisplayAmount(info: Option<LocalizedPriceInfo>, fallback: Option<real>): Option<real> {
    if info.Some? && info.value.localizedPrice.Some? then info.value.localizedPrice else fallback
  }

  /** `info?.localizedCurrency ?? 'USD'`. */
  function DisplayCurrency(info: Option<LocalizedPriceInfo>): string {
    if info.Some? && info.value.localizedCurrency.Some? then info.value.localizedCurrency.value else "USD"
  }

  /** The badge: the display amount formatted in the display currency. */
  function Badge(info: Option<LocalizedPriceInfo>, fallback: Option<real>): PriceText {
    FormatPrice(DisplayAmount(info, fallback), Some(DisplayCurrency(info)))
  }

  /** What the badge renders after the price for the applied multiplier. JSX renders
      `m && m !== 1 && <span>(xM)</span>` as nothing when `m` is missing or 1, as the text
      "0" when `m` is 0 (a falsy number is rendered, unlike `false`), and as the note
      otherwise. */
  datatype MultiplierText = NoNote | ZeroText | Note(multiplier: real)

  function MultiplierNote(info: Option<LocalizedPriceInfo>): (r: MultiplierText)
    ensures r.Note? <==>
      && info.Some? && info.value.appliedMultiplier.Some?
      && info.value.appliedMultiplier.value != 0.0 && info.value.appliedMultiplier.value != 1.0
    ensures r.Note? ==> Some(r.multiplier) == info.value.appliedMultiplier
    ensures r == ZeroText <==> info.Some? && info.value.appliedMultiplier == Some(0.0)
  {
    if info.None? || info.value.appliedMultiplier.None? then NoNote
    else
      var m := info.value.appliedMultiplier.value;
      if m == 0.0 then ZeroText
      else if m == 1.0 then NoNote
      else Note(m)
  }

  /** The badge reads "N/A" exactly when no amount is available or the localized currency
      is the empty string; otherwise the amount is the localized price when present (0
      included) and the currency is the localized currency when present, each on its own. */
  lemma BadgeSelection(info: Option<LocalizedPriceInfo>, fallback: Option<real>)
    ensures var b := Badge(info, fallback);
      && (b.NotAvailable? <==>
            DisplayAmount(info, fallback).None?
            || (info.Some? && info.value.localizedCurrency == Some("")))
      && (b.Formatted? ==>
            && b.amount == (if info.Some? && info.value.localizedPrice.Some?
                            then info.value.localizedPrice.value else fallback.value)
            && b.currency == (if info.Some? && info.value.localizedCurrency.Some?
                              then info.value.localizedCurrency.value else "USD"))
  {
  }

  /** A localized amount without a localized currency is shown labelled as USD. */
  lemma LocalizedAmountCanBeLabelledUsd(info: LocalizedPriceInfo, fallback: Option<real>)
    requires info.localizedPrice.Some? && info.localizedCurrency.None?
    ensures Badge(Some(info), fallback) == Formatted(info.localizedPrice.value, "USD")
  {
  }

  /** The badge and the note do not look at `isBlacklisted` or `message`. */
  lemma BlacklistDoesNotAffectBadge(info: LocalizedPriceInfo, fallback: Option<real>, b: Option<bool>, m: Option<string>)
    ensures Badge(Some(info.(isBlacklisted := b, message := m)), fallback) == Badge(Some(info), fallback)
    ensures MultiplierNote(Some(info.(isBlacklisted := b, message := m))) == MultiplierNote(Some(info))
  {
  }
}
