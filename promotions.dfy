/** Promotions of `store/models.py`: Offer and ComboOffer activity windows and
    the offer badge. Times are integers in microseconds (the resolution of
    Python's datetime); `now` is the clock reading passed in. */
module Promotions {

  const MicrosecondsPerDay: int := 86_400_000_000

  datatype Offer = Offer(
    title: string,
    offerType: string,
    startDate: int,
    endDate: int,
    isActive: bool)

  datatype ComboOffer = ComboOffer(
    name: string,
    originalPrice: real,
    discountPrice: real,
    stockQuantity: nat,
    startDate: int,
    endDate: int,
    isActive: bool)

  /** `start_date <= now <= end_date`. */
  predicate InWindow(startDate: int, endDate: int, now: int)
  {
    startDate <= now <= endDate
  }

  /** `Offer.is_currently_active`. */
  predicate IsCurrentlyActive(o: Offer, now: int)
  {
    InWindow(o.startDate, o.endDate, now) && o.isActive
  }

  /** `(end_date - now).days`: whole days, rounded down as timedelta does. */
  function DaysRemaining(endDate: int, now: int): (days: int)
    ensures days * MicrosecondsPerDay <= endDate - now < (days + 1) * MicrosecondsPerDay
  {
    (endDate - now) / MicrosecondsPerDay
  }

  /** `Offer.badge_text`: the ending-soon test comes before the offer type. */
  function BadgeText(o: Offer, now: int): string
  {
    if DaysRemaining(o.endDate, now) <= 3 then "Ending Soon"
    else if o.offerType == "welcome_offer" then "New Customers"
    else if o.offerType == "free_shipping" then "Ongoing"
    else "Special Offer"
  }

  /** The badge says "Ending Soon" exactly when fewer than four whole days are
      left (also for offers that have already ended), whatever the type;
      otherwise it is decided by the offer type alone. */
  lemma BadgeTextCases(o: Offer, now: int)
    ensures BadgeText(o, now) == "Ending Soon" <==> o.endDate - now < 4 * MicrosecondsPerDay
    ensures o.endDate - now >= 4 * MicrosecondsPerDay ==>
      BadgeText(o, now) == (if o.offerType == "welcome_offer" then "New Customers"
                            else if o.offerType == "free_shipping" then "Ongoing"
                            else "Special Offer")
  {
    var days := DaysRemaining(o.endDate, now);
    if days <= 3 {
      assert (days + 1) * MicrosecondsPerDay <= 4 * MicrosecondsPerDay;
    } else {
      assert 4 * MicrosecondsPerDay <= days * MicrosecondsPerDay;
      assert "New Customers" != "Ending Soon";
      assert "Ongoing" != "Ending Soon";
      assert "Special Offer" != "Ending Soon";
    }
  }

  /** `ComboOffer.savings_amount`. */
  function SavingsAmount(c: ComboOffer): (r: real)
    ensures r > 0.0 <==> c.discountPrice < c.originalPrice
    ensures c.discountPrice + r == c.originalPrice
  {
    c.originalPrice - c.discountPrice
  }

  /** `ComboOffer.is_active_now`. */
  predicate IsActiveNow(c: ComboOffer, now: int)
  {
    InWindow(c.startDate, c.endDate, now) && c.isActive && c.stockQuantity > 0
  }

  /** The offer with the same window and flag as a combo. */
  function WindowOf(c: ComboOffer): Offer
  {
    Offer(c.name, "", c.startDate, c.endDate, c.isActive)
  }

  /** A combo is active exactly when an offer over its window would be and it
      still has stock; neither is ever active outside its window. */
  lemma ComboActivityIsOfferActivityWithStock(c: ComboOffer, o: Offer, now: int)
    ensures IsActiveNow(c, now) <==> IsCurrentlyActive(WindowOf(c), now) && c.stockQuantity > 0
    ensures IsCurrentlyActive(o, now) ==> o.startDate <= o.endDate
    ensures IsActiveNow(c, now) ==> c.startDate <= c.endDate
  {
  }
}
