/**
 * Rental pricing for one garment: the inclusive day count, rental cost, optional damage
 * protection (5% or 12%, rounded), a fixed delivery fee, the single promo code worth 20% of
 * the subtotal at the moment it is applied, and the total.
 *
 * Money is integral. `Math.round(x * p / 100)` is written as `(x * p + 50) / 100` with
 * Dafny's flooring division, which is round-half-up for every integer `x`, negative included.
 */
module RentalSummary {
  import opened Wrappers
  import opened Days
  import Text

  const DeliveryFee := 15
  const PromoCode := "FIRST20"
  const PromoPercent := 20

  /** `rentalDays`: full days from start to end plus one when both dates are given, else 0. */
  function RentalDays(startDate: Option<int>, endDate: Option<int>): (r: int)
    ensures startDate.None? || endDate.None? ==> r == 0
    ensures startDate.Some? && endDate.Some? && startDate.value <= endDate.value ==>
      r >= 1 && DAY * (r - 1) <= endDate.value - startDate.value < DAY * r
  {
    if startDate.Some? && endDate.Some? then DifferenceInDays(endDate.value, startDate.value) + 1 else 0
  }

  /** `Math.round(x * p / 100)`: the integer nearest to x * p / 100, halves rounded up. */
  function RoundPercent(x: int, p: int): (r: int)
    ensures 100 * r - 50 <= x * p < 100 * r + 50
  {
    (x * p + 50) / 100
  }

  /** `calculateInsuranceCost(option, base)`: 5% for "basic", 12% for "premium", else nothing. */
  function InsuranceCost(option: string, base: int): (r: int)
    ensures option == "basic" ==> 100 * r - 50 <= base * 5 < 100 * r + 50
    ensures option == "premium" ==> 100 * r - 50 <= base * 12 < 100 * r + 50
    ensures option != "basic" && option != "premium" ==> r == 0
  {
    if option == "basic" then RoundPercent(base, 5)
    else if option == "premium" then RoundPercent(base, 12)
    else 0
  }

  /** Every figure the summary card shows. */
  datatype Quote = Quote(rentalDays: int, rentalCost: int, insuranceCost: int, subtotal: int, discount: int, total: int)

  /** The props the card is rendered with. */
  datatype Props = Props(dailyPrice: int, startDate: Option<int>, endDate: Option<int>, insuranceOption: string)

  /** The promo part of the card's state. */
  datatype Promo = Promo(promoCode: string, promoApplied: bool, promoDiscount: int)

  const InitialPromo := Promo("", false, 0)

  /** The figures for given props and promo state. */
  function Figures(props: Props, promo: Promo): (q: Quote)
    ensures q.rentalDays == RentalDays(props.startDate, props.endDate)
    ensures q.rentalCost == props.dailyPrice * q.rentalDays
    ensures q.insuranceCost == InsuranceCost(props.insuranceOption, q.rentalCost)
    ensures q.subtotal == q.rentalCost + q.insuranceCost + DeliveryFee
    ensures q.discount == (if promo.promoApplied then promo.promoDiscount else 0)
    ensures q.total == q.subtotal - q.discount
  {
    var days := RentalDays(props.startDate, props.endDate);
    var cost := props.dailyPrice * days;
    var insurance := InsuranceCost(props.insuranceOption, cost);
    var subtotal := cost + insurance + DeliveryFee;
    var discount := if promo.promoApplied then promo.promoDiscount else 0;
    Quote(days, cost, insurance, subtotal, discount, subtotal - discount)
  }

  /** The code is accepted when its upper-cased form is exactly "FIRST20". */
  predicate PromoAccepted(code: string) {
    Text.ToUpper(code) == PromoCode
  }

  /** `applyPromoCode()` against the subtotal on screen at that moment. */
  function ApplyPromo(promo: Promo, subtotal: int): Promo {
    if PromoAccepted(promo.promoCode)
    then Promo("", true, RoundPercent(subtotal, PromoPercent))
    else promo.(promoCode := "")
  }

  /** The promo input is enabled until a code has been applied. */
  predicate InputEnabled(promo: Promo) {
    !promo.promoApplied
  }

  /** The Apply button is enabled for a non-empty code while no code has been applied. */
  predicate ApplyEnabled(promo: Promo) {
    promo.promoCode != "" && !promo.promoApplied
  }

  /**
   * The summary's day count is the rental calendar's inclusive count for any forward range,
   * and for day-aligned dates it is the cart's rounded-up count plus one.
   */
  lemma RentalDaysIsInclusive(start: int, end: int)
    requires start <= end
    ensures RentalDays(Some(start), Some(end)) == InclusiveDays(start, end)
    ensures start % DAY == end % DAY ==> RentalDays(Some(start), Some(end)) == CeilDays(start, end) + 1
  {
    DifferenceIsFloorForward(start, end);
    if start % DAY == end % DAY {
      AlignedInclusiveIsCeilPlusOne(start, end);
    }
  }

  /** For a non-negative rental cost, insurance never exceeds it and is never negative. */
  lemma InsuranceWithinCost(option: string, base: int)
    requires base >= 0
    ensures 0 <= InsuranceCost(option, base) <= base
  {
  }

  /** On a cost in whole hundreds the percentages are exact: 1000 gives 50 and 120. */
  lemma InsuranceOnWholeHundreds(base: int)
    requires base % 100 == 0
    ensures InsuranceCost("basic", base) == base / 100 * 5
    ensures InsuranceCost("premium", base) == base / 100 * 12
    ensures InsuranceCost("none", base) == 0
  {
    var h := base / 100;
    assert base == 100 * h;
    assert (base * 5 + 50) / 100 == 5 * h by {
      assert base * 5 + 50 == 100 * (5 * h) + 50;
    }
    assert (base * 12 + 50) / 100 == 12 * h by {
      assert base * 12 + 50 == 100 * (12 * h) + 50;
    }
  }

  /** A non-negative price over at least one day costs at least that price. */
  lemma AtLeastOneDay(price: int, days: int)
    requires price >= 0 && days >= 1
    ensures price <= price * days
  {
    assert price * days == price + price * (days - 1);
  }

  /**
   * For a forward range at a non-negative daily price, the subtotal covers at least one day's
   * rent plus delivery, and damage protection adds at most the rental cost again.
   */
  lemma ForwardRangeSubtotal(props: Props, promo: Promo)
    requires props.startDate.Some? && props.endDate.Some?
    requires props.startDate.value <= props.endDate.value && props.dailyPrice >= 0
    ensures var q := Figures(props, promo);
            q.rentalDays >= 1 && props.dailyPrice + DeliveryFee <= q.subtotal &&
            q.rentalCost + DeliveryFee <= q.subtotal <= 2 * q.rentalCost + DeliveryFee
  {
    var q := Figures(props, promo);
    AtLeastOneDay(props.dailyPrice, q.rentalDays);
    InsuranceWithinCost(props.insuranceOption, q.rentalCost);
  }

  /** Without both dates the subtotal is the delivery fee alone. */
  lemma NoDatesSubtotal(props: Props, promo: Promo)
    requires props.startDate.None? || props.endDate.None?
    ensures Figures(props, promo).subtotal == DeliveryFee
  {
  }

  /**
   * An accepted code sets the flag and stores 20% of the current subtotal, rounded; a
   * rejected one changes neither. Both empty the code field.
   */
  lemma ApplyPromoOutcome(promo: Promo, subtotal: int)
    ensures var after := ApplyPromo(promo, subtotal);
            after.promoCode == ""
            && (PromoAccepted(promo.promoCode) ==>
                  after.promoApplied && 100 * after.promoDiscount - 50 <= subtotal * 20 < 100 * after.promoDiscount + 50)
            && (!PromoAccepted(promo.promoCode) ==>
                  after.promoApplied == promo.promoApplied && after.promoDiscount == promo.promoDiscount)
  {
  }

  /** The code is matched in any letter case, and only as the exact seven characters. */
  lemma PromoAcceptedIgnoresCase(code: string)
    ensures PromoAccepted(code) ==> |code| == 7
    ensures PromoAccepted("first20") && PromoAccepted("First20") && !PromoAccepted("")
  {
    assert Text.ToUpper("first20") == "FIRST20";
    assert Text.ToUpper("First20") == "FIRST20";
  }

  /**
   * The discount is frozen when applied: whatever the props become afterwards, the total is
   * the new subtotal minus the discount computed from the old one.
   */
  lemma DiscountFrozen(before: Props, after: Props, promo: Promo)
    requires PromoAccepted(promo.promoCode)
    ensures var applied := ApplyPromo(promo, Figures(before, promo).subtotal);
            Figures(after, applied).total
            == Figures(after, applied).subtotal - RoundPercent(Figures(before, promo).subtotal, PromoPercent)
  {
  }

  /**
   * Nothing clamps the total at zero: a code applied on a subtotal of 78 or more, followed by
   * clearing the dates, leaves a negative total.
   */
  lemma TotalCanGoNegative(before: Props, after: Props, promo: Promo)
    requires PromoAccepted(promo.promoCode)
    requires Figures(before, promo).subtotal >= 78
    requires after.startDate.None?
    ensures Figures(after, ApplyPromo(promo, Figures(before, promo).subtotal)).total < 0
  {
    var s := Figures(before, promo).subtotal;
    assert RoundPercent(s, PromoPercent) >= 16;
  }

  /** Applying twice in a row is applying once: the first apply empties the code field. */
  lemma ApplyTwiceIsOnce(promo: Promo, s1: int, s2: int)
    ensures ApplyPromo(ApplyPromo(promo, s1), s2) == ApplyPromo(promo, s1)
  {
    assert !PromoAccepted("");
  }

  /**
   * `applyPromoCode` does not look at `promoApplied`: with the code typed again it would
   * recompute the discount from the new subtotal. Only the disabled controls stop this.
   */
  lemma ReapplyRecomputes(promo: Promo, subtotal: int)
    requires promo.promoApplied && PromoAccepted(promo.promoCode)
    ensures ApplyPromo(promo, subtotal).promoDiscount == RoundPercent(subtotal, PromoPercent)
    ensures !InputEnabled(promo) && !ApplyEnabled(promo)
  {
  }

  /** After a successful apply neither the input nor the Apply button is enabled. */
  lemma AppliedDisablesControls(promo: Promo, subtotal: int)
    requires PromoAccepted(promo.promoCode)
    ensures !InputEnabled(ApplyPromo(promo, subtotal)) && !ApplyEnabled(ApplyPromo(promo, subtotal))
  {
  }

  /** With the promo applied on a subtotal of 100 the discount is 20 and the total 80. */
  lemma PromoOnHundred(props: Props, promo: Promo)
    requires PromoAccepted(promo.promoCode) && Figures(props, promo).subtotal == 100
    ensures var applied := ApplyPromo(promo, 100);
            applied.promoDiscount == 20 && Figures(props, applied).total == 80
  {
  }

  /** The card's own state: the promo code field, the applied flag and the stored discount. */
  class SummaryCard {
    var promoCode: string
    var promoApplied: bool
    var promoDiscount: int

    function PromoState(): Promo
      reads this
    {
      Promo(promoCode, promoApplied, promoDiscount)
    }

    constructor ()
      ensures PromoState() == InitialPromo
    {
      promoCode, promoApplied, promoDiscount := "", false, 0;
    }

    /** Typing in the promo field. */
    method SetPromoCode(text: string)
      modifies this
      ensures PromoState() == old(PromoState()).(promoCode := text)
    {
      promoCode := text;
    }

    /** `applyPromoCode()` while the card shows `props`. */
    method ApplyPromoCode(props: Props)
      modifies this
      ensures PromoState() == ApplyPromo(old(PromoState()), Figures(props, old(PromoState())).subtotal)
    {
      var subtotal := Figures(props, PromoState()).subtotal;
      if Text.ToUpper(promoCode) == PromoCode {
        promoApplied := true;
        promoDiscount := RoundPercent(subtotal, PromoPercent);
      }
      promoCode := "";
    }

    /** The total shown for `props`. */
    function Total(props: Props): int
      reads this
    {
      Figures(props, PromoState()).total
    }
  }
}
