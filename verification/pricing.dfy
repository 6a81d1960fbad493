/** The pricing cards on the home page: three plans, a monthly/annual switch,
    and the per-month price and yearly total each card shows. */
module Pricing {
  import opened Wrappers

  datatype Plan = Plan(name: string, monthlyPrice: nat, annualPrice: nat, popular: bool)

  const Plans: seq<Plan> := [
    Plan("Starter", 29, 24, false),
    Plan("Professional", 79, 65, true),
    Plan("Enterprise", 199, 165, false)
  ]

  /** `isAnnual ? plan.annualPrice : plan.monthlyPrice`, the big per-month figure. */
  function DisplayedPrice(p: Plan, isAnnual: bool): (price: nat)
    ensures price == p.annualPrice || price == p.monthlyPrice
    ensures isAnnual ==> price == p.annualPrice
    ensures !isAnnual ==> price == p.monthlyPrice
  {
    if isAnnual then p.annualPrice else p.monthlyPrice
  }

  /** The "Billed annually ($N/year)" line: it is rendered only in annual mode,
      where the displayed price times twelve is always the annual price times twelve. */
  function YearlyTotal(p: Plan, isAnnual: bool): (total: Option<nat>)
    ensures total.Some? <==> isAnnual
    ensures total.Some? ==> total.value == 12 * p.annualPrice
  {
    if isAnnual then Some(DisplayedPrice(p, isAnnual) * 12) else None
  }

  /** Every plan is cheaper per month when billed annually. */
  lemma AnnualBelowMonthly(i: nat)
    requires i < |Plans|
    ensures DisplayedPrice(Plans[i], true) < DisplayedPrice(Plans[i], false)
  {
  }

  /** The "Save 20%" badge overstates the discount: every plan saves at least
      17 and less than 18 percent of its monthly price. */
  lemma AnnualDiscountBelowBadge(i: nat)
    requires i < |Plans|
    ensures 17 * Plans[i].monthlyPrice <= 100 * (Plans[i].monthlyPrice - Plans[i].annualPrice)
    ensures 100 * (Plans[i].monthlyPrice - Plans[i].annualPrice) < 18 * Plans[i].monthlyPrice
  {
  }

  /** Only the Professional plan carries the "Most Popular" ribbon. */
  lemma ExactlyOnePopular()
    ensures forall i :: 0 <= i < |Plans| ==> (Plans[i].popular <==> Plans[i].name == "Professional")
  {
  }

  /** The `isAnnual` switch. Both buttons set it outright, so pressing one of
      them again changes nothing. */
  class BillingToggle {
    var isAnnual: bool

    constructor()
      ensures isAnnual
    {
      isAnnual := true;
    }

    method ChooseMonthly()
      modifies this
      ensures !isAnnual
    {
      isAnnual := false;
    }

    method ChooseAnnual()
      modifies this
      ensures isAnnual
    {
      isAnnual := true;
    }
  }
}
