/** The pricing page: the same three plans, each with a stated yearly saving
    shown in annual mode. */
module PricingPage {
  import opened Wrappers
  import opened Text
  import opened Pricing

  datatype PagePlan = PagePlan(plan: Plan, savings: string)

  const PagePlans: seq<PagePlan> := [
    PagePlan(Plan("Starter", 29, 24, false), "$60/year"),
    PagePlan(Plan("Professional", 79, 65, true), "$168/year"),
    PagePlan(Plan("Enterprise", 199, 165, false), "$408/year")
  ]

  /** The page lists the home page's plans, in the same order and at the same prices. */
  lemma SamePlansAsHomePage()
    ensures |PagePlans| == |Plans|
    ensures forall i :: 0 <= i < |PagePlans| ==> PagePlans[i].plan == Plans[i]
  {
  }

  /** The dollar amount inside a savings text `$N/year`. */
  function SavingsAmount(savings: string): (amount: string)
    requires |savings| >= 6
  {
    savings[1..|savings| - 5]
  }

  /** Each stated saving has the form `$N/year`, and N read as a decimal number
      is exactly twelve months of the price difference. */
  lemma StatedSavingsExact(i: nat)
    requires i < |PagePlans|
    ensures var p := PagePlans[i];
      |p.savings| >= 7 && p.savings[..1] == "$" && p.savings[|p.savings| - 5..] == "/year" &&
      (forall k :: 0 <= k < |SavingsAmount(p.savings)| ==> '0' <= SavingsAmount(p.savings)[k] <= '9') &&
      DecimalValue(SavingsAmount(p.savings)) == 12 * (p.plan.monthlyPrice - p.plan.annualPrice)
  {
    var p := PagePlans[i];
    var saved := 12 * (p.plan.monthlyPrice - p.plan.annualPrice);
    if i == 0 {
      StarterSavingsText();
    } else if i == 1 {
      ProfessionalSavingsText();
    } else {
      EnterpriseSavingsText();
    }
    AmountInside(Decimal(saved));
    DecimalRoundTrip(saved);
  }

  lemma StarterSavingsText()
    ensures "$60/year" == "$" + Decimal(60) + "/year"
  {
    assert Decimal(60) == "60";
  }

  lemma ProfessionalSavingsText()
    ensures "$168/year" == "$" + Decimal(168) + "/year"
  {
    assert Decimal(16) == "16";
    assert Decimal(168) == "168";
  }

  lemma EnterpriseSavingsText()
    ensures "$408/year" == "$" + Decimal(408) + "/year"
  {
    assert Decimal(40) == "40";
    assert Decimal(408) == "408";
  }

  lemma AmountInside(amount: string)
    ensures |"$" + amount + "/year"| >= 6 && SavingsAmount("$" + amount + "/year") == amount
  {
    var s := "$" + amount + "/year";
    assert s[1..|s| - 5] == amount;
  }

  /** "Billed annually • Save …": rendered only in annual mode. */
  function SavingsLine(p: PagePlan, isAnnual: bool): (line: Option<string>)
    ensures line.Some? <==> isAnnual
    ensures line.Some? ==> line.value == p.savings
  {
    if isAnnual then Some(p.savings) else None
  }

  /** Exactly one plan, the second, is marked popular. */
  lemma ExactlyOnePagePlanPopular()
    ensures forall i :: 0 <= i < |PagePlans| ==> (PagePlans[i].plan.popular <==> i == 1)
  {
  }
}
