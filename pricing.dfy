/**
 * The pricing page (components/Pricing.js): the price a plan card shows for
 * the billing cycle, when the discount is shown, choosing a plan, and the
 * billing-cycle switch. The plan table is a parameter here: the page imports
 * `PRICING_PLANS`, which constants.js does not define.
 */
module Pricing {
  import opened Wrappers
  import opened Browser

  /** A text per language code; a missing language reads as `undefined` (`None`). */
  type Localized = map<string, string>

  /** The pricing of a plan for one billing cycle. */
  datatype CyclePricing = CyclePricing(price: Localized, period: Localized, originalPrice: Option<Localized>)

  /** A pricing plan: its id, name, pricing per billing cycle, and whether it is highlighted. */
  datatype Plan = Plan(id: string, name: Localized, cycles: map<string, CyclePricing>, isPopular: bool)

  const Monthly := "monthly"
  const Yearly := "yearly"

  /**
   * `plan[billingCycle] || plan.monthly`: the cycle's pricing, else the monthly
   * one; `None` when the plan has neither, where the card would throw.
   */
  function CurrentPricing(plan: Plan, billingCycle: string): (r: Option<CyclePricing>)
    ensures billingCycle in plan.cycles ==> r == Some(plan.cycles[billingCycle])
    ensures billingCycle !in plan.cycles && Monthly in plan.cycles ==> r == Some(plan.cycles[Monthly])
    ensures r.None? <==> billingCycle !in plan.cycles && Monthly !in plan.cycles
  {
    if billingCycle in plan.cycles then Some(plan.cycles[billingCycle])
    else if Monthly in plan.cycles then Some(plan.cycles[Monthly])
    else None
  }

  /** The limited-time offer applies to the pro plan billed monthly. */
  predicate ShowsDiscount(plan: Plan, billingCycle: string) {
    plan.id == "pro" && billingCycle == Monthly
  }

  /** What a plan card shows. */
  datatype Card = Card(
    name: Option<string>,
    price: Option<string>,
    period: Option<string>,
    popularBadge: bool,
    offerBadge: bool,
    originalPrice: Option<string>)

  /**
   * `PlanCard`: the name and the current pricing in the page language, with the
   * offer badge and the struck-through original price only for the discount.
   * `None` where rendering would throw: no pricing at all, or a discount
   * without an original price.
   */
  function PlanCard(plan: Plan, billingCycle: string, language: string): (r: Option<Card>)
    ensures r.None? <==>
      CurrentPricing(plan, billingCycle).None?
      || (ShowsDiscount(plan, billingCycle) && CurrentPricing(plan, billingCycle).value.originalPrice.None?)
    ensures r.Some? ==>
      var p := CurrentPricing(plan, billingCycle).value;
      && r.value.name == Lookup(plan.name, language)
      && r.value.price == Lookup(p.price, language)
      && r.value.period == Lookup(p.period, language)
      && r.value.popularBadge == plan.isPopular
      && (r.value.offerBadge <==> ShowsDiscount(plan, billingCycle))
      && (r.value.originalPrice.Some? ==> r.value.offerBadge)
      && (r.value.offerBadge ==> r.value.originalPrice == Lookup(p.originalPrice.value, language))
  {
    match CurrentPricing(plan, billingCycle)
    case None => None
    case Some(p) =>
      var discount := ShowsDiscount(plan, billingCycle);
      if discount && p.originalPrice.None? then None
      else
        Some(Card(Lookup(plan.name, language), Lookup(p.price, language), Lookup(p.period, language),
          plan.isPopular, discount, if discount then Lookup(p.originalPrice.value, language) else None))
  }

  /** A plan without pricing for the chosen cycle is shown at its monthly price. */
  lemma MissingCycleShowsMonthly(plan: Plan, billingCycle: string, language: string)
    requires billingCycle !in plan.cycles && Monthly in plan.cycles
    requires !ShowsDiscount(plan, billingCycle)
    ensures PlanCard(plan, billingCycle, language).Some?
    ensures PlanCard(plan, billingCycle, language).value.price == Lookup(plan.cycles[Monthly].price, language)
  {
  }

  /** The yearly view never shows the offer, for any plan. */
  lemma NoOfferWhenYearly(plan: Plan, language: string)
    requires PlanCard(plan, Yearly, language).Some?
    ensures !PlanCard(plan, Yearly, language).value.offerBadge
    ensures PlanCard(plan, Yearly, language).value.originalPrice.None?
  {
  }

  /** The plan handed to the payment dialog. */
  datatype SelectedPlan = SelectedPlan(id: string, name: Localized, pricing: CyclePricing)

  /** The billing switch: monthly becomes yearly, and anything else becomes monthly. */
  function ToggleCycle(billingCycle: string): (r: string)
    ensures r == Yearly <==> billingCycle == Monthly
    ensures r == Monthly || r == Yearly
  {
    if billingCycle == Monthly then Yearly else Monthly
  }

  /** The pricing page's state. */
  class Page {
    var billingCycle: string
    var isModalOpen: bool
    var selectedPlan: Option<SelectedPlan>

    /** The first render: monthly billing, no dialog, no plan. */
    constructor ()
      ensures billingCycle == Monthly && !isModalOpen && selectedPlan.None?
    {
      billingCycle := Monthly;
      isModalOpen := false;
      selectedPlan := None;
    }

    /**
     * `handleChoosePlan`: the free plan changes nothing; any other plan is
     * selected under the id `<plan id>_<cycle>` with the cycle's own pricing
     * and opens the payment dialog. Unlike the card, this reads the cycle's
     * pricing with no monthly fallback, so a plan without it throws
     * (`thrown`) and nothing changes.
     */
    method ChoosePlan(plan: Plan) returns (thrown: bool)
      modifies this
      ensures billingCycle == old(billingCycle)
      ensures thrown <==> plan.id != "free" && billingCycle !in plan.cycles
      ensures plan.id == "free" || thrown ==> isModalOpen == old(isModalOpen) && selectedPlan == old(selectedPlan)
      ensures plan.id != "free" && !thrown ==>
        && isModalOpen
        && selectedPlan == Some(SelectedPlan(plan.id + "_" + billingCycle, plan.name, plan.cycles[billingCycle]))
    {
      if plan.id == "free" {
        return false;
      }
      if billingCycle !in plan.cycles {
        return true;
      }
      selectedPlan := Some(SelectedPlan(plan.id + "_" + billingCycle, plan.name, plan.cycles[billingCycle]));
      isModalOpen := true;
      thrown := false;
    }

    /** The billing switch. */
    method ToggleBillingCycle()
      modifies this
      ensures billingCycle == ToggleCycle(old(billingCycle))
      ensures isModalOpen == old(isModalOpen) && selectedPlan == old(selectedPlan)
    {
      billingCycle := ToggleCycle(billingCycle);
    }

    /** Closing the payment dialog keeps the selected plan. */
    method CloseModal()
      modifies this
      ensures !isModalOpen
      ensures billingCycle == old(billingCycle) && selectedPlan == old(selectedPlan)
    {
      isModalOpen := false;
    }
  }

  /** The selected id names the plan and the cycle: it splits back at the last `_` when the cycle has none. */
  lemma SelectedIdNamesPlanAndCycle(planId: string, cycle: string)
    requires cycle == Monthly || cycle == Yearly
    ensures var id := planId + "_" + cycle;
      && id[..|planId|] == planId
      && id[|planId|] == '_'
      && id[|planId| + 1..] == cycle
      && (forall k | |planId| < k < |id| :: id[k] != '_')
  {
    var id := planId + "_" + cycle;
    assert id[|planId| + 1..] == cycle;
  }
}
