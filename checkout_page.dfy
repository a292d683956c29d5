/**
 * The checkout page (app/checkout/page.tsx): the plan chosen from the
 * `plan` query parameter, what a click on the checkout button does with
 * the API's answer, and when the button is disabled.
 */
module CheckoutPage {
  import opened Wrappers
  import opened Text

  datatype PagePlan = PagePlan(id: string, name: string, priceCents: nat)

  /** The `plans` list (lines 12-46), prices in cents. */
  const Plans: seq<PagePlan> := [
    PagePlan("free", "Free Trial", 0),
    PagePlan("economy", "Economy", 799),
    PagePlan("pro", "Pro", 2500),
    PagePlan("master", "Master", 5500)]

  /** `plans.find(p => p.id === id)` */
  function FindPlan(plans: seq<PagePlan>, id: string): (r: Option<PagePlan>)
    ensures r.Some? ==> r.value in plans && r.value.id == id
    ensures r.None? <==> forall i :: 0 <= i < |plans| ==> plans[i].id != id
  {
    if plans == [] then None
    else if plans[0].id == id then Some(plans[0])
    else FindPlan(plans[1..], id)
  }

  /** The ids of the page's plans. */
  function PlanIds(): set<string> {
    set i | 0 <= i < |Plans| :: Plans[i].id
  }

  /** The page offers exactly the four plans free, economy, pro and master. */
  lemma PlanIdsAre()
    ensures PlanIds() == {"free", "economy", "pro", "master"}
  {
    var expected: set<string> := {"free", "economy", "pro", "master"};
    forall id | id in PlanIds() ensures id in expected {
      var i :| 0 <= i < |Plans| && Plans[i].id == id;
      assert i == 0 || i == 1 || i == 2 || i == 3;
    }
    assert Plans[0].id in PlanIds() && Plans[1].id in PlanIds();
    assert Plans[2].id in PlanIds() && Plans[3].id in PlanIds();
  }

  /** The effect of lines 55-63: a known `plan` parameter is selected, anything else gives "pro". */
  function SelectPlan(param: Option<string>): (id: string)
    ensures FindPlan(Plans, id).Some?
    ensures Truthy(param) && param.value in PlanIds() ==> id == param.value
    ensures !(Truthy(param) && param.value in PlanIds()) ==> id == "pro"
  {
    if Truthy(param) && FindPlan(Plans, param.value).Some? then param.value else "pro"
  }

  /** What `fetch("/api/checkout")` gave: a JSON body, or a thrown error. */
  datatype FetchResult = Answered(error: Option<string>, url: Option<string>) | FetchFailed

  /** The page state a click leaves behind (`loading` is false again by then). */
  datatype Click =
    | Ignored                                                       // no plan selected: nothing happens
    | Sent(planId: string, error: Option<string>, navigateTo: Option<string>)

  const FetchFailedMessage := "Failed to initialize checkout. Please try again."

  /** `handleCheckout` (lines 67-98). */
  function HandleCheckout(selectedPlanId: Option<string>, result: FetchResult): (c: Click)
    ensures c.Ignored? <==> selectedPlanId.None? || FindPlan(Plans, selectedPlanId.value).None?
    ensures c.Sent? ==> c.planId == selectedPlanId.value
    ensures c.Sent? ==> !(c.error.Some? && c.navigateTo.Some?)
    ensures c.Sent? && result.Answered? && Truthy(result.error) ==> c.error == result.error && c.navigateTo.None?
    ensures c.Sent? && result.Answered? && !Truthy(result.error) ==>
      c.error.None? && c.navigateTo == (if Truthy(result.url) then result.url else None)
    ensures c.Sent? && result.FetchFailed? ==> c.error == Some(FetchFailedMessage) && c.navigateTo.None?
  {
    if selectedPlanId.None? then Ignored
    else match FindPlan(Plans, selectedPlanId.value)
      case None => Ignored
      case Some(plan) =>
        match result
        case FetchFailed => Sent(plan.id, Some(FetchFailedMessage), None)
        case Answered(error, url) =>
          if Truthy(error) then Sent(plan.id, error, None)
          else if Truthy(url) then Sent(plan.id, None, url)
          else Sent(plan.id, None, None)
  }

  /** `disabled={loading || selectedPlan.price === 0}` */
  predicate ButtonDisabled(loading: bool, plan: PagePlan) {
    loading || plan.priceCents == 0
  }

  /** The free plan's button is always disabled; a paid plan's only while loading. */
  lemma ButtonRule(loading: bool, id: string)
    requires FindPlan(Plans, id).Some?
    ensures ButtonDisabled(loading, FindPlan(Plans, id).value) <==> loading || id == "free"
  {
  }

  /** The pricing page links `plan=starter`, which is not a plan here: it selects "pro". */
  lemma StarterLinkFallsBackToPro()
    ensures SelectPlan(Some("starter")) == "pro"
  {
  }
}
