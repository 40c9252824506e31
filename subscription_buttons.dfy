/** Which action buttons the settings page shows for a subscription row. */
module SubscriptionButtons {
  import opened Subscriptions

  predicate IsActiveSubscription(sub: Subscription) {
    sub.status == Active
  }

  predicate ShowUpgradeButton(sub: Subscription) {
    IsActiveSubscription(sub) && sub.plan != Annual
  }

  predicate ShowCancelButton(sub: Subscription) {
    IsActiveSubscription(sub)
  }

  /** The upgrade button's label. */
  function UpgradeLabel(sub: Subscription): (text: string)
    ensures text == "Upgrade to Paid Plan" <==> sub.plan == Free
    ensures text == "Upgrade to Annual Plan" <==> sub.plan != Free
  {
    if sub.plan == Free then "Upgrade to Paid Plan" else "Upgrade to Annual Plan"
  }

  /** Cancel shows exactly for active rows, upgrade for active rows not on the
      annual plan, and so upgrade never shows without cancel; canceled and
      past-due rows show neither. */
  lemma ButtonVisibility(sub: Subscription)
    ensures ShowCancelButton(sub) <==> sub.status == Active
    ensures ShowUpgradeButton(sub) <==> sub.status == Active && sub.plan in {Free, Monthly}
    ensures ShowUpgradeButton(sub) ==> ShowCancelButton(sub)
    ensures sub.status != Active ==> !ShowUpgradeButton(sub) && !ShowCancelButton(sub)
  {
  }
}
