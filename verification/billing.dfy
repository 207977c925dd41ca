/**
 * Subscription state of hooks/use-billing.ts: what `useSubscription`
 * derives from the profile's `subscription_status`. The user lookup and the
 * profile query are inputs; the checkout and portal redirects are not
 * modelled.
 */
module Billing {
  import opened Outcomes

  datatype SubscriptionInfo = SubscriptionInfo(status: Option<string>, isActive: bool, isPro: bool)

  /** The first render: no status, neither active nor pro. */
  const InitialInfo := SubscriptionInfo(None, false, false)

  datatype BillingState = BillingState(subscription: SubscriptionInfo, isLoading: bool)

  const InitialState := BillingState(InitialInfo, true)

  /** What `supabase.auth.getUser()` settles to: no user, a user, or a rejection. */
  datatype UserLookup = SignedOut | SignedIn | LookupThrew

  /** The statuses that count as a live subscription. */
  predicate IsLiveStatus(status: Option<string>) {
    status == Some("active") || status == Some("trialing")
  }

  /** `profile?.subscription_status || null`, and both flags from it. */
  function Derive(subscriptionStatus: Option<string>): (info: SubscriptionInfo)
    ensures info.status.Some? <==> Present(subscriptionStatus)
    ensures info.status.Some? ==> info.status == subscriptionStatus
    ensures info.isActive <==> subscriptionStatus == Some("active") || subscriptionStatus == Some("trialing")
    ensures info.isPro == info.isActive
  {
    var status := if Present(subscriptionStatus) then subscriptionStatus else None;
    SubscriptionInfo(status, IsLiveStatus(status), IsLiveStatus(status))
  }

  /**
   * `loadSubscription`: without a signed-in user only loading ends; with
   * one, the subscription is derived from the profile's status (absent
   * when there is no profile row). The function has no `try`, so a
   * rejected user lookup escapes before any state is set.
   */
  function LoadSubscription(s: BillingState, user: UserLookup, subscriptionStatus: Option<string>): (r: BillingState)
    ensures user.LookupThrew? ==> r == s
    ensures !user.LookupThrew? ==> !r.isLoading
    ensures user.SignedOut? ==> r.subscription == s.subscription
    ensures user.SignedIn? ==> r.subscription == Derive(subscriptionStatus)
  {
    match user
    case LookupThrew => s
    case SignedOut => s.(isLoading := false)
    case SignedIn => BillingState(Derive(subscriptionStatus), false)
  }

  /** Without a user the state stays { null, false, false }; a missing or empty status is inactive. */
  lemma NoUserOrStatusIsInactive(status: Option<string>)
    requires !Present(status)
    ensures LoadSubscription(InitialState, SignedOut, status) == InitialState.(isLoading := false)
    ensures Derive(status) == InitialInfo
  {
  }

  /** From the first render, loading ends exactly when the user lookup settles without rejecting. */
  lemma LoadingEndsIffLookupSettles(user: UserLookup, status: Option<string>)
    ensures LoadSubscription(InitialState, user, status).isLoading <==> user.LookupThrew?
  {
  }
}
