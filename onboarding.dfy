/** The onboarding pager (app/onboarding/index.tsx): four pages, bounded
    next and previous moves, and completion or skip both marking
    onboarding done before routing to the KYC screen. */
module Onboarding {

  import opened Common
  import opened AuthState

  /** `onboardingSteps.length`. */
  const StepCount: nat := 4

  class OnboardingScreen {
    var currentStep: int
    /** The screen's own `useAuth()` instance. */
    const auth: Session

    ghost predicate Valid()
      reads this
    {
      0 <= currentStep < StepCount
    }

    constructor(auth: Session)
      ensures Valid() && currentStep == 0 && this.auth == auth
    {
      currentStep := 0;
      this.auth := auth;
    }

    /** Next page, or on the last page the same effect as completion. */
    method HandleNext() returns (r: Option<Route>)
      requires Valid()
      modifies this, auth, auth.store
      ensures Valid()
      ensures old(currentStep) < StepCount - 1 ==>
                currentStep == old(currentStep) + 1 && r.None? && unchanged(auth) && unchanged(auth.store)
      ensures old(currentStep) == StepCount - 1 ==>
                currentStep == old(currentStep) && r == Some(KycRoute) &&
                auth.Current() == old(auth.Current()).(hasCompletedOnboarding := true) &&
                auth.store.entries == Saved(old(auth.store.entries), old(auth.Current()), auth.Current())
    {
      if currentStep < StepCount - 1 {
        currentStep := currentStep + 1;
        r := None;
      } else {
        var route := HandleComplete();
        r := Some(route);
      }
    }

    /** Previous page; nothing happens on the first. */
    method HandlePrevious()
      requires Valid()
      modifies this
      ensures Valid()
      ensures currentStep == if old(currentStep) > 0 then old(currentStep) - 1 else old(currentStep)
    {
      if currentStep > 0 {
        currentStep := currentStep - 1;
      }
    }

    /** Mark onboarding complete and route to the KYC screen. */
    method HandleComplete() returns (r: Route)
      modifies auth, auth.store
      ensures r == KycRoute
      ensures auth.Current() == old(auth.Current()).(hasCompletedOnboarding := true)
      ensures auth.store.entries == Saved(old(auth.store.entries), old(auth.Current()), auth.Current())
    {
      auth.CompleteOnboarding();
      r := KycRoute;
    }

    /** Skip: the same effect as completion, from any page. */
    method HandleSkip() returns (r: Route)
      modifies auth, auth.store
      ensures r == KycRoute
      ensures auth.Current() == old(auth.Current()).(hasCompletedOnboarding := true)
      ensures auth.store.entries == Saved(old(auth.store.entries), old(auth.Current()), auth.Current())
    {
      auth.CompleteOnboarding();
      r := KycRoute;
    }
  }
}
