/** The start-up screen (app/index.tsx): once the root navigator has a key,
    it replaces itself with the first screen whose stage is unfinished. */
module RootRouting {

  import opened Common
  import opened AuthState

  /** The route `checkAuthState` replaces the index screen with, or None
      while the root navigation state has no key. */
  function InitialRoute(navigationReady: bool, f: Flags): (r: Option<Route>)
    ensures r.None? <==> !navigationReady
    ensures r == Some(AuthRoute) <==> navigationReady && !f.isAuthenticated
    ensures r == Some(OnboardingRoute) <==> navigationReady && f.isAuthenticated && !f.hasCompletedOnboarding
    ensures r == Some(KycRoute) <==> navigationReady && f.isAuthenticated && f.hasCompletedOnboarding && !f.hasCompletedKYC
    ensures r == Some(TabsRoute) <==> navigationReady && f.isAuthenticated && f.hasCompletedOnboarding && f.hasCompletedKYC
  {
    if !navigationReady then None
    else if !f.isAuthenticated then Some(AuthRoute)
    else if !f.hasCompletedOnboarding then Some(OnboardingRoute)
    else if !f.hasCompletedKYC then Some(KycRoute)
    else Some(TabsRoute)
  }

  /** The stages in their fixed order of priority. */
  function Stages(f: Flags): seq<bool>
  {
    [f.isAuthenticated, f.hasCompletedOnboarding, f.hasCompletedKYC]
  }

  /** The screen of each stage, followed by the main tabs. */
  const StageRoutes: seq<Route> := [AuthRoute, OnboardingRoute, KycRoute, TabsRoute]

  /** The number of leading finished stages: the index of the first
      unfinished one, or the length when all are finished. */
  function FinishedPrefix(done: seq<bool>): (n: nat)
    ensures n <= |done|
    ensures forall i :: 0 <= i < n ==> done[i]
    ensures n < |done| ==> !done[n]
  {
    if |done| == 0 || !done[0] then 0 else 1 + FinishedPrefix(done[1..])
  }

  /** Reference reading of the priority chain: the chosen screen is the one
      of the first unfinished stage. */
  lemma {:induction false} RouteIsFirstUnfinishedStage(f: Flags)
    ensures InitialRoute(true, f) == Some(StageRoutes[FinishedPrefix(Stages(f))])
  {
    var s := Stages(f);
    assert s[0] == f.isAuthenticated && s[1] == f.hasCompletedOnboarding && s[2] == f.hasCompletedKYC;
  }

  /** Finishing a stage never moves the start-up route backwards. */
  lemma {:induction false} RouteMonotone(f: Flags, g: Flags)
    requires f.isAuthenticated ==> g.isAuthenticated
    requires f.hasCompletedOnboarding ==> g.hasCompletedOnboarding
    requires f.hasCompletedKYC ==> g.hasCompletedKYC
    ensures FinishedPrefix(Stages(f)) <= FinishedPrefix(Stages(g))
  {
    var s, t := Stages(f), Stages(g);
    assert forall i :: 0 <= i < 3 ==> (s[i] ==> t[i]);
  }
}
