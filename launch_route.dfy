/** The launch screen's redirect (app/index.tsx): once the provider stops
    loading, a visitor without a session goes to sign-in, a user who has not
    finished onboarding to onboarding, and everyone else to today's tab. */
module LaunchRoute {
  import opened Common
  import opened ProfileTypes
  import opened SessionProvider

  /** The three places `router.replace` is sent to. */
  datatype Route = AuthRoute | OnboardingRoute | TodayRoute

  /** The effect's decision; `None` while loading, when it waits. */
  function Destination(isLoading: bool, session: Option<Session>, profile: Option<Profile>): (r: Option<Route>)
    ensures r.None? <==> isLoading
    ensures r == Some(AuthRoute) <==> !isLoading && session.None?
    ensures r == Some(OnboardingRoute) <==>
      !isLoading && session.Some? && (profile.None? || !profile.value.onboardingComplete)
    ensures r == Some(TodayRoute) <==> !isLoading && session.Some? && profile.Some? && profile.value.onboardingComplete
  {
    if isLoading then None
    else if session.None? then Some(AuthRoute)
    else if profile.None? || !profile.value.onboardingComplete then Some(OnboardingRoute)
    else Some(TodayRoute)
  }

  /** The redirect from the provider's current state. */
  function ProviderDestination(p: Provider): (r: Option<Route>)
    reads p
    ensures r == Destination(p.IsLoading(), p.session, p.profile)
  {
    Destination(p.isSessionLoading || p.isProfileLoading, p.session, p.profile)
  }

  /** A loaded profile leads to today's tab exactly when its stored flag is
      true: a null flag, like false, sends the user to onboarding. */
  lemma StoredFlagDecides(s: Session, row: ProfileRow)
    ensures Destination(false, Some(s), Some(Normalize(row))) == Some(TodayRoute) <==> row.onboardingComplete == Some(true)
    ensures row.onboardingComplete != Some(true) ==> Destination(false, Some(s), Some(Normalize(row))) == Some(OnboardingRoute)
  {
  }

  /** A profile the provider had to create goes through onboarding. */
  lemma CreatedProfileOnboards(s: Session, payload: ProfileInsert, row: ProfileRow)
    requires payload == NewProfilePayload(s.userId, s.email)
    requires row.onboardingComplete == Some(payload.onboardingComplete)
    ensures Destination(false, Some(s), Some(Normalize(row))) == Some(OnboardingRoute)
  {
  }

  /** After sign-out, once the session is loaded, the launch screen sends the
      user to sign-in. */
  method SignedOutGoesToAuth(p: Provider)
    modifies p
    ensures !p.IsLoading() ==> ProviderDestination(p) == Some(AuthRoute)
    ensures p.session.None? && p.profile.None?
  {
    p.AuthStateChanged(None);
  }
}
