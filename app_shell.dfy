/** The application shell (src/frontend/src/App.tsx): which top-level view is
    mounted, and when the profile-setup dialog is laid over it. */
module AppShell {
  import opened Wrappers
  import opened Backend
  import UrlParams
  import Queries

  /** The signed-in identity, as far as the shell looks at it. */
  datatype Identity = Identity(principal: Principal, isAnonymous: bool)

  /** `!!identity && !identity.getPrincipal().isAnonymous()`. */
  predicate IsAuthenticated(identity: Option<Identity>) {
    identity.Some? && !identity.value.isAnonymous
  }

  /** The profile hook's `data`: `None` while undefined, `Some(None)` when the
      backend answered null, `Some(Some(p))` for a profile. */
  type ProfileData = Option<Option<UserProfile>>

  /** `showProfileSetup`: only when signed in, not loading, fetched, and the
      profile is exactly null (not merely undefined). */
  predicate ShowProfileSetup(isAuthenticated: bool, profileLoading: bool, isFetched: bool, userProfile: ProfileData) {
    isAuthenticated && !profileLoading && isFetched && userProfile == Some(None)
  }

  datatype View = PublicCard | Initializing | SignIn | MainLayout(profileSetup: bool)

  /** The shell's decision chain: a public card route first, whatever the
      identity; then initialization; then sign-in; then the main layout. */
  function SelectView(pathname: string, isInitializing: bool, identity: Option<Identity>,
                      profileLoading: bool, isFetched: bool, userProfile: ProfileData): (v: View)
    ensures v.PublicCard? <==> UrlParams.IsPublicCardRoute(pathname)
    ensures v.Initializing? <==> !UrlParams.IsPublicCardRoute(pathname) && isInitializing
    ensures v.SignIn? <==> !UrlParams.IsPublicCardRoute(pathname) && !isInitializing && !IsAuthenticated(identity)
    ensures v.MainLayout? <==> !UrlParams.IsPublicCardRoute(pathname) && !isInitializing && IsAuthenticated(identity)
    ensures v.MainLayout? ==> (v.profileSetup <==> !profileLoading && isFetched && userProfile == Some(None))
  {
    var authenticated := IsAuthenticated(identity);
    if UrlParams.IsPublicCardRoute(pathname) then PublicCard
    else if isInitializing then Initializing
    else if !authenticated then SignIn
    else MainLayout(ShowProfileSetup(authenticated, profileLoading, isFetched, userProfile))
  }

  /** The profile-setup dialog is never shown over anything but the main
      layout: not on a public card, not while initializing, not when signed out. */
  lemma ProfileSetupOnlyInMainLayout(pathname: string, isInitializing: bool, identity: Option<Identity>,
                                     profileLoading: bool, isFetched: bool, userProfile: ProfileData)
    ensures var v := SelectView(pathname, isInitializing, identity, profileLoading, isFetched, userProfile);
            (v.MainLayout? && v.profileSetup) ==> ShowProfileSetup(IsAuthenticated(identity), profileLoading, isFetched, userProfile)
    ensures ShowProfileSetup(IsAuthenticated(identity), profileLoading, isFetched, userProfile)
            && !UrlParams.IsPublicCardRoute(pathname) && !isInitializing
            ==> SelectView(pathname, isInitializing, identity, profileLoading, isFetched, userProfile) == MainLayout(true)
  {
  }

  /** Fed by the profile hook, the dialog needs an actor that has finished
      loading: without an actor `isFetched` is false, and while the actor is
      being fetched `isLoading` is true. */
  lemma ProfileSetupNeedsActor(isAuthenticated: bool, actorAvailable: bool, actorFetching: bool,
                               queryLoading: bool, queryFetched: bool, userProfile: ProfileData)
    ensures var s := Queries.ProfileHookStatus(actorAvailable, actorFetching, queryLoading, queryFetched);
            ShowProfileSetup(isAuthenticated, s.isLoading, s.isFetched, userProfile)
            ==> actorAvailable && !actorFetching && queryFetched && userProfile == Some(None)
  {
  }

  /** An anonymous identity is treated like no identity at all. */
  lemma AnonymousIsSignedOut(pathname: string, p: Principal, profileLoading: bool, isFetched: bool, userProfile: ProfileData)
    requires !UrlParams.IsPublicCardRoute(pathname)
    ensures SelectView(pathname, false, Some(Identity(p, true)), profileLoading, isFetched, userProfile) == SignIn
  {
  }
}
