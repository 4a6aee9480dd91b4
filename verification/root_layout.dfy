/**
 * The root layout's gate (app/_layout.tsx): a loading view while the onboarding
 * store loads, then a redirect that keeps users who have not finished onboarding
 * inside the onboarding screens and the others out of them.
 */
module RootLayout {
  import opened KeyValue

  /** The two places the rule can send the user. */
  datatype Route = OnboardingWelcome | Tabs

  /** What the root renders. */
  datatype RootView = LoadingView | NavigatorStack

  const OnboardingGroup: string := "(onboarding)"
  const TabsGroup: string := "(tabs)"

  /** The path handed to the router for a route. */
  function RoutePath(r: Route): string
  {
    match r
    case OnboardingWelcome => "/(onboarding)/welcome"
    case Tabs => "/(tabs)"
  }

  /** The path a segment list spells: each segment behind a slash. */
  function PathOf(segments: seq<string>): string
  {
    if segments == [] then "" else "/" + segments[0] + PathOf(segments[1..])
  }

  /** The route segments the router reports once it has moved to a route. */
  function RouteSegments(r: Route): seq<string>
  {
    match r
    case OnboardingWelcome => [OnboardingGroup, "welcome"]
    case Tabs => [TabsGroup]
  }

  /** The current screen lies in the onboarding group; an empty segment list does not. */
  predicate InOnboarding(segments: seq<string>)
  {
    |segments| > 0 && segments[0] == OnboardingGroup
  }

  /** Onboarding counts as complete only for a loaded `true`; the initial `null` counts as not complete. */
  predicate IsComplete(isOnboardingComplete: Option<bool>)
  {
    isOnboardingComplete == Some(true)
  }

  /** The redirect the layout's effect issues, if any. */
  function Redirect(isLoading: bool, isOnboardingComplete: Option<bool>, segments: seq<string>): (r: Option<Route>)
    ensures isLoading ==> r == None
    ensures r == Some(OnboardingWelcome) <==> !isLoading && !IsComplete(isOnboardingComplete) && !InOnboarding(segments)
    ensures r == Some(Tabs) <==> !isLoading && IsComplete(isOnboardingComplete) && InOnboarding(segments)
    ensures r == None <==> isLoading || IsComplete(isOnboardingComplete) != InOnboarding(segments)
  {
    if isLoading then None
    else
      var inOnboarding := InOnboarding(segments);
      if !IsComplete(isOnboardingComplete) && !inOnboarding then Some(OnboardingWelcome)
      else if IsComplete(isOnboardingComplete) && inOnboarding then Some(Tabs)
      else None
  }

  /** The root shows the loading view exactly while loading; while loading, `Redirect` returns `None`. */
  function View(isLoading: bool): (v: RootView)
    ensures v == LoadingView <==> isLoading
  {
    if isLoading then LoadingView else NavigatorStack
  }

  /** The path the redirect pushes is the one its segments spell, so the segments after moving are `RouteSegments`. */
  lemma PathMatchesSegments(r: Route)
    ensures RoutePath(r) == PathOf(RouteSegments(r))
  {
    var segments := RouteSegments(r);
    assert PathOf(segments[|segments|..]) == "";
    if r == OnboardingWelcome {
      assert PathOf(segments[1..]) == "/welcome";
    }
  }

  /** Following a redirect lands where the rule is satisfied: it asks for no further redirect. */
  lemma RedirectSettles(isLoading: bool, isOnboardingComplete: Option<bool>, segments: seq<string>)
    requires Redirect(isLoading, isOnboardingComplete, segments).Some?
    ensures Redirect(isLoading, isOnboardingComplete, RouteSegments(Redirect(isLoading, isOnboardingComplete, segments).value)) == None
  {
  }

  /** A redirect always moves the user across the group boundary, to the side that matches the flag. */
  lemma RedirectMatchesFlag(isOnboardingComplete: Option<bool>, segments: seq<string>)
    requires Redirect(false, isOnboardingComplete, segments).Some?
    ensures InOnboarding(RouteSegments(Redirect(false, isOnboardingComplete, segments).value)) == !IsComplete(isOnboardingComplete)
    ensures InOnboarding(segments) == IsComplete(isOnboardingComplete)
  {
  }
}
