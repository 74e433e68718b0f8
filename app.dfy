/**
 * The application shell: which screen is shown for the signed-in user, the
 * loading flag and the onboarding step, the callbacks that move the step
 * along, and the dashboard's page switch.
 */
module App {
  import opened Wrappers

  datatype OnboardingStep = SplashStep | InfographicsStep | AuthStep | ProfileSetupStep | DashboardStep

  datatype AuthView = LoginView | SignUpView

  datatype Page = HomePage | BookingsPage | ChatsPage | CalendarPage | ProfilePage | SettingsPage | NotificationsPage

  datatype Screen =
    | LoadingScreen
    | SplashScreen
    | InfographicsScreen
    | LoginScreen
    | SignUpScreen
    | ProfileSetupScreen
    | DashboardScreen(page: Page)

  const PageKeys: seq<string> := ["home", "bookings", "chats", "calendar", "profile", "settings", "notifications"]

  /** `renderPage`: the page for a navigation key; any key it does not know shows the home page. */
  function RenderPage(key: string): (p: Page)
    ensures key !in PageKeys ==> p == HomePage
    ensures p == HomePage <==> key == "home" || key !in PageKeys
  {
    match key
    case "home" => HomePage
    case "bookings" => BookingsPage
    case "chats" => ChatsPage
    case "calendar" => CalendarPage
    case "profile" => ProfilePage
    case "settings" => SettingsPage
    case "notifications" => NotificationsPage
    case _ => HomePage
  }

  /** Each key names its own page: two known keys show the same page only when they are the same key. */
  lemma RenderPageInjective(a: string, b: string)
    requires a in PageKeys && b in PageKeys && RenderPage(a) == RenderPage(b)
    ensures a == b
  {
  }

  /**
   * What `AppContent` renders. Signed out, the splash, carousel and auth steps
   * show their screens; a signed-in user who has not completed onboarding and
   * is not on the dashboard step sees the set-up wizard; everything else
   * falls through to the dashboard.
   */
  function Render(signedIn: bool, loading: bool, step: OnboardingStep, view: AuthView,
                  completed: bool, currentPage: string): Screen
  {
    if loading then LoadingScreen
    else if !signedIn && step == SplashStep then SplashScreen
    else if !signedIn && step == InfographicsStep then InfographicsScreen
    else if !signedIn && step == AuthStep then (if view == LoginView then LoginScreen else SignUpScreen)
    else if signedIn && !completed && step != DashboardStep then ProfileSetupScreen
    else DashboardScreen(RenderPage(currentPage))
  }

  /** The dashboard is shown exactly when nothing is loading and no earlier screen applies. */
  lemma DashboardWhen(signedIn: bool, loading: bool, step: OnboardingStep, view: AuthView,
                      completed: bool, currentPage: string)
    ensures Render(signedIn, loading, step, view, completed, currentPage).DashboardScreen? <==>
      !loading
      && (signedIn ==> completed || step == DashboardStep)
      && (!signedIn ==> step == ProfileSetupStep || step == DashboardStep)
  {
  }

  /** The login and sign-up forms are only ever shown to a signed-out visitor on the auth step. */
  lemma AuthFormsOnlySignedOut(signedIn: bool, loading: bool, step: OnboardingStep, view: AuthView,
                               completed: bool, currentPage: string)
    ensures var s := Render(signedIn, loading, step, view, completed, currentPage);
      (s == LoginScreen || s == SignUpScreen) <==> !loading && !signedIn && step == AuthStep
  {
  }

  /** The shell's state. */
  class AppContent {
    var onboardingStep: OnboardingStep
    var authView: AuthView
    var showTerms: bool
    var showPrivacy: bool
    var onboardingCompleted: bool
    var currentPage: string

    constructor()
      ensures onboardingStep == SplashStep && authView == LoginView && !showTerms && !showPrivacy
      ensures !onboardingCompleted && currentPage == "home"
    {
      onboardingStep := SplashStep;
      authView := LoginView;
      showTerms := false;
      showPrivacy := false;
      onboardingCompleted := false;
      currentPage := "home";
    }

    function Screen(signedIn: bool, loading: bool): Screen
      reads this
    {
      Render(signedIn, loading, onboardingStep, authView, onboardingCompleted, currentPage)
    }

    /**
     * `checkOnboardingStatus`, run once loading has finished: a signed-in
     * user is taken as onboarded and sent to the dashboard.
     */
    method StatusChecked(user: Option<string>, loading: bool)
      modifies this
      ensures !loading && user.Some? ==> onboardingCompleted && onboardingStep == DashboardStep
      ensures !(!loading && user.Some?) ==>
        onboardingCompleted == old(onboardingCompleted) && onboardingStep == old(onboardingStep)
      ensures authView == old(authView) && currentPage == old(currentPage)
      ensures showTerms == old(showTerms) && showPrivacy == old(showPrivacy)
      ensures !loading && user.Some? ==> Screen(true, false).DashboardScreen?
    {
      if !loading && user.Some? {
        onboardingCompleted := true;
        onboardingStep := DashboardStep;
      }
    }

    /** The splash screen's `onComplete`. */
    method SplashComplete()
      modifies this
      ensures onboardingStep == InfographicsStep
      ensures authView == old(authView) && onboardingCompleted == old(onboardingCompleted)
      ensures currentPage == old(currentPage) && showTerms == old(showTerms) && showPrivacy == old(showPrivacy)
    {
      onboardingStep := InfographicsStep;
    }

    /** The carousel's `onComplete` and `onSkip` both lead to the auth step. */
    method InfographicsDone()
      modifies this
      ensures onboardingStep == AuthStep
      ensures authView == old(authView) && onboardingCompleted == old(onboardingCompleted)
      ensures currentPage == old(currentPage) && showTerms == old(showTerms) && showPrivacy == old(showPrivacy)
    {
      onboardingStep := AuthStep;
    }

    method ShowSignUp()
      modifies this
      ensures authView == SignUpView && onboardingStep == old(onboardingStep)
      ensures onboardingCompleted == old(onboardingCompleted) && currentPage == old(currentPage)
      ensures showTerms == old(showTerms) && showPrivacy == old(showPrivacy)
    {
      authView := SignUpView;
    }

    method ShowLogin()
      modifies this
      ensures authView == LoginView && onboardingStep == old(onboardingStep)
      ensures onboardingCompleted == old(onboardingCompleted) && currentPage == old(currentPage)
      ensures showTerms == old(showTerms) && showPrivacy == old(showPrivacy)
    {
      authView := LoginView;
    }

    method SetTermsOpen(open: bool)
      modifies this
      ensures showTerms == open && showPrivacy == old(showPrivacy)
      ensures onboardingStep == old(onboardingStep) && authView == old(authView)
      ensures onboardingCompleted == old(onboardingCompleted) && currentPage == old(currentPage)
    {
      showTerms := open;
    }

    method SetPrivacyOpen(open: bool)
      modifies this
      ensures showPrivacy == open && showTerms == old(showTerms)
      ensures onboardingStep == old(onboardingStep) && authView == old(authView)
      ensures onboardingCompleted == old(onboardingCompleted) && currentPage == old(currentPage)
    {
      showPrivacy := open;
    }

    /** Either auth form's `onSuccess`: on to the profile set-up step. */
    method AuthSuccess()
      modifies this
      ensures onboardingStep == ProfileSetupStep
      ensures authView == old(authView) && onboardingCompleted == old(onboardingCompleted)
      ensures currentPage == old(currentPage) && showTerms == old(showTerms) && showPrivacy == old(showPrivacy)
      ensures !onboardingCompleted ==> Screen(true, false) == ProfileSetupScreen
    {
      onboardingStep := ProfileSetupStep;
    }

    /** The set-up wizard's `onComplete`: onboarding is done and the dashboard shows. */
    method ProfileSetupComplete()
      modifies this
      ensures onboardingCompleted && onboardingStep == DashboardStep
      ensures authView == old(authView) && currentPage == old(currentPage)
      ensures showTerms == old(showTerms) && showPrivacy == old(showPrivacy)
      ensures forall signedIn: bool :: Screen(signedIn, false) == DashboardScreen(RenderPage(currentPage))
    {
      onboardingCompleted := true;
      onboardingStep := DashboardStep;
    }

    /** The dashboard layout's `onPageChange`. */
    method ChangePage(key: string)
      modifies this
      ensures currentPage == key
      ensures onboardingStep == old(onboardingStep) && authView == old(authView)
      ensures onboardingCompleted == old(onboardingCompleted)
      ensures showTerms == old(showTerms) && showPrivacy == old(showPrivacy)
    {
      currentPage := key;
    }
  }
}
