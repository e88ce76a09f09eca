/** The screen navigator of the application shell (src/App.tsx): the current
    screen, the visibility of the floating quick-fix button, the two handlers
    that change them, and the switch that selects the view to draw. */
module Navigation {
  import opened Wrappers

  /** The closed set of eight screens. */
  datatype Page = Landing | Login | Signup | Dashboard | Booking | Tailors | Tracking | Payment

  /** The string literal by which each screen travels through `onNavigate`. */
  function Name(p: Page): string
  {
    match p
    case Landing => "landing"
    case Login => "login"
    case Signup => "signup"
    case Dashboard => "dashboard"
    case Booking => "booking"
    case Tailors => "tailors"
    case Tracking => "tracking"
    case Payment => "payment"
  }

  /** The screen a run-time string names, if it names one. */
  function Parse(s: string): (r: Option<Page>)
    ensures r.Some? ==> Name(r.value) == s
    ensures forall p :: Name(p) == s ==> r == Some(p)
  {
    if s == "landing" then Some(Landing)
    else if s == "login" then Some(Login)
    else if s == "signup" then Some(Signup)
    else if s == "dashboard" then Some(Dashboard)
    else if s == "booking" then Some(Booking)
    else if s == "tailors" then Some(Tailors)
    else if s == "tracking" then Some(Tracking)
    else if s == "payment" then Some(Payment)
    else None
  }

  /** The screens on which the quick-fix button is hidden. */
  const EntryPages: set<Page> := {Landing, Login, Signup}

  /** The flag `handleNavigate` computes from the requested string. */
  function QuickFixFlag(page: string): (show: bool)
    ensures show <==> Parse(page) !in {Some(Landing), Some(Login), Some(Signup)}
  {
    page != "landing" && page != "login" && page != "signup"
  }

  /** The two state fields of the shell. */
  datatype NavState = NavState(currentPage: Page, showQuickFix: bool)

  /** The state on first render. */
  const Initial: NavState := NavState(Landing, false)

  /** The state `handleNavigate` leaves behind; it has no prior state to consult. */
  function Navigated(p: Page): (s: NavState)
    ensures s.currentPage == p
    ensures s.showQuickFix <==> p !in EntryPages
  {
    NavState(p, QuickFixFlag(Name(p)))
  }

  /** The state `handleQuickFix` leaves behind: booking, flag untouched. */
  function QuickFixed(s: NavState): (t: NavState)
    ensures t.currentPage == Booking
    ensures t.showQuickFix == s.showQuickFix
  {
    s.(currentPage := Booking)
  }

  /** The weak invariant: the button is never shown on an entry screen. */
  predicate Safe(s: NavState)
  {
    s.showQuickFix ==> s.currentPage !in EntryPages
  }

  /** The strong invariant: the button is shown exactly off the entry screens. */
  predicate Consistent(s: NavState)
  {
    s.showQuickFix == (s.currentPage !in EntryPages)
  }

  /** What the user can do to the shell: any navigation request, or a press
      of the quick-fix button. */
  datatype Event = Navigate(target: Page) | PressQuickFix

  /** One event. The button is only rendered while the flag is set, so a
      press while it is hidden cannot happen and changes nothing. */
  function Step(s: NavState, e: Event): (t: NavState)
    ensures e.Navigate? ==> t.currentPage == e.target && (t.showQuickFix <==> e.target !in EntryPages)
    ensures e.PressQuickFix? ==> t.showQuickFix == s.showQuickFix
    ensures e.PressQuickFix? ==> t.currentPage == (if s.showQuickFix then Booking else s.currentPage)
  {
    match e
    case Navigate(p) => Navigated(p)
    case PressQuickFix => if s.showQuickFix then QuickFixed(s) else s
  }

  /** A sequence of events, in order. */
  function Run(s: NavState, es: seq<Event>): NavState
    decreases |es|
  {
    if es == [] then s else Run(Step(s, es[0]), es[1..])
  }

  lemma InitialConsistent()
    ensures Initial.currentPage == Landing && !Initial.showQuickFix
    ensures Consistent(Initial)
  {
  }

  /** Navigating twice to a screen is the same as navigating once, from any state. */
  lemma NavigateIdempotent(s: NavState, p: Page)
    ensures Step(Step(s, Navigate(p)), Navigate(p)) == Step(s, Navigate(p))
    ensures Step(s, Navigate(p)) == Navigated(p)
  {
  }

  lemma NavigatedConsistent(p: Page)
    ensures Consistent(Navigated(p))
  {
  }

  /** The raw quick-fix handler keeps the weak invariant from any state, but not
      the strong one: called while the button is hidden it would leave the
      button hidden on booking. */
  lemma QuickFixedSafe(s: NavState)
    ensures Safe(s) ==> Safe(QuickFixed(s))
    ensures Consistent(s) && s.showQuickFix ==> Consistent(QuickFixed(s))
    ensures !Consistent(QuickFixed(Initial))
  {
  }

  lemma StepConsistent(s: NavState, e: Event)
    requires Consistent(s)
    ensures Consistent(Step(s, e))
  {
  }

  /** Every state reachable by user events satisfies the strong invariant. */
  lemma {:induction false} RunConsistent(s: NavState, es: seq<Event>)
    requires Consistent(s)
    ensures Consistent(Run(s, es))
    decreases |es|
  {
    if es != [] {
      StepConsistent(s, es[0]);
      RunConsistent(Step(s, es[0]), es[1..]);
    }
  }

  lemma {:induction false} ReachableConsistent(es: seq<Event>)
    ensures Consistent(Run(Initial, es))
    ensures Safe(Run(Initial, es))
  {
    RunConsistent(Initial, es);
  }

  /** The mode prop the authentication view receives. */
  datatype AuthMode = LoginMode | SignupMode

  /** The view `renderPage` returns, with the props that distinguish views. */
  datatype View =
    | LandingView
    | AuthView(mode: AuthMode)
    | DashboardView
    | BookingView
    | TailorProfileView
    | TrackingView
    | PaymentView

  /** The screen a view belongs to: every screen has its own view. */
  function PageOf(v: View): Page
  {
    match v
    case LandingView => Landing
    case AuthView(LoginMode) => Login
    case AuthView(SignupMode) => Signup
    case DashboardView => Dashboard
    case BookingView => Booking
    case TailorProfileView => Tailors
    case TrackingView => Tracking
    case PaymentView => Payment
  }

  /** `renderPage`: a switch on the run-time value of the current page, with
      the landing view as the fallback for any other string. */
  function Render(current: string): (v: View)
    ensures Parse(current) == Some(PageOf(v)) || (Parse(current) == None && v == LandingView)
  {
    if current == "landing" then LandingView
    else if current == "login" then AuthView(LoginMode)
    else if current == "signup" then AuthView(SignupMode)
    else if current == "dashboard" then DashboardView
    else if current == "booking" then BookingView
    else if current == "tailors" then TailorProfileView
    else if current == "tracking" then TrackingView
    else if current == "payment" then PaymentView
    else LandingView
  }

  /** Each screen selects its own view, and distinct screens distinct views. */
  lemma RenderSeparates(p: Page, q: Page)
    ensures PageOf(Render(Name(p))) == p
    ensures p != q ==> Render(Name(p)) != Render(Name(q))
  {
  }

  /** Login and signup share the authentication view and differ in its mode. */
  lemma AuthScreensShareView()
    ensures Render("login") == AuthView(LoginMode)
    ensures Render("signup") == AuthView(SignupMode)
  {
  }

  /** The shell component: its two state fields, updated in place. */
  class Navigator {
    var currentPage: Page
    var showQuickFix: bool

    function State(): NavState
      reads this
    {
      NavState(currentPage, showQuickFix)
    }

    ghost predicate Valid()
      reads this
    {
      Consistent(State())
    }

    constructor ()
      ensures State() == Initial
      ensures Valid()
    {
      currentPage := Landing;
      showQuickFix := false;
    }

    /** `handleNavigate`. */
    method HandleNavigate(p: Page)
      modifies this
      ensures State() == Navigated(p)
      ensures Valid()
    {
      currentPage := p;
      showQuickFix := QuickFixFlag(Name(p));
    }

    /** `handleQuickFix`, callable on its own: it keeps the weak invariant. */
    method HandleQuickFix()
      modifies this
      ensures State() == QuickFixed(old(State()))
      ensures old(Safe(State())) ==> Safe(State())
      ensures old(Valid()) && old(showQuickFix) ==> Valid()
    {
      currentPage := Booking;
    }

    /** A press of the floating button, which exists only while the flag is set. */
    method PressQuickFixButton()
      requires Valid()
      modifies this
      ensures State() == Step(old(State()), PressQuickFix)
      ensures Valid()
    {
      if showQuickFix {
        HandleQuickFix();
      }
    }

    /** The view drawn for the current state. */
    function CurrentView(): (v: View)
      reads this
      ensures PageOf(v) == currentPage
      ensures v.AuthView? <==> currentPage == Login || currentPage == Signup
    {
      Render(Name(currentPage))
    }
  }
}
