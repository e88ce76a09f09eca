/** The navigation requests each screen's view makes through its
    `onNavigate` prop, and what they imply for the shell's state. */
module Links {
  import opened Navigation
  import Checkout

  /** The string targets the view of each screen passes to `onNavigate`.
      Login and signup share one view and so one set of targets. */
  function Requests(p: Page): (targets: set<string>)
    ensures forall t :: t in targets ==> Parse(t).Some?
    ensures targets != {}
  {
    match p
    case Landing => {"login", "signup"}
    case Login => {"dashboard", "landing"}
    case Signup => {"dashboard", "landing"}
    case Dashboard => {"booking", "tracking", "tailors"}
    case Booking => {"tailors", "dashboard"}
    case Tailors => {"booking", "payment"}
    case Tracking => {"dashboard"}
    case Payment => {Checkout.PayTarget, Checkout.BackTarget}
  }

  /** `q` is one of the screens `p`'s view can send the user to. */
  predicate LinksTo(p: Page, q: Page)
  {
    Name(q) in Requests(p)
  }

  /** A sequence of screens, each requested by the one before. */
  predicate Walk(w: seq<Page>)
  {
    |w| > 0 && forall i :: 0 <= i < |w| - 1 ==> LinksTo(w[i], w[i + 1])
  }

  /** Every screen can be reached from the landing screen by following links. */
  lemma ReachableFromLanding(p: Page)
    ensures exists w :: Walk(w) && w[0] == Landing && w[|w| - 1] == p
  {
    var w: seq<Page> :=
      match p
      case Landing => [Landing]
      case Login => [Landing, Login]
      case Signup => [Landing, Signup]
      case Dashboard => [Landing, Login, Dashboard]
      case Booking => [Landing, Login, Dashboard, Booking]
      case Tailors => [Landing, Login, Dashboard, Tailors]
      case Tracking => [Landing, Login, Dashboard, Tracking]
      case Payment => [Landing, Login, Dashboard, Tailors, Payment];
    assert Walk(w);
  }

  /** No screen past the entry screens links back to one of them. */
  lemma SignedInClosed(p: Page, q: Page)
    requires p !in EntryPages
    requires LinksTo(p, q)
    ensures q !in EntryPages
  {
  }

  /** Hence a walk that starts past the entry screens never returns to them. */
  lemma {:induction false} NoWayBack(w: seq<Page>)
    requires Walk(w)
    requires w[0] !in EntryPages
    ensures forall i :: 0 <= i < |w| ==> w[i] !in EntryPages
    decreases |w|
  {
    if |w| > 1 {
      SignedInClosed(w[0], w[1]);
      assert Walk(w[1..]) by {
        forall i | 0 <= i < |w[1..]| - 1
          ensures LinksTo(w[1..][i], w[1..][i + 1])
        {
          assert LinksTo(w[i + 1], w[i + 2]);
        }
      }
      NoWayBack(w[1..]);
      forall i | 0 <= i < |w|
        ensures w[i] !in EntryPages
      {
        if i > 0 {
          assert w[i] == w[1..][i - 1];
        }
      }
    }
  }

  /** The events the rendered screens can produce: links of the current view
      and presses of the quick-fix button. */
  predicate Follows(s: NavState, es: seq<Event>)
    decreases |es|
  {
    es == [] ||
    ((es[0].Navigate? ==> LinksTo(s.currentPage, es[0].target)) &&
     Follows(Step(s, es[0]), es[1..]))
  }

  /** Once past the entry screens, following links and the quick-fix button
      never leads back to them, so the button stays visible for good. */
  lemma {:induction false} SignedInStays(s: NavState, es: seq<Event>)
    requires Consistent(s)
    requires s.currentPage !in EntryPages
    requires Follows(s, es)
    ensures Run(s, es).currentPage !in EntryPages
    ensures Run(s, es).showQuickFix
    decreases |es|
  {
    if es != [] {
      if es[0].Navigate? {
        SignedInClosed(s.currentPage, es[0].target);
      }
      StepConsistent(s, es[0]);
      SignedInStays(Step(s, es[0]), es[1..]);
    }
  }
}
