# StitchUp: navigator and checkout, modelled in Dafny

StitchUp is the client side of a clothing-repair booking app. Nearly all of it is static markup. This project models the two parts that hold logic, and proves properties of them:

- **The screen navigator** (`navigation.dfy`, module `Navigation`, from `src/App.tsx`). The shell keeps two fields: the current screen, one of eight, and whether the floating quick-fix button is shown.
  - `handleNavigate` moves to any screen. It shows the button on every screen except landing, login and signup.
  - `handleQuickFix` jumps to booking and leaves the flag as it is.
  - `renderPage` is a switch on the current page's run-time string, with the landing view as its fallback.

  The class `Navigator` holds the two fields. Its methods are proved against the pure transition functions `Navigated` and `QuickFixed`. The lemmas are about those functions and about `Run`, which applies any sequence of user events.
- **The checkout screen** (`checkout.dfy`, module `Checkout`, from `src/pages/PaymentPage.tsx`). The order is fixed: base price 150, urgency charge 100, taxes 25. The code `first50`, compared after lower-casing, takes 50 off the total. The class `CheckoutPage` holds the selected payment method, the typed promo code and the applied flag.
- **Page links** (`links.dfy`, module `Links`). This is the set of `onNavigate` targets each screen's view can request:
  - landing: `src/pages/LandingPage.tsx:71,74,102,241`
  - authentication: `src/pages/AuthPage.tsx:20,166,193`
  - dashboard: `src/pages/Dashboard.tsx:17,24,31,194,216`
  - booking: `src/pages/BookingPage.tsx:47,56`
  - tailor profile: `src/pages/TailorProfile.tsx:64,160`
  - tracking: `src/pages/TrackingPage.tsx:66`
  - payment: `src/pages/PaymentPage.tsx:45,54`

  The model proves that every target names a real screen and that every screen can be reached from landing. It also proves that no screen after the entry screens links back to one of them. So once the user reaches the dashboard, links and the quick-fix button keep the button visible for the rest of the session.

`CheckoutPage.Valid` is kept by every method of `CheckoutPage`. `Navigator.Valid` is kept by `HandleNavigate` and `PressQuickFixButton`. `HandleQuickFix` on its own keeps only the weak invariant `Safe` (see below). Both strong invariants are also proved for every state reachable from the initial state (`RunConsistent`, `RunKeepsInvariant`).

The optional-value type `Option` lives in its own small module, `Wrappers` (`wrappers.dfy`).

Two points where the model states the source's behaviour more precisely than a plain reading would:

- `handleApplyPromo` returns nothing in the source, so `ApplyPromo` has no return value either. Success shows only in `promoApplied`.
- Calling `handleQuickFix` by itself only keeps the weak invariant (`showQuickFix ⇒` not an entry screen). The strong invariant (`showQuickFix ⇔` not an entry screen) holds because the button is only rendered while the flag is set (`src/App.tsx:52`). `PressQuickFixButton` and `Step` model that guard, and `QuickFixedSafe` shows that without the guard the strong invariant would fail.

## Model

| member | source | states |
|---|---|---|
| `Navigation.Parse` | src/App.tsx:11 | a string parses to a screen exactly when it is that screen's literal name |
| `Navigation.QuickFixFlag` | src/App.tsx:19 | the flag computed from a requested string is false exactly for the names of landing, login and signup |
| `Navigation.Navigated` | src/App.tsx:17-20 | after navigating to `p` the page is `p` and the flag is set exactly when `p` is not an entry screen; the result depends on `p` alone |
| `Navigation.QuickFixed` | src/App.tsx:22-24 | the state `handleQuickFix` leaves: page booking, flag as it was |
| `Navigation.Step` | src/App.tsx:17-52 | a navigation event moves to its target and sets the flag exactly off the entry screens; a press keeps the flag and moves to booking only while the button is shown |
| `Navigation.InitialConsistent` | src/App.tsx:14-15 | the first state is landing with the button hidden, and it satisfies the strong invariant |
| `Navigation.NavigateIdempotent` | src/App.tsx:17-20 | navigating twice to a screen equals navigating once, from any prior state |
| `Navigation.NavigatedConsistent` | src/App.tsx:19 | navigation always leaves the flag consistent with the page |
| `Navigation.QuickFixedSafe` | src/App.tsx:22-24 | quick fix keeps the weak invariant from any state and the strong one when the button is shown, and breaks the strong one if invoked while hidden |
| `Navigation.StepConsistent` | src/App.tsx:17-52 | every user event (navigation, or a press of the rendered button) preserves the strong invariant |
| `Navigation.RunConsistent` | src/App.tsx:17-52 | any sequence of user events preserves the strong invariant |
| `Navigation.ReachableConsistent` | src/App.tsx:14-52 | every state reachable from the first render satisfies both invariants |
| `Navigation.Render` | src/App.tsx:26-47 | a known page name selects the view belonging to that page; any other string selects the landing view |
| `Navigation.RenderSeparates` | src/App.tsx:27-43 | each screen selects its own view, and distinct screens select distinct views |
| `Navigation.AuthScreensShareView` | src/App.tsx:30-33 | login and signup both select the authentication view, with mode login and signup respectively |
| `Navigation.Navigator.constructor` | src/App.tsx:14-15 | the shell starts on landing with the button hidden, satisfying its invariant |
| `Navigation.Navigator.HandleNavigate` | src/App.tsx:17-20 | the new state is `Navigated(p)` whatever the old state, and the invariant holds |
| `Navigation.Navigator.HandleQuickFix` | src/App.tsx:22-24 | the page becomes booking, the flag is unchanged, and the weak invariant is kept |
| `Navigation.Navigator.PressQuickFixButton` | src/App.tsx:52 | a press acts only while the button is shown, and keeps the strong invariant |
| `Navigation.Navigator.CurrentView` | src/App.tsx:51 | the drawn view belongs to the current page, and is the authentication view exactly on login and signup |
| `Checkout.Discount` | src/pages/PaymentPage.tsx:29 | the discount is nonzero exactly when the promo is applied, and never reaches the subtotal |
| `Checkout.Total` | src/pages/PaymentPage.tsx:23-36 | the total is 275 without the promo and 225 with it, and always positive |
| `Checkout.DiscountIsSaving` | src/pages/PaymentPage.tsx:29 | the discount equals what the promo saves on the total: 50 when applied, 0 otherwise |
| `Checkout.PromoSavesDiscount` | src/pages/PaymentPage.tsx:29-36 | applying the promo lowers the total by exactly the 50 discount |
| `Checkout.TotalMonotone` | src/pages/PaymentPage.tsx:29-36 | moving from not applied to applied never raises the total, and lowers it by exactly 50 when the flag changes |
| `Checkout.LowerCharInverse` | src/pages/PaymentPage.tsx:39 | the characters that lower-case to a non-upper-case `d` are `d` and its upper-case partner |
| `Checkout.Lower` | src/pages/PaymentPage.tsx:39 | lower-casing keeps the length and lower-cases each character in place |
| `Checkout.PromoMatches` | src/pages/PaymentPage.tsx:39 | a code matches exactly when it has the length of `first50` and each of its characters lower-cases to the corresponding character |
| `Checkout.PromoMatchesExactly` | src/pages/PaymentPage.tsx:39 | a code matches exactly when it spells `first50` with each letter in either case |
| `Checkout.PromoCaseInsensitive` | src/pages/PaymentPage.tsx:38-42 | `first50`, `FIRST50` and `First50` match; `OTHER`, the empty code and a padded code do not |
| `Checkout.DetailsPanel` | src/pages/PaymentPage.tsx:114-181 | a details panel is shown exactly when the selected method is one of the three offered ids, and the panel shown belongs to that id, so the three ids show three different panels |
| `Checkout.Selected` | src/pages/PaymentPage.tsx:94 | selecting sets the method to the given id and leaves code and flag unchanged |
| `Checkout.Edited` | src/pages/PaymentPage.tsx:195-197 | typing replaces the code unless the promo is applied, and touches nothing else |
| `Checkout.PromoTried` | src/pages/PaymentPage.tsx:38-42 | applying sets the flag exactly when it was set or the code matches, and leaves method and code unchanged |
| `Checkout.PromoTriedIdempotent` | src/pages/PaymentPage.tsx:38-42 | a non-matching code changes nothing, an applied promo is never undone or changed, and applying twice equals applying once |
| `Checkout.InitialInvariant` | src/pages/PaymentPage.tsx:13-15 | the first state (card, empty code, not applied) satisfies the invariant and owes 275 |
| `Checkout.RunKeepsInvariant` | src/pages/PaymentPage.tsx:13-201 | under any events the screen can produce, the method stays one of card, upi, netbanking (so a details panel is shown) and an applied promo always belongs to a matching code |
| `Checkout.RunKeepsPromo` | src/pages/PaymentPage.tsx:195-201 | once applied, the promo stays applied, the code stays frozen and the total stays 225 under any events of the same visit to the checkout screen |
| `Checkout.CheckoutPage.constructor` | src/pages/PaymentPage.tsx:13-15 | the screen starts with method card, an empty code and no promo |
| `Checkout.CheckoutPage.SelectMethod` | src/pages/PaymentPage.tsx:94 | selecting an offered id changes only the method, and keeps the invariant |
| `Checkout.CheckoutPage.SetCode` | src/pages/PaymentPage.tsx:196 | the new state is `Edited` of the old one: the code is frozen once the promo is applied |
| `Checkout.CheckoutPage.ApplyPromo` | src/pages/PaymentPage.tsx:38-42 | the new state is `PromoTried` of the old one; the flag never goes from true to false |
| `Checkout.CheckoutPage.AmountDue` | src/pages/PaymentPage.tsx:32-36 | the displayed total is 225 exactly when the promo is applied, and 275 otherwise |
| `Checkout.CheckoutPage.HandlePayment` | src/pages/PaymentPage.tsx:44-46 | Pay requests the tracking screen, whatever the promo or method state |
| `Checkout.CheckoutPage.HandleBack` | src/pages/PaymentPage.tsx:54 | Back requests the tailor profile screen, whatever the state |
| `Links.Requests` | src/pages/Dashboard.tsx:17-31 | every target any screen's view passes to `onNavigate` names one of the eight screens (the targets are those at the page lines listed above; the dashboard's are cited here) |
| `Links.ReachableFromLanding` | src/pages/LandingPage.tsx:71-74 | every screen can be reached from landing by a walk of requested links |
| `Links.SignedInClosed` | src/pages/Dashboard.tsx:17-31 | no screen past landing, login and signup links back to one of them |
| `Links.NoWayBack` | src/pages/TrackingPage.tsx:66 | a walk of links that starts past the entry screens never visits one; it rests on the links of all five non-entry screens, listed above |
| `Links.SignedInStays` | src/App.tsx:17-24 | from a state past the entry screens, following links and the quick-fix button keeps the page past them and the button shown; it rests on the links of all five non-entry screens, listed above |

## Left out

- JSX, Tailwind classes, framer-motion animations and icons are presentation only. So are the styling components under `src/components`.
- The image upload in `src/pages/BookingPage.tsx` is asynchronous browser I/O. It is not modelled.
- The literal data arrays of the landing, dashboard, tailor, tracking and booking screens hold no derived logic. Their prices are display strings that never reach the total.
- The authentication form's fields and its login/signup toggle do not affect the shell's state. Only the navigation targets of that view are modelled (in `Links.Requests`).
- The card, UPI and bank inputs on the checkout screen are never read. The order's service and tailor names are display-only.
- Navigation.Navigator.HandleNavigate: takes a `Page`, not an arbitrary string. The source's unchecked `page as Page` cast is not modelled. `Render` still takes the run-time string, so its fallback branch is covered.
- Checkout.Lower: models ASCII lower-casing, not full Unicode `toLowerCase`. For the literal `first50` the two agree on whether a code matches, because only the ASCII letters of that word lower-case to its characters.
- Checkout.CheckoutPage.constructor: models one mount of the checkout screen. Leaving it by Pay, Back or the quick-fix button unmounts it (`src/App.tsx:42-43`), and the next visit starts again from the initial state. Runs of `Checkout.Step` therefore describe a single visit. The `Navigation` and `Checkout` state machines are not composed into one.
- Checkout.CheckoutPage.SetCode: the source's input is disabled once the promo is applied, so no change event arrives. The model makes a change event in that state a no-op.
