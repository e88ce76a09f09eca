/** The checkout screen (src/pages/PaymentPage.tsx): a fixed order priced
    from three constants, a promo code that unlocks a fixed discount, and
    the choice of payment method. */
module Checkout {
  import opened Wrappers
  import Navigation

  const BasePrice: int := 150
  const UrgencyCharge: int := 100
  const Taxes: int := 25
  const PromoDiscount: int := 50

  /** The one code that unlocks the discount, compared after lower-casing. */
  const PromoCode: string := "first50"

  /** The ids of the offered payment methods, in display order. */
  const PaymentMethodIds: seq<string> := ["card", "upi", "netbanking"]

  /** Where Pay and Back send the user. */
  const PayTarget: string := "tracking"
  const BackTarget: string := "tailors"

  /** The order's discount line. */
  function Discount(applied: bool): (d: int)
    ensures d != 0 <==> applied
    ensures 0 <= d < BasePrice + UrgencyCharge + Taxes
  {
    if applied then PromoDiscount else 0
  }

  /** The amount due: base price, urgency charge and taxes, less the discount. */
  function Total(applied: bool): (t: int)
    ensures t == (if applied then 225 else 275)
    ensures t > 0
  {
    BasePrice + UrgencyCharge + Taxes - Discount(applied)
  }

  /** The discount line is the saving the promo makes on the total: 50 when
      applied, 0 otherwise. */
  lemma DiscountIsSaving(applied: bool)
    ensures Discount(applied) == Total(false) - Total(applied)
    ensures Discount(applied) == (if applied then 50 else 0)
  {
  }

  /** Applying the promo takes exactly the discount off the total. */
  lemma PromoSavesDiscount()
    ensures Total(true) == Total(false) - PromoDiscount
  {
  }

  /** A state with the promo applied never owes more than one without. */
  lemma TotalMonotone(before: bool, after: bool)
    requires before ==> after
    ensures Total(after) <= Total(before)
    ensures Total(after) == Total(before) - (if after && !before then PromoDiscount else 0)
  {
  }

  /** ASCII lower-casing of one character. */
  function LowerChar(c: char): char
  {
    if 'A' <= c <= 'Z' then (c as int + 32) as char else c
  }

  /** The upper-case partner of a lower-case ASCII letter; other characters are their own. */
  function UpperChar(c: char): char
  {
    if 'a' <= c <= 'z' then (c as int - 32) as char else c
  }

  /** The characters that lower-case to `d`, for any `d` that is not itself upper-case. */
  lemma LowerCharInverse(c: char, d: char)
    requires !('A' <= d <= 'Z')
    ensures LowerChar(c) == d <==> c == d || c == UpperChar(d)
  {
  }

  /** `toLowerCase`, restricted to ASCII. */
  function Lower(s: string): (r: string)
    ensures |r| == |s|
    ensures forall i :: 0 <= i < |s| ==> r[i] == LowerChar(s[i])
  {
    if s == [] then [] else [LowerChar(s[0])] + Lower(s[1..])
  }

  /** The comparison in `handleApplyPromo`. */
  predicate PromoMatches(code: string)
    ensures PromoMatches(code) <==>
      |code| == |PromoCode| && forall i :: 0 <= i < |code| ==> LowerChar(code[i]) == PromoCode[i]
  {
    Lower(code) == PromoCode
  }

  /** The codes that unlock the discount are exactly the spellings of
      `first50` in which each letter may be upper- or lower-case. */
  lemma PromoMatchesExactly(code: string)
    ensures PromoMatches(code) <==>
      |code| == |PromoCode| &&
      forall i :: 0 <= i < |code| ==> code[i] == PromoCode[i] || code[i] == UpperChar(PromoCode[i])
  {
  }

  /** Upper-case and mixed-case spellings succeed; other codes do not. */
  lemma PromoCaseInsensitive()
    ensures PromoMatches("first50")
    ensures PromoMatches("FIRST50")
    ensures PromoMatches("First50")
    ensures !PromoMatches("OTHER")
    ensures !PromoMatches("")
    ensures !PromoMatches(" first50")
  {
    PromoMatchesExactly("first50");
    PromoMatchesExactly("FIRST50");
    PromoMatchesExactly("First50");
  }

  /** The panel of input fields shown under the chosen method. */
  datatype Panel = CardDetails | UpiDetails | BankSelect

  /** The method id whose panel this is. */
  function MethodOf(panel: Panel): string
  {
    match panel
    case CardDetails => "card"
    case UpiDetails => "upi"
    case BankSelect => "netbanking"
  }

  /** The panel shown under a selected method: each offered id has its own. */
  function DetailsPanel(id: string): (r: Option<Panel>)
    ensures r.Some? <==> id in PaymentMethodIds
    ensures r.Some? ==> MethodOf(r.value) == id
  {
    if id == "card" then Some(CardDetails)
    else if id == "upi" then Some(UpiDetails)
    else if id == "netbanking" then Some(BankSelect)
    else None
  }

  /** The three state fields of the checkout screen. */
  datatype CheckoutState = CheckoutState(selectedMethod: string, promoCode: string, promoApplied: bool)

  /** The state on first render. */
  const Initial: CheckoutState := CheckoutState("card", "", false)

  /** `setSelectedMethod`. */
  function Selected(s: CheckoutState, id: string): (t: CheckoutState)
    ensures t.selectedMethod == id
    ensures t.promoCode == s.promoCode && t.promoApplied == s.promoApplied
  {
    s.(selectedMethod := id)
  }

  /** A keystroke in the promo field; the field is disabled once the promo is applied. */
  function Edited(s: CheckoutState, text: string): (t: CheckoutState)
    ensures t.promoCode == (if s.promoApplied then s.promoCode else text)
    ensures t.selectedMethod == s.selectedMethod && t.promoApplied == s.promoApplied
  {
    if s.promoApplied then s else s.(promoCode := text)
  }

  /** `handleApplyPromo`: sets the flag on a match, otherwise changes nothing. */
  function PromoTried(s: CheckoutState): (t: CheckoutState)
    ensures t.promoApplied <==> s.promoApplied || PromoMatches(s.promoCode)
    ensures t.selectedMethod == s.selectedMethod && t.promoCode == s.promoCode
  {
    if PromoMatches(s.promoCode) then s.(promoApplied := true) else s
  }

  /** A failed attempt leaves the state as it was; once applied, trying again changes nothing. */
  lemma PromoTriedIdempotent(s: CheckoutState)
    ensures !PromoMatches(s.promoCode) ==> PromoTried(s) == s
    ensures s.promoApplied ==> PromoTried(s) == s
    ensures PromoTried(PromoTried(s)) == PromoTried(s)
  {
  }

  /** What the user can do on the checkout screen. */
  datatype Event = SelectMethod(id: string) | EditCode(text: string) | ApplyPromo

  /** The events the rendered screen can produce: methods come from the offered list. */
  predicate Offered(e: Event)
  {
    e.SelectMethod? ==> e.id in PaymentMethodIds
  }

  function Step(s: CheckoutState, e: Event): CheckoutState
  {
    match e
    case SelectMethod(id) => Selected(s, id)
    case EditCode(text) => Edited(s, text)
    case ApplyPromo => PromoTried(s)
  }

  function Run(s: CheckoutState, es: seq<Event>): CheckoutState
    decreases |es|
  {
    if es == [] then s else Run(Step(s, es[0]), es[1..])
  }

  /** The screen's invariant: an offered method is selected, and an applied
      promo belongs to a matching code (which is frozen from then on). */
  predicate Invariant(s: CheckoutState)
  {
    s.selectedMethod in PaymentMethodIds &&
    (s.promoApplied ==> PromoMatches(s.promoCode))
  }

  lemma InitialInvariant()
    ensures Invariant(Initial)
    ensures Total(Initial.promoApplied) == 275
  {
  }

  lemma {:induction false} RunKeepsInvariant(s: CheckoutState, es: seq<Event>)
    requires Invariant(s)
    requires forall i :: 0 <= i < |es| ==> Offered(es[i])
    ensures Invariant(Run(s, es))
    ensures DetailsPanel(Run(s, es).selectedMethod).Some?
    decreases |es|
  {
    if es != [] {
      assert Offered(es[0]);
      RunKeepsInvariant(Step(s, es[0]), es[1..]);
    }
  }

  /** Once applied, the promo stays applied and its code stays as it was, so
      the total stays at the discounted amount. */
  lemma {:induction false} RunKeepsPromo(s: CheckoutState, es: seq<Event>)
    requires s.promoApplied
    ensures Run(s, es).promoApplied
    ensures Run(s, es).promoCode == s.promoCode
    ensures Total(Run(s, es).promoApplied) == 225
    decreases |es|
  {
    if es != [] {
      RunKeepsPromo(Step(s, es[0]), es[1..]);
    }
  }

  /** The checkout screen component: its three state fields, updated in place. */
  class CheckoutPage {
    var selectedMethod: string
    var promoCode: string
    var promoApplied: bool

    function State(): CheckoutState
      reads this
    {
      CheckoutState(selectedMethod, promoCode, promoApplied)
    }

    ghost predicate Valid()
      reads this
    {
      Invariant(State())
    }

    constructor ()
      ensures State() == Initial
      ensures Valid()
    {
      selectedMethod := "card";
      promoCode := "";
      promoApplied := false;
    }

    /** The method buttons only ever pass an id from the offered list. */
    method SelectMethod(id: string)
      requires id in PaymentMethodIds
      requires Valid()
      modifies this
      ensures State() == Selected(old(State()), id)
      ensures Valid()
    {
      selectedMethod := id;
    }

    /** The promo field's `onChange`; ignored while the field is disabled. */
    method SetCode(text: string)
      requires Valid()
      modifies this
      ensures State() == Edited(old(State()), text)
      ensures Valid()
    {
      if !promoApplied {
        promoCode := text;
      }
    }

    /** `handleApplyPromo`. */
    method ApplyPromo()
      requires Valid()
      modifies this
      ensures State() == PromoTried(old(State()))
      ensures old(promoApplied) ==> promoApplied
      ensures Valid()
    {
      if Lower(promoCode) == PromoCode {
        promoApplied := true;
      }
    }

    /** The total shown in the summary and on the Pay button. */
    function AmountDue(): (t: int)
      reads this
      ensures t == 225 || t == 275
      ensures t == 225 <==> promoApplied
    {
      Total(promoApplied)
    }

    /** `handlePayment`: always requests the tracking screen. */
    method HandlePayment() returns (target: string)
      ensures Navigation.Parse(target) == Some(Navigation.Tracking)
    {
      target := PayTarget;
    }

    /** The back arrow: always requests the tailor profile screen. */
    method HandleBack() returns (target: string)
      ensures Navigation.Parse(target) == Some(Navigation.Tailors)
    {
      target := BackTarget;
    }
  }
}
