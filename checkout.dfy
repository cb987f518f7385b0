/**
 * The checkout wizard: four steps (shipping, payment, review, success), the
 * shipping form, the payment method, the two-second order placement and the
 * totals shown on the review step.
 *
 * The wizard's handlers are modelled twice over: as one transition function
 * `Apply` on a `WizardState` value, about which the properties are proved,
 * and as the `Wizard` class whose methods update the fields one handler at a
 * time and are proved to agree with `Apply`.
 */
module Checkout {
  import opened Types
  import opened Text
  import opened Seqs

  datatype Step = Shipping | Payment | Review | Success

  datatype PaymentMethod = CreditCard | PayPal | Crypto | Nequi | Bancolombia

  /** The identifier the wizard keeps for a payment method. */
  function MethodName(m: PaymentMethod): string
  {
    match m
    case CreditCard => "credit_card"
    case PayPal => "paypal"
    case Crypto => "crypto"
    case Nequi => "nequi"
    case Bancolombia => "bancolombia"
  }

  /** The review step shows the identifier with its first underscore turned into a space. */
  function MethodLabel(m: PaymentMethod): string
  {
    ReplaceFirst(MethodName(m), "_", " ")
  }

  /** Only the card's label changes: "credit card"; the other identifiers have no underscore. */
  lemma MethodLabels(m: PaymentMethod)
    ensures MethodLabel(m) == if m == CreditCard then "credit card" else MethodName(m)
  {
    var s := MethodName(m);
    if m == CreditCard {
      assert OccursAt(s, "_", 6);
      forall j | 0 <= j < 6 ensures !OccursAt(s, "_", j) {
        assert s[j] != '_';
        assert s[j..j + 1][0] == s[j];
      }
      assert s[..6] + " " + s[7..] == "credit card";
    } else {
      forall k | 0 <= k <= |s| ensures !OccursAt(s, "_", k) {
        if k < |s| {
          assert s[k] != '_';
          assert s[k..k + 1][0] == s[k];
        }
      }
    }
  }

  // ---------------------------------------------------------------------------
  // The shipping form

  /** The eight inputs of the shipping form, named like the record's fields. */
  datatype Field = FirstName | LastName | Email | Address | City | Country | Zip | Phone

  function GetField(d: ShippingDetails, f: Field): string
  {
    match f
    case FirstName => d.firstName
    case LastName => d.lastName
    case Email => d.email
    case Address => d.address
    case City => d.city
    case Country => d.country
    case Zip => d.zip
    case Phone => d.phone
  }

  /** `handleInputChange`: `{ ...prev, [name]: value }`. */
  function SetField(d: ShippingDetails, f: Field, v: string): (r: ShippingDetails)
    ensures GetField(r, f) == v
    ensures forall g :: g != f ==> GetField(r, g) == GetField(d, g)
  {
    match f
    case FirstName => d.(firstName := v)
    case LastName => d.(lastName := v)
    case Email => d.(email := v)
    case Address => d.(address := v)
    case City => d.(city := v)
    case Country => d.(country := v)
    case Zip => d.(zip := v)
    case Phone => d.(phone := v)
  }

  /** Two records with the same eight fields are the same record. */
  lemma FieldsDetermine(d: ShippingDetails, e: ShippingDetails)
    requires forall f :: GetField(d, f) == GetField(e, f)
    ensures d == e
  {
    assert GetField(d, FirstName) == GetField(e, FirstName) && GetField(d, LastName) == GetField(e, LastName);
    assert GetField(d, Email) == GetField(e, Email) && GetField(d, Address) == GetField(e, Address);
    assert GetField(d, City) == GetField(e, City) && GetField(d, Country) == GetField(e, Country);
    assert GetField(d, Zip) == GetField(e, Zip) && GetField(d, Phone) == GetField(e, Phone);
  }

  /** Setting a field to the value it already holds changes nothing. */
  lemma SetFieldSame(d: ShippingDetails, f: Field)
    ensures SetField(d, f, GetField(d, f)) == d
  {
    FieldsDetermine(SetField(d, f, GetField(d, f)), d);
  }

  const EmptyShipping: ShippingDetails := ShippingDetails("", "", "", "", "", "", "", "")

  /** `Object.values(shipping)`: the field values in declaration order. */
  function Values(d: ShippingDetails): seq<string>
  {
    [d.firstName, d.lastName, d.email, d.address, d.city, d.country, d.zip, d.phone]
  }

  /** The validation of the shipping submit: every value is non-empty after `trim`. */
  predicate AllFilled(d: ShippingDetails)
  {
    forall i :: 0 <= i < |Values(d)| ==> Trim(Values(d)[i]) != ""
  }

  /** No field of the record is empty or whitespace only. */
  predicate NoBlankField(d: ShippingDetails)
  {
    !AllWhitespace(d.firstName) && !AllWhitespace(d.lastName) && !AllWhitespace(d.email)
    && !AllWhitespace(d.address) && !AllWhitespace(d.city) && !AllWhitespace(d.country)
    && !AllWhitespace(d.zip) && !AllWhitespace(d.phone)
  }

  lemma AllFilledFields(d: ShippingDetails)
    ensures AllFilled(d) <==> NoBlankField(d)
  {
    var vs := Values(d);
    assert vs[0] == d.firstName && vs[1] == d.lastName && vs[2] == d.email && vs[3] == d.address;
    assert vs[4] == d.city && vs[5] == d.country && vs[6] == d.zip && vs[7] == d.phone;
  }

  lemma NoBlankFieldIff(d: ShippingDetails)
    ensures NoBlankField(d) <==> forall f :: !AllWhitespace(GetField(d, f))
  {
    if !NoBlankField(d) {
      assert GetField(d, FirstName) == d.firstName && GetField(d, LastName) == d.lastName;
      assert GetField(d, Email) == d.email && GetField(d, Address) == d.address;
      assert GetField(d, City) == d.city && GetField(d, Country) == d.country;
      assert GetField(d, Zip) == d.zip && GetField(d, Phone) == d.phone;
    }
  }

  /** The form passes exactly when no field is empty or whitespace only. */
  lemma AllFilledIff(d: ShippingDetails)
    ensures AllFilled(d) <==> forall f :: !AllWhitespace(GetField(d, f))
  {
    AllFilledFields(d);
    NoBlankFieldIff(d);
  }

  /** The empty form does not pass. */
  lemma EmptyShippingFails()
    ensures !AllFilled(EmptyShipping)
  {
    AllFilledIff(EmptyShipping);
    assert AllWhitespace(GetField(EmptyShipping, FirstName));
  }

  // ---------------------------------------------------------------------------
  // Totals

  /** Shipping is free. */
  const ShippingCost: int := 0

  /** `subtotal * 0.1`, exactly. */
  function Tax(subtotal: int): (r: real)
    ensures 10.0 * r == subtotal as real
  {
    subtotal as real * 0.1
  }

  /** `subtotal + shippingCost + tax`. */
  function Total(subtotal: int): (r: real)
    ensures r == subtotal as real + Tax(subtotal)
  {
    subtotal as real + ShippingCost as real + Tax(subtotal)
  }

  /**
   * For a cart, the review step's total is eleven tenths of the subtotal, and it
   * is at least the subtotal when no price or quantity is negative.
   */
  lemma TotalsSpec(items: seq<CartItem>)
    ensures 10.0 * Total(Subtotal(items)) == 11.0 * Subtotal(items) as real
    ensures (forall i :: 0 <= i < |items| ==> items[i].product.price >= 0 && items[i].qty >= 0)
      ==> Subtotal(items) >= 0 && Total(Subtotal(items)) >= Subtotal(items) as real
  {
  }

  // ---------------------------------------------------------------------------
  // The progress bar

  /** The order the progress bar looks the step up in. */
  const StepOrder: seq<Step> := [Shipping, Payment, Review, Success]

  /** `currentIdx`: the step's position in the order. */
  function CurrentIndex(s: Step): (r: int)
    ensures 0 <= r < |StepOrder| && StepOrder[r] == s
  {
    assert StepOrder[Rank(s)] == s;
    IndexOf(StepOrder, s)
  }

  /** The bar's three labels: shipping, payment, review. */
  const ProgressLabels: nat := 3

  /** Label `idx`'s circle and caption are drawn in gold. */
  predicate Highlighted(s: Step, idx: nat)
  {
    idx <= CurrentIndex(s)
  }

  /**
   * Label `idx` shows a check mark instead of its number; the connector line
   * that follows it is gold under the same condition.
   */
  predicate Checked(s: Step, idx: nat)
  {
    idx < CurrentIndex(s)
  }

  /** The step's place in the wizard, counted from the shipping step. */
  function Rank(s: Step): nat
  {
    match s
    case Shipping => 0
    case Payment => 1
    case Review => 2
    case Success => 3
  }

  /**
   * The bar highlights the labels up to and including the current step and checks
   * the ones before it: on the shipping step only label 0 is highlighted and none
   * checked, on the review step all three are highlighted and the first two checked.
   */
  lemma ProgressSpec(s: Step, idx: nat)
    requires idx < ProgressLabels
    ensures CurrentIndex(s) == Rank(s)
    ensures Highlighted(s, idx) <==> idx <= Rank(s)
    ensures Checked(s, idx) <==> idx < Rank(s)
    ensures Checked(s, idx) ==> Highlighted(s, idx)
  {
    assert StepOrder[Rank(s)] == s;
  }

  // ---------------------------------------------------------------------------
  // The wizard as a transition system

  /** An order number draw: `Math.floor(Math.random() * 100000)`. */
  type Draw = n: nat | n < 100000

  /**
   * The wizard's state. `pendingOrder` is the shipping record captured by the
   * two-second timer that the place-order button starts: the callback passes the
   * record of the render in which the button was clicked.
   */
  datatype WizardState = WizardState(
    step: Step,
    paymentMethod: PaymentMethod,
    isProcessing: bool,
    orderId: string,
    shipping: ShippingDetails,
    pendingOrder: Option<ShippingDetails>)

  /** The timer is pending exactly while the wizard shows it is processing. */
  predicate Consistent(w: WizardState)
  {
    w.isProcessing <==> w.pendingOrder.Some?
  }

  /** The state when the modal is first rendered. */
  const InitialWizard: WizardState :=
    WizardState(Shipping, CreditCard, false, "", EmptyShipping, None)

  /** What a user, or the timer, can do. `Back` is the back button of the payment or the review step. */
  datatype Action =
    | Input(field: Field, value: string)
    | SubmitShipping
    | ChooseMethod(choice: PaymentMethod)
    | SubmitPayment
    | Back
    | EditShipping
    | EditPayment
    | PlaceOrder
    | OrderDone(draw: Draw)

  /** The control behind the action is on screen and enabled, or the timer is pending. */
  predicate Offered(w: WizardState, a: Action)
  {
    match a
    case Input(_, _) => w.step == Shipping
    case SubmitShipping => w.step == Shipping
    case ChooseMethod(_) => w.step == Payment
    case SubmitPayment => w.step == Payment
    case Back => w.step == Payment || w.step == Review
    case EditShipping => w.step == Review
    case EditPayment => w.step == Review
    case PlaceOrder => w.step == Review && !w.isProcessing
    case OrderDone(_) => w.pendingOrder.Some?
  }

  /** The step the back button of a step leads to. */
  function BackTarget(s: Step): Step
  {
    if s == Review then Payment else Shipping
  }

  /** The handler of an action; an action that is not offered changes nothing. */
  function Apply(w: WizardState, a: Action): WizardState
  {
    if !Offered(w, a) then w
    else
      match a
      case Input(f, v) => w.(shipping := SetField(w.shipping, f, v))
      case SubmitShipping => if AllFilled(w.shipping) then w.(step := Payment) else w
      case ChooseMethod(m) => w.(paymentMethod := m)
      case SubmitPayment => w.(step := Review)
      case Back => w.(step := BackTarget(w.step))
      case EditShipping => w.(step := Shipping)
      case EditPayment => w.(step := Payment)
      case PlaceOrder => w.(isProcessing := true, pendingOrder := Some(w.shipping))
      case OrderDone(n) =>
        w.(isProcessing := false, orderId := NatToDecimal(n), step := Success, pendingOrder := None)
  }

  /** The record an action hands to `onPlaceOrder`, if it places the order. */
  function Placed(w: WizardState, a: Action): Option<ShippingDetails>
  {
    if a.OrderDone? && w.pendingOrder.Some? then w.pendingOrder else None
  }

  /** Every handler keeps the timer and the processing flag in step. */
  lemma ApplyConsistent(w: WizardState, a: Action)
    requires Consistent(w)
    ensures Consistent(Apply(w, a))
  {
  }

  /** The shipping submit advances exactly when every field has a non-blank value, and otherwise changes nothing. */
  lemma ShippingSubmitSpec(w: WizardState)
    requires w.step == Shipping
    ensures Apply(w, SubmitShipping).step == Payment <==> forall f :: !AllWhitespace(GetField(w.shipping, f))
    ensures Apply(w, SubmitShipping).step != Payment ==> Apply(w, SubmitShipping) == w
    ensures Apply(w, SubmitShipping).step == Payment ==> Apply(w, SubmitShipping) == w.(step := Payment)
  {
    AllFilledIff(w.shipping);
  }

  /** The payment submit reaches the review whatever method is chosen. */
  lemma PaymentSubmitSpec(w: WizardState)
    requires w.step == Payment
    ensures Apply(w, SubmitPayment) == w.(step := Review)
  {
  }

  /** An input changes the named field and nothing else. */
  lemma InputSpec(w: WizardState, f: Field, v: string)
    requires w.step == Shipping
    ensures var r := Apply(w, Input(f, v));
      GetField(r.shipping, f) == v
      && (forall g :: g != f ==> GetField(r.shipping, g) == GetField(w.shipping, g))
      && r == w.(shipping := r.shipping)
  {
  }

  /** The forward steps and the back and edit links, and nothing else. */
  predicate Edge(from: Step, to: Step, a: Action)
  {
    (from == Shipping && to == Payment && a == SubmitShipping)
    || (from == Payment && to == Review && a == SubmitPayment)
    || (from != Success && to == Success && a.OrderDone?)
    || (from == Payment && to == Shipping && a == Back)
    || (from == Review && to == Shipping && a == EditShipping)
    || (from == Review && to == Payment && (a == EditPayment || a == Back))
  }

  /**
   * Every change of step is one of the listed edges; in particular success has
   * no way out and the only way into it is the timer.
   */
  lemma StepEdges(w: WizardState, a: Action)
    ensures Apply(w, a).step != w.step ==> Edge(w.step, Apply(w, a).step, a)
    ensures w.step == Success ==> Apply(w, a).step == Success
  {
  }

  /** Each back and edit link exists: payment to shipping, review to shipping, review to payment. */
  lemma BackEdges(w: WizardState)
    ensures w.step == Payment ==> Apply(w, Back).step == Shipping
    ensures w.step == Review ==> Apply(w, EditShipping).step == Shipping
    ensures w.step == Review ==> Apply(w, EditPayment).step == Payment && Apply(w, Back).step == Payment
  {
  }

  /**
   * The place-order button starts processing and captures the shipping record;
   * while processing it is disabled.
   */
  lemma PlaceOrderSpec(w: WizardState)
    requires w.step == Review
    ensures !w.isProcessing ==> Apply(w, PlaceOrder) == w.(isProcessing := true, pendingOrder := Some(w.shipping))
    ensures w.isProcessing ==> Apply(w, PlaceOrder) == w
  {
  }

  /**
   * When the timer fires: success, no longer processing, an order number that is
   * the decimal writing of the draw (at most five digits), and the captured record
   * handed to `onPlaceOrder` once.
   */
  lemma OrderDoneSpec(w: WizardState, n: Draw)
    requires w.pendingOrder.Some?
    ensures var r := Apply(w, OrderDone(n));
      r.step == Success && !r.isProcessing && r.pendingOrder == None
      && (forall i :: 0 <= i < |r.orderId| ==> IsDigit(r.orderId[i]))
      && DecimalValue(r.orderId) == n && 1 <= |r.orderId| <= 5
      && r.shipping == w.shipping && r.paymentMethod == w.paymentMethod
    ensures Placed(w, OrderDone(n)) == w.pendingOrder
  {
    DecimalRoundTrip(n);
    DecimalLength(n, 5, 100000);
  }

  /** The actions in turn. */
  function Run(w: WizardState, acts: seq<Action>): WizardState
    decreases |acts|
  {
    if acts == [] then w else Run(Apply(w, acts[0]), acts[1..])
  }

  /** The records handed to `onPlaceOrder` along a run. */
  function Orders(w: WizardState, acts: seq<Action>): seq<ShippingDetails>
    decreases |acts|
  {
    if acts == [] then []
    else
      var rest := Orders(Apply(w, acts[0]), acts[1..]);
      match Placed(w, acts[0])
      case Some(d) => [d] + rest
      case None => rest
  }

  /** The happy path: the three steps, the button, the timer, with an order for the record entered. */
  lemma CheckoutScenario(w: WizardState, n: Draw)
    requires w.step == Shipping && !w.isProcessing && AllFilled(w.shipping)
    ensures var acts := [SubmitShipping, SubmitPayment, PlaceOrder, OrderDone(n)];
      Run(w, acts).step == Success && Orders(w, acts) == [w.shipping]
  {
    var w1 := Apply(w, SubmitShipping);
    var w2 := Apply(w1, SubmitPayment);
    var w3 := Apply(w2, PlaceOrder);
    var w4 := Apply(w3, OrderDone(n));
    assert w3.pendingOrder == Some(w.shipping) && w4.step == Success;
    var acts := [SubmitShipping, SubmitPayment, PlaceOrder, OrderDone(n)];
    assert acts[1..] == [SubmitPayment, PlaceOrder, OrderDone(n)];
    assert acts[2..] == [PlaceOrder, OrderDone(n)];
    assert acts[3..] == [OrderDone(n)];
    assert Run(w3, acts[3..]) == w4 && Orders(w3, acts[3..]) == [w.shipping] by {
      assert acts[3..][1..] == [];
    }
    assert Run(w2, acts[2..]) == w4 && Orders(w2, acts[2..]) == [w.shipping] by {
      assert acts[2..][1..] == acts[3..];
    }
    assert Run(w1, acts[1..]) == w4 && Orders(w1, acts[1..]) == [w.shipping] by {
      assert acts[1..][1..] == acts[2..];
    }
  }

  /** The success message with the order number put in for the template's `{id}`. */
  function SuccessMessage(template: string, orderId: string): string
  {
    ReplaceFirst(template, "{id}", orderId)
  }

  /**
   * A template whose first `{` opens the `{id}` placeholder shows the order
   * number in its place and the rest of the template unchanged.
   */
  lemma SuccessMessageSpec(before: string, after: string, orderId: string)
    requires '{' !in before
    ensures SuccessMessage(before + "{id}" + after, orderId) == before + orderId + after
  {
    ReplacePlaceholder(before, "{id}", after, orderId);
  }

  // ---------------------------------------------------------------------------
  // Reopening the modal

  /**
   * Closing and reopening the modal as written: the wizard's state lives in the
   * component, which stays mounted while closed, so nothing is reset.
   */
  function ReopenAsWritten(w: WizardState): (r: WizardState)
    ensures r.step == w.step && r.orderId == w.orderId
  {
    w
  }

  /**
   * As written, once an order has been placed the wizard stays on the success
   * screen of that order: reopening it for a new cart shows the old order number,
   * and no sequence of actions places another order.
   */
  lemma {:induction false} SuccessSticksAsWritten(w: WizardState, acts: seq<Action>)
    requires w.step == Success && w.pendingOrder == None
    ensures Run(ReopenAsWritten(w), acts).step == Success
    ensures Run(ReopenAsWritten(w), acts).orderId == w.orderId
    ensures Orders(ReopenAsWritten(w), acts) == []
    decreases |acts|
  {
    if acts != [] {
      var next := Apply(w, acts[0]);
      assert next.step == Success && next.pendingOrder == None && next.orderId == w.orderId;
      SuccessSticksAsWritten(next, acts[1..]);
    }
  }

  /**
   * Reopening as intended: a wizard that has finished starts over at the shipping
   * step with the card selected; the typed shipping record is kept. A wizard
   * still in progress is shown as it was.
   */
  function Reopened(w: WizardState): (r: WizardState)
    ensures w.step == Success ==> r.step == Shipping && r.paymentMethod == CreditCard && r.orderId == ""
    ensures w.step == Success ==> r.shipping == w.shipping && Consistent(r)
    ensures w.step != Success ==> r == w
  {
    if w.step == Success then InitialWizard.(shipping := w.shipping) else w
  }

  /** After reopening a finished wizard a new order can be placed again, for the same record. */
  lemma ReopenPlacesAgain(w: WizardState, n: Draw)
    requires w.step == Success && AllFilled(w.shipping)
    ensures var acts := [SubmitShipping, SubmitPayment, PlaceOrder, OrderDone(n)];
      Run(Reopened(w), acts).step == Success && Orders(Reopened(w), acts) == [w.shipping]
  {
    CheckoutScenario(Reopened(w), n);
  }

  // ---------------------------------------------------------------------------
  // The component

  class Wizard {
    var step: Step
    var paymentMethod: PaymentMethod
    var isProcessing: bool
    var orderId: string
    var shipping: ShippingDetails
    var pendingOrder: Option<ShippingDetails>

    function State(): WizardState
      reads this
    {
      WizardState(step, paymentMethod, isProcessing, orderId, shipping, pendingOrder)
    }

    predicate Valid()
      reads this
    {
      Consistent(State())
    }

    /** The first render: the shipping step, the card selected, an empty form. */
    constructor ()
      ensures Valid()
      ensures State() == InitialWizard
    {
      step, paymentMethod, isProcessing, orderId := Shipping, CreditCard, false, "";
      shipping, pendingOrder := EmptyShipping, None;
    }

    /** `handleInputChange` for the input named `f`. */
    method InputChange(f: Field, v: string)
      requires Valid() && step == Shipping
      modifies this
      ensures Valid()
      ensures State() == Apply(old(State()), Input(f, v))
    {
      shipping := SetField(shipping, f, v);
    }

    /** `handleShippingSubmit`. */
    method ShippingSubmit()
      requires Valid() && step == Shipping
      modifies this
      ensures Valid()
      ensures State() == Apply(old(State()), SubmitShipping)
    {
      if AllFilled(shipping) {
        step := Payment;
      }
    }

    /** A payment method button. */
    method ChoosePaymentMethod(m: PaymentMethod)
      requires Valid() && step == Payment
      modifies this
      ensures Valid()
      ensures State() == Apply(old(State()), ChooseMethod(m))
    {
      paymentMethod := m;
    }

    /** `handlePaymentSubmit`. */
    method PaymentSubmit()
      requires Valid() && step == Payment
      modifies this
      ensures Valid()
      ensures State() == Apply(old(State()), SubmitPayment)
    {
      step := Review;
    }

    /** The back button of the payment step (to shipping) or of the review step (to payment). */
    method GoBack()
      requires Valid() && (step == Payment || step == Review)
      modifies this
      ensures Valid()
      ensures State() == Apply(old(State()), Back)
    {
      if step == Review {
        step := Payment;
      } else {
        step := Shipping;
      }
    }

    /** The review step's edit link of the shipping block. */
    method EditShippingDetails()
      requires Valid() && step == Review
      modifies this
      ensures Valid()
      ensures State() == Apply(old(State()), EditShipping)
    {
      step := Shipping;
    }

    /** The review step's edit link of the payment block. */
    method EditPaymentMethod()
      requires Valid() && step == Review
      modifies this
      ensures Valid()
      ensures State() == Apply(old(State()), EditPayment)
    {
      step := Payment;
    }

    /** `handleFinalOrder`'s click: processing starts and the timer is set with the current record. */
    method FinalOrder()
      requires Valid() && step == Review && !isProcessing
      modifies this
      ensures Valid()
      ensures State() == Apply(old(State()), PlaceOrder)
    {
      isProcessing := true;
      pendingOrder := Some(shipping);
    }

    /** The timer's callback; `placed` is the record passed to `onPlaceOrder`. */
    method FinalOrderDone(n: Draw) returns (placed: ShippingDetails)
      requires Valid() && isProcessing
      modifies this
      ensures Valid()
      ensures State() == Apply(old(State()), OrderDone(n))
      ensures Some(placed) == Placed(old(State()), OrderDone(n))
    {
      placed := pendingOrder.value;
      isProcessing := false;
      orderId := NatToDecimal(n);
      step := Success;
      pendingOrder := None;
    }
  }
}
