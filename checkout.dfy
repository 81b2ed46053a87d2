/** The coconut-oil checkout page (app/dashboard/coconut-oil/checkout/page.tsx):
    the order summary derived from the saved cart, the address form with its
    validation and error clearing, the step from the address to the payment, and
    the order the payment step sends to `POST /api/orders`. */
module Checkout {
  import opened Text
  import opened Models
  import opened Cart
  import OrdersRoute

  // ---------------------------------------------------------------------------
  // The order summary

  datatype SummaryItem = SummaryItem(name: string, quantity: int, price: int)

  datatype OrderSummary = OrderSummary(items: seq<SummaryItem>, subtotal: int, deliveryCharge: int, total: int)

  /** The summary the page starts with, before a cart is loaded. */
  const InitialSummary: OrderSummary := OrderSummary([], 0, 50, 50)

  /** One summary line: `${item.name} - ${item.size}`, the quantity, and the line
      price `item.price * item.quantity`. */
  function SummaryLine(item: CartItem): SummaryItem
  {
    SummaryItem(item.name + " - " + item.size, item.quantity, item.price * item.quantity)
  }

  function SummaryLines(cart: seq<CartItem>): (lines: seq<SummaryItem>)
    ensures |lines| == |cart|
    ensures forall k :: 0 <= k < |cart| ==> lines[k] == SummaryLine(cart[k])
  {
    if cart == [] then [] else [SummaryLine(cart[0])] + SummaryLines(cart[1..])
  }

  /** The summary of a loaded cart: one line per cart line in the cart's order,
      the subtotal of the cart, a delivery charge of 50 and the total. */
  function SummaryOf(cart: seq<CartItem>): (s: OrderSummary)
    ensures s.subtotal == Subtotal(cart) && s.deliveryCharge == 50 && s.total == s.subtotal + 50
    ensures |s.items| == |cart|
    ensures forall k :: 0 <= k < |cart| ==>
      s.items[k].name == cart[k].name + " - " + cart[k].size &&
      s.items[k].quantity == cart[k].quantity && s.items[k].price == cart[k].price * cart[k].quantity
  {
    var subtotal := Subtotal(cart);
    OrderSummary(SummaryLines(cart), subtotal, 50, subtotal + 50)
  }

  /** The sum of the line prices. */
  function LinePriceSum(lines: seq<SummaryItem>): int
  {
    if lines == [] then 0 else lines[0].price + LinePriceSum(lines[1..])
  }

  /** The summary's lines add up to its subtotal, and its total is the cart page's total. */
  lemma {:induction false} SummaryAddsUp(cart: seq<CartItem>)
    ensures LinePriceSum(SummaryOf(cart).items) == SummaryOf(cart).subtotal
    ensures SummaryOf(cart).total == Total(cart)
  {
    if cart != [] {
      SummaryAddsUp(cart[1..]);
      TotalsOfCons(cart);
      assert SummaryOf(cart).items[1..] == SummaryOf(cart[1..]).items;
    }
  }

  /** An empty cart gives the initial summary. */
  lemma EmptyCartSummary()
    ensures SummaryOf([]) == InitialSummary
  {
  }

  // ---------------------------------------------------------------------------
  // The address form

  datatype AddressField = Name | Email | Phone | Address | City | State | Pincode

  /** The seven fields of the form. */
  const AddressFields: set<AddressField> := {Name, Email, Phone, Address, City, State, Pincode}

  datatype FormData = FormData(
    name: string, email: string, phone: string, address: string,
    city: string, state: string, pincode: string)

  const EmptyForm: FormData := FormData("", "", "", "", "", "", "")

  /** `formData[field]`. */
  function Get(d: FormData, f: AddressField): string
  {
    match f
    case Name => d.name
    case Email => d.email
    case Phone => d.phone
    case Address => d.address
    case City => d.city
    case State => d.state
    case Pincode => d.pincode
  }

  /** `{ ...prev, [field]: value }`. */
  function With(d: FormData, f: AddressField, value: string): (r: FormData)
    ensures Get(r, f) == value
    ensures forall g :: g != f ==> Get(r, g) == Get(d, g)
  {
    match f
    case Name => d.(name := value)
    case Email => d.(email := value)
    case Phone => d.(phone := value)
    case Address => d.(address := value)
    case City => d.(city := value)
    case State => d.(state := value)
    case Pincode => d.(pincode := value)
  }

  /** Whether validation rejects the field: a blank value, and for the email a
      value the pattern `^\S+@\S+\.\S+$` does not match. */
  predicate FieldFails(d: FormData, f: AddressField)
  {
    if f == Email then !MatchesEmailPattern(d.email) else IsBlank(Get(d, f))
  }

  /** The message left under a rejected field. For the email it is always the
      pattern's message, which overwrites "Email is required". */
  function ErrorMessage(f: AddressField): string
  {
    match f
    case Name => "Name is required"
    case Email => "Valid email is required"
    case Phone => "Phone number is required"
    case Address => "Address is required"
    case City => "City is required"
    case State => "State is required"
    case Pincode => "PIN code is required"
  }

  /** The errors object `validateForm` builds: one message per rejected field. */
  function ValidationErrors(d: FormData): map<AddressField, string>
  {
    map f | f in AddressFields && FieldFails(d, f) :: ErrorMessage(f)
  }

  /** The form passes exactly when no field is blank and the email matches the pattern. */
  predicate AddressValid(d: FormData)
  {
    !IsBlank(d.name) && MatchesEmailPattern(d.email) && !IsBlank(d.phone) && !IsBlank(d.address) &&
    !IsBlank(d.city) && !IsBlank(d.state) && !IsBlank(d.pincode)
  }

  /** The errors object is empty exactly when the form is valid. */
  lemma NoErrorsIffValid(d: FormData)
    ensures ValidationErrors(d) == map[] <==> AddressValid(d)
  {
    var errors := ValidationErrors(d);
    if errors == map[] {
      assert Name !in errors && Email !in errors && Phone !in errors && Address !in errors;
      assert City !in errors && State !in errors && Pincode !in errors;
    } else {
      var f :| f in errors;
      assert FieldFails(d, f);
    }
  }

  /** A blank email gets the pattern's message, never "Email is required". */
  lemma BlankEmailMessage(d: FormData)
    requires IsBlank(d.email)
    ensures Email in ValidationErrors(d) && ValidationErrors(d)[Email] == "Valid email is required"
  {
    BlankFailsEmailPattern(d.email);
  }

  /** `if (!value.trim()) errors[field] = message`. */
  method RequireNonBlank(errors: map<AddressField, string>, f: AddressField, value: string, message: string)
    returns (r: map<AddressField, string>)
    ensures r == if IsBlank(value) then errors[f := message] else errors
  {
    r := errors;
    if Trim(value) == [] {
      r := errors[f := message];
    }
  }

  /** `if (!/^\S+@\S+\.\S+$/.test(email)) errors.email = "Valid email is required"`. */
  method RequireEmailPattern(errors: map<AddressField, string>, email: string) returns (r: map<AddressField, string>)
    ensures r == if MatchesEmailPattern(email) then errors else errors[Email := "Valid email is required"]
  {
    r := errors;
    if !MatchesEmailPattern(email) {
      r := errors[Email := "Valid email is required"];
    }
  }

  /** The two email checks in order: the pattern's message overwrites the first. */
  method CheckEmail(email: string) returns (r: map<AddressField, string>)
    ensures r == if MatchesEmailPattern(email) then map[] else map[Email := "Valid email is required"]
  {
    r := RequireNonBlank(map[], Email, email, "Email is required");
    r := RequireEmailPattern(r, email);
    if IsBlank(email) {
      BlankFailsEmailPattern(email);
    }
  }

  /** The steps of the page. */
  datatype Step = AddressStep | PaymentStep

  datatype PaymentMethod = GPay | Cod

  /** The value the radio group stores. */
  function PaymentMethodText(m: PaymentMethod): string
  {
    match m
    case GPay => "gpay"
    case Cod => "cod"
  }

  // ---------------------------------------------------------------------------
  // The order sent to the orders route

  /** `items: cart.map((item) => ({ id, name, size, price, quantity }))`. */
  function OrderItems(cart: seq<CartItem>): (items: seq<OrderItem>)
    ensures |items| == |cart|
    ensures forall k :: 0 <= k < |cart| ==>
      items[k] == OrderItem(cart[k].id, cart[k].name, cart[k].size, cart[k].price, cart[k].quantity)
  {
    if cart == [] then []
    else [OrderItem(cart[0].id, cart[0].name, cart[0].size, cart[0].price, cart[0].quantity)] + OrderItems(cart[1..])
  }

  /** `orderData`: the form's fields, the cart's items, the summary's amounts, the
      payment method, the status "Processing" and the current time. */
  function OrderPayloadOf(d: FormData, cart: seq<CartItem>, summary: OrderSummary, method_: PaymentMethod, now: int)
    : (p: OrderPayload)
    ensures p.name == d.name && p.email == d.email && p.phone == d.phone && p.address == d.address
    ensures p.city == d.city && p.state == d.state && p.pincode == d.pincode
    ensures p.items == Some(OrderItems(cart))
    ensures p.subtotal == summary.subtotal && p.deliveryCharge == summary.deliveryCharge && p.total == summary.total
    ensures p.paymentMethod == PaymentMethodText(method_)
    ensures p.status == Some(Processing) && p.createdAt == Some(now)
  {
    OrderPayload(d.name, d.email, d.phone, d.address, d.city, d.state, d.pincode, Some(OrderItems(cart)),
                 summary.subtotal, summary.deliveryCharge, summary.total, PaymentMethodText(method_),
                 Some(Processing), Some(now))
  }

  /** What submitting the payment step does: the error path for an empty cart, or
      the order handed to `fetch("/api/orders", { method: "POST", ... })`. The
      empty cart's error is thrown inside the page's `try`, so its `catch` still
      saves a `pendingOrder` with no items and goes on to the confirmation page;
      `EmptyCartError` marks where that path starts. */
  datatype PaymentOutcome = EmptyCartError | SubmitOrder(payload: OrderPayload)

  /** A cart of non-negative prices and quantities has a non-negative subtotal. */
  lemma {:induction false} SubtotalNonNegative(cart: seq<CartItem>)
    requires forall k :: 0 <= k < |cart| ==> cart[k].price >= 0 && cart[k].quantity >= 0
    ensures Subtotal(cart) >= 0
  {
    if cart != [] {
      var last := cart[|cart| - 1];
      SubtotalNonNegative(cart[..|cart| - 1]);
      assert last.price * last.quantity >= 0;
    }
  }

  /** The order a validated form and a loaded cart produce carries every field the
      route requires, so the route stores it, with the status "Processing". */
  lemma PlacedOrderIsAccepted(d: FormData, cart: seq<CartItem>, method_: PaymentMethod, now: int)
    requires AddressValid(d)
    requires forall k :: 0 <= k < |cart| ==> cart[k].price >= 0 && cart[k].quantity >= 0
    ensures OrdersRoute.MissingOrderFields(OrderPayloadOf(d, cart, SummaryOf(cart), method_, now)) == []
    ensures OrdersRoute.NewOrder(OrderPayloadOf(d, cart, SummaryOf(cart), method_, now), now).status == Processing
  {
    SubtotalNonNegative(cart);
    assert d.email != [] by {
      if d.email == [] { BlankFailsEmailPattern(d.email); }
    }
    var p := OrderPayloadOf(d, cart, SummaryOf(cart), method_, now);
    assert OrdersRoute.AllOrderFieldsPresent(p);
  }

  // ---------------------------------------------------------------------------
  // The page

  class CheckoutPage {
    var step: Step
    var paymentMethod: PaymentMethod
    var formData: FormData
    var isSubmitting: bool
    var formErrors: map<AddressField, string>
    var cart: seq<CartItem>
    var orderSummary: OrderSummary

    /** The summary is the one of the loaded cart. */
    predicate Valid()
      reads this
    {
      orderSummary == SummaryOf(cart)
    }

    /** Mounting the page: the saved cart, if there is one, and its summary;
        otherwise an empty cart and the initial summary. */
    constructor (savedCart: Option<seq<CartItem>>)
      ensures Valid() && step == AddressStep && paymentMethod == Cod && formData == EmptyForm
      ensures formErrors == map[] && !isSubmitting
      ensures cart == (if savedCart.Some? then savedCart.value else [])
    {
      step := AddressStep;
      paymentMethod := Cod;
      formData := EmptyForm;
      isSubmitting := false;
      formErrors := map[];
      if savedCart.Some? {
        cart := savedCart.value;
        orderSummary := SummaryOf(savedCart.value);
      } else {
        cart := [];
        orderSummary := InitialSummary;
      }
    }

    /** `handleInputChange`: the field takes the value, and that field's error, if
        any, is removed; every other field and error stays. */
    method HandleInputChange(f: AddressField, value: string)
      modifies this
      ensures formData == With(old(formData), f, value)
      ensures formErrors == if f in old(formErrors) && old(formErrors)[f] != [] then old(formErrors) - {f} else old(formErrors)
      ensures f !in formErrors || old(formErrors)[f] == []
      ensures forall g :: g != f ==> (g in formErrors <==> g in old(formErrors))
      ensures forall g :: g != f && g in formErrors ==> formErrors[g] == old(formErrors)[g]
      ensures step == old(step) && cart == old(cart) && orderSummary == old(orderSummary)
      ensures paymentMethod == old(paymentMethod) && isSubmitting == old(isSubmitting)
    {
      formData := With(formData, f, value);
      if f in formErrors && formErrors[f] != [] {
        formErrors := formErrors - {f};
      }
    }

    /** `validateForm()`: the errors object is rebuilt from the form, and the
        answer is whether it is empty. */
    method ValidateForm() returns (ok: bool)
      modifies this
      ensures formErrors == ValidationErrors(formData)
      ensures ok <==> AddressValid(formData)
      ensures formData == old(formData) && step == old(step) && cart == old(cart)
      ensures orderSummary == old(orderSummary) && paymentMethod == old(paymentMethod)
      ensures isSubmitting == old(isSubmitting)
    {
      var errors := BuildErrors(formData);
      formErrors := errors;
      ok := |errors| == 0;
      NoErrorsIffValid(formData);
    }

    /** `handleAddressSubmit`: the payment step follows only a valid form. */
    method HandleAddressSubmit()
      modifies this
      ensures step == if AddressValid(old(formData)) then PaymentStep else old(step)
      ensures formErrors == ValidationErrors(old(formData))
      ensures formData == old(formData) && cart == old(cart) && orderSummary == old(orderSummary)
      ensures paymentMethod == old(paymentMethod) && isSubmitting == old(isSubmitting)
    {
      var ok := ValidateForm();
      if !ok {
        return;
      }
      step := PaymentStep;
    }

    /** `handlePaymentSubmit`: an empty cart takes the error path, which ends on the
        confirmation page after the `catch` saves a `pendingOrder`; otherwise the
        order is built from the form, the cart and the summary. `isSubmitting` is
        back to false at the end. */
    method HandlePaymentSubmit(now: int) returns (outcome: PaymentOutcome)
      modifies this
      ensures cart == [] ==> outcome == EmptyCartError
      ensures cart != [] ==> outcome == SubmitOrder(OrderPayloadOf(formData, cart, orderSummary, paymentMethod, now))
      ensures !isSubmitting
      ensures formData == old(formData) && step == old(step) && cart == old(cart)
      ensures orderSummary == old(orderSummary) && paymentMethod == old(paymentMethod)
      ensures formErrors == old(formErrors)
    {
      isSubmitting := true;
      if |cart| == 0 {
        outcome := EmptyCartError;
      } else {
        outcome := SubmitOrder(OrderPayloadOf(formData, cart, orderSummary, paymentMethod, now));
      }
      isSubmitting := false;
    }
  }

  /** The errors the checks of the fields in `fs` leave. */
  function ErrorsOf(d: FormData, fs: set<AddressField>): map<AddressField, string>
  {
    map f | f in fs && FieldFails(d, f) :: ErrorMessage(f)
  }

  /** One more blank check extends the errors of the fields checked so far. */
  lemma ExtendErrors(d: FormData, fs: set<AddressField>, f: AddressField, before: map<AddressField, string>,
                     after: map<AddressField, string>)
    requires f != Email && before == ErrorsOf(d, fs)
    requires after == if IsBlank(Get(d, f)) then before[f := ErrorMessage(f)] else before
    ensures after == ErrorsOf(d, fs + {f})
  {
  }

  /** The blank check of one field, with its message, after the fields in `fs`. */
  method CheckField(errors: map<AddressField, string>, d: FormData, ghost fs: set<AddressField>, f: AddressField)
    returns (r: map<AddressField, string>)
    requires f != Email && errors == ErrorsOf(d, fs)
    ensures r == ErrorsOf(d, fs + {f})
  {
    r := RequireNonBlank(errors, f, Get(d, f), ErrorMessage(f));
    ExtendErrors(d, fs, f, errors, r);
  }

  /** The body of `validateForm`: the email's two checks first, then the blank checks
      of the other six fields. The page runs the name check before the email checks;
      the errors form a map and each check writes only its own field, so the order
      does not change the result. */
  method BuildErrors(d: FormData) returns (errors: map<AddressField, string>)
    ensures errors == ValidationErrors(d)
  {
    errors := CheckEmail(d.email);
    ghost var checked := {Email};
    assert errors == ErrorsOf(d, checked);
    errors := CheckField(errors, d, checked, Name);
    checked := checked + {Name};
    errors := CheckField(errors, d, checked, Phone);
    checked := checked + {Phone};
    errors := CheckField(errors, d, checked, Address);
    checked := checked + {Address};
    errors := CheckField(errors, d, checked, City);
    checked := checked + {City};
    errors := CheckField(errors, d, checked, State);
    checked := checked + {State};
    errors := CheckField(errors, d, checked, Pincode);
    checked := checked + {Pincode};
    assert checked == AddressFields;
  }
}
