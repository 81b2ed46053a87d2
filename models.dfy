/** The records the two routes store (lib/models.ts), and the JSON payloads the
    routes receive. A payload field that may be absent or falsy is modelled with the
    value JavaScript treats as falsy: the empty string, the number 0, or `None`. An
    optional `createdAt` is `Some(t)` for a truthy value whose `Date` is `t`, and
    `None` when it is absent or falsy. */
module Models {

  // ---------------------------------------------------------------------------
  // Appointments

  datatype AppointmentStatus = Scheduled | Completed | Cancelled

  /** A stored vehicle-wash appointment. `id` stands for the document's `_id`;
      times are strings such as "2:30 PM" and timestamps are abstract numbers. */
  datatype Appointment = Appointment(
    id: nat,
    name: string,
    email: string,
    phone: string,
    vehicleType: string,
    vehicleModel: string,
    servicePackage: string,
    date: string,
    time: string,
    duration: int,
    price: int,
    status: AppointmentStatus,
    createdAt: int,
    updatedAt: Option<int>)

  /** The body of `POST /api/appointments`. */
  datatype AppointmentPayload = AppointmentPayload(
    name: string,
    email: string,
    phone: string,
    vehicleType: string,
    vehicleModel: string,
    servicePackage: string,
    date: string,
    time: string,
    duration: int,
    price: int,
    status: Option<AppointmentStatus>,
    createdAt: Option<int>)

  // ---------------------------------------------------------------------------
  // Orders

  datatype OrderStatus = Processing | Shipped | Delivered

  /** One line of an order: the product, its unit price and the quantity bought. */
  datatype OrderItem = OrderItem(id: string, name: string, size: string, price: int, quantity: int)

  /** A stored coconut-oil order. */
  datatype Order = Order(
    name: string,
    email: string,
    phone: string,
    address: string,
    city: string,
    state: string,
    pincode: string,
    items: seq<OrderItem>,
    subtotal: int,
    deliveryCharge: int,
    total: int,
    paymentMethod: string,
    status: OrderStatus,
    createdAt: int,
    updatedAt: Option<int>)

  /** The body of `POST /api/orders`; `items` is `None` when the array is absent. */
  datatype OrderPayload = OrderPayload(
    name: string,
    email: string,
    phone: string,
    address: string,
    city: string,
    state: string,
    pincode: string,
    items: Option<seq<OrderItem>>,
    subtotal: int,
    deliveryCharge: int,
    total: int,
    paymentMethod: string,
    status: Option<OrderStatus>,
    createdAt: Option<int>)

  // ---------------------------------------------------------------------------
  // The answers of the two PUT handlers

  /** 400 when the id or the status is missing, 404 when no record has the id,
      200 after the update. */
  datatype UpdateResponse = BadRequest | NotFound | Updated

  function UpdateStatusCode(r: UpdateResponse): int
  {
    match r
    case BadRequest => 400
    case NotFound => 404
    case Updated => 200
  }

  datatype Option<T> = None | Some(value: T)

  /** `xs` can be obtained from `ys` by deleting elements: its elements occur in
      `ys` in the same order. */
  predicate Subsequence<T(==)>(xs: seq<T>, ys: seq<T>)
  {
    if xs == [] then true
    else if ys == [] then false
    else if xs[0] == ys[0] then Subsequence(xs[1..], ys[1..])
    else Subsequence(xs, ys[1..])
  }

  /** Dropping the first element of a subsequence leaves a subsequence. */
  lemma {:induction false} SubsequenceTail<T>(xs: seq<T>, ys: seq<T>)
    requires xs != [] && Subsequence(xs, ys)
    ensures Subsequence(xs[1..], ys)
  {
    if xs[0] == ys[0] {
      SubsequenceWiden(xs[1..], ys);
    } else {
      SubsequenceTail(xs, ys[1..]);
      SubsequenceWiden(xs[1..], ys);
    }
  }

  /** A subsequence of `ys[1..]` is a subsequence of `ys`. */
  lemma {:induction false} SubsequenceWiden<T>(xs: seq<T>, ys: seq<T>)
    requires ys != [] && Subsequence(xs, ys[1..])
    ensures Subsequence(xs, ys)
  {
    if xs != [] && xs[0] == ys[0] {
      SubsequenceTail(xs, ys[1..]);
    }
  }

  /** `fields.filter((field) => !data[field])`, where `falsy` holds the fields whose
      value is falsy: those of `fields` in it, in the order they are declared. */
  function MissingFields<F(!new)>(fields: seq<F>, falsy: set<F>): (missing: seq<F>)
    ensures forall f :: f in missing <==> f in fields && f in falsy
    ensures Subsequence(missing, fields)
  {
    if fields == [] then []
    else
      var rest := MissingFields(fields[1..], falsy);
      if fields[0] in falsy then
        assert ([fields[0]] + rest)[1..] == rest;
        [fields[0]] + rest
      else
        SubsequenceWiden(rest, fields);
        rest
  }
}
