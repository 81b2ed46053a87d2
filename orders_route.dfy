/** `POST` and `PUT` of the orders route (app/api/orders/route.ts): the
    required-field check, the defaulting of the stored order, the insert under a
    fresh id, and the status update. The collection is a map from ids to orders. */
module OrdersRoute {
  import opened Models

  // ---------------------------------------------------------------------------
  // Required fields

  datatype OrderField = Name | Email | Phone | Address | City | State | Pincode | Items | Total

  /** The key of the field in the JSON payload and in the `missingFields` answer. */
  function OrderFieldKey(f: OrderField): string
  {
    match f
    case Name => "name"
    case Email => "email"
    case Phone => "phone"
    case Address => "address"
    case City => "city"
    case State => "state"
    case Pincode => "pincode"
    case Items => "items"
    case Total => "total"
  }

  /** `requiredFields`, in the order the route lists them. */
  const RequiredOrderFields: seq<OrderField> := [Name, Email, Phone, Address, City, State, Pincode, Items, Total]

  /** `!orderData[field]`: an empty string, an absent item list (an array, even an
      empty one, is truthy), or a total of 0. */
  predicate IsFalsyOrderField(p: OrderPayload, f: OrderField)
  {
    match f
    case Name => p.name == []
    case Email => p.email == []
    case Phone => p.phone == []
    case Address => p.address == []
    case City => p.city == []
    case State => p.state == []
    case Pincode => p.pincode == []
    case Items => p.items.None?
    case Total => p.total == 0
  }

  /** The fields whose value is falsy. */
  function FalsyOrderFields(p: OrderPayload): set<OrderField>
  {
    set f: OrderField | IsFalsyOrderField(p, f)
  }

  predicate AllOrderFieldsPresent(p: OrderPayload)
  {
    p.name != [] && p.email != [] && p.phone != [] && p.address != [] && p.city != [] &&
    p.state != [] && p.pincode != [] && p.items.Some? && p.total != 0
  }

  /** Every field is one the route requires. */
  lemma RequiredOrderField(f: OrderField)
    ensures f in RequiredOrderFields
  {
    var fields := RequiredOrderFields;
    match f
    case Name => assert fields[0] == f;
    case Email => assert fields[1] == f;
    case Phone => assert fields[2] == f;
    case Address => assert fields[3] == f;
    case City => assert fields[4] == f;
    case State => assert fields[5] == f;
    case Pincode => assert fields[6] == f;
    case Items => assert fields[7] == f;
    case Total => assert fields[8] == f;
  }

  /** The `missingFields` of a 400 answer. It is empty exactly when all nine
      fields are present. */
  function MissingOrderFields(p: OrderPayload): (missing: seq<OrderField>)
    ensures missing == [] <==> AllOrderFieldsPresent(p)
  {
    var missing := MissingFields(RequiredOrderFields, FalsyOrderFields(p));
    if missing == [] then
      assert AllOrderFieldsPresent(p) by {
        forall f: OrderField
          ensures f !in FalsyOrderFields(p)
        {
          RequiredOrderField(f);
        }
        assert Name !in FalsyOrderFields(p) && Email !in FalsyOrderFields(p) &&
          Phone !in FalsyOrderFields(p) && Address !in FalsyOrderFields(p) &&
          City !in FalsyOrderFields(p) && State !in FalsyOrderFields(p) &&
          Pincode !in FalsyOrderFields(p) && Items !in FalsyOrderFields(p) &&
          Total !in FalsyOrderFields(p);
      }
      missing
    else
      assert missing[0] in missing;
      missing
  }

  /** The list names exactly the falsy fields, in the route's order. */
  lemma MissingOrderFieldsExact(p: OrderPayload)
    ensures forall f :: f in MissingOrderFields(p) <==> f in FalsyOrderFields(p)
    ensures Subsequence(MissingOrderFields(p), RequiredOrderFields)
  {
    forall f: OrderField
      ensures f in RequiredOrderFields
    {
      RequiredOrderField(f);
    }
  }

  /** A total of 0 is reported missing; an empty item list is not. */
  lemma ZeroTotalMissingEmptyItemsPresent(p: OrderPayload)
    ensures p.total == 0 ==> Total in MissingOrderFields(p)
    ensures p.items == Some([]) ==> Items !in MissingOrderFields(p)
  {
    MissingOrderFieldsExact(p);
    assert IsFalsyOrderField(p, Total) <==> p.total == 0;
    assert IsFalsyOrderField(p, Items) <==> p.items.None?;
  }

  // ---------------------------------------------------------------------------
  // The stored order

  /** `{ ...orderData, status: orderData.status || "Processing", createdAt }`:
      the payload's fields, the status defaulting to "Processing", and the
      payload's `createdAt` if it is truthy (`Some(t)`, a `Date` of `t`), else the
      current time (`None` stands for an absent or falsy `createdAt`). */
  function NewOrder(p: OrderPayload, now: int): (o: Order)
    requires p.items.Some?
    ensures o.status == (if p.status.Some? then p.status.value else Processing)
    ensures o.createdAt == (if p.createdAt.Some? then p.createdAt.value else now)
    ensures o.updatedAt.None?
    ensures o.name == p.name && o.email == p.email && o.phone == p.phone && o.address == p.address &&
      o.city == p.city && o.state == p.state && o.pincode == p.pincode && o.items == p.items.value &&
      o.subtotal == p.subtotal && o.deliveryCharge == p.deliveryCharge && o.total == p.total &&
      o.paymentMethod == p.paymentMethod
  {
    Order(p.name, p.email, p.phone, p.address, p.city, p.state, p.pincode, p.items.value,
          p.subtotal, p.deliveryCharge, p.total, p.paymentMethod,
          if p.status.Some? then p.status.value else Processing,
          if p.createdAt.Some? then p.createdAt.value else now,
          None)
  }

  datatype OrderPostResponse =
    | MissingFieldsResponse(missingFields: seq<OrderField>)
    | CreatedResponse(id: nat)

  function OrderPostStatusCode(r: OrderPostResponse): int
  {
    match r
    case MissingFieldsResponse(_) => 400
    case CreatedResponse(_) => 200
  }

  /** The orders collection. `nextId` stands for the generator of fresh `_id`s. */
  class OrderCollection {
    var orders: map<nat, Order>
    var nextId: nat

    /** Every id in use is below `nextId`. */
    predicate Valid()
      reads this
    {
      forall id :: id in orders ==> id < nextId
    }

    constructor ()
      ensures Valid() && orders == map[] && nextId == 0
    {
      orders := map[];
      nextId := 0;
    }

    /** `POST /api/orders`: 400 with the missing fields and no insert, or the
        defaulted order inserted under a fresh id, which the answer returns. */
    method Post(p: OrderPayload, now: int) returns (response: OrderPostResponse)
      requires Valid()
      modifies this
      ensures Valid()
      ensures !AllOrderFieldsPresent(p) ==>
        response == MissingFieldsResponse(MissingOrderFields(p)) &&
        orders == old(orders) && nextId == old(nextId)
      ensures AllOrderFieldsPresent(p) ==>
        response == CreatedResponse(old(nextId)) && old(nextId) !in old(orders) &&
        orders == old(orders)[old(nextId) := NewOrder(p, now)] && nextId == old(nextId) + 1
    {
      var missingFields := MissingOrderFields(p);
      if |missingFields| > 0 {
        return MissingFieldsResponse(missingFields);
      }
      var order := NewOrder(p, now);
      var id := nextId;
      orders := orders[id := order];
      nextId := nextId + 1;
      response := CreatedResponse(id);
    }

    /** `PUT /api/orders` with `{ id, status }`: 400 when either is missing, 404
        when no order has the id, otherwise only that order's status and
        `updatedAt` change. */
    method Put(id: Option<nat>, status: Option<OrderStatus>, now: int) returns (response: UpdateResponse)
      requires Valid()
      modifies this
      ensures Valid() && nextId == old(nextId) && orders.Keys == old(orders).Keys
      ensures id.None? || status.None? ==> response == BadRequest && orders == old(orders)
      ensures id.Some? && status.Some? && id.value !in old(orders) ==>
        response == NotFound && orders == old(orders)
      ensures id.Some? && status.Some? && id.value in old(orders) ==>
        response == Updated &&
        orders == old(orders)[id.value := old(orders)[id.value].(status := status.value, updatedAt := Some(now))]
    {
      if id.None? || status.None? {
        return BadRequest;
      }
      if id.value !in orders {
        return NotFound;
      }
      orders := orders[id.value := orders[id.value].(status := status.value, updatedAt := Some(now))];
      return Updated;
    }
  }

  /** After an update only the updated order differs, and in it only the status
      and `updatedAt`. */
  lemma UpdateChangesOnlyStatus(orders: map<nat, Order>, id: nat, status: OrderStatus, now: int, other: nat)
    requires id in orders && other in orders
    ensures var updated := orders[id := orders[id].(status := status, updatedAt := Some(now))];
      other in updated &&
      (other != id ==> updated[other] == orders[other]) &&
      (other == id ==> updated[id].status == status && updated[id].updatedAt == Some(now) &&
                       updated[id].(status := orders[id].status, updatedAt := orders[id].updatedAt) == orders[id])
  {
  }
}
