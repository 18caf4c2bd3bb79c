/**
 * The order table and its repository. An order is stored under the pair
 * (`pk` = the owner's email, `sk` = the order id).
 */
module OrderStore {
  import opened Common

  datatype ShippingType = URGENT | ECONOMIC
  datatype CarrierType = CORREIOS | FEDEX
  datatype PaymentType = CASH | DEBIT_CARD | CREDIT_CARD

  datatype Shipping = Shipping(shippingType: ShippingType, carrier: CarrierType)
  datatype Billing = Billing(payment: PaymentType, totalPrice: int)

  /** The code and price of a product as they were when the order was placed. */
  datatype OrderProduct = OrderProduct(code: string, price: int)

  datatype Order = Order(
    pk: string,
    sk: string,
    createdAt: Option<int>,
    shipping: Shipping,
    billing: Billing,
    products: seq<OrderProduct>)

  /** The table key of an order. */
  type OrderKey = (string, string)

  const OrderNotFound: string := "Order not found"

  /** Every stored item carries its own key, as every DynamoDB item does. */
  ghost predicate KeyedByOwnerAndId(t: map<OrderKey, Order>)
  {
    forall k :: k in t ==> t[k].pk == k.0 && t[k].sk == k.1
  }

  /** No stored key has an empty part: DynamoDB refuses empty key values. */
  ghost predicate NonEmptyKeys(t: map<OrderKey, Order>)
  {
    forall k :: k in t ==> k.0 != "" && k.1 != ""
  }

  /** Every stored order has its creation time. */
  ghost predicate AllStamped(t: map<OrderKey, Order>)
  {
    forall k :: k in t ==> t[k].createdAt.Some?
  }

  /**
   * The error of an operation on the key (`pk`, `sk`): the validation error
   * for the first empty part, and otherwise `otherwise`.
   */
  function KeyError(pk: string, sk: string, otherwise: string): string
  {
    if pk == "" then EmptyKeyValue("pk") else if sk == "" then EmptyKeyValue("sk") else otherwise
  }

  class OrdersRepository {
    /** The order table: the item stored under each (pk, sk). */
    var table: map<OrderKey, Order>

    /**
     * Items carry their keys; and since orders are written only by
     * `CreateOrder`, each has its creation time.
     */
    ghost predicate Valid()
      reads this
    {
      KeyedByOwnerAndId(table) && NonEmptyKeys(table) && AllStamped(table)
    }

    /** A repository over a table that already holds `contents`. */
    constructor (contents: map<OrderKey, Order>)
      requires KeyedByOwnerAndId(contents) && NonEmptyKeys(contents) && AllStamped(contents)
      ensures Valid() && table == contents
    {
      table := contents;
    }

    /** The stored orders whose keys `keys` lists, in that order. */
    method Fetch(keys: seq<OrderKey>) returns (orders: seq<Order>)
      requires forall k :: k in keys ==> k in table
      ensures |orders| == |keys|
      ensures forall i :: 0 <= i < |keys| ==> orders[i] == table[keys[i]]
    {
      orders := [];
      var i := 0;
      while i < |keys|
        invariant 0 <= i <= |keys|
        invariant |orders| == i
        invariant forall j :: 0 <= j < i ==> orders[j] == table[keys[j]]
      {
        orders := orders + [table[keys[i]]];
        i := i + 1;
      }
    }

    /** A scan: every stored order, each once, in the table's order. */
    method GetAllOrders() returns (orders: seq<Order>)
      requires Valid()
      ensures |orders| == |table|
      ensures forall o :: o in orders ==> (o.pk, o.sk) in table && table[(o.pk, o.sk)] == o
      ensures forall k :: k in table ==> table[k] in orders
      ensures Distinct(orders)
    {
      var keys := ScanWhere(table, (k: OrderKey) => true);
      orders := Fetch(keys);
      forall k | k in table ensures table[k] in orders {
        var i :| 0 <= i < |keys| && keys[i] == k;
        assert orders[i] == table[k];
      }
      assert |keys| == |table| by {
        assert table.Keys == set k | k in keys;
        DistinctCardinality(keys);
      }
    }

    /**
     * A query on the partition key: exactly the orders of the owner `email`,
     * each once.
     */
    method GetOrderByEmail(email: string) returns (orders: seq<Order>)
      requires Valid()
      requires email != ""
      ensures forall o :: o in orders ==> o.pk == email && (o.pk, o.sk) in table && table[(o.pk, o.sk)] == o
      ensures forall k :: k in table && k.0 == email ==> table[k] in orders
      ensures Distinct(orders)
    {
      var keys := ScanWhere(table, (k: OrderKey) => k.0 == email);
      orders := Fetch(keys);
      forall o | o in orders
        ensures o.pk == email && (o.pk, o.sk) in table && table[(o.pk, o.sk)] == o
      {
        var i :| 0 <= i < |orders| && orders[i] == o;
        assert keys[i] in table && keys[i] == (o.pk, o.sk);
      }
      forall k | k in table && k.0 == email ensures table[k] in orders {
        var i :| 0 <= i < |keys| && keys[i] == k;
        assert orders[i] == table[k];
      }
    }

    /**
     * A get by the full key: the stored order, or the error 'Order not found';
     * a key with an empty part is rejected with a validation error.
     */
    method GetOrderByIdEmail(email: string, orderId: string) returns (r: Result<Order>)
      requires Valid()
      ensures r.Ok? <==> (email, orderId) in table
      ensures r.Ok? ==> r.value == table[(email, orderId)] && r.value.pk == email && r.value.sk == orderId
      ensures r.Err? ==> r.message == KeyError(email, orderId, OrderNotFound)
    {
      if email == "" || orderId == "" {
        r := Err(KeyError(email, orderId, OrderNotFound));
      } else if (email, orderId) in table {
        r := Ok(table[(email, orderId)]);
      } else {
        r := Err(OrderNotFound);
      }
    }

    /**
     * Stores `order` under a fresh order id and the current time; the owner,
     * billing, shipping and products are kept as given. A put whose key has
     * an empty part is rejected and writes nothing.
     */
    method CreateOrder(order: Order, freshId: string, now: int) returns (r: Result<Order>)
      requires Valid()
      requires (order.pk, freshId) !in table
      modifies this
      ensures Valid()
      ensures order.pk == "" || freshId == "" ==> r == Err(KeyError(order.pk, freshId, "")) && table == old(table)
      ensures order.pk != "" && freshId != "" ==>
        && r == Ok(order.(sk := freshId, createdAt := Some(now)))
        && table == old(table)[(order.pk, freshId) := r.value]
    {
      var created := order.(sk := freshId, createdAt := Some(now));
      if created.pk == "" || created.sk == "" {
        return Err(KeyError(order.pk, freshId, ""));
      }
      table := table[(order.pk, freshId) := created];
      r := Ok(created);
    }

    /**
     * A delete returning the old item: the pre-delete snapshot of the order at
     * (email, orderId), or 'Order not found'. Orders at other keys, including
     * those of other owners with the same order id, stay. A key with an empty
     * part is rejected with a validation error.
     */
    method DeleteOrder(email: string, orderId: string) returns (r: Result<Order>)
      requires Valid()
      modifies this
      ensures Valid()
      ensures email == "" || orderId == "" ==> r == Err(KeyError(email, orderId, OrderNotFound)) && table == old(table)
      ensures (email, orderId) in old(table) ==>
        && r == Ok(old(table)[(email, orderId)])
        && table == old(table) - {(email, orderId)}
      ensures email != "" && orderId != "" && (email, orderId) !in old(table) ==>
        r == Err(OrderNotFound) && table == old(table)
    {
      if email == "" || orderId == "" {
        r := Err(KeyError(email, orderId, OrderNotFound));
      } else if (email, orderId) in table {
        r := Ok(table[(email, orderId)]);
        table := table - {(email, orderId)};
      } else {
        r := Err(OrderNotFound);
      }
    }
  }

  /**
   * Two owners may hold orders with the same order id: deleting one leaves
   * the other in place, and a created order is found under its owner.
   */
  method SameIdOtherOwner(repo: OrdersRepository, order: Order, freshId: string, now: int, other: string)
    returns (created: Result<Order>, deleted: Result<Order>, kept: Result<Order>)
    requires repo.Valid()
    requires order.pk != "" && freshId != ""
    requires (order.pk, freshId) !in repo.table
    requires other != order.pk && (other, freshId) in repo.table
    modifies repo
    ensures repo.Valid()
    ensures created.Ok? && deleted == created && created.value.pk == order.pk && created.value.sk == freshId
    ensures kept == Ok(old(repo.table)[(other, freshId)])
    ensures repo.table == old(repo.table)
  {
    created := repo.CreateOrder(order, freshId, now);
    deleted := repo.DeleteOrder(order.pk, freshId);
    kept := repo.GetOrderByIdEmail(other, freshId);
  }
}
