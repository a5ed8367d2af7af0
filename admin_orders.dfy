/** The admin orders section (src/components/admin/sections/AdminOrders.tsx):
    the status filter, the per-status counts, the status badge and selector
    defaults, and the effect of a status change. */
module AdminOrders {
  import opened Common

  datatype Order = Order(
    id: string,
    customerName: string,
    phonePrimary: string,
    phoneSecondary: Option<string>,
    address: string,
    notes: Option<string>,
    subtotal: int,
    shippingPrice: int,
    totalPrice: int,
    status: Option<string>,
    createdAt: Option<string>,
    governorateId: Option<string>)

  datatype StatusOption = StatusOption(value: string, caption: string, color: string)

  /** The five statuses, in display order; the first is the fallback. */
  const StatusOptions: seq<StatusOption> := [
    StatusOption("pending", "قيد الانتظار", "bg-yellow-100 text-yellow-800"),
    StatusOption("preparing", "تم التجهيز", "bg-blue-100 text-blue-800"),
    StatusOption("shipped", "تم الشحن", "bg-purple-100 text-purple-800"),
    StatusOption("delivered", "تم التوصيل", "bg-green-100 text-green-800"),
    StatusOption("canceled", "ملغي", "bg-red-100 text-red-800")
  ]

  /** The filter value that shows every order. */
  const AllFilter: string := "all"

  function ValuesOf(options: seq<StatusOption>): (values: seq<string>)
    ensures |values| == |options|
    ensures forall i :: 0 <= i < |options| ==> values[i] == options[i].value
  {
    if options == [] then [] else [options[0].value] + ValuesOf(options[1..])
  }

  ghost predicate Distinct(values: seq<string>) {
    forall i, j :: 0 <= i < j < |values| ==> values[i] != values[j]
  }

  /** `order.status === value` as a filter predicate; a null status matches no value. */
  function HasStatus(value: string): Order -> bool {
    (o: Order) => o.status == Some(value)
  }

  /** An order whose status is null or none of `values`. */
  function StatusOutside(values: seq<string>): Order -> bool {
    (o: Order) => o.status == None || o.status.value !in values
  }

  /** The orders listed for the chosen filter. */
  function FilteredOrders(orders: seq<Order>, filter: string): (r: seq<Order>)
    ensures filter == AllFilter ==> r == orders
    ensures filter != AllFilter ==> forall o :: o in r <==> o in orders && o.status == Some(filter)
    ensures |r| <= |orders|
  {
    if filter == AllFilter then orders else Filter(orders, HasStatus(filter))
  }

  /** The number shown on a status's card: `orders.filter((o) => o.status === value).length`. */
  function StatusCount(orders: seq<Order>, value: string): (count: nat)
    ensures count <= |orders|
    ensures count == 0 <==> forall i :: 0 <= i < |orders| ==> orders[i].status != Some(value)
  {
    var matching := Filter(orders, HasStatus(value));
    assert matching != [] ==> matching[0] in orders && matching[0].status == Some(value);
    assert (exists i :: 0 <= i < |orders| && orders[i].status == Some(value)) ==> matching != [] by {
      if i :| 0 <= i < |orders| && orders[i].status == Some(value) {
        assert orders[i] in matching;
      }
    }
    |matching|
  }

  /** The statuses of the orders, in order. */
  function StatusesOf(orders: seq<Order>): (statuses: seq<Option<string>>)
    ensures |statuses| == |orders|
  {
    if orders == [] then [] else [orders[0].status] + StatusesOf(orders[1..])
  }

  /** The cards' numbers added up over `values`. */
  function SumCounts(orders: seq<Order>, values: seq<string>): nat {
    if values == [] then 0 else StatusCount(orders, values[0]) + SumCounts(orders, values[1..])
  }

  /** `statusOptions.find((s) => s.value === status)`. */
  function FindOption(options: seq<StatusOption>, status: Option<string>): (r: Option<StatusOption>)
    ensures r == None <==> forall i :: 0 <= i < |options| ==> status != Some(options[i].value)
    ensures r.Some? ==> r.value in options && status == Some(r.value.value)
  {
    if options == [] then None
    else if status == Some(options[0].value) then Some(options[0])
    else FindOption(options[1..], status)
  }

  /** The badge of an order: its status's option, or the first option ("pending") when the
      status is null or unrecognised. */
  function StatusBadge(status: Option<string>): (opt: StatusOption)
    ensures opt in StatusOptions
    ensures status.Some? && status.value in ValuesOf(StatusOptions) ==> opt.value == status.value
    ensures status == None || status.value !in ValuesOf(StatusOptions) ==>
      opt == StatusOptions[0] && opt.value == "pending"
  {
    match FindOption(StatusOptions, status)
    case Some(opt) => opt
    case None => StatusOptions[0]
  }

  /** The value the row's status selector shows: `order.status || "pending"`. */
  function SelectorValue(status: Option<string>): (v: string)
    ensures v != ""
    ensures status == None || status == Some("") ==> v == "pending"
    ensures status.Some? && status.value != "" ==> v == status.value
  {
    match status
    case None => "pending"
    case Some(s) => if s != "" then s else "pending"
  }

  /** The stored orders after `update({status}).eq("id", orderId)` succeeds. */
  function WithStatus(orders: seq<Order>, orderId: string, newStatus: string): (r: seq<Order>)
    ensures |r| == |orders|
    ensures forall i :: 0 <= i < |orders| ==>
      r[i] == if orders[i].id == orderId then orders[i].(status := Some(newStatus)) else orders[i]
  {
    if orders == [] then []
    else [if orders[0].id == orderId then orders[0].(status := Some(newStatus)) else orders[0]]
         + WithStatus(orders[1..], orderId, newStatus)
  }

  /** What the section holds after a status change: the refetched orders when the update
      succeeded, the orders it had when it failed. */
  function AfterStatusChange(stored: seq<Order>, shown: seq<Order>, orderId: string, newStatus: string,
                             updateOk: bool): (r: seq<Order>)
    ensures !updateOk ==> r == shown
    ensures updateOk ==> |r| == |stored| && forall i :: 0 <= i < |stored| ==>
      r[i].id == stored[i].id &&
      (stored[i].id == orderId ==> r[i].status == Some(newStatus)) &&
      (stored[i].id != orderId ==> r[i] == stored[i]) &&
      r[i].(status := stored[i].status) == stored[i]
  {
    if updateOk then WithStatus(stored, orderId, newStatus) else shown
  }

  /** The five status values are distinct. */
  lemma StatusValuesDistinct()
    ensures ValuesOf(StatusOptions) == ["pending", "preparing", "shipped", "delivered", "canceled"]
    ensures Distinct(ValuesOf(StatusOptions))
  {
    var v := ValuesOf(StatusOptions);
    assert v[0] == "pending" && v[1] == "preparing" && v[2] == "shipped";
    assert v[3] == "delivered" && v[4] == "canceled";
    assert v == ["pending", "preparing", "shipped", "delivered", "canceled"];
  }

  /** A status card shows how many orders carry that status. */
  lemma {:induction false} StatusCountIsMultiplicity(orders: seq<Order>, value: string)
    ensures StatusCount(orders, value) == multiset(StatusesOf(orders))[Some(value)]
  {
    if orders != [] {
      StatusCountIsMultiplicity(orders[1..], value);
      assert StatusesOf(orders) == [orders[0].status] + StatusesOf(orders[1..]);
      assert multiset(StatusesOf(orders)) == multiset{orders[0].status} + multiset(StatusesOf(orders[1..]));
    }
  }

  /** Putting one order in front adds one to its own status's card and nothing to the others. */
  lemma StatusCountCons(o: Order, rest: seq<Order>, value: string)
    ensures StatusCount([o] + rest, value) == StatusCount(rest, value) + (if o.status == Some(value) then 1 else 0)
  {
    assert ([o] + rest)[0] == o && ([o] + rest)[1..] == rest;
  }

  /** Putting one order in front adds one to the cards' total when its status is among the
      values, and nothing otherwise. */
  lemma {:induction false} SumCountsCons(o: Order, rest: seq<Order>, values: seq<string>)
    requires Distinct(values)
    ensures SumCounts([o] + rest, values)
         == SumCounts(rest, values) + (if o.status.Some? && o.status.value in values then 1 else 0)
  {
    if values != [] {
      StatusCountCons(o, rest, values[0]);
      SumCountsCons(o, rest, values[1..]);
      if o.status == Some(values[0]) {
        assert o.status.value !in values[1..];
      }
    }
  }

  /** Every order is on exactly one card or has a null or unknown status: the cards add up to
      the total less the orders with such a status. */
  lemma {:induction false} CountsPartitionOrders(orders: seq<Order>, values: seq<string>)
    requires Distinct(values)
    ensures SumCounts(orders, values) + |Filter(orders, StatusOutside(values))| == |orders|
  {
    if orders == [] {
      SumCountsEmpty(values);
    } else {
      assert orders == [orders[0]] + orders[1..];
      SumCountsCons(orders[0], orders[1..], values);
      CountsPartitionOrders(orders[1..], values);
    }
  }

  lemma {:induction false} SumCountsEmpty(values: seq<string>)
    ensures SumCounts([], values) == 0
  {
    if values != [] {
      SumCountsEmpty(values[1..]);
    }
  }

  /** The five status cards add up to at most the number of orders; orders with a null or
      unknown status are listed under "all" but counted on no card. */
  lemma CardsAtMostTotal(orders: seq<Order>)
    ensures SumCounts(orders, ValuesOf(StatusOptions)) <= |orders|
    ensures SumCounts(orders, ValuesOf(StatusOptions))
         == |orders| - |Filter(orders, StatusOutside(ValuesOf(StatusOptions)))|
  {
    StatusValuesDistinct();
    CountsPartitionOrders(orders, ValuesOf(StatusOptions));
  }

  /** Any filter keeps the listed orders in their original order. */
  lemma FilterKeepsOrder(a: seq<Order>, b: seq<Order>, filter: string)
    ensures FilteredOrders(a + b, filter) == FilteredOrders(a, filter) + FilteredOrders(b, filter)
  {
    if filter != AllFilter {
      FilterAppend(a, b, HasStatus(filter));
    }
  }
}
