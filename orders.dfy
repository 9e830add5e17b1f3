/** The order store: incoming, active and past orders plus the order currently shown.
    Every action replaces the lists it touches; moving an order to `Past` pays its
    reward into the shared currency ledger. */
module Orders {
  import opened Optional
  import opened Currency

  datatype Status = Incoming | Active | Past

  datatype Location = Location(latitude: real, longitude: real)

  datatype OrderItem = OrderItem(name: string, quantity: int)

  datatype Order = Order(
    id: string,
    customerName: string,
    customerAvatar: string,
    items: seq<OrderItem>,
    total: real,
    deliveryFee: real,
    tip: real,
    date: string,
    pizzaMade: bool,
    isNearCustomer: Option<bool>,
    customerLocation: Location,
    status: Status,
    startLocation: Option<Location>)

  /** `Partial<Order>`: each present field overwrites the order's field. */
  datatype OrderUpdate = OrderUpdate(
    id: Option<string>,
    customerName: Option<string>,
    customerAvatar: Option<string>,
    items: Option<seq<OrderItem>>,
    total: Option<real>,
    deliveryFee: Option<real>,
    tip: Option<real>,
    date: Option<string>,
    pizzaMade: Option<bool>,
    isNearCustomer: Option<bool>,
    customerLocation: Option<Location>,
    status: Option<Status>,
    startLocation: Option<Location>)

  /** The empty update `{}`. */
  const NoChange := OrderUpdate(None, None, None, None, None, None, None, None, None, None, None, None, None)

  function Pick<T>(change: Option<T>, current: T): T
  {
    if change.Some? then change.value else current
  }

  function Override<T>(change: Option<T>, current: Option<T>): Option<T>
  {
    if change.Some? then change else current
  }

  /** The object spread `{ ...order, ...updates }`: a field the update carries wins,
      every other field is the order's own. */
  function Merge(o: Order, u: OrderUpdate): (r: Order)
    ensures (u.id.Some? ==> r.id == u.id.value) && (u.id.None? ==> r.id == o.id)
    ensures (u.customerName.Some? ==> r.customerName == u.customerName.value)
         && (u.customerName.None? ==> r.customerName == o.customerName)
    ensures (u.customerAvatar.Some? ==> r.customerAvatar == u.customerAvatar.value)
         && (u.customerAvatar.None? ==> r.customerAvatar == o.customerAvatar)
    ensures (u.items.Some? ==> r.items == u.items.value) && (u.items.None? ==> r.items == o.items)
    ensures (u.total.Some? ==> r.total == u.total.value) && (u.total.None? ==> r.total == o.total)
    ensures (u.deliveryFee.Some? ==> r.deliveryFee == u.deliveryFee.value)
         && (u.deliveryFee.None? ==> r.deliveryFee == o.deliveryFee)
    ensures (u.tip.Some? ==> r.tip == u.tip.value) && (u.tip.None? ==> r.tip == o.tip)
    ensures (u.date.Some? ==> r.date == u.date.value) && (u.date.None? ==> r.date == o.date)
    ensures (u.pizzaMade.Some? ==> r.pizzaMade == u.pizzaMade.value)
         && (u.pizzaMade.None? ==> r.pizzaMade == o.pizzaMade)
    ensures (u.isNearCustomer.Some? ==> r.isNearCustomer == u.isNearCustomer)
         && (u.isNearCustomer.None? ==> r.isNearCustomer == o.isNearCustomer)
    ensures (u.customerLocation.Some? ==> r.customerLocation == u.customerLocation.value)
         && (u.customerLocation.None? ==> r.customerLocation == o.customerLocation)
    ensures (u.status.Some? ==> r.status == u.status.value) && (u.status.None? ==> r.status == o.status)
    ensures (u.startLocation.Some? ==> r.startLocation == u.startLocation)
         && (u.startLocation.None? ==> r.startLocation == o.startLocation)
  {
    Order(
      Pick(u.id, o.id),
      Pick(u.customerName, o.customerName),
      Pick(u.customerAvatar, o.customerAvatar),
      Pick(u.items, o.items),
      Pick(u.total, o.total),
      Pick(u.deliveryFee, o.deliveryFee),
      Pick(u.tip, o.tip),
      Pick(u.date, o.date),
      Pick(u.pizzaMade, o.pizzaMade),
      Override(u.isNearCustomer, o.isNearCustomer),
      Pick(u.customerLocation, o.customerLocation),
      Pick(u.status, o.status),
      Override(u.startLocation, o.startLocation))
  }

  /** The empty update changes nothing, applying an update twice is applying it once,
      and an update that names neither `id` nor `status` keeps both. */
  lemma MergeLaws(o: Order, u: OrderUpdate)
    ensures Merge(o, NoChange) == o
    ensures Merge(Merge(o, u), u) == Merge(o, u)
    ensures u.id.None? && u.status.None? ==> Merge(o, u).id == o.id && Merge(o, u).status == o.status
  {
  }

  /** The coins paid for a completed order: `Math.floor(total + deliveryFee + tip)`. */
  function Reward(o: Order): (r: int)
    ensures r as real <= o.total + o.deliveryFee + o.tip < (r + 1) as real
  {
    (o.total + o.deliveryFee + o.tip).Floor
  }

  /** The reward ignores the status, and is never negative for non-negative amounts. */
  lemma RewardFacts(o: Order, s: Status)
    ensures Reward(o.(status := s)) == Reward(o)
    ensures o.total >= 0.0 && o.deliveryFee >= 0.0 && o.tip >= 0.0 ==> Reward(o) >= 0
  {
  }

  /** How many orders in the list carry `id`. */
  ghost function Count(orders: seq<Order>, id: string): nat
  {
    if orders == [] then 0 else (if orders[0].id == id then 1 else 0) + Count(orders[1..], id)
  }

  lemma {:induction false} CountAppend(a: seq<Order>, b: seq<Order>, id: string)
    ensures Count(a + b, id) == Count(a, id) + Count(b, id)
  {
    if a == [] {
      assert a + b == b;
    } else {
      assert (a + b)[1..] == a[1..] + b;
      CountAppend(a[1..], b, id);
    }
  }

  /** The count over the three lists is the sum of the counts over each. */
  lemma CountThree(incoming: seq<Order>, active: seq<Order>, past: seq<Order>, id: string)
    ensures Count(incoming + active + past, id) == Count(incoming, id) + Count(active, id) + Count(past, id)
  {
    CountAppend(incoming, active, id);
    CountAppend(incoming + active, past, id);
  }

  /** An id is counted zero times exactly when no order carries it. */
  lemma {:induction false} CountZero(orders: seq<Order>, id: string)
    ensures Count(orders, id) == 0 <==> forall i :: 0 <= i < |orders| ==> orders[i].id != id
  {
    if orders != [] {
      CountZero(orders[1..], id);
      assert forall i :: 1 <= i < |orders| ==> orders[i] == orders[1..][i - 1];
    }
  }

  /** Replacing one order by another with the same id keeps every count. */
  lemma {:induction false} CountReplace(orders: seq<Order>, k: nat, o: Order, id: string)
    requires k < |orders| && orders[k].id == o.id
    ensures Count(orders[k := o], id) == Count(orders, id)
  {
    if k > 0 {
      assert orders[k := o][1..] == orders[1..][k - 1 := o];
      CountReplace(orders[1..], k - 1, o, id);
    } else {
      assert orders[k := o][1..] == orders[1..];
    }
  }

  /** `orders.filter(o => o.id !== id)`: every order with that id is dropped, the others
      stay, and nothing changes when the id is absent. */
  function WithoutId(orders: seq<Order>, id: string): (r: seq<Order>)
    ensures |r| <= |orders|
    ensures forall o :: o in r <==> o in orders && o.id != id
    ensures forall x :: Count(r, x) == if x == id then 0 else Count(orders, x)
    ensures Count(orders, id) == 0 ==> r == orders
  {
    if orders == [] then []
    else
      var rest := WithoutId(orders[1..], id);
      if orders[0].id == id then rest
      else
        assert ([orders[0]] + rest)[1..] == rest;
        [orders[0]] + rest
  }

  /** The filter keeps the survivors in their original order: filtering a
      concatenation is concatenating the filtered parts. With the membership clause
      of `WithoutId` for one-element lists, this fixes the result on every list. */
  lemma {:induction false} WithoutIdAppend(a: seq<Order>, b: seq<Order>, id: string)
    ensures WithoutId(a + b, id) == WithoutId(a, id) + WithoutId(b, id)
  {
    if a == [] {
      assert a + b == b;
    } else {
      assert (a + b)[1..] == a[1..] + b;
      WithoutIdAppend(a[1..], b, id);
    }
  }

  /** Filtering twice by the same id is filtering once. */
  lemma WithoutIdIdempotent(orders: seq<Order>, id: string)
    ensures WithoutId(WithoutId(orders, id), id) == WithoutId(orders, id)
  {
  }

  /** `orders.findIndex(o => o.id === id)`: the first index carrying the id, or -1. */
  function IndexOfId(orders: seq<Order>, id: string): (r: int)
    ensures -1 <= r < |orders|
    ensures r == -1 <==> Count(orders, id) == 0
    ensures 0 <= r ==> orders[r].id == id
    ensures 0 <= r ==> forall j :: 0 <= j < r ==> orders[j].id != id
  {
    if orders == [] then -1
    else if orders[0].id == id then 0
    else
      var k := IndexOfId(orders[1..], id);
      if k == -1 then -1 else k + 1
  }

  /** `orders.find(o => o.id === id)`: the first order carrying the id. */
  function FindById(orders: seq<Order>, id: string): (r: Option<Order>)
    ensures r.None? <==> Count(orders, id) == 0
    ensures r.Some? ==> r.value.id == id && r.value in orders
  {
    var k := IndexOfId(orders, id);
    if k == -1 then None else Some(orders[k])
  }

  /** `find` returns the first order carrying the id: an order with no earlier order
      of the same id is the one a lookup of its id returns. */
  lemma FindByIdFirst(orders: seq<Order>, i: int)
    requires 0 <= i < |orders|
    requires forall j :: 0 <= j < i ==> orders[j].id != orders[i].id
    ensures FindById(orders, orders[i].id) == Some(orders[i])
  {
    CountZero(orders, orders[i].id);
  }

  /** A lookup over a concatenation searches the first part before the second; the
      status change relies on it to search incoming, then active, then past orders. */
  lemma {:induction false} FindByIdAppend(a: seq<Order>, b: seq<Order>, id: string)
    ensures FindById(a + b, id) == if FindById(a, id).Some? then FindById(a, id) else FindById(b, id)
  {
    var ab := a + b;
    var k := IndexOfId(a, id);
    if k != -1 {
      assert ab[k] == a[k];
      assert forall j :: 0 <= j < k ==> ab[j] == a[j];
      FindByIdFirst(ab, k);
    } else {
      CountZero(a, id);
      assert forall j :: 0 <= j < |a| ==> ab[j] == a[j];
      var m := IndexOfId(b, id);
      if m != -1 {
        assert ab[|a| + m] == b[m];
        assert forall j :: |a| <= j < |a| + m ==> ab[j] == b[j - |a|];
        FindByIdFirst(ab, |a| + m);
      } else {
        CountZero(b, id);
        assert forall j :: |a| <= j < |ab| ==> ab[j] == b[j - |a|];
        CountZero(ab, id);
      }
    }
  }

  /** When no order before `u` carries its id, a lookup of that id finds `u`. */
  lemma {:induction false} FindFirst(prefix: seq<Order>, u: Order, suffix: seq<Order>)
    requires Count(prefix, u.id) == 0
    ensures FindById(prefix + [u] + suffix, u.id) == Some(u)
  {
    CountZero(prefix, u.id);
    var all := prefix + [u] + suffix;
    assert all[|prefix|] == u;
    assert forall i :: 0 <= i < |prefix| ==> all[i] == prefix[i];
    CountZero(all, u.id);
  }

  predicate AllHave(orders: seq<Order>, s: Status)
  {
    forall o :: o in orders ==> o.status == s
  }

  /** No id is carried by two orders. */
  ghost predicate UniqueIds(orders: seq<Order>)
  {
    forall id :: Count(orders, id) <= 1
  }

  /** The intended shape of the three lists: no id repeats anywhere, so no order is in
      two lists, and each order's status names the list it is in. */
  ghost predicate ConsistentLists(incoming: seq<Order>, active: seq<Order>, past: seq<Order>)
  {
    && UniqueIds(incoming + active + past)
    && AllHave(incoming, Incoming)
    && AllHave(active, Active)
    && AllHave(past, Past)
  }

  /** Dropping an id from the incoming list keeps the lists consistent. */
  lemma RemoveKeepsConsistent(incoming: seq<Order>, active: seq<Order>, past: seq<Order>, id: string)
    requires ConsistentLists(incoming, active, past)
    ensures ConsistentLists(WithoutId(incoming, id), active, past)
  {
    var w := WithoutId(incoming, id);
    forall x
      ensures Count(w + active + past, x) <= 1
    {
      CountThree(w, active, past, x);
      CountThree(incoming, active, past, x);
    }
  }

  /** Appending an order to the active list (and dropping its id from the incoming
      list) keeps the lists consistent exactly when the order already says `Active`
      and its id is neither active nor past. */
  lemma AddActiveConsistent(incoming: seq<Order>, active: seq<Order>, past: seq<Order>, order: Order)
    requires ConsistentLists(incoming, active, past)
    ensures ConsistentLists(WithoutId(incoming, order.id), active + [order], past)
        <==> order.status == Active && Count(active + past, order.id) == 0
  {
    var w := WithoutId(incoming, order.id);
    var a := active + [order];
    assert order in a;
    assert Count([order], order.id) == 1;
    CountThree(w, a, past, order.id);
    CountAppend(active, [order], order.id);
    CountAppend(active, past, order.id);
    if order.status == Active && Count(active + past, order.id) == 0 {
      forall x
        ensures Count(w + a + past, x) <= 1
      {
        CountThree(w, a, past, x);
        CountThree(incoming, active, past, x);
        CountAppend(active, [order], x);
        assert Count([order], x) == if x == order.id then 1 else 0;
      }
      assert forall o :: o in a ==> o == order || o in active;
    }
  }

  /** One list after a status change: the moved order's id filtered out, and the
      moved order appended when this is the list of its new status. */
  function Relist(orders: seq<Order>, moved: Order, here: bool): (r: seq<Order>)
    ensures here ==> |r| > 0 && r[|r| - 1] == moved
    ensures |r| <= |orders| + (if here then 1 else 0)
  {
    WithoutId(orders, moved.id) + (if here then [moved] else [])
  }

  lemma RelistCount(orders: seq<Order>, moved: Order, here: bool, x: string)
    ensures Count(Relist(orders, moved, here), x)
      == if x == moved.id then (if here then 1 else 0) else Count(orders, x)
  {
    var tail := if here then [moved] else [];
    CountAppend(WithoutId(orders, moved.id), tail, x);
    assert Count(tail, x) == if here && x == moved.id then 1 else 0;
  }

  /** After a status change the moved id is carried exactly once over the three lists,
      and every other id as often as before. */
  lemma MovedCounts(incoming: seq<Order>, active: seq<Order>, past: seq<Order>, moved: Order, status: Status, x: string)
    ensures Count(Relist(incoming, moved, status == Incoming) + Relist(active, moved, status == Active)
                  + Relist(past, moved, status == Past), x)
      == if x == moved.id then 1 else Count(incoming + active + past, x)
  {
    RelistCount(incoming, moved, status == Incoming, x);
    RelistCount(active, moved, status == Active, x);
    RelistCount(past, moved, status == Past, x);
    CountThree(Relist(incoming, moved, status == Incoming), Relist(active, moved, status == Active),
               Relist(past, moved, status == Past), x);
    CountThree(incoming, active, past, x);
  }

  /** The three places a moved order can be appended, each written as one list with
      the order in the middle. */
  lemma AppendShapes(a: seq<Order>, b: seq<Order>, c: seq<Order>, m: Order)
    ensures (a + [m]) + (b + []) + (c + []) == a + [m] + (b + c)
    ensures (a + []) + (b + [m]) + (c + []) == (a + b) + [m] + c
    ensures (a + []) + (b + []) + (c + [m]) == (a + b + c) + [m] + []
  {
  }

  lemma CountAbsentThree(a: seq<Order>, b: seq<Order>, c: seq<Order>, id: string)
    requires Count(a, id) == 0 && Count(b, id) == 0 && Count(c, id) == 0
    ensures Count(a + b, id) == 0 && Count(a + b + c, id) == 0
  {
    CountAppend(a, b, id);
    CountAppend(a + b, c, id);
  }

  /** Three lists free of an id, with one order carrying it appended to one of them:
      a lookup of the id finds that order. */
  lemma FindAmongThree(a: seq<Order>, b: seq<Order>, c: seq<Order>, moved: Order, status: Status)
    requires Count(a, moved.id) == 0 && Count(b, moved.id) == 0 && Count(c, moved.id) == 0
    ensures FindById((a + (if status == Incoming then [moved] else []))
                     + (b + (if status == Active then [moved] else []))
                     + (c + (if status == Past then [moved] else [])), moved.id) == Some(moved)
  {
    AppendShapes(a, b, c, moved);
    CountAbsentThree(a, b, c, moved.id);
    match status
    case Incoming =>
      FindFirst(a, moved, b + c);
    case Active =>
      FindFirst(a + b, moved, c);
    case Past =>
      FindFirst(a + b + c, moved, []);
  }

  /** After a status change a lookup of the moved id finds the moved order. */
  lemma MovedFind(incoming: seq<Order>, active: seq<Order>, past: seq<Order>, moved: Order, status: Status)
    ensures FindById(Relist(incoming, moved, status == Incoming) + Relist(active, moved, status == Active)
                     + Relist(past, moved, status == Past), moved.id) == Some(moved)
  {
    var id := moved.id;
    FindAmongThree(WithoutId(incoming, id), WithoutId(active, id), WithoutId(past, id), moved, status);
  }

  /** A status change keeps the lists consistent. */
  lemma MovedConsistent(incoming: seq<Order>, active: seq<Order>, past: seq<Order>, moved: Order, status: Status)
    requires moved.status == status
    requires ConsistentLists(incoming, active, past)
    ensures ConsistentLists(Relist(incoming, moved, status == Incoming), Relist(active, moved, status == Active),
                            Relist(past, moved, status == Past))
  {
    var i', a', p' := Relist(incoming, moved, status == Incoming), Relist(active, moved, status == Active),
                      Relist(past, moved, status == Past);
    forall x
      ensures Count(i' + a' + p', x) <= 1
    {
      MovedCounts(incoming, active, past, moved, status, x);
    }
  }

  /** What a status change promises about the ids in the three lists: the moved id is
      carried once, other ids as often as before, and a lookup finds the moved order. */
  lemma MovedSummary(incoming: seq<Order>, active: seq<Order>, past: seq<Order>, moved: Order, status: Status)
    ensures var all' := Relist(incoming, moved, status == Incoming) + Relist(active, moved, status == Active)
                        + Relist(past, moved, status == Past);
      && Count(all', moved.id) == 1
      && (forall x :: x != moved.id ==> Count(all', x) == Count(incoming + active + past, x))
      && FindById(all', moved.id) == Some(moved)
  {
    forall x
      ensures Count(Relist(incoming, moved, status == Incoming) + Relist(active, moved, status == Active)
                    + Relist(past, moved, status == Past), x)
        == if x == moved.id then 1 else Count(incoming + active + past, x)
    {
      MovedCounts(incoming, active, past, moved, status, x);
    }
    MovedCounts(incoming, active, past, moved, status, moved.id);
    MovedFind(incoming, active, past, moved, status);
  }

  /** Replacing an active order by one with the same id and status keeps consistency. */
  lemma ReplaceKeepsConsistent(incoming: seq<Order>, active: seq<Order>, past: seq<Order>, k: nat, o: Order)
    requires k < |active| && active[k].id == o.id && active[k].status == o.status
    requires ConsistentLists(incoming, active, past)
    ensures ConsistentLists(incoming, active[k := o], past)
  {
    var a := active[k := o];
    forall x
      ensures Count(incoming + a + past, x) <= 1
    {
      CountReplace(active, k, o, x);
      CountThree(incoming, a, past, x);
      CountThree(incoming, active, past, x);
    }
    assert active[k] in active;
    forall p | p in a
      ensures p.status == Active
    {
      var i :| 0 <= i < |a| && a[i] == p;
      if i != k {
        assert active[i] == p;
      }
    }
  }

  class OrderStore {
    var activeOrders: seq<Order>
    var incomingOrders: seq<Order>
    var pastOrders: seq<Order>
    var currentOrder: Option<Order>
    /** The ledger rewards are paid into, shared with the customization store. */
    const currency: CurrencyStore

    /** The three lists in the order a status change searches them. */
    function AllOrders(): (r: seq<Order>)
      reads this
      ensures |r| == |incomingOrders| + |activeOrders| + |pastOrders|
    {
      incomingOrders + activeOrders + pastOrders
    }

    /** The list that holds orders of status `s`. */
    function ListOf(s: Status): seq<Order>
      reads this
    {
      match s
      case Incoming => incomingOrders
      case Active => activeOrders
      case Past => pastOrders
    }

    /** The store's lists are consistent. The actions do not demand it; their
        postconditions say which of them keep it. */
    ghost predicate Consistent()
      reads this
    {
      ConsistentLists(incomingOrders, activeOrders, pastOrders)
    }

    constructor (currency: CurrencyStore)
      ensures this.currency == currency
      ensures incomingOrders == [] && activeOrders == [] && pastOrders == []
      ensures currentOrder == None
      ensures Consistent()
    {
      this.currency := currency;
      activeOrders, incomingOrders, pastOrders := [], [], [];
      currentOrder := None;
    }

    /** Append `order` to the active list and drop its id from the incoming list.
        The order is stored as given: its status is not rewritten. */
    method AddActiveOrder(order: Order)
      modifies this
      ensures activeOrders == old(activeOrders) + [order]
      ensures incomingOrders == WithoutId(old(incomingOrders), order.id)
      ensures pastOrders == old(pastOrders) && currentOrder == old(currentOrder)
      ensures old(Consistent()) ==>
        (Consistent() <==> order.status == Active && Count(old(activeOrders) + old(pastOrders), order.id) == 0)
    {
      if Consistent() {
        AddActiveConsistent(incomingOrders, activeOrders, pastOrders, order);
      }
      activeOrders := activeOrders + [order];
      incomingOrders := WithoutId(incomingOrders, order.id);
    }

    /** Drop every incoming order with the given id. */
    method RemoveIncomingOrder(id: string)
      modifies this
      ensures incomingOrders == WithoutId(old(incomingOrders), id)
      ensures Count(old(incomingOrders), id) == 0 ==> incomingOrders == old(incomingOrders)
      ensures activeOrders == old(activeOrders) && pastOrders == old(pastOrders)
      ensures currentOrder == old(currentOrder)
      ensures old(Consistent()) ==> Consistent()
    {
      if Consistent() {
        RemoveKeepsConsistent(incomingOrders, activeOrders, pastOrders, id);
      }
      incomingOrders := WithoutId(incomingOrders, id);
    }

    /** Put `moved` at the end of the list for its status, after filtering its id out
        of all three lists. */
    method Relocate(moved: Order)
      modifies this
      ensures currentOrder == old(currentOrder)
      ensures incomingOrders == Relist(old(incomingOrders), moved, moved.status == Incoming)
      ensures activeOrders == Relist(old(activeOrders), moved, moved.status == Active)
      ensures pastOrders == Relist(old(pastOrders), moved, moved.status == Past)
      ensures Count(AllOrders(), moved.id) == 1
      ensures |ListOf(moved.status)| > 0 && ListOf(moved.status)[|ListOf(moved.status)| - 1] == moved
      ensures FindById(AllOrders(), moved.id) == Some(moved)
      ensures forall x :: x != moved.id ==> Count(AllOrders(), x) == old(Count(AllOrders(), x))
      ensures old(Consistent()) ==> Consistent()
    {
      var status := moved.status;
      MovedSummary(incomingOrders, activeOrders, pastOrders, moved, status);
      if Consistent() {
        MovedConsistent(incomingOrders, activeOrders, pastOrders, moved, status);
      }
      incomingOrders, activeOrders, pastOrders :=
        Relist(incomingOrders, moved, status == Incoming),
        Relist(activeOrders, moved, status == Active),
        Relist(pastOrders, moved, status == Past);
    }

    /** Move the first order with `id` (searching incoming, active, then past) to the
        end of the list for `status`, with that status, removing every other order with
        the id. Moving to `Past` pays the reward, with no check that the order was not
        already past. An unknown id changes nothing. */
    method SetOrderStatus(id: string, status: Status)
      modifies this, currency
      ensures currentOrder == old(currentOrder)
      ensures FindById(old(AllOrders()), id).None? ==>
        && incomingOrders == old(incomingOrders)
        && activeOrders == old(activeOrders)
        && pastOrders == old(pastOrders)
        && currency.balance == old(currency.balance)
      ensures FindById(old(AllOrders()), id).Some? ==>
        var moved := FindById(old(AllOrders()), id).value.(status := status);
        && incomingOrders == Relist(old(incomingOrders), moved, status == Incoming)
        && activeOrders == Relist(old(activeOrders), moved, status == Active)
        && pastOrders == Relist(old(pastOrders), moved, status == Past)
        && currency.balance == old(currency.balance) + (if status == Past then Reward(moved) else 0)
      ensures FindById(old(AllOrders()), id).Some? ==>
        && Count(AllOrders(), id) == 1
        && |ListOf(status)| > 0
        && ListOf(status)[|ListOf(status)| - 1].id == id
        && ListOf(status)[|ListOf(status)| - 1].status == status
        && FindById(AllOrders(), id) == Some(ListOf(status)[|ListOf(status)| - 1])
      ensures FindById(old(AllOrders()), id).Some? ==>
        forall x :: x != id ==> Count(AllOrders(), x) == old(Count(AllOrders(), x))
      ensures old(Consistent()) ==> Consistent()
    {
      var found := FindById(AllOrders(), id);
      if found.Some? {
        var moved := found.value.(status := status);
        if status == Past {
          currency.AddCurrency(Reward(found.value));
        }
        RewardFacts(found.value, status);
        Relocate(moved);
      }
    }

    /** Replace the first active order with `id` by its merge with `updates`, in place. */
    method UpdateOrder(id: string, updates: OrderUpdate)
      modifies this
      ensures incomingOrders == old(incomingOrders) && pastOrders == old(pastOrders)
      ensures currentOrder == old(currentOrder)
      ensures IndexOfId(old(activeOrders), id) == -1 ==> activeOrders == old(activeOrders)
      ensures var k := IndexOfId(old(activeOrders), id);
        0 <= k ==> activeOrders == old(activeOrders)[k := Merge(old(activeOrders)[k], updates)]
      ensures |activeOrders| == |old(activeOrders)|
      ensures forall i :: 0 <= i < |activeOrders| && i != IndexOfId(old(activeOrders), id) ==>
        activeOrders[i] == old(activeOrders)[i]
      ensures old(Consistent()) && updates.id.None? && updates.status.None? ==> Consistent()
    {
      var index := IndexOfId(activeOrders, id);
      if index != -1 {
        var updated := Merge(activeOrders[index], updates);
        if Consistent() && updates.id.None? && updates.status.None? {
          ReplaceKeepsConsistent(incomingOrders, activeOrders, pastOrders, index, updated);
        }
        activeOrders := activeOrders[index := updated];
      }
    }

    /** Set the start location of the first active order with `id`; nothing else changes. */
    method UpdateOrderStartLocation(id: string, startLocation: Location)
      modifies this
      ensures incomingOrders == old(incomingOrders) && pastOrders == old(pastOrders)
      ensures currentOrder == old(currentOrder)
      ensures IndexOfId(old(activeOrders), id) == -1 ==> activeOrders == old(activeOrders)
      ensures var k := IndexOfId(old(activeOrders), id);
        0 <= k ==> activeOrders == old(activeOrders)[k := old(activeOrders)[k].(startLocation := Some(startLocation))]
      ensures old(Consistent()) ==> Consistent()
    {
      var index := IndexOfId(activeOrders, id);
      if index != -1 {
        var updated := activeOrders[index].(startLocation := Some(startLocation));
        if Consistent() {
          ReplaceKeepsConsistent(incomingOrders, activeOrders, pastOrders, index, updated);
        }
        activeOrders := activeOrders[index := updated];
      }
    }

    /** Set the order on display; the lists are untouched. */
    method SetCurrentOrder(order: Option<Order>)
      modifies this
      ensures currentOrder == order
      ensures incomingOrders == old(incomingOrders) && activeOrders == old(activeOrders)
      ensures pastOrders == old(pastOrders)
    {
      currentOrder := order;
    }

    /** Forget every order. */
    method ClearStore()
      modifies this
      ensures incomingOrders == [] && activeOrders == [] && pastOrders == []
      ensures currentOrder == None
      ensures Consistent()
    {
      activeOrders, incomingOrders, pastOrders := [], [], [];
      currentOrder := None;
    }
  }

  /** Moving an order to `Past` twice pays its reward twice: the store has no guard
      against completing an order that is already past. */
  method CompleteTwice(store: OrderStore, id: string)
    requires FindById(store.AllOrders(), id).Some?
    modifies store, store.currency
    ensures store.currency.balance
      == old(store.currency.balance) + 2 * Reward(FindById(old(store.AllOrders()), id).value)
  {
    ghost var order := FindById(store.AllOrders(), id).value;
    RewardFacts(order, Past);
    store.SetOrderStatus(id, Past);
    store.SetOrderStatus(id, Past);
  }
}
