/** The older copy of the order-group routes: the same name check and
    total, but order items carry no `itemId`, and PATCH only overwrites the
    status (the inventory is never touched). */
module LegacyOrderGroupRoutes {
  import opened Seqs
  import opened OrderRules

  /** A row of the older `OrderItem` table: no link to the inventory item. */
  datatype OrderItem = OrderItem(id: int, nome: string, quantidade: int, orderGroupId: int)

  datatype Reply =
    | Message(code: int, message: string)
    | CreatedGroup(code: int, groupId: int, group: OrderGroup, items: seq<OrderItem>)
    | Status(code: int)

  const GROUP_NOT_FOUND := "Grupo de pedidos não encontrado"

  function InGroup(gid: int): OrderItem -> bool
  {
    (oi: OrderItem) => oi.orderGroupId == gid
  }

  function NotInGroup(gid: int): OrderItem -> bool
  {
    (oi: OrderItem) => oi.orderGroupId != gid
  }

  function ItemsOf(orderItems: seq<OrderItem>, gid: int): (r: seq<OrderItem>)
    ensures forall oi :: oi in r <==> oi in orderItems && oi.orderGroupId == gid
  {
    Filter(orderItems, InGroup(gid))
  }

  /** One row per request line, in order, numbered from `firstId`, copying
      the line's name and quantity. */
  function NewOrderItems(lines: seq<RequestLine>, gid: int, firstId: int): (r: seq<OrderItem>)
    ensures |r| == |lines|
    ensures forall i :: 0 <= i < |lines| ==>
      r[i].id == firstId + i && r[i].nome == lines[i].nome && r[i].quantidade == lines[i].quantidade &&
      r[i].orderGroupId == gid
  {
    seq(|lines|, i requires 0 <= i < |lines| => OrderItem(firstId + i, lines[i].nome, lines[i].quantidade, gid))
  }

  lemma ItemsOfNewGroup(before: seq<OrderItem>, added: seq<OrderItem>, gid: int)
    requires forall i :: 0 <= i < |before| ==> before[i].orderGroupId != gid
    requires forall i :: 0 <= i < |added| ==> added[i].orderGroupId == gid
    ensures ItemsOf(before + added, gid) == added
  {
    FilterAppend(before, added, InGroup(gid));
    FilterKeepsNone(before, InGroup(gid));
    FilterKeepsAll(added, InGroup(gid));
  }

  class OrderStore {
    var inventory: seq<InventoryItem>
    var groups: map<int, OrderGroup>
    var orderItems: seq<OrderItem>
    var nextGroupId: int
    var nextItemId: int

    /** Every key lies below its auto-increment counter, and every order item
        belongs to a stored group. */
    predicate Valid()
      reads this
    {
      (forall g :: g in groups ==> g < nextGroupId) &&
      (forall i :: 0 <= i < |orderItems| ==> orderItems[i].orderGroupId in groups && orderItems[i].id < nextItemId)
    }

    constructor (inventory: seq<InventoryItem>)
      ensures Valid()
      ensures this.inventory == inventory && groups == map[] && orderItems == []
    {
      this.inventory := inventory;
      groups := map[];
      orderItems := [];
      nextGroupId := 1;
      nextItemId := 1;
    }

    method CreateOrderItems(lines: seq<RequestLine>, gid: int)
      requires Valid() && gid in groups
      modifies this
      ensures Valid()
      ensures inventory == old(inventory) && groups == old(groups) && nextGroupId == old(nextGroupId)
      ensures nextItemId == old(nextItemId) + |lines|
      ensures orderItems == old(orderItems) + NewOrderItems(lines, gid, old(nextItemId))
    {
      ghost var added := NewOrderItems(lines, gid, nextItemId);
      var i := 0;
      while i < |lines|
        invariant 0 <= i <= |lines|
        invariant inventory == old(inventory) && groups == old(groups) && nextGroupId == old(nextGroupId)
        invariant nextItemId == old(nextItemId) + i
        invariant orderItems == old(orderItems) + added[..i]
        invariant Valid()
      {
        var oi := OrderItem(nextItemId, lines[i].nome, lines[i].quantidade, gid);
        assert added[..i + 1] == added[..i] + [oi];
        orderItems := orderItems + [oi];
        nextItemId := nextItemId + 1;
        i := i + 1;
      }
      assert added[..|lines|] == added;
    }

    /** POST /: reject unknown names, otherwise create a "pendente" group of
        the caller with the computed total and one order item per line. */
    method CreateGroup(userId: int, lines: seq<RequestLine>) returns (reply: Reply)
      requires Valid()
      modifies this
      ensures Valid()
      ensures inventory == old(inventory)
      ensures InvalidNames(lines, inventory) != [] ==>
        reply == Message(400, RejectionMessage(InvalidNames(lines, inventory))) &&
        groups == old(groups) && orderItems == old(orderItems) &&
        nextGroupId == old(nextGroupId) && nextItemId == old(nextItemId)
      ensures InvalidNames(lines, inventory) == [] ==>
        var gid := old(nextGroupId);
        var group := OrderGroup(ORDER_PENDING, userId, Total(lines, inventory));
        var added := NewOrderItems(lines, gid, old(nextItemId));
        gid !in old(groups) && groups == old(groups)[gid := group] &&
        orderItems == old(orderItems) + added &&
        ItemsOf(orderItems, gid) == added &&
        reply == CreatedGroup(201, gid, group, added)
    {
      var invalid := InvalidNames(lines, inventory);
      if |invalid| > 0 {
        return Message(400, RejectionMessage(invalid));
      }
      var totalPrice := TotalPrice(lines, inventory);
      var gid := nextGroupId;
      var group := OrderGroup(ORDER_PENDING, userId, totalPrice);
      ghost var before := orderItems;
      assert forall i :: 0 <= i < |before| ==> before[i].orderGroupId != gid;
      groups := groups[gid := group];
      nextGroupId := nextGroupId + 1;
      CreateOrderItems(lines, gid);
      ItemsOfNewGroup(before, NewOrderItems(lines, gid, old(nextItemId)), gid);
      reply := CreatedGroup(201, gid, group, ItemsOf(orderItems, gid));
    }

    /** DELETE /:id: 404 for an unknown group, otherwise remove its items and
        then the group. */
    method DeleteGroup(id: int) returns (reply: Reply)
      requires Valid()
      modifies this
      ensures Valid()
      ensures inventory == old(inventory) && nextGroupId == old(nextGroupId) && nextItemId == old(nextItemId)
      ensures id !in old(groups) ==>
        reply == Message(404, GROUP_NOT_FOUND) && groups == old(groups) && orderItems == old(orderItems)
      ensures id in old(groups) ==>
        reply == Status(200) && groups == old(groups) - {id} &&
        orderItems == Filter(old(orderItems), NotInGroup(id)) &&
        ItemsOf(orderItems, id) == []
    {
      if id !in groups {
        return Message(404, GROUP_NOT_FOUND);
      }
      orderItems := Filter(orderItems, NotInGroup(id));
      FilterKeepsNone(orderItems, InGroup(id));
      groups := groups - {id};
      reply := Status(200);
    }

    /** PATCH /:id: 404 for an unknown group, otherwise overwrite its status
        and nothing else. */
    method UpdateStatus(id: int, status: string) returns (reply: Reply)
      requires Valid()
      modifies this
      ensures Valid()
      ensures inventory == old(inventory) && orderItems == old(orderItems)
      ensures nextGroupId == old(nextGroupId) && nextItemId == old(nextItemId)
      ensures id !in old(groups) ==> reply == Message(404, GROUP_NOT_FOUND) && groups == old(groups)
      ensures id in old(groups) ==>
        reply == Status(200) && groups == old(groups)[id := old(groups)[id].(status := status)]
    {
      if id !in groups {
        return Message(404, GROUP_NOT_FOUND);
      }
      groups := groups[id := groups[id].(status := status)];
      reply := Status(200);
    }
  }
}
