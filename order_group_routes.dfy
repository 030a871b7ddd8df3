/** The current order-group routes: POST creates a group and one order item
    per request line, DELETE cascades to the group's items, PATCH saves a new
    status and, for "pronto", lowers the stock of every ingredient the
    group's items use, and GET ordersbyuser selects a user's groups. The
    Sequelize tables are fields of `OrderStore`. */
module OrderGroupRoutes {
  import opened Wrappers
  import opened Seqs
  import opened OrderRules

  /** A row of the `OrderItem` table. `itemId` is the inventory item the line
      was matched to by name when the order was placed. */
  datatype OrderItem = OrderItem(id: int, nome: string, quantidade: int, orderGroupId: int, itemId: int)

  /** An answer of a route: `res.status(code).json({message})`,
      `res.status(code).json(body)` for a created group, `res.sendStatus(code)`,
      or the `catch` branch, whose message is the runtime's error text. */
  datatype Reply =
    | Message(code: int, message: string)
    | CreatedGroup(code: int, groupId: int, group: OrderGroup, items: seq<OrderItem>)
    | Status(code: int)
    | Thrown(code: int)

  const GROUP_NOT_FOUND := "Grupo de pedidos não encontrado"
  const USER_NOT_FOUND := "Usuário não encontrado"

  function InGroup(gid: int): OrderItem -> bool
  {
    (oi: OrderItem) => oi.orderGroupId == gid
  }

  function NotInGroup(gid: int): OrderItem -> bool
  {
    (oi: OrderItem) => oi.orderGroupId != gid
  }

  /** The group's items, in table order (`include: OrderItem`). */
  function ItemsOf(orderItems: seq<OrderItem>, gid: int): (r: seq<OrderItem>)
    ensures forall oi :: oi in r <==> oi in orderItems && oi.orderGroupId == gid
  {
    Filter(orderItems, InGroup(gid))
  }

  /** The order item POST creates for one request line. */
  function NewOrderItem(line: RequestLine, gid: int, id: int, inventory: seq<InventoryItem>): OrderItem
    requires line.nome in ValidNames(inventory)
  {
    OrderItem(id, line.nome, line.quantidade, gid, FindByName(inventory, line.nome).value.id)
  }

  /** The rows POST adds to the `OrderItem` table: one per request line, in
      request order, numbered from `firstId`, each pointing at the new group
      and at the first inventory item with the line's name. */
  function NewOrderItems(lines: seq<RequestLine>, gid: int, firstId: int, inventory: seq<InventoryItem>): (r: seq<OrderItem>)
    requires AllKnown(lines, inventory)
    ensures |r| == |lines|
    ensures forall i :: 0 <= i < |lines| ==>
      r[i].id == firstId + i && r[i].nome == lines[i].nome && r[i].quantidade == lines[i].quantidade &&
      r[i].orderGroupId == gid &&
      FindByName(inventory, lines[i].nome).Some? && FindByName(inventory, lines[i].nome).value.id == r[i].itemId
  {
    seq(|lines|, i requires 0 <= i < |lines| => NewOrderItem(lines[i], gid, firstId + i, inventory))
  }

  /** Appending rows of a brand-new group: the group's items are exactly the
      appended rows, whatever was in the table before. */
  lemma {:induction false} ItemsOfNewGroup(before: seq<OrderItem>, added: seq<OrderItem>, gid: int)
    requires forall i :: 0 <= i < |before| ==> before[i].orderGroupId != gid
    requires forall i :: 0 <= i < |added| ==> added[i].orderGroupId == gid
    ensures ItemsOf(before + added, gid) == added
  {
    FilterAppend(before, added, InGroup(gid));
    FilterKeepsNone(before, InGroup(gid));
    FilterKeepsAll(added, InGroup(gid));
  }

  /** Removing one group's rows does not change any other group's items. */
  lemma OtherGroupsKeepItems(orderItems: seq<OrderItem>, removed: int, gid: int)
    requires gid != removed
    ensures ItemsOf(Filter(orderItems, NotInGroup(removed)), gid) == ItemsOf(orderItems, gid)
  {
    FilterNarrow(orderItems, NotInGroup(removed), InGroup(gid));
  }

  // ---------------------------------------------------------------------
  // Inventory deduction when a group becomes "pronto"

  /** The inner loop over one item's ingredients: every recipe line whose
      ingredient still exists lowers its stock by recipe quantity times the
      ordered quantity; lines of a missing ingredient are skipped. */
  function DeductRecipe(stock: map<int, int>, recipe: seq<RecipeLine>, qty: int): (r: map<int, int>)
    ensures r.Keys == stock.Keys
  {
    if recipe == [] then stock
    else
      var l := recipe[0];
      var next := if l.ingredienteId in stock then stock[l.ingredienteId := stock[l.ingredienteId] - l.quantidade * qty] else stock;
      DeductRecipe(next, recipe[1..], qty)
  }

  /** The state the outer loop leaves: the stock, and whether every order
      item had an inventory item (when one does not, reading its
      ingredients throws and the loop stops there). */
  datatype Deduction = Deduction(stock: map<int, int>, complete: bool)

  function Deduct(stock: map<int, int>, ois: seq<OrderItem>, inventory: seq<InventoryItem>): (d: Deduction)
    ensures d.stock.Keys == stock.Keys
  {
    if ois == [] then Deduction(stock, true)
    else
      match FindById(inventory, ois[0].itemId)
      case None => Deduction(stock, false)
      case Some(item) => Deduct(DeductRecipe(stock, item.ingredientes, ois[0].quantidade), ois[1..], inventory)
  }

  /** How much of ingredient `k` one recipe uses for `qty` units. */
  function RecipeNeed(recipe: seq<RecipeLine>, k: int, qty: int): int
  {
    if recipe == [] then 0
    else (if recipe[0].ingredienteId == k then recipe[0].quantidade * qty else 0) + RecipeNeed(recipe[1..], k, qty)
  }

  predicate AllHaveItems(ois: seq<OrderItem>, inventory: seq<InventoryItem>)
  {
    forall i :: 0 <= i < |ois| ==> FindById(inventory, ois[i].itemId).Some?
  }

  /** How much of ingredient `k` a list of order items uses in total. */
  function Needed(ois: seq<OrderItem>, inventory: seq<InventoryItem>, k: int): int
    requires AllHaveItems(ois, inventory)
  {
    if ois == [] then 0
    else RecipeNeed(FindById(inventory, ois[0].itemId).value.ingredientes, k, ois[0].quantidade) + Needed(ois[1..], inventory, k)
  }

  /** One recipe lowers each existing ingredient by exactly what it needs. */
  lemma {:induction false} DeductRecipeAmount(stock: map<int, int>, recipe: seq<RecipeLine>, qty: int, k: int)
    requires k in stock
    ensures DeductRecipe(stock, recipe, qty)[k] == stock[k] - RecipeNeed(recipe, k, qty)
  {
    if recipe != [] {
      var l := recipe[0];
      var next := if l.ingredienteId in stock then stock[l.ingredienteId := stock[l.ingredienteId] - l.quantidade * qty] else stock;
      DeductRecipeAmount(next, recipe[1..], qty, k);
    }
  }

  /** When every order item has its inventory item, the deduction runs to
      the end and lowers each existing ingredient by the total need. */
  lemma {:induction false} DeductAmount(stock: map<int, int>, ois: seq<OrderItem>, inventory: seq<InventoryItem>, k: int)
    requires AllHaveItems(ois, inventory)
    requires k in stock
    ensures Deduct(stock, ois, inventory).complete
    ensures Deduct(stock, ois, inventory).stock[k] == stock[k] - Needed(ois, inventory, k)
  {
    if ois != [] {
      var item := FindById(inventory, ois[0].itemId).value;
      var next := DeductRecipe(stock, item.ingredientes, ois[0].quantidade);
      DeductRecipeAmount(stock, item.ingredientes, ois[0].quantidade, k);
      AllHaveItemsTail(ois, inventory);
      DeductAmount(next, ois[1..], inventory, k);
    }
  }

  /** Nothing guards against repetition: deducting the same items a second
      time lowers every ingredient by the need once more. */
  lemma DeductTwice(stock: map<int, int>, ois: seq<OrderItem>, inventory: seq<InventoryItem>, k: int)
    requires AllHaveItems(ois, inventory)
    requires k in stock
    ensures Deduct(Deduct(stock, ois, inventory).stock, ois, inventory).stock[k] == stock[k] - 2 * Needed(ois, inventory, k)
  {
    var once := Deduct(stock, ois, inventory).stock;
    DeductAmount(stock, ois, inventory, k);
    DeductAmount(once, ois, inventory, k);
  }

  lemma AllHaveItemsTail(ois: seq<OrderItem>, inventory: seq<InventoryItem>)
    requires ois != [] && AllHaveItems(ois, inventory)
    ensures AllHaveItems(ois[1..], inventory)
  {
    forall i | 0 <= i < |ois[1..]| ensures FindById(inventory, ois[1..][i].itemId).Some? {
      assert ois[1..][i] == ois[i + 1];
    }
  }

  /** When order item `m` is the first without an inventory item, the
      deduction stops there: the items before it have been deducted and
      nothing after it has. */
  lemma {:induction false} DeductStopsAtFirstMissing(stock: map<int, int>, ois: seq<OrderItem>, inventory: seq<InventoryItem>, m: int)
    requires 0 <= m < |ois|
    requires FindById(inventory, ois[m].itemId).None?
    requires AllHaveItems(ois[..m], inventory)
    ensures !Deduct(stock, ois, inventory).complete
    ensures Deduct(stock, ois, inventory).stock == Deduct(stock, ois[..m], inventory).stock
  {
    if m > 0 {
      assert ois[..m][0] == ois[0];
      var item := FindById(inventory, ois[0].itemId).value;
      var next := DeductRecipe(stock, item.ingredientes, ois[0].quantidade);
      assert ois[1..][m - 1] == ois[m];
      assert ois[1..][..m - 1] == ois[..m][1..];
      AllHaveItemsTail(ois[..m], inventory);
      DeductStopsAtFirstMissing(next, ois[1..], inventory, m - 1);
    }
  }

  // ---------------------------------------------------------------------
  // ordersbyuser

  datatype GroupWithItems = GroupWithItems(group: OrderGroup, items: seq<OrderItem>)

  /** `OrderGroup.findAll({ where: { userId: id }, include: items })`, and
      404 when that finds nothing. */
  function OrdersByUser(groups: map<int, OrderGroup>, orderItems: seq<OrderItem>, userId: int): (r: Result<map<int, GroupWithItems>>)
    ensures r.Failure? <==> forall g :: g in groups ==> groups[g].userId != userId
    ensures r.Failure? ==> r.error == USER_NOT_FOUND
    ensures r.Success? ==> forall g :: g in r.value <==> g in groups && groups[g].userId == userId
    ensures r.Success? ==> forall g :: g in r.value ==> r.value[g] == GroupWithItems(groups[g], ItemsOf(orderItems, g))
  {
    var found := map g | g in groups && groups[g].userId == userId :: GroupWithItems(groups[g], ItemsOf(orderItems, g));
    if |found| == 0 then
      assert found == map[];
      assert forall g :: g in groups ==> groups[g].userId != userId by {
        forall g | g in groups ensures groups[g].userId != userId {
          assert g !in found;
        }
      }
      Failure(USER_NOT_FOUND)
    else
      assert exists g :: g in found;
      Success(found)
  }

  // ---------------------------------------------------------------------
  // The tables

  class OrderStore {
    /** The `Item` table with each item's recipe. */
    var inventory: seq<InventoryItem>
    /** The `OrderGroup` table by primary key. */
    var groups: map<int, OrderGroup>
    /** The `OrderItem` table in insertion order. */
    var orderItems: seq<OrderItem>
    /** The `Ingredientes` table: stock `quantidade` by primary key. */
    var ingredientes: map<int, int>
    /** The next auto-increment keys. */
    var nextGroupId: int
    var nextItemId: int

    /** Every key lies below its auto-increment counter, and every order item
        belongs to a stored group. */
    predicate Valid()
      reads this
    {
      (forall g :: g in groups ==> g < nextGroupId) &&
      (forall i :: 0 <= i < |orderItems| ==> orderItems[i].orderGroupId in groups && orderItems[i].id < nextItemId)
    }

    constructor (inventory: seq<InventoryItem>, ingredientes: map<int, int>)
      ensures Valid()
      ensures this.inventory == inventory && this.ingredientes == ingredientes
      ensures groups == map[] && orderItems == []
    {
      this.inventory := inventory;
      this.ingredientes := ingredientes;
      groups := map[];
      orderItems := [];
      nextGroupId := 1;
      nextItemId := 1;
    }

    /** The loop of POST that creates one order item per request line, in
        request order, for the new group `gid`. */
    method CreateOrderItems(lines: seq<RequestLine>, gid: int)
      requires Valid() && gid in groups && AllKnown(lines, inventory)
      modifies this
      ensures Valid()
      ensures inventory == old(inventory) && ingredientes == old(ingredientes)
      ensures groups == old(groups) && nextGroupId == old(nextGroupId)
      ensures nextItemId == old(nextItemId) + |lines|
      ensures orderItems == old(orderItems) + NewOrderItems(lines, gid, old(nextItemId), inventory)
    {
      ghost var added := NewOrderItems(lines, gid, nextItemId, inventory);
      var i := 0;
      while i < |lines|
        invariant 0 <= i <= |lines|
        invariant inventory == old(inventory) && ingredientes == old(ingredientes)
        invariant groups == old(groups) && nextGroupId == old(nextGroupId)
        invariant nextItemId == old(nextItemId) + i
        invariant orderItems == old(orderItems) + added[..i]
        invariant Valid()
      {
        var oi := NewOrderItem(lines[i], gid, nextItemId, inventory);
        assert added[..i + 1] == added[..i] + [oi];
        orderItems := orderItems + [oi];
        nextItemId := nextItemId + 1;
        i := i + 1;
      }
      assert added[..|lines|] == added;
    }

    /** POST /: reject unknown names, otherwise create a "pendente" group of
        the caller with the computed total and one order item per line. */
    method CreateGroup(userId: int, lines: seq<RequestLine>) returns (reply: Reply)
      requires Valid()
      modifies this
      ensures Valid()
      ensures inventory == old(inventory) && ingredientes == old(ingredientes)
      ensures InvalidNames(lines, inventory) != [] ==>
        reply == Message(400, RejectionMessage(InvalidNames(lines, inventory))) &&
        groups == old(groups) && orderItems == old(orderItems) &&
        nextGroupId == old(nextGroupId) && nextItemId == old(nextItemId)
      ensures InvalidNames(lines, inventory) == [] ==>
        var gid := old(nextGroupId);
        var group := OrderGroup(ORDER_PENDING, userId, Total(lines, inventory));
        var added := NewOrderItems(lines, gid, old(nextItemId), inventory);
        gid !in old(groups) && groups == old(groups)[gid := group] &&
        orderItems == old(orderItems) + added &&
        ItemsOf(orderItems, gid) == added &&
        reply == CreatedGroup(201, gid, group, added)
    {
      var invalid := InvalidNames(lines, inventory);
      if |invalid| > 0 {
        return Message(400, RejectionMessage(invalid));
      }
      assert AllKnown(lines, inventory);
      var totalPrice := TotalPrice(lines, inventory);
      var gid := nextGroupId;
      var group := OrderGroup(ORDER_PENDING, userId, totalPrice);
      ghost var before := orderItems;
      assert forall i :: 0 <= i < |before| ==> before[i].orderGroupId != gid;
      groups := groups[gid := group];
      nextGroupId := nextGroupId + 1;
      CreateOrderItems(lines, gid);
      ItemsOfNewGroup(before, NewOrderItems(lines, gid, old(nextItemId), inventory), gid);
      reply := CreatedGroup(201, gid, group, ItemsOf(orderItems, gid));
    }

    /** DELETE /:id: 404 for an unknown group, otherwise remove its items and
        then the group. */
    method DeleteGroup(id: int) returns (reply: Reply)
      requires Valid()
      modifies this
      ensures Valid()
      ensures inventory == old(inventory) && ingredientes == old(ingredientes)
      ensures nextGroupId == old(nextGroupId) && nextItemId == old(nextItemId)
      ensures id !in old(groups) ==>
        reply == Message(404, GROUP_NOT_FOUND) && groups == old(groups) && orderItems == old(orderItems)
      ensures id in old(groups) ==>
        reply == Status(200) && groups == old(groups) - {id} &&
        orderItems == Filter(old(orderItems), NotInGroup(id)) &&
        ItemsOf(orderItems, id) == []
    {
      if id !in groups {
        return Message(404, GROUP_NOT_FOUND);
      }
      orderItems := Filter(orderItems, NotInGroup(id));
      FilterKeepsNone(orderItems, InGroup(id));
      groups := groups - {id};
      reply := Status(200);
    }

    /** The inner loop of PATCH: deduct one recipe for `qty` units. */
    method DeductRecipeInPlace(recipe: seq<RecipeLine>, qty: int)
      modifies this
      ensures ingredientes == DeductRecipe(old(ingredientes), recipe, qty)
      ensures inventory == old(inventory) && groups == old(groups) && orderItems == old(orderItems)
      ensures nextGroupId == old(nextGroupId) && nextItemId == old(nextItemId)
    {
      var j := 0;
      while j < |recipe|
        invariant 0 <= j <= |recipe|
        invariant DeductRecipe(ingredientes, recipe[j..], qty) == DeductRecipe(old(ingredientes), recipe, qty)
        invariant inventory == old(inventory) && groups == old(groups) && orderItems == old(orderItems)
        invariant nextGroupId == old(nextGroupId) && nextItemId == old(nextItemId)
      {
        assert recipe[j..][1..] == recipe[j + 1..];
        var quantidadeNecessaria := recipe[j].quantidade * qty;
        if recipe[j].ingredienteId in ingredientes {
          ingredientes := ingredientes[recipe[j].ingredienteId := ingredientes[recipe[j].ingredienteId] - quantidadeNecessaria];
        }
        j := j + 1;
      }
    }

    /** The outer loop of PATCH: deduct the recipe of each order item in
        turn, stopping at the first one whose inventory item is gone. */
    method DeductItems(ois: seq<OrderItem>) returns (complete: bool)
      modifies this
      ensures Deduction(ingredientes, complete) == Deduct(old(ingredientes), ois, inventory)
      ensures inventory == old(inventory) && groups == old(groups) && orderItems == old(orderItems)
      ensures nextGroupId == old(nextGroupId) && nextItemId == old(nextItemId)
    {
      var i := 0;
      while i < |ois|
        invariant 0 <= i <= |ois|
        invariant Deduct(ingredientes, ois[i..], inventory) == Deduct(old(ingredientes), ois, inventory)
        invariant inventory == old(inventory) && groups == old(groups) && orderItems == old(orderItems)
        invariant nextGroupId == old(nextGroupId) && nextItemId == old(nextItemId)
      {
        assert ois[i..][1..] == ois[i + 1..];
        var found := FindById(inventory, ois[i].itemId);
        if found.None? {
          return false;
        }
        DeductRecipeInPlace(found.value.ingredientes, ois[i].quantidade);
        i := i + 1;
      }
      return true;
    }

    /** PATCH /:id: 404 for an unknown group; otherwise save the new status
        and, when it is "pronto", deduct every item's recipe from the stock.
        An order item whose inventory item is gone throws, leaving the saved
        status and the deductions made so far. */
    method UpdateStatus(id: int, status: string) returns (reply: Reply)
      requires Valid()
      modifies this
      ensures Valid()
      ensures inventory == old(inventory) && orderItems == old(orderItems)
      ensures nextGroupId == old(nextGroupId) && nextItemId == old(nextItemId)
      ensures id !in old(groups) ==>
        reply == Message(404, GROUP_NOT_FOUND) && groups == old(groups) && ingredientes == old(ingredientes)
      ensures id in old(groups) ==> groups == old(groups)[id := old(groups)[id].(status := status)]
      ensures id in old(groups) && status != ORDER_READY ==>
        reply == Status(200) && ingredientes == old(ingredientes)
      ensures id in old(groups) && status == ORDER_READY ==>
        var d := Deduct(old(ingredientes), ItemsOf(orderItems, id), inventory);
        ingredientes == d.stock && reply == (if d.complete then Status(200) else Thrown(400))
    {
      if id !in groups {
        return Message(404, GROUP_NOT_FOUND);
      }
      groups := groups[id := groups[id].(status := status)];
      reply := Status(200);
      if status == ORDER_READY {
        var complete := DeductItems(ItemsOf(orderItems, id));
        if !complete {
          reply := Thrown(400);
        }
      }
    }
  }
}
