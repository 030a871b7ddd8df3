/** The rules both versions of the order-group routes apply to a new
    order: every requested name must be an inventory item, and the total
    price is the sum of item price times requested quantity. Prices and
    quantities are integers (cents and units). */
module OrderRules {
  import opened Wrappers
  import opened Seqs

  /** One row of an item's recipe: how much of an ingredient one unit of the
      item uses (the `ItemIngredient.quantidade` through-attribute). */
  datatype RecipeLine = RecipeLine(ingredienteId: int, quantidade: int)

  /** A row of the `Item` table, with the ingredients it is made of. */
  datatype InventoryItem = InventoryItem(id: int, nome: string, preco: int, ingredientes: seq<RecipeLine>)

  /** One element of the request body's `items`. */
  datatype RequestLine = RequestLine(nome: string, quantidade: int)

  /** A row of the `OrderGroup` table (its `id` is the key it is stored under). */
  datatype OrderGroup = OrderGroup(status: string, userId: int, totalPrice: int)

  const ORDER_PENDING := "pendente"
  const ORDER_READY := "pronto"
  const REJECTION_PREFIX := "Os seguintes itens não estão no inventário: "

  /** `items.map((item) => item.nome)`. */
  function ItemNames(lines: seq<RequestLine>): (r: seq<string>)
    ensures |r| == |lines|
    ensures forall i :: 0 <= i < |lines| ==> r[i] == lines[i].nome
  {
    seq(|lines|, i requires 0 <= i < |lines| => lines[i].nome)
  }

  /** `existingItems.map((item) => item.nome)`. */
  function ValidNames(inventory: seq<InventoryItem>): (r: seq<string>)
    ensures forall n :: n in r <==> exists i :: 0 <= i < |inventory| && inventory[i].nome == n
  {
    var r := seq(|inventory|, i requires 0 <= i < |inventory| => inventory[i].nome);
    assert forall i :: 0 <= i < |inventory| ==> r[i] == inventory[i].nome;
    r
  }

  function NotIn(names: seq<string>): string -> bool
  {
    name => name !in names
  }

  /** The requested names that match no inventory item, in request order and
      with repetitions: `itemNames.filter((name) => !validNames.includes(name))`. */
  function InvalidNames(lines: seq<RequestLine>, inventory: seq<InventoryItem>): (r: seq<string>)
    ensures forall n :: n in r <==> n in ItemNames(lines) && n !in ValidNames(inventory)
    ensures forall n :: multiset(r)[n] == if n in ValidNames(inventory) then 0 else multiset(ItemNames(lines))[n]
    ensures SubsequenceOf(r, ItemNames(lines))
    ensures r == [] <==> forall i :: 0 <= i < |lines| ==> lines[i].nome in ValidNames(inventory)
  {
    var r := Filter(ItemNames(lines), NotIn(ValidNames(inventory)));
    FilterCounts(ItemNames(lines), NotIn(ValidNames(inventory)));
    FilterIsSubsequence(ItemNames(lines), NotIn(ValidNames(inventory)));
    assert r == [] <==> forall i :: 0 <= i < |lines| ==> lines[i].nome in ValidNames(inventory) by {
      if r != [] {
        assert r[0] in ItemNames(lines);
      } else {
        forall i | 0 <= i < |lines| ensures lines[i].nome in ValidNames(inventory) {
          assert ItemNames(lines)[i] in ItemNames(lines);
        }
      }
    }
    r
  }

  /** The 400 message that lists the rejected names. */
  function RejectionMessage(invalid: seq<string>): (m: string)
    ensures |m| >= |REJECTION_PREFIX| && m[..|REJECTION_PREFIX|] == REJECTION_PREFIX
    ensures |invalid| == 1 ==> m == REJECTION_PREFIX + invalid[0]
  {
    REJECTION_PREFIX + Join(invalid, ", ")
  }

  /** `existingItems.find((i) => i.nome === nome)`: the first inventory item
      with that name. */
  function FindByName(inventory: seq<InventoryItem>, nome: string): (r: Option<InventoryItem>)
    ensures r.None? <==> nome !in ValidNames(inventory)
    ensures r.Some? ==> r.value in inventory && r.value.nome == nome
    ensures r.Some? ==> exists i :: 0 <= i < |inventory| && inventory[i] == r.value &&
                          forall j :: 0 <= j < i ==> inventory[j].nome != nome
  {
    if inventory == [] then None
    else if inventory[0].nome == nome then Some(inventory[0])
    else
      var r := FindByName(inventory[1..], nome);
      assert r.Some? ==> forall j :: 0 <= j < |inventory[1..]| ==> inventory[1..][j] == inventory[j + 1];
      r
  }

  /** The item with primary key `id` (`findByPk`), the first if the list
      repeats it. */
  function FindById(inventory: seq<InventoryItem>, id: int): (r: Option<InventoryItem>)
    ensures r.None? <==> forall i :: 0 <= i < |inventory| ==> inventory[i].id != id
    ensures r.Some? ==> r.value in inventory && r.value.id == id
  {
    if inventory == [] then None
    else if inventory[0].id == id then Some(inventory[0])
    else
      var r := FindById(inventory[1..], id);
      assert forall j :: 0 <= j < |inventory[1..]| ==> inventory[1..][j] == inventory[j + 1];
      r
  }

  predicate AllKnown(lines: seq<RequestLine>, inventory: seq<InventoryItem>)
  {
    forall i :: 0 <= i < |lines| ==> lines[i].nome in ValidNames(inventory)
  }

  /** What one request line adds to the total: `foundItem.preco * item.quantidade`. */
  function LineCost(line: RequestLine, inventory: seq<InventoryItem>): int
    requires line.nome in ValidNames(inventory)
  {
    FindByName(inventory, line.nome).value.preco * line.quantidade
  }

  /** The order's total price, summed over the lines in request order. */
  function Total(lines: seq<RequestLine>, inventory: seq<InventoryItem>): int
    requires AllKnown(lines, inventory)
  {
    if lines == [] then 0
    else Total(lines[..|lines| - 1], inventory) + LineCost(lines[|lines| - 1], inventory)
  }

  /** The total of two consecutive runs of lines is the sum of their totals. */
  lemma {:induction false} TotalAppend(a: seq<RequestLine>, b: seq<RequestLine>, inventory: seq<InventoryItem>)
    requires AllKnown(a, inventory) && AllKnown(b, inventory)
    ensures AllKnown(a + b, inventory)
    ensures Total(a + b, inventory) == Total(a, inventory) + Total(b, inventory)
  {
    assert forall i :: 0 <= i < |a + b| ==> (a + b)[i] == if i < |a| then a[i] else b[i - |a|];
    if b != [] {
      var b' := b[..|b| - 1];
      assert (a + b)[..|a + b| - 1] == a + b';
      TotalAppend(a, b', inventory);
    } else {
      assert a + b == a;
    }
  }

  /** The accumulator loop that computes `totalPrice` (both route versions).
      It runs only after the name check, so every line has an item. */
  method TotalPrice(lines: seq<RequestLine>, inventory: seq<InventoryItem>) returns (totalPrice: int)
    requires InvalidNames(lines, inventory) == []
    ensures totalPrice == Total(lines, inventory)
  {
    totalPrice := 0;
    var i := 0;
    while i < |lines|
      invariant 0 <= i <= |lines|
      invariant totalPrice == Total(lines[..i], inventory)
    {
      var foundItem := FindByName(inventory, lines[i].nome).value;
      assert lines[..i + 1][..i] == lines[..i];
      totalPrice := totalPrice + foundItem.preco * lines[i].quantidade;
      i := i + 1;
    }
    assert lines[..|lines|] == lines;
  }
}
