/** The `cart` slice shared by both client apps: a list of cart lines,
    changed in place by the reducers `addToCart`, `incrementQuantity`,
    `decrementQuantity` and `clearCart`. */
module CartSlice {
  import opened Wrappers

  /** What the screens pass to `addToCart`: an inventory item. */
  datatype Product = Product(id: int, nome: string, preco: int)

  /** A cart line: the product's fields and its quantity. */
  datatype CartLine = CartLine(id: int, nome: string, preco: int, quantity: int)

  datatype CartAction = AddToCart(product: Product) | IncrementQuantity(id: int) | DecrementQuantity(id: int) | ClearCart

  /** Ids are unique and every quantity is at least 1. */
  predicate ValidCart(cart: seq<CartLine>)
  {
    (forall i :: 0 <= i < |cart| ==> cart[i].quantity >= 1) &&
    (forall i, j :: 0 <= i < j < |cart| ==> cart[i].id != cart[j].id)
  }

  /** `state.find((item) => item.id === id)`, as the index of the first match. */
  function FindLine(cart: seq<CartLine>, id: int): (r: Option<nat>)
    ensures r.None? <==> forall i :: 0 <= i < |cart| ==> cart[i].id != id
    ensures r.Some? ==> r.value < |cart| && cart[r.value].id == id &&
                        forall j :: 0 <= j < r.value ==> cart[j].id != id
  {
    if cart == [] then None
    else if cart[0].id == id then Some(0)
    else
      var r := FindLine(cart[1..], id);
      assert forall j :: 0 <= j < |cart[1..]| ==> cart[1..][j] == cart[j + 1];
      if r.Some? then Some(r.value + 1) else None
  }

  /** How many units of product `id` the cart holds: the unique line's
      quantity, or 0. */
  function QuantityOf(cart: seq<CartLine>, id: int): (q: int)
    ensures (forall i :: 0 <= i < |cart| ==> cart[i].id != id) ==> q == 0
  {
    match FindLine(cart, id)
    case None => 0
    case Some(i) => cart[i].quantity
  }

  /** The ids present in the cart. */
  function Ids(cart: seq<CartLine>): set<int>
  {
    set i | 0 <= i < |cart| :: cart[i].id
  }

  // ---------------------------------------------------------------------
  // The reducers as functions of the old state

  /** `addToCart`: one more unit of a product already in the cart, otherwise
      a new line at the end with quantity 1. */
  function Added(cart: seq<CartLine>, p: Product): (r: seq<CartLine>)
    ensures FindLine(cart, p.id).Some? ==>
      var i := FindLine(cart, p.id).value;
      |r| == |cart| && r[i] == cart[i].(quantity := cart[i].quantity + 1) &&
      forall j :: 0 <= j < |cart| && j != i ==> r[j] == cart[j]
    ensures FindLine(cart, p.id).None? ==> r == cart + [CartLine(p.id, p.nome, p.preco, 1)]
  {
    match FindLine(cart, p.id)
    case Some(i) => cart[i := cart[i].(quantity := cart[i].quantity + 1)]
    case None => cart + [CartLine(p.id, p.nome, p.preco, 1)]
  }

  /** `incrementQuantity`: one more unit of the line with that id, if any. */
  function Incremented(cart: seq<CartLine>, id: int): (r: seq<CartLine>)
    ensures |r| == |cart|
    ensures forall j :: 0 <= j < |cart| && FindLine(cart, id) != Some(j) ==> r[j] == cart[j]
    ensures FindLine(cart, id).Some? ==>
      var i := FindLine(cart, id).value; r[i] == cart[i].(quantity := cart[i].quantity + 1)
  {
    match FindLine(cart, id)
    case Some(i) => cart[i := cart[i].(quantity := cart[i].quantity + 1)]
    case None => cart
  }

  /** `decrementQuantity`: one unit less of the line with that id, but only
      while it holds more than one; a line is never removed. */
  function Decremented(cart: seq<CartLine>, id: int): (r: seq<CartLine>)
    ensures |r| == |cart|
    ensures forall j :: 0 <= j < |cart| && FindLine(cart, id) != Some(j) ==> r[j] == cart[j]
    ensures FindLine(cart, id).Some? ==>
      var i := FindLine(cart, id).value;
      r[i] == cart[i].(quantity := if cart[i].quantity > 1 then cart[i].quantity - 1 else cart[i].quantity)
  {
    match FindLine(cart, id)
    case Some(i) =>
      if cart[i].quantity > 1 then cart[i := cart[i].(quantity := cart[i].quantity - 1)] else cart
    case None => cart
  }

  /** The slice reducer. */
  function Reduce(cart: seq<CartLine>, action: CartAction): seq<CartLine>
  {
    match action
    case AddToCart(p) => Added(cart, p)
    case IncrementQuantity(id) => Incremented(cart, id)
    case DecrementQuantity(id) => Decremented(cart, id)
    case ClearCart => []
  }

  function ActionId(action: CartAction): Option<int>
  {
    match action
    case AddToCart(p) => Some(p.id)
    case IncrementQuantity(id) => Some(id)
    case DecrementQuantity(id) => Some(id)
    case ClearCart => None
  }

  // ---------------------------------------------------------------------
  // What the reducers mean

  /** In a valid cart the line of a present id is the only one with it. */
  lemma FindLineUnique(cart: seq<CartLine>, i: nat)
    requires ValidCart(cart) && i < |cart|
    ensures FindLine(cart, cart[i].id) == Some(i)
  {
  }

  /** Every reducer keeps ids unique and quantities at least 1. */
  lemma {:induction false} ReduceKeepsValid(cart: seq<CartLine>, action: CartAction)
    requires ValidCart(cart)
    ensures ValidCart(Reduce(cart, action))
  {
    var r := Reduce(cart, action);
    match action
    case AddToCart(p) => {
      if FindLine(cart, p.id).None? {
        assert forall i :: 0 <= i < |cart| ==> r[i] == cart[i];
      }
    }
    case IncrementQuantity(id) => {}
    case DecrementQuantity(id) => {}
    case ClearCart => {}
  }

  /** A reducer touches at most the line whose id the action names, and
      `addToCart` alone may add one line at the end. */
  lemma ReduceTouchesOneLine(cart: seq<CartLine>, action: CartAction, j: nat)
    requires action != ClearCart && j < |cart| && Some(cart[j].id) != ActionId(action)
    ensures j < |Reduce(cart, action)| && Reduce(cart, action)[j] == cart[j]
  {
  }

  /** The number of lines grows by at most one, and only for a new product. */
  lemma ReduceLength(cart: seq<CartLine>, action: CartAction)
    ensures action.AddToCart? ==>
      |Reduce(cart, action)| == |cart| + (if action.product.id in Ids(cart) then 0 else 1)
    ensures action.IncrementQuantity? || action.DecrementQuantity? ==> |Reduce(cart, action)| == |cart|
    ensures action.ClearCart? ==> Reduce(cart, action) == []
  {
    if action.AddToCart? {
      if action.product.id in Ids(cart) {
        var i :| 0 <= i < |cart| && cart[i].id == action.product.id;
      }
    }
  }

  /** The quantity each reducer leaves for every product id, in a valid cart:
      `addToCart` and `incrementQuantity` add one unit of the named product
      (the latter only when it is present), `decrementQuantity` removes one
      only from a line holding more than one, `clearCart` leaves nothing. */
  lemma {:induction false} ReduceQuantities(cart: seq<CartLine>, action: CartAction, k: int)
    requires ValidCart(cart)
    ensures var q := QuantityOf(cart, k);
      QuantityOf(Reduce(cart, action), k) ==
      match action
      case AddToCart(p) => if k == p.id then q + 1 else q
      case IncrementQuantity(id) => if k == id && k in Ids(cart) then q + 1 else q
      case DecrementQuantity(id) => if k == id && q > 1 then q - 1 else q
      case ClearCart => 0
  {
    ReduceKeepsValid(cart, action);
    var r := Reduce(cart, action);
    if action.ClearCart? {
      return;
    }
    var id := ActionId(action).value;
    if k in Ids(cart) {
      var i :| 0 <= i < |cart| && cart[i].id == k;
      FindLineUnique(cart, i);
      assert r[i].id == k;
      FindLineUnique(r, i);
    } else if action.AddToCart? && k == id {
      assert r[|cart|].id == k;
      FindLineUnique(r, |cart|);
    } else {
      assert forall i :: 0 <= i < |r| ==> r[i].id != k by {
        forall i | 0 <= i < |r| ensures r[i].id != k {
          if i < |cart| {
            assert cart[i].id != k;
            if FindLine(cart, id) == Some(i) {
              assert r[i].id == cart[i].id;
            }
          }
        }
      }
    }
  }

  // ---------------------------------------------------------------------
  // The store, updated in place as Immer applies the reducers

  class CartStore {
    var lines: seq<CartLine>

    constructor ()
      ensures lines == []
    {
      lines := [];
    }

    /** `existingItem.quantity += 1`, or `state.push({...payload, quantity: 1})`. */
    method AddToCart(p: Product)
      modifies this
      ensures lines == Added(old(lines), p)
    {
      var found := FindLine(lines, p.id);
      if found.Some? {
        var i := found.value;
        lines := lines[i := lines[i].(quantity := lines[i].quantity + 1)];
      } else {
        lines := lines + [CartLine(p.id, p.nome, p.preco, 1)];
      }
    }

    /** `item.quantity += 1` on the matching line. */
    method IncrementQuantity(id: int)
      modifies this
      ensures lines == Incremented(old(lines), id)
    {
      var found := FindLine(lines, id);
      if found.Some? {
        var i := found.value;
        lines := lines[i := lines[i].(quantity := lines[i].quantity + 1)];
      }
    }

    /** `item.quantity -= 1` on the matching line, when it holds more than one. */
    method DecrementQuantity(id: int)
      modifies this
      ensures lines == Decremented(old(lines), id)
    {
      var found := FindLine(lines, id);
      if found.Some? && lines[found.value].quantity > 1 {
        var i := found.value;
        lines := lines[i := lines[i].(quantity := lines[i].quantity - 1)];
      }
    }

    /** `clearCart` returns a new empty state. */
    method ClearCart()
      modifies this
      ensures lines == []
    {
      lines := [];
    }

    /** `dispatch(action)`. */
    method Dispatch(action: CartAction)
      modifies this
      ensures lines == Reduce(old(lines), action)
    {
      match action
      case AddToCart(p) => AddToCart(p);
      case IncrementQuantity(id) => IncrementQuantity(id);
      case DecrementQuantity(id) => DecrementQuantity(id);
      case ClearCart => ClearCart();
    }
  }
}
