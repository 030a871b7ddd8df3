/** What the cart screens derive from the cart and do with it: the displayed
    total and line subtotals, the order payload sent to the backend, the
    confirm / cancel handlers of `CartScreen`, the buttons of `ActionModal`,
    and the modal handlers of both `PedidosScreen`s. */
module CartViews {
  import opened Wrappers
  import opened CartSlice
  import OrderRules
  import Search

  const EMPTY_CART := "O carrinho está vazio. Adicione itens antes de confirmar a compra."
  const PURCHASE_CONFIRMED := "Compra confirmada com sucesso!"
  const PURCHASE_FAILED := "Falha ao criar grupo de pedidos."
  const PURCHASE_CANCELLED := "Compra cancelada!"

  /** `item.preco * item.quantity`. */
  function LineSubtotal(l: CartLine): int
  {
    l.preco * l.quantity
  }

  /** `cartItems.reduce((acc, item) => acc + item.preco * item.quantity, 0)`:
      a left fold, so the last line is added last. */
  function CartTotal(cart: seq<CartLine>): (t: int)
    ensures cart == [] ==> t == 0
  {
    if cart == [] then 0 else CartTotal(cart[..|cart| - 1]) + LineSubtotal(cart[|cart| - 1])
  }

  /** Replacing one line changes the total by the difference of subtotals. */
  lemma {:induction false} CartTotalUpdate(cart: seq<CartLine>, i: nat, l: CartLine)
    requires i < |cart|
    ensures CartTotal(cart[i := l]) == CartTotal(cart) - LineSubtotal(cart[i]) + LineSubtotal(l)
  {
    var n := |cart| - 1;
    var c' := cart[i := l];
    if i < n {
      assert c'[..n] == cart[..n][i := l];
      CartTotalUpdate(cart[..n], i, l);
    } else {
      assert c'[..n] == cart[..n];
    }
  }

  /** One unit more or less of a line moves its subtotal by its price. */
  lemma SubtotalStep(l: CartLine, d: int)
    ensures LineSubtotal(l.(quantity := l.quantity + d)) == LineSubtotal(l) + d * l.preco
  {
    assert l.preco * (l.quantity + d) == l.preco * l.quantity + l.preco * d;
  }

  /** Changing the quantity of line `i` by `d` moves the total by `d` times
      its price. */
  lemma TotalStep(cart: seq<CartLine>, i: nat, d: int)
    requires i < |cart|
    ensures CartTotal(cart[i := cart[i].(quantity := cart[i].quantity + d)]) == CartTotal(cart) + d * cart[i].preco
  {
    CartTotalUpdate(cart, i, cart[i].(quantity := cart[i].quantity + d));
    SubtotalStep(cart[i], d);
  }

  /** `addToCart` raises the total by the product's price: the stored
      line's price when the product is already in the cart. */
  lemma AddedMovesTotal(cart: seq<CartLine>, p: Product)
    ensures CartTotal(Added(cart, p)) == CartTotal(cart) +
      match FindLine(cart, p.id)
      case Some(i) => cart[i].preco
      case None => p.preco
  {
    var r := Added(cart, p);
    match FindLine(cart, p.id)
    case Some(i) => {
      TotalStep(cart, i, 1);
    }
    case None => {
      assert r[..|r| - 1] == cart;
      assert LineSubtotal(r[|r| - 1]) == p.preco;
    }
  }

  /** `incrementQuantity` raises the total by the matching line's price. */
  lemma IncrementedMovesTotal(cart: seq<CartLine>, id: int)
    ensures CartTotal(Incremented(cart, id)) == CartTotal(cart) +
      match FindLine(cart, id)
      case Some(i) => cart[i].preco
      case None => 0
  {
    if FindLine(cart, id).Some? {
      var i := FindLine(cart, id).value;
      TotalStep(cart, i, 1);
    }
  }

  /** `decrementQuantity` lowers the total by the matching line's price, but
      only when that line holds more than one unit. */
  lemma DecrementedMovesTotal(cart: seq<CartLine>, id: int)
    ensures CartTotal(Decremented(cart, id)) == CartTotal(cart) -
      match FindLine(cart, id)
      case Some(i) => if cart[i].quantity > 1 then cart[i].preco else 0
      case None => 0
  {
    if FindLine(cart, id).Some? && cart[FindLine(cart, id).value].quantity > 1 {
      var i := FindLine(cart, id).value;
      TotalStep(cart, i, -1);
      assert cart[i].quantity + -1 == cart[i].quantity - 1;
    }
  }

  /** `cartItems.map((item) => ({nome: item.nome, quantidade: item.quantity}))`. */
  function OrderPayload(cart: seq<CartLine>): (r: seq<OrderRules.RequestLine>)
    ensures |r| == |cart|
    ensures forall i :: 0 <= i < |cart| ==> r[i].nome == cart[i].nome && r[i].quantidade == cart[i].quantity
  {
    seq(|cart|, i requires 0 <= i < |cart| => OrderRules.RequestLine(cart[i].nome, cart[i].quantity))
  }

  /** Every cart line names an inventory item whose first match by name has
      the price the cart shows. */
  predicate PricesAgree(cart: seq<CartLine>, inventory: seq<OrderRules.InventoryItem>)
  {
    forall i :: 0 <= i < |cart| ==>
      OrderRules.FindByName(inventory, cart[i].nome).Some? &&
      OrderRules.FindByName(inventory, cart[i].nome).value.preco == cart[i].preco
  }

  /** The backend accepts the payload exactly when every cart line names an
      inventory item. */
  lemma PayloadAccepted(cart: seq<CartLine>, inventory: seq<OrderRules.InventoryItem>)
    ensures OrderRules.InvalidNames(OrderPayload(cart), inventory) == [] <==>
      forall i :: 0 <= i < |cart| ==> cart[i].nome in OrderRules.ValidNames(inventory)
  {
  }

  /** A prefix of a cart whose prices agree still agrees. */
  lemma PricesAgreePrefix(cart: seq<CartLine>, inventory: seq<OrderRules.InventoryItem>, n: nat)
    requires PricesAgree(cart, inventory) && n <= |cart|
    ensures PricesAgree(cart[..n], inventory)
  {
    forall i | 0 <= i < n
      ensures OrderRules.FindByName(inventory, cart[..n][i].nome).Some? &&
              OrderRules.FindByName(inventory, cart[..n][i].nome).value.preco == cart[..n][i].preco
    {
      assert cart[..n][i] == cart[i];
    }
  }

  /** Prices that agree mean every payload line names an inventory item. */
  lemma PayloadKnown(cart: seq<CartLine>, inventory: seq<OrderRules.InventoryItem>)
    requires PricesAgree(cart, inventory)
    ensures OrderRules.AllKnown(OrderPayload(cart), inventory)
  {
    var payload := OrderPayload(cart);
    forall i | 0 <= i < |payload| ensures payload[i].nome in OrderRules.ValidNames(inventory) {
      assert OrderRules.FindByName(inventory, cart[i].nome).Some?;
    }
  }

  /** When the cart's prices agree with the inventory, the total the backend
      computes for the payload is the total the cart screen shows. */
  lemma {:induction false} PayloadTotal(cart: seq<CartLine>, inventory: seq<OrderRules.InventoryItem>)
    requires PricesAgree(cart, inventory)
    ensures OrderRules.AllKnown(OrderPayload(cart), inventory)
    ensures OrderRules.Total(OrderPayload(cart), inventory) == CartTotal(cart)
  {
    PayloadKnown(cart, inventory);
    if cart != [] {
      var n := |cart| - 1;
      var payload := OrderPayload(cart);
      PricesAgreePrefix(cart, inventory, n);
      PayloadKnown(cart[..n], inventory);
      PayloadTotal(cart[..n], inventory);
      assert payload[..n] == OrderPayload(cart[..n]);
      assert OrderRules.LineCost(payload[n], inventory) == LineSubtotal(cart[n]);
    }
  }

  // ---------------------------------------------------------------------
  // CartScreen

  /** The cart screen: the shared store plus the effects its handlers have
      had so far (alerts shown, order requests sent, back navigations). */
  class CartScreen {
    const store: CartStore
    var alerts: seq<string>
    var requests: seq<seq<OrderRules.RequestLine>>
    var backNavigations: nat

    constructor (store: CartStore)
      ensures this.store == store && alerts == [] && requests == [] && backNavigations == 0
    {
      this.store := store;
      alerts := [];
      requests := [];
      backNavigations := 0;
    }

    /** `handleConfirm`. `accepted` is whether `criarNovoGrupoDePedidos`
        resolved. An empty cart only alerts; otherwise the payload is sent,
        and the cart is cleared only when the request succeeds. */
    method HandleConfirm(accepted: bool)
      modifies this, store
      ensures old(store.lines) == [] ==>
        store.lines == [] && requests == old(requests) && alerts == old(alerts) + [EMPTY_CART] &&
        backNavigations == old(backNavigations)
      ensures old(store.lines) != [] ==> requests == old(requests) + [OrderPayload(old(store.lines))]
      ensures old(store.lines) != [] && accepted ==>
        store.lines == [] && alerts == old(alerts) + [PURCHASE_CONFIRMED] && backNavigations == old(backNavigations) + 1
      ensures old(store.lines) != [] && !accepted ==>
        store.lines == old(store.lines) && alerts == old(alerts) + [PURCHASE_FAILED] &&
        backNavigations == old(backNavigations)
    {
      if |store.lines| == 0 {
        alerts := alerts + [EMPTY_CART];
        return;
      }
      var orderData := OrderPayload(store.lines);
      requests := requests + [orderData];
      if accepted {
        backNavigations := backNavigations + 1;
        store.ClearCart();
        alerts := alerts + [PURCHASE_CONFIRMED];
      } else {
        alerts := alerts + [PURCHASE_FAILED];
      }
    }

    /** `handleCancel`: always clears the cart and goes back. */
    method HandleCancel()
      modifies this, store
      ensures store.lines == [] && requests == old(requests)
      ensures alerts == old(alerts) + [PURCHASE_CANCELLED] && backNavigations == old(backNavigations) + 1
    {
      store.ClearCart();
      backNavigations := backNavigations + 1;
      alerts := alerts + [PURCHASE_CANCELLED];
    }
  }

  // ---------------------------------------------------------------------
  // ActionModal

  datatype ModalControl = MinusPressed(row: CartLine) | PlusPressed(row: CartLine) | ConfirmPressed | BackPressed | CancelPressed

  /** The handlers the modal receives from its caller. */
  datatype ModalHandler = OnConfirm | OnBack | OnClose

  datatype ModalEffect = Dispatch(action: CartAction) | Call(handler: ModalHandler)

  /** What a press in the modal does: the quantity buttons dispatch an
      action naming their own row's id; the other three only call the
      caller's handler. */
  function Press(c: ModalControl): (e: ModalEffect)
    ensures e.Dispatch? <==> c.MinusPressed? || c.PlusPressed?
    ensures c.PlusPressed? ==> e == Dispatch(IncrementQuantity(c.row.id))
    ensures c.MinusPressed? ==> e == Dispatch(DecrementQuantity(c.row.id))
    ensures c == ConfirmPressed ==> e == Call(OnConfirm)
    ensures c == BackPressed ==> e == Call(OnBack)
    ensures c == CancelPressed ==> e == Call(OnClose)
  {
    match c
    case MinusPressed(row) => Dispatch(DecrementQuantity(row.id))
    case PlusPressed(row) => Dispatch(IncrementQuantity(row.id))
    case ConfirmPressed => Call(OnConfirm)
    case BackPressed => Call(OnBack)
    case CancelPressed => Call(OnClose)
  }

  /** A quantity button leaves every other row of the cart as it was, and
      moves the modal's total by at most the row's price. */
  lemma {:induction false} QuantityButtonTouchesOnlyItsRow(cart: seq<CartLine>, i: nat, plus: bool, j: nat)
    requires ValidCart(cart) && i < |cart| && j < |cart| && j != i
    ensures var c := if plus then PlusPressed(cart[i]) else MinusPressed(cart[i]);
      var after := Reduce(cart, Press(c).action);
      |after| == |cart| && after[j] == cart[j] &&
      CartTotal(after) == CartTotal(cart) + (if plus then cart[i].preco else if cart[i].quantity > 1 then -cart[i].preco else 0)
  {
    FindLineUnique(cart, i);
    if plus {
      IncrementedMovesTotal(cart, cart[i].id);
    } else {
      DecrementedMovesTotal(cart, cart[i].id);
    }
  }

  /** What a press does to the cart once its effect reaches the slice:
      `+` gives the pressed row one more unit, `-` one less but never below
      1, no other row changes, and the three handler buttons dispatch
      nothing at all. */
  lemma PressEffect(cart: seq<CartLine>, c: ModalControl)
    requires ValidCart(cart)
    requires c.MinusPressed? || c.PlusPressed? ==> c.row in cart
    ensures c.MinusPressed? || c.PlusPressed? ==>
      var after := Reduce(cart, Press(c).action);
      |after| == |cart| &&
      QuantityOf(after, c.row.id) ==
        (if c.PlusPressed? then c.row.quantity + 1
         else if c.row.quantity > 1 then c.row.quantity - 1 else 1) &&
      forall j :: 0 <= j < |cart| && cart[j].id != c.row.id ==> after[j] == cart[j]
    ensures !(c.MinusPressed? || c.PlusPressed?) ==> Press(c).Call?
  {
    if c.MinusPressed? || c.PlusPressed? {
      var i :| 0 <= i < |cart| && cart[i] == c.row;
      FindLineUnique(cart, i);
      var after := Reduce(cart, Press(c).action);
      ReduceKeepsValid(cart, Press(c).action);
      FindLineUnique(after, i);
    }
  }

  // ---------------------------------------------------------------------
  // PedidosScreen (both apps)

  function ProductName(): Product -> string
  {
    (p: Product) => p.nome
  }

  /** The order screen: the inventory it shows, the search over it, its
      modal and the order requests it has sent. */
  class OrderScreen {
    const store: CartStore
    var inventoryItems: seq<Product>
    var filteredItems: seq<Product>
    var searchText: string
    var modalVisible: bool
    var requests: seq<seq<OrderRules.RequestLine>>
    /** NFD normalisation, combining-mark removal and lower-casing. */
    const fold: string -> string

    constructor (store: CartStore, fold: string -> string)
      ensures this.store == store && this.fold == fold && !modalVisible && requests == []
      ensures inventoryItems == [] && filteredItems == [] && searchText == ""
    {
      this.store := store;
      this.fold := fold;
      inventoryItems := [];
      filteredItems := [];
      searchText := "";
      modalVisible := false;
      requests := [];
    }

    /** `fetchInventoryItems`: a failed fetch is only logged. */
    method FetchInventoryItems(fetched: Option<seq<Product>>)
      modifies this
      ensures fetched.Some? ==> inventoryItems == fetched.value && filteredItems == fetched.value
      ensures fetched.None? ==> inventoryItems == old(inventoryItems) && filteredItems == old(filteredItems)
      ensures searchText == old(searchText) && modalVisible == old(modalVisible) && requests == old(requests)
    {
      if fetched.Some? {
        inventoryItems := fetched.value;
        filteredItems := fetched.value;
      }
    }

    /** `fetchInventoryItems` and the effect a new `inventoryItems`
        triggers, which runs `handleSearch(searchText)` again over the
        fetched products. */
    method FetchAndSearch(fetched: Option<seq<Product>>)
      modifies this
      ensures fetched.Some? ==>
        inventoryItems == fetched.value &&
        filteredItems == Search.Search(fetched.value, ProductName(), fold, old(searchText))
      ensures fetched.None? ==> inventoryItems == old(inventoryItems) && filteredItems == old(filteredItems)
      ensures searchText == old(searchText) && modalVisible == old(modalVisible) && requests == old(requests)
    {
      FetchInventoryItems(fetched);
      if fetched.Some? {
        HandleSearch(searchText);
      }
    }

    /** `handleSearch(text)`, also run by the effect whenever `searchText`
        or `inventoryItems` change. */
    method HandleSearch(text: string)
      modifies this
      ensures searchText == text
      ensures filteredItems == Search.Search(inventoryItems, ProductName(), fold, text)
      ensures inventoryItems == old(inventoryItems) && modalVisible == old(modalVisible) && requests == old(requests)
    {
      searchText := text;
      filteredItems := Search.Search(inventoryItems, ProductName(), fold, text);
    }

    /** `handleCloseModal`: hide the modal and clear the cart. */
    method HandleCloseModal()
      modifies this, store
      ensures !modalVisible && store.lines == [] && requests == old(requests)
      ensures inventoryItems == old(inventoryItems) && filteredItems == old(filteredItems) && searchText == old(searchText)
    {
      modalVisible := false;
      store.ClearCart();
    }

    /** `handleBackModal`: hide the modal only. */
    method HandleBackModal()
      modifies this
      ensures !modalVisible && requests == old(requests) && store.lines == old(store.lines)
      ensures inventoryItems == old(inventoryItems) && filteredItems == old(filteredItems) && searchText == old(searchText)
    {
      modalVisible := false;
    }

    /** `handleConfirmOrder`. There is no empty-cart check: the payload is
        always sent. On success the cart is cleared and the modal closed; on
        failure nothing else changes. */
    method HandleConfirmOrder(accepted: bool)
      modifies this, store
      ensures requests == old(requests) + [OrderPayload(old(store.lines))]
      ensures accepted ==> store.lines == [] && !modalVisible
      ensures !accepted ==> store.lines == old(store.lines) && modalVisible == old(modalVisible)
      ensures inventoryItems == old(inventoryItems) && filteredItems == old(filteredItems) && searchText == old(searchText)
    {
      var items := OrderPayload(store.lines);
      requests := requests + [items];
      if accepted {
        store.ClearCart();
        HandleCloseModal();
      }
    }
  }
}
