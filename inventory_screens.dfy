/** The administrator's `InventarioScreen`: the fetched items with a
    scale value per item id, the search over them and the direct delete. */
module AdminInventory {
  import opened Wrappers
  import OrderRules
  import Screens
  import Search

  const FETCH_ERROR := "Erro ao obter itens do inventário: "
  const DELETED := "Item eliminado com sucesso!"
  const DELETE_ERROR := "Erro ao eliminar item: "

  function ItemName(): OrderRules.InventoryItem -> string
  {
    (item: OrderRules.InventoryItem) => item.nome
  }

  function ItemIds(items: seq<OrderRules.InventoryItem>): (r: seq<int>)
    ensures |r| == |items| && forall i :: 0 <= i < |items| ==> r[i] == items[i].id
  {
    seq(|items|, i requires 0 <= i < |items| => items[i].id)
  }

  class Screen {
    var items: seq<OrderRules.InventoryItem>
    var filteredItems: seq<OrderRules.InventoryItem>
    var searchText: string
    var scaleValues: map<int, int>
    var modal: Screens.Modal
    /** The ids the delete requests were sent for. */
    var deleteRequests: seq<int>
    /** How many times `fetchItems` was started again after a delete. */
    var refetches: nat
    /** NFD normalisation, combining-mark removal and lower-casing. */
    const fold: string -> string

    constructor (fold: string -> string)
      ensures this.fold == fold && items == [] && filteredItems == [] && searchText == ""
      ensures scaleValues == map[] && modal == Screens.HIDDEN_MODAL && deleteRequests == [] && refetches == 0
    {
      this.fold := fold;
      items := [];
      filteredItems := [];
      searchText := "";
      scaleValues := map[];
      modal := Screens.HIDDEN_MODAL;
      deleteRequests := [];
      refetches := 0;
    }

    /** `fetchItems`: on success the items, the unfiltered list and one
        resting scale value per item id; on failure an error modal and no
        other change. */
    method FetchItems(fetched: Result<seq<OrderRules.InventoryItem>>)
      modifies this
      ensures searchText == old(searchText) && deleteRequests == old(deleteRequests) && refetches == old(refetches)
      ensures fetched.Success? ==>
        items == fetched.value && filteredItems == fetched.value &&
        scaleValues.Keys == Screens.IdSet(ItemIds(fetched.value)) &&
        (forall k :: k in scaleValues ==> scaleValues[k] == 1) &&
        modal == old(modal)
      ensures fetched.Failure? ==>
        items == old(items) && filteredItems == old(filteredItems) && scaleValues == old(scaleValues) &&
        modal == Screens.Modal(Screens.ERROR_TITLE, FETCH_ERROR + fetched.error, true)
    {
      if fetched.Failure? {
        modal := Screens.Modal(Screens.ERROR_TITLE, FETCH_ERROR + fetched.error, true);
        return;
      }
      items := fetched.value;
      filteredItems := fetched.value;
      var scales := Screens.ScaleValues(ItemIds(fetched.value));
      scaleValues := scales;
    }

    /** `fetchItems` together with the effect that follows it: a new
        `items` runs `handleSearch(searchText)` again, so the list shown is
        the search over the fetched items with the text already typed. A
        failed fetch leaves `items` alone and the effect does not run. */
    method FetchAndSearch(fetched: Result<seq<OrderRules.InventoryItem>>)
      modifies this
      ensures searchText == old(searchText) && deleteRequests == old(deleteRequests) && refetches == old(refetches)
      ensures fetched.Success? ==>
        items == fetched.value &&
        filteredItems == Search.Search(fetched.value, ItemName(), fold, old(searchText)) &&
        scaleValues.Keys == Screens.IdSet(ItemIds(fetched.value)) &&
        (forall k :: k in scaleValues ==> scaleValues[k] == 1) &&
        modal == old(modal)
      ensures fetched.Failure? ==>
        items == old(items) && filteredItems == old(filteredItems) && scaleValues == old(scaleValues) &&
        modal == Screens.Modal(Screens.ERROR_TITLE, FETCH_ERROR + fetched.error, true)
    {
      FetchItems(fetched);
      if fetched.Success? {
        HandleSearch(searchText);
      }
    }

    /** `handleSearch(text)`, also run by the effect whenever `searchText`
        or `items` change. */
    method HandleSearch(text: string)
      modifies this
      ensures searchText == text
      ensures filteredItems == Search.Search(items, ItemName(), fold, text)
      ensures items == old(items) && scaleValues == old(scaleValues) && modal == old(modal)
      ensures deleteRequests == old(deleteRequests) && refetches == old(refetches)
    {
      searchText := text;
      filteredItems := Search.Search(items, ItemName(), fold, text);
    }

    /** `handleDeleteItem(itemId)`: here the delete is sent at once, with no
        confirmation step; success starts a new fetch. */
    method HandleDeleteItem(itemId: int, outcome: Screens.Outcome)
      modifies this
      ensures deleteRequests == old(deleteRequests) + [itemId]
      ensures items == old(items) && filteredItems == old(filteredItems) && searchText == old(searchText)
      ensures scaleValues == old(scaleValues)
      ensures outcome.Done? ==>
        refetches == old(refetches) + 1 && modal == Screens.Modal(Screens.SUCCESS_TITLE, DELETED, true)
      ensures outcome.Threw? ==>
        refetches == old(refetches) && modal == Screens.Modal(Screens.ERROR_TITLE, DELETE_ERROR + outcome.message, true)
    {
      deleteRequests := deleteRequests + [itemId];
      if outcome.Done? {
        refetches := refetches + 1;
        modal := Screens.Modal(Screens.SUCCESS_TITLE, DELETED, true);
      } else {
        modal := Screens.Modal(Screens.ERROR_TITLE, DELETE_ERROR + outcome.message, true);
      }
    }
  }
}

/** The inventory app's `InventarioScreen`: fetch, search and the
    two-step delete (select, then confirm). */
module InvInventory {
  import opened Wrappers
  import OrderRules
  import Screens
  import Search

  const FETCH_ERROR := "Erro ao obter itens do inventário: "
  const DELETED := "Item eliminado com sucesso!"
  const DELETE_ERROR := "Erro ao eliminar item: "

  function ItemName(): OrderRules.InventoryItem -> string
  {
    (item: OrderRules.InventoryItem) => item.nome
  }

  class Screen {
    var items: seq<OrderRules.InventoryItem>
    var filteredItems: seq<OrderRules.InventoryItem>
    var searchText: string
    var loading: bool
    var modal: Screens.Modal
    /** `selectedItemId`, `null` as `None`. */
    var selectedItemId: Option<int>
    var confirmDeleteVisible: bool
    /** The ids the delete requests were sent for (`None` for `null`). */
    var deleteRequests: seq<Option<int>>
    /** How many times `fetchItems` was started again after a delete. */
    var refetches: nat
    const fold: string -> string

    constructor (fold: string -> string)
      ensures this.fold == fold && items == [] && filteredItems == [] && searchText == "" && loading
      ensures modal == Screens.HIDDEN_MODAL && selectedItemId.None? && !confirmDeleteVisible
      ensures deleteRequests == [] && refetches == 0
    {
      this.fold := fold;
      items := [];
      filteredItems := [];
      searchText := "";
      loading := true;
      modal := Screens.HIDDEN_MODAL;
      selectedItemId := None;
      confirmDeleteVisible := false;
      deleteRequests := [];
      refetches := 0;
    }

    /** `fetchItems`: `loading` ends false on both outcomes. */
    method FetchItems(fetched: Result<seq<OrderRules.InventoryItem>>)
      modifies this
      ensures !loading && searchText == old(searchText)
      ensures selectedItemId == old(selectedItemId) && confirmDeleteVisible == old(confirmDeleteVisible)
      ensures deleteRequests == old(deleteRequests) && refetches == old(refetches)
      ensures fetched.Success? ==> items == fetched.value && filteredItems == fetched.value && modal == old(modal)
      ensures fetched.Failure? ==>
        items == old(items) && filteredItems == old(filteredItems) &&
        modal == Screens.Modal(Screens.ERROR_TITLE, FETCH_ERROR + fetched.error, true)
    {
      if fetched.Success? {
        items := fetched.value;
        filteredItems := fetched.value;
      } else {
        modal := Screens.Modal(Screens.ERROR_TITLE, FETCH_ERROR + fetched.error, true);
      }
      loading := false;
    }

    /** `fetchItems` and the effect a new `items` triggers, which runs
        `handleSearch(searchText)` again over the fetched items. */
    method FetchAndSearch(fetched: Result<seq<OrderRules.InventoryItem>>)
      modifies this
      ensures !loading && searchText == old(searchText)
      ensures selectedItemId == old(selectedItemId) && confirmDeleteVisible == old(confirmDeleteVisible)
      ensures deleteRequests == old(deleteRequests) && refetches == old(refetches)
      ensures fetched.Success? ==>
        items == fetched.value &&
        filteredItems == Search.Search(fetched.value, ItemName(), fold, old(searchText)) &&
        modal == old(modal)
      ensures fetched.Failure? ==>
        items == old(items) && filteredItems == old(filteredItems) &&
        modal == Screens.Modal(Screens.ERROR_TITLE, FETCH_ERROR + fetched.error, true)
    {
      FetchItems(fetched);
      if fetched.Success? {
        HandleSearch(searchText);
      }
    }

    method HandleSearch(text: string)
      modifies this
      ensures searchText == text
      ensures filteredItems == Search.Search(items, ItemName(), fold, text)
      ensures items == old(items) && loading == old(loading) && modal == old(modal)
      ensures selectedItemId == old(selectedItemId) && confirmDeleteVisible == old(confirmDeleteVisible)
      ensures deleteRequests == old(deleteRequests) && refetches == old(refetches)
    {
      searchText := text;
      filteredItems := Search.Search(items, ItemName(), fold, text);
    }

    /** `handleDeleteItem(itemId)`: only records the id and opens the
        confirmation; nothing is sent. */
    method HandleDeleteItem(itemId: int)
      modifies this
      ensures selectedItemId == Some(itemId) && confirmDeleteVisible
      ensures items == old(items) && filteredItems == old(filteredItems) && searchText == old(searchText)
      ensures loading == old(loading) && modal == old(modal)
      ensures deleteRequests == old(deleteRequests) && refetches == old(refetches)
    {
      selectedItemId := Some(itemId);
      confirmDeleteVisible := true;
    }

    /** `confirmDeleteItem`: sends the delete for the recorded id; success
        starts a new fetch and shows "Sucesso", failure shows the error; on
        both, the confirmation closes and the selection is cleared. */
    method ConfirmDeleteItem(outcome: Screens.Outcome)
      modifies this
      ensures deleteRequests == old(deleteRequests) + [old(selectedItemId)]
      ensures selectedItemId.None? && !confirmDeleteVisible
      ensures items == old(items) && filteredItems == old(filteredItems) && searchText == old(searchText)
      ensures loading == old(loading)
      ensures outcome.Done? ==>
        refetches == old(refetches) + 1 && modal == Screens.Modal(Screens.SUCCESS_TITLE, DELETED, true)
      ensures outcome.Threw? ==>
        refetches == old(refetches) && modal == Screens.Modal(Screens.ERROR_TITLE, DELETE_ERROR + outcome.message, true)
    {
      deleteRequests := deleteRequests + [selectedItemId];
      if outcome.Done? {
        refetches := refetches + 1;
        modal := Screens.Modal(Screens.SUCCESS_TITLE, DELETED, true);
      } else {
        modal := Screens.Modal(Screens.ERROR_TITLE, DELETE_ERROR + outcome.message, true);
      }
      confirmDeleteVisible := false;
      selectedItemId := None;
    }
  }
}

/** The inventory app's `IngredientesScreen`: fetch, search and the
    two-step delete of an ingredient. */
module Ingredients {
  import opened Wrappers
  import Screens
  import Search

  /** A row of the `Ingrediente` table (stock as an integer). */
  datatype Ingrediente = Ingrediente(id: int, nome: string, quantidade: int)

  const FETCH_ERROR := "Erro ao obter ingredientes do inventário: "
  const DELETED := "Ingrediente eliminado com sucesso!"
  const DELETE_ERROR := "Erro ao eliminar ingrediente: "

  function IngredienteName(): Ingrediente -> string
  {
    (ingrediente: Ingrediente) => ingrediente.nome
  }

  class Screen {
    var ingredientes: seq<Ingrediente>
    var filteredIngredientes: seq<Ingrediente>
    var searchText: string
    var loading: bool
    var modal: Screens.Modal
    var selectedIngredienteId: Option<int>
    var confirmDeleteVisible: bool
    var deleteRequests: seq<Option<int>>
    var refetches: nat
    const fold: string -> string

    constructor (fold: string -> string)
      ensures this.fold == fold && ingredientes == [] && filteredIngredientes == [] && searchText == "" && loading
      ensures modal == Screens.HIDDEN_MODAL && selectedIngredienteId.None? && !confirmDeleteVisible
      ensures deleteRequests == [] && refetches == 0
    {
      this.fold := fold;
      ingredientes := [];
      filteredIngredientes := [];
      searchText := "";
      loading := true;
      modal := Screens.HIDDEN_MODAL;
      selectedIngredienteId := None;
      confirmDeleteVisible := false;
      deleteRequests := [];
      refetches := 0;
    }

    /** `fetchIngredientes`: `loading` ends false on both outcomes. */
    method FetchIngredientes(fetched: Result<seq<Ingrediente>>)
      modifies this
      ensures !loading && searchText == old(searchText)
      ensures selectedIngredienteId == old(selectedIngredienteId) && confirmDeleteVisible == old(confirmDeleteVisible)
      ensures deleteRequests == old(deleteRequests) && refetches == old(refetches)
      ensures fetched.Success? ==>
        ingredientes == fetched.value && filteredIngredientes == fetched.value && modal == old(modal)
      ensures fetched.Failure? ==>
        ingredientes == old(ingredientes) && filteredIngredientes == old(filteredIngredientes) &&
        modal == Screens.Modal(Screens.ERROR_TITLE, FETCH_ERROR + fetched.error, true)
    {
      if fetched.Success? {
        ingredientes := fetched.value;
        filteredIngredientes := fetched.value;
      } else {
        modal := Screens.Modal(Screens.ERROR_TITLE, FETCH_ERROR + fetched.error, true);
      }
      loading := false;
    }

    /** `fetchIngredientes` and the effect a new `ingredientes` triggers,
        which runs `handleSearch(searchText)` again over the fetched rows. */
    method FetchAndSearch(fetched: Result<seq<Ingrediente>>)
      modifies this
      ensures !loading && searchText == old(searchText)
      ensures selectedIngredienteId == old(selectedIngredienteId) && confirmDeleteVisible == old(confirmDeleteVisible)
      ensures deleteRequests == old(deleteRequests) && refetches == old(refetches)
      ensures fetched.Success? ==>
        ingredientes == fetched.value &&
        filteredIngredientes == Search.Search(fetched.value, IngredienteName(), fold, old(searchText)) &&
        modal == old(modal)
      ensures fetched.Failure? ==>
        ingredientes == old(ingredientes) && filteredIngredientes == old(filteredIngredientes) &&
        modal == Screens.Modal(Screens.ERROR_TITLE, FETCH_ERROR + fetched.error, true)
    {
      FetchIngredientes(fetched);
      if fetched.Success? {
        HandleSearch(searchText);
      }
    }

    method HandleSearch(text: string)
      modifies this
      ensures searchText == text
      ensures filteredIngredientes == Search.Search(ingredientes, IngredienteName(), fold, text)
      ensures ingredientes == old(ingredientes) && loading == old(loading) && modal == old(modal)
      ensures selectedIngredienteId == old(selectedIngredienteId) && confirmDeleteVisible == old(confirmDeleteVisible)
      ensures deleteRequests == old(deleteRequests) && refetches == old(refetches)
    {
      searchText := text;
      filteredIngredientes := Search.Search(ingredientes, IngredienteName(), fold, text);
    }

    /** `handleDeleteIngrediente(id)`: records the id and opens the
        confirmation. */
    method HandleDeleteIngrediente(ingredienteId: int)
      modifies this
      ensures selectedIngredienteId == Some(ingredienteId) && confirmDeleteVisible
      ensures ingredientes == old(ingredientes) && filteredIngredientes == old(filteredIngredientes)
      ensures searchText == old(searchText) && loading == old(loading) && modal == old(modal)
      ensures deleteRequests == old(deleteRequests) && refetches == old(refetches)
    {
      selectedIngredienteId := Some(ingredienteId);
      confirmDeleteVisible := true;
    }

    /** `confirmDeleteIngrediente`: whatever the outcome, the selection is
        `null` and the confirmation hidden afterwards. */
    method ConfirmDeleteIngrediente(outcome: Screens.Outcome)
      modifies this
      ensures deleteRequests == old(deleteRequests) + [old(selectedIngredienteId)]
      ensures selectedIngredienteId.None? && !confirmDeleteVisible
      ensures ingredientes == old(ingredientes) && filteredIngredientes == old(filteredIngredientes)
      ensures searchText == old(searchText) && loading == old(loading)
      ensures outcome.Done? ==>
        refetches == old(refetches) + 1 && modal == Screens.Modal(Screens.SUCCESS_TITLE, DELETED, true)
      ensures outcome.Threw? ==>
        refetches == old(refetches) && modal == Screens.Modal(Screens.ERROR_TITLE, DELETE_ERROR + outcome.message, true)
    {
      deleteRequests := deleteRequests + [selectedIngredienteId];
      if outcome.Done? {
        refetches := refetches + 1;
        modal := Screens.Modal(Screens.SUCCESS_TITLE, DELETED, true);
      } else {
        modal := Screens.Modal(Screens.ERROR_TITLE, DELETE_ERROR + outcome.message, true);
      }
      confirmDeleteVisible := false;
      selectedIngredienteId := None;
    }
  }
}
