/** The item form of the inventory app's `CriarItemScreen` and
    `EditaItemScreen`: a name, a price text and a list of ingredient rows
    `{nome, quantidade}` that the handlers append to and edit. A row is an
    object: `[...ingredientes]` copies the list but not the rows, so the row
    being edited is changed in place and the previous list sees the change. */
module ItemForm {
  import opened Wrappers
  import Screens
  import Strings

  /** One ingredient row of the form; both fields are the text inputs. */
  class IngredientRow {
    var nome: string
    var quantidade: string

    constructor (nome: string, quantidade: string)
      ensures this.nome == nome && this.quantidade == quantidade
    {
      this.nome := nome;
      this.quantidade := quantidade;
    }
  }

  /** What a row holds at one moment. */
  datatype RowValue = RowValue(nome: string, quantidade: string)

  const BLANK_ROW := RowValue("", "")

  /** The `field` argument of `handleIngredienteChange`. */
  datatype Field = Nome | Quantidade

  /** One entry of `item.Ingredientes`, as the edit screen reads it. */
  datatype IngredientEntry = IngredientEntry(nome: string, quantidade: int)

  /** The `item` route parameter of the edit screen. */
  datatype EditedItem = EditedItem(id: int, nome: string, preco: int, ingredientes: seq<IngredientEntry>)

  /** The two requests the forms send, with the rows as they are when sent. */
  datatype Request =
    | CreateItem(nome: string, preco: string, ingredientes: seq<RowValue>)
    | UpdateItem(id: int, nome: string, preco: string, ingredientes: seq<RowValue>)

  const CREATED := "Item adicionado com sucesso!"
  const CREATE_ERROR := "Erro ao adicionar item: "
  const UPDATED := "Item atualizado com sucesso!"
  const UPDATE_ERROR := "Falha ao atualizar item: "

  /** No row object appears twice in the list. */
  predicate Distinct(rows: seq<IngredientRow>)
  {
    forall i, j :: 0 <= i < j < |rows| ==> rows[i] != rows[j]
  }

  /** The current contents of a list of rows. */
  function Values(rows: seq<IngredientRow>): (v: seq<RowValue>)
    reads rows
    ensures |v| == |rows|
    ensures forall i :: 0 <= i < |rows| ==> v[i] == RowValue(rows[i].nome, rows[i].quantidade)
  {
    seq(|rows|, i reads rows requires 0 <= i < |rows| => RowValue(rows[i].nome, rows[i].quantidade))
  }

  /** `newIngredientes[index][field] = value`, on the row's contents. */
  function Updated(v: RowValue, field: Field, value: string): (r: RowValue)
    ensures field == Nome ==> r.nome == value && r.quantidade == v.quantidade
    ensures field == Quantidade ==> r.quantidade == value && r.nome == v.nome
  {
    match field
    case Nome => v.(nome := value)
    case Quantidade => v.(quantidade := value)
  }

  /** `item.Ingredientes.map(...)`: the name copied, the quantity as text. */
  function RowsOf(entries: seq<IngredientEntry>): (r: seq<RowValue>)
    ensures |r| == |entries|
    ensures forall i :: 0 <= i < |entries| ==>
      r[i].nome == entries[i].nome && r[i].quantidade == Strings.IntToString(entries[i].quantidade)
  {
    seq(|entries|, i requires 0 <= i < |entries| =>
      RowValue(entries[i].nome, Strings.IntToString(entries[i].quantidade)))
  }

  /** The rows loaded for editing lose nothing: each shows a number that
      reads back as the ingredient's quantity. */
  lemma LoadedQuantitiesReadBack(entries: seq<IngredientEntry>, i: nat)
    requires i < |entries| && entries[i].quantidade >= 0
    ensures var q := RowsOf(entries)[i].quantidade;
      (forall k :: 0 <= k < |q| ==> Strings.IsDigit(q[k])) && Strings.ParseNat(q) == entries[i].quantidade
  {
    Strings.NatToStringRoundTrip(entries[i].quantidade);
  }

  /** Editing the same field twice keeps only the last value; editing the
      other field first does not matter. */
  lemma LastEditWins(v: RowValue, field: Field, first: string, second: string, other: Field, x: string)
    requires other != field
    ensures Updated(Updated(v, field, first), field, second) == Updated(v, field, second)
    ensures Updated(Updated(v, other, x), field, second) == Updated(Updated(v, field, second), other, x)
  {
  }

  /** One fresh row object per entry, holding what `RowsOf` gives. */
  method LoadRows(entries: seq<IngredientEntry>) returns (loaded: seq<IngredientRow>)
    ensures Distinct(loaded) && Values(loaded) == RowsOf(entries)
    ensures forall k :: 0 <= k < |loaded| ==> fresh(loaded[k])
  {
    loaded := [];
    var i := 0;
    while i < |entries|
      invariant 0 <= i <= |entries|
      invariant |loaded| == i && Distinct(loaded)
      invariant forall k :: 0 <= k < i ==> fresh(loaded[k])
      invariant forall k :: 0 <= k < i ==>
        loaded[k].nome == entries[k].nome && loaded[k].quantidade == Strings.IntToString(entries[k].quantidade)
    {
      var row := new IngredientRow(entries[i].nome, Strings.IntToString(entries[i].quantidade));
      assert forall k :: 0 <= k < i ==> loaded[k] != row;
      loaded := loaded + [row];
      i := i + 1;
    }
    assert forall k :: 0 <= k < |loaded| ==> Values(loaded)[k] == RowsOf(entries)[k];
  }

  /** The form state shared by both screens. */
  class Form {
    var nome: string
    var preco: string
    var rows: seq<IngredientRow>
    var modal: Screens.Modal
    var requests: seq<Request>
    /** Back navigations scheduled by a successful save. */
    var backNavigations: nat

    predicate Valid()
      reads this
    {
      Distinct(rows)
    }

    function Contents(): seq<RowValue>
      reads this, rows
    {
      Values(rows)
    }

    /** The initial state: empty name and price, one blank row. */
    constructor ()
      ensures Valid() && nome == "" && preco == "" && Contents() == [BLANK_ROW]
      ensures |rows| == 1 && fresh(rows[0])
      ensures modal == Screens.HIDDEN_MODAL && requests == [] && backNavigations == 0
    {
      var blank := new IngredientRow("", "");
      nome := "";
      preco := "";
      rows := [blank];
      modal := Screens.HIDDEN_MODAL;
      requests := [];
      backNavigations := 0;
    }

    /** `handleAddIngrediente`: a new blank row at the end; the earlier row
        objects are kept as they are. */
    method AddIngrediente()
      requires Valid()
      modifies this
      ensures Valid()
      ensures |rows| == |old(rows)| + 1 && rows[..|old(rows)|] == old(rows) && fresh(rows[|old(rows)|])
      ensures Contents() == old(Contents()) + [BLANK_ROW]
      ensures nome == old(nome) && preco == old(preco) && modal == old(modal)
      ensures requests == old(requests) && backNavigations == old(backNavigations)
    {
      var blank := new IngredientRow("", "");
      rows := rows + [blank];
    }

    /** `handleIngredienteChange(index, field, value)`. The handler is bound
        to a rendered row, so `index` is in range. The list holds the same
        row objects afterwards; only row `index`, and only its `field`,
        changed. */
    method ChangeIngrediente(index: nat, field: Field, value: string)
      requires Valid() && index < |rows|
      modifies this, rows[index]
      ensures Valid()
      ensures rows == old(rows)
      ensures Contents() == old(Contents())[index := Updated(old(Contents())[index], field, value)]
      ensures nome == old(nome) && preco == old(preco) && modal == old(modal)
      ensures requests == old(requests) && backNavigations == old(backNavigations)
    {
      var newRows := rows;
      var row := newRows[index];
      match field
      case Nome => row.nome := value;
      case Quantidade => row.quantidade := value;
      rows := newRows;
    }

    /** The edit screen's effect, when `item` is set: the name copied, the
        price as text and one fresh row per ingredient of the item. */
    method InitialiseFrom(item: Option<EditedItem>)
      requires Valid()
      modifies this
      ensures Valid()
      ensures item.None? ==> nome == old(nome) && preco == old(preco) && rows == old(rows)
      ensures item.Some? ==>
        nome == item.value.nome && preco == Strings.IntToString(item.value.preco) &&
        Contents() == RowsOf(item.value.ingredientes) &&
        forall i :: 0 <= i < |rows| ==> fresh(rows[i])
      ensures modal == old(modal) && requests == old(requests) && backNavigations == old(backNavigations)
    {
      if item.None? {
        return;
      }
      var loaded := LoadRows(item.value.ingredientes);
      nome := item.value.nome;
      preco := Strings.IntToString(item.value.preco);
      rows := loaded;
    }

    /** `handleCreateItem`: sends the name, the price and the rows as they
        are; the modal reports the outcome. */
    method CreateItem(outcome: Screens.Outcome)
      requires Valid()
      modifies this
      ensures Valid()
      ensures requests == old(requests) + [Request.CreateItem(nome, preco, Contents())]
      ensures outcome.Done? ==> modal == Screens.Modal(Screens.SUCCESS_TITLE, CREATED, true)
      ensures outcome.Threw? ==> modal == Screens.Modal(Screens.ERROR_TITLE, CREATE_ERROR + outcome.message, true)
      ensures nome == old(nome) && preco == old(preco) && rows == old(rows) && backNavigations == old(backNavigations)
    {
      requests := requests + [Request.CreateItem(nome, preco, Values(rows))];
      if outcome.Done? {
        modal := Screens.Modal(Screens.SUCCESS_TITLE, CREATED, true);
      } else {
        modal := Screens.Modal(Screens.ERROR_TITLE, CREATE_ERROR + outcome.message, true);
      }
    }

    /** `handleSave`: sends the item id with the name, price and rows; a
        success also schedules the way back. */
    method Save(itemId: int, outcome: Screens.Outcome)
      requires Valid()
      modifies this
      ensures Valid()
      ensures requests == old(requests) + [UpdateItem(itemId, nome, preco, Contents())]
      ensures outcome.Done? ==>
        modal == Screens.Modal(Screens.SUCCESS_TITLE, UPDATED, true) && backNavigations == old(backNavigations) + 1
      ensures outcome.Threw? ==>
        modal == Screens.Modal(Screens.ERROR_TITLE, UPDATE_ERROR + outcome.message, true) &&
        backNavigations == old(backNavigations)
      ensures nome == old(nome) && preco == old(preco) && rows == old(rows)
    {
      requests := requests + [UpdateItem(itemId, nome, preco, Values(rows))];
      if outcome.Done? {
        modal := Screens.Modal(Screens.SUCCESS_TITLE, UPDATED, true);
        backNavigations := backNavigations + 1;
      } else {
        modal := Screens.Modal(Screens.ERROR_TITLE, UPDATE_ERROR + outcome.message, true);
      }
    }
  }

  /** After the change, a list captured before it shows the new value too:
      both lists hold the same row object. */
  method ChangeSeenThroughEarlierList(form: Form, index: nat, value: string) returns (before: seq<RowValue>, after: seq<RowValue>)
    requires form.Valid() && index < |form.rows|
    modifies form, form.rows[index]
    ensures |before| == |after| && index < |after|
    ensures before[index].nome == value && after[index].nome == value
  {
    var earlier := form.rows;
    form.ChangeIngrediente(index, Nome, value);
    before := Values(earlier);
    after := form.Contents();
  }
}
