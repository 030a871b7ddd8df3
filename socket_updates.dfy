/** The `atualizarItens` listener of `useSocket`: each server message
    rebuilds the local list of inventory entries by appending, merging by id
    or removing by id. Entries are plain objects. */
module SocketUpdates {
  import opened Seqs
  import Js

  const ITEM_ADDED := "Novo item adicionado ao inventário"
  const ITEM_UPDATED := "Item atualizado no inventário"
  const ITEM_REMOVED := "Item removido do inventário"

  /** The message's `{ message, item, itemId }`. */
  datatype Event = Event(message: Js.Value, item: Js.Obj, itemId: Js.Value)

  /** `pedido.id === item.id`. */
  function SameIdAs(item: Js.Obj): Js.Obj -> bool
  {
    (entry: Js.Obj) => Js.Get(entry, "id") == Js.Get(item, "id")
  }

  /** `pedido.id !== itemId`. */
  function IdIsNot(itemId: Js.Value): Js.Obj -> bool
  {
    (entry: Js.Obj) => Js.Get(entry, "id") != itemId
  }

  /** `prevPedidos.map((pedido) => pedido.id === item.id ? {...pedido, ...item} : pedido)`. */
  function Merged(list: seq<Js.Obj>, item: Js.Obj): seq<Js.Obj>
  {
    seq(|list|, i requires 0 <= i < |list| => if SameIdAs(item)(list[i]) then Js.Spread(list[i], item) else list[i])
  }

  /** The new list for one message; any other message keeps the list. */
  function Apply(list: seq<Js.Obj>, e: Event): seq<Js.Obj>
  {
    if e.message == Js.Str(ITEM_ADDED) then list + [e.item]
    else if e.message == Js.Str(ITEM_UPDATED) then Merged(list, e.item)
    else if e.message == Js.Str(ITEM_REMOVED) then Filter(list, IdIsNot(e.itemId))
    else list
  }

  /** A new item goes at the end; the entries before it are untouched. */
  lemma AddAppends(list: seq<Js.Obj>, e: Event)
    requires e.message == Js.Str(ITEM_ADDED)
    ensures |Apply(list, e)| == |list| + 1
    ensures Apply(list, e)[..|list|] == list && Apply(list, e)[|list|] == e.item
  {
  }

  /** An update keeps the length and the order, leaves the entries with
      another id as they were, and gives every entry with the item's id all
      of the item's fields while keeping its own other fields. */
  lemma {:induction false} UpdateMerges(list: seq<Js.Obj>, e: Event)
    requires e.message == Js.Str(ITEM_UPDATED)
    ensures |Apply(list, e)| == |list|
    ensures forall i :: 0 <= i < |list| && Js.Get(list[i], "id") != Js.Get(e.item, "id") ==> Apply(list, e)[i] == list[i]
    ensures forall i :: 0 <= i < |list| && Js.Get(list[i], "id") == Js.Get(e.item, "id") ==>
      Apply(list, e)[i].Keys == list[i].Keys + e.item.Keys &&
      (forall k :: k in e.item ==> Apply(list, e)[i][k] == e.item[k]) &&
      (forall k :: k in list[i] && k !in e.item ==> Apply(list, e)[i][k] == list[i][k])
  {
    assert e.message != Js.Str(ITEM_ADDED);
    var r := Apply(list, e);
    assert r == Merged(list, e.item);
    forall i | 0 <= i < |list|
      ensures r[i] == if SameIdAs(e.item)(list[i]) then Js.Spread(list[i], e.item) else list[i]
    {
    }
  }

  /** Merging keeps the id every entry is matched on. */
  lemma MergeKeepsId(entry: Js.Obj, item: Js.Obj)
    requires Js.Get(entry, "id") == Js.Get(item, "id")
    ensures Js.Get(Js.Spread(entry, item), "id") == Js.Get(entry, "id")
  {
  }

  /** Receiving the same update twice changes nothing more. */
  lemma {:induction false} UpdateIdempotent(list: seq<Js.Obj>, item: Js.Obj)
    ensures Merged(Merged(list, item), item) == Merged(list, item)
  {
    var once := Merged(list, item);
    var twice := Merged(once, item);
    forall i | 0 <= i < |list| ensures twice[i] == once[i] {
      if SameIdAs(item)(list[i]) {
        MergeKeepsId(list[i], item);
        assert SameIdAs(item)(once[i]);
        assert Js.Spread(once[i], item) == once[i];
      } else {
        assert once[i] == list[i];
      }
    }
  }

  /** A removal drops every entry with that id and nothing else, keeping the
      order of the rest, and a second removal changes nothing. */
  lemma RemoveDrops(list: seq<Js.Obj>, e: Event)
    requires e.message == Js.Str(ITEM_REMOVED)
    ensures forall x :: x in Apply(list, e) <==> x in list && Js.Get(x, "id") != e.itemId
    ensures SubsequenceOf(Apply(list, e), list)
    ensures Filter(Apply(list, e), IdIsNot(e.itemId)) == Apply(list, e)
  {
    FilterIsSubsequence(list, IdIsNot(e.itemId));
    FilterNarrow(list, IdIsNot(e.itemId), IdIsNot(e.itemId));
  }

  /** Any other message leaves the list as it was. */
  lemma OtherMessageKeeps(list: seq<Js.Obj>, e: Event)
    requires e.message !in {Js.Str(ITEM_ADDED), Js.Str(ITEM_UPDATED), Js.Str(ITEM_REMOVED)}
    ensures Apply(list, e) == list
  {
  }
}
