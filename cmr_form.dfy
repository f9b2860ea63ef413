/** The CMR form component: the form record and the cargo lines it holds as
    state, and the handlers that replace them. `Date.now()` and today's date
    come in as parameters. */
module CmrEditor {
  import opened CargoList
  import M = CmrModel

  /** `item => item.id`. */
  function ItemId(item: M.CargoItem): string { item.id }

  /** The cargo lines as first shown: one blank line with id `1`. */
  function InitialItems(): (r: seq<M.CargoItem>)
    ensures |r| == 1 && r[0].id == "1"
    ensures forall k :: k != M.Id ==> M.GetItem(r[0], k) == ""
  {
    [M.BlankItem("1")]
  }

  /** The lines after `removeCargoItem(id)`. */
  function Removed(items: seq<M.CargoItem>, id: string): seq<M.CargoItem>
  {
    Remove(items, ItemId, id)
  }

  /** The lines after `updateCargoItem(id, k, v)`. */
  function Changed(items: seq<M.CargoItem>, id: string, k: M.CargoField, v: string): seq<M.CargoItem>
  {
    Updated(items, ItemId, (x: M.CargoItem) => M.WithItem(x, k, v), id)
  }

  /** The CMR form's state. */
  class Editor {
    var formData: M.CmrForm
    var cargoItems: seq<M.CargoItem>

    constructor(today: string)
      ensures formData == M.InitialForm(today) && cargoItems == InitialItems()
    {
      formData := M.InitialForm(today);
      cargoItems := InitialItems();
    }

    /** `handleInputChange(field, value)`. */
    method HandleInputChange(k: M.CmrField, v: M.FieldValue)
      requires M.Fits(k, v)
      modifies this
      ensures formData == M.With(old(formData), k, v) && cargoItems == old(cargoItems)
    {
      formData := M.With(formData, k, v);
    }

    /** `addCargoItem()`, with `now` the text of `Date.now()`. */
    method AddCargoItem(now: string)
      modifies this
      ensures cargoItems == old(cargoItems) + [M.BlankItem(now)] && formData == old(formData)
    {
      cargoItems := cargoItems + [M.BlankItem(now)];
    }

    /** `removeCargoItem(id)`. */
    method RemoveCargoItem(id: string)
      modifies this
      ensures cargoItems == Removed(old(cargoItems), id) && formData == old(formData)
    {
      if |cargoItems| > 1 {
        cargoItems := Without(cargoItems, ItemId, id);
      }
    }

    /** `updateCargoItem(id, field, value)`. */
    method UpdateCargoItem(id: string, k: M.CargoField, v: string)
      modifies this
      ensures cargoItems == Changed(old(cargoItems), id, k, v) && formData == old(formData)
    {
      cargoItems := Updated(cargoItems, ItemId, (x: M.CargoItem) => M.WithItem(x, k, v), id);
    }
  }

  /** A one-line list is left as it is. On a longer list exactly the lines
      with the id are dropped: a line survives if and only if its id differs,
      the survivors keep their order (the filter is line by line), and the
      list is emptied only when every line carries that id. With distinct
      ids removal takes at most one line and never empties the list. */
  lemma RemoveCargoItemEffect(items: seq<M.CargoItem>, id: string)
    ensures var r := Removed(items, id);
      (|items| <= 1 ==> r == items)
      && (|items| > 1 ==>
            (forall x :: x in r <==> x in items && x.id != id)
            && |r| == |items| - Count(items, ItemId, id))
      && (r == [] <==> items == [] || (|items| > 1 && forall i :: 0 <= i < |items| ==> items[i].id == id))
      && (Distinct(items, ItemId) && |items| >= 1 ==> |r| >= 1 && |r| >= |items| - 1)
  {
    RemoveEmpties(items, ItemId, id);
    WithoutLength(items, ItemId, id);
    forall x ensures x in Removed(items, id) <==> (|items| > 1 ==> x in items && x.id != id) && (|items| <= 1 ==> x in items) {
      WithoutMembers(items, ItemId, id, x);
    }
    assert forall i :: 0 <= i < |items| ==> ItemId(items[i]) == items[i].id;
  }

  /** Removal keeps the order of the lines it keeps: removing from a
      concatenation removes from each part. */
  lemma RemoveKeepsOrder(a: seq<M.CargoItem>, b: seq<M.CargoItem>, id: string)
    requires |a + b| > 1
    ensures Removed(a + b, id) == Without(a, ItemId, id) + Without(b, ItemId, id)
  {
    WithoutAppend(a, b, ItemId, id);
  }

  /** The update keeps the number and the order of the lines; a line with the
      id gets the value in field `k` and keeps every other field, a line
      with another id is unchanged. */
  lemma UpdateCargoItemEffect(items: seq<M.CargoItem>, id: string, k: M.CargoField, v: string, i: nat)
    requires i < |items|
    ensures var r := Changed(items, id, k, v);
      |r| == |items|
      && (items[i].id == id ==>
            M.GetItem(r[i], k) == v && forall j :: j != k ==> M.GetItem(r[i], j) == M.GetItem(items[i], j))
      && (items[i].id != id ==> r[i] == items[i])
  {
    UpdatedAt(items, ItemId, (x: M.CargoItem) => M.WithItem(x, k, v), id, i);
  }

  /** Editing any field but the id keeps the ids, so distinct ids stay distinct. */
  lemma UpdateKeepsIds(items: seq<M.CargoItem>, id: string, k: M.CargoField, v: string)
    requires Distinct(items, ItemId) && k != M.Id
    ensures Distinct(Changed(items, id, k, v), ItemId)
  {
    var change := (x: M.CargoItem) => M.WithItem(x, k, v);
    forall x ensures ItemId(change(x)) == ItemId(x) {
      assert M.GetItem(change(x), M.Id) == M.GetItem(x, M.Id);
    }
    UpdatedDistinct(items, ItemId, change, id);
  }

  /** A line added with an id no line has yet keeps the ids distinct; the
      earlier lines are unchanged and the new one is blank. */
  lemma AddCargoItemEffect(items: seq<M.CargoItem>, now: string)
    requires Distinct(items, ItemId)
    requires forall i :: 0 <= i < |items| ==> items[i].id != now
    ensures var r := items + [M.BlankItem(now)];
      Distinct(r, ItemId) && r[..|items|] == items && r[|items|].id == now
      && forall k :: k != M.Id ==> M.GetItem(r[|items|], k) == ""
  {
    AppendDistinct(items, ItemId, M.BlankItem(now));
  }
}
