/** The bill of lading form component: the form record and the cargo lines
    it holds as state, and the handlers that replace them. A new line's id is
    the list length plus one, so ids can repeat after a removal; a corrected
    choice of id, one no line carries, is defined and proved below. */
module BolEditor {
  import opened Numeric
  import opened CargoList
  import M = BolModel

  /** `item => item.id`. */
  function ItemId(item: M.CargoItem): string { item.id }

  /** The cargo lines as first shown: one blank line with id `1`. */
  function InitialItems(): (r: seq<M.CargoItem>)
    ensures |r| == 1 && r[0].id == "1"
    ensures forall k :: k != M.Id ==> M.GetItem(r[0], k) == ""
  {
    [M.BlankItem("1")]
  }

  /** `(cargoItems.length + 1).toString()`: decimal digits without a leading
      zero that read as the length plus one, which by `NatToDigitsUnique` is
      exactly the text `toString` gives. */
  function NextId(items: seq<M.CargoItem>): (s: string)
    ensures AllDigits(s) && |s| >= 1 && DigitsValue(s) == |items| + 1
    ensures s[0] != '0'
  {
    NatToDigits(|items| + 1)
  }

  /** The lines after `addCargoItem()`. */
  function Added(items: seq<M.CargoItem>): seq<M.CargoItem>
  {
    items + [M.BlankItem(NextId(items))]
  }

  /** The lines after `removeCargoItem(id)`. */
  function Removed(items: seq<M.CargoItem>, id: string): seq<M.CargoItem>
  {
    Remove(items, ItemId, id)
  }

  /** The lines after `handleCargoChange(id, k, v)`. */
  function Changed(items: seq<M.CargoItem>, id: string, k: M.CargoField, v: string): seq<M.CargoItem>
  {
    Updated(items, ItemId, (x: M.CargoItem) => M.WithItem(x, k, v), id)
  }

  /** The bill of lading form's state. */
  class Editor {
    var formData: M.BolForm
    var cargoItems: seq<M.CargoItem>

    constructor()
      ensures formData == M.InitialForm() && cargoItems == InitialItems()
    {
      formData := M.InitialForm();
      cargoItems := InitialItems();
    }

    /** `handleInputChange(field, value)`. */
    method HandleInputChange(k: M.BolField, v: M.FieldValue)
      requires M.Fits(k, v)
      modifies this
      ensures formData == M.With(old(formData), k, v) && cargoItems == old(cargoItems)
    {
      formData := M.With(formData, k, v);
    }

    /** `handleCargoChange(id, field, value)`. */
    method HandleCargoChange(id: string, k: M.CargoField, v: string)
      modifies this
      ensures cargoItems == Changed(old(cargoItems), id, k, v) && formData == old(formData)
    {
      cargoItems := Updated(cargoItems, ItemId, (x: M.CargoItem) => M.WithItem(x, k, v), id);
    }

    /** `addCargoItem()`. */
    method AddCargoItem()
      modifies this
      ensures cargoItems == Added(old(cargoItems)) && formData == old(formData)
    {
      var newId := NatToDigits(|cargoItems| + 1);
      cargoItems := cargoItems + [M.BlankItem(newId)];
    }

    /** `removeCargoItem(id)`. */
    method RemoveCargoItem(id: string)
      modifies this
      ensures cargoItems == Removed(old(cargoItems), id) && formData == old(formData)
    {
      if |cargoItems| > 1 {
        cargoItems := Without(cargoItems, ItemId, id);
      }
    }
  }

  /** Adding appends one blank line whose id is the decimal text of the old
      length plus one, with no leading zero (so it is the only text that
      spells that number), and leaves the earlier lines as they were. */
  lemma AddCargoItemEffect(items: seq<M.CargoItem>)
    ensures var r := Added(items);
      |r| == |items| + 1 && r[..|items|] == items
      && AllDigits(r[|items|].id) && DigitsValue(r[|items|].id) == |items| + 1
      && r[|items|].id[0] != '0'
      && r[|items|].id == NatToDigits(|items| + 1)
      && forall k :: k != M.Id ==> M.GetItem(r[|items|], k) == ""
  {
    var id := NextId(items);
    assert (items + [M.BlankItem(id)])[..|items|] == items;
    NatToDigitsUnique(id);
  }

  /** A one-line list is left as it is. On a longer list exactly the lines
      with the id are dropped, the others keep their order, and the list is
      emptied only when every line carries that id; with distinct ids
      removal takes at most one line and never empties the list. */
  lemma RemoveCargoItemEffect(items: seq<M.CargoItem>, id: string)
    ensures var r := Removed(items, id);
      (|items| <= 1 ==> r == items)
      && (|items| > 1 ==>
            (forall x :: x in r <==> x in items && x.id != id)
            && |r| == |items| - Count(items, ItemId, id))
      && (r == [] <==> items == [] || (|items| > 1 && forall i :: 0 <= i < |items| ==> items[i].id == id))
      && (Distinct(items, ItemId) && |items| >= 1 ==> |r| >= 1 && |r| >= |items| - 1)
  {
    RemoveEmpties(items, ItemId, id);
    WithoutLength(items, ItemId, id);
    forall x ensures x in Removed(items, id) <==> (|items| > 1 ==> x in items && x.id != id) && (|items| <= 1 ==> x in items) {
      WithoutMembers(items, ItemId, id, x);
    }
    assert forall i :: 0 <= i < |items| ==> ItemId(items[i]) == items[i].id;
  }

  /** Removal keeps the order of the lines it keeps. */
  lemma RemoveKeepsOrder(a: seq<M.CargoItem>, b: seq<M.CargoItem>, id: string)
    requires |a + b| > 1
    ensures Removed(a + b, id) == Without(a, ItemId, id) + Without(b, ItemId, id)
  {
    WithoutAppend(a, b, ItemId, id);
  }

  /** The update keeps the number and the order of the lines; a line with the
      id gets the value in field `k` and keeps every other field, a line
      with another id is unchanged. */
  lemma CargoChangeEffect(items: seq<M.CargoItem>, id: string, k: M.CargoField, v: string, i: nat)
    requires i < |items|
    ensures var r := Changed(items, id, k, v);
      |r| == |items|
      && (items[i].id == id ==>
            M.GetItem(r[i], k) == v && forall j :: j != k ==> M.GetItem(r[i], j) == M.GetItem(items[i], j))
      && (items[i].id != id ==> r[i] == items[i])
  {
    UpdatedAt(items, ItemId, (x: M.CargoItem) => M.WithItem(x, k, v), id, i);
  }

  /** As written, the length-based ids repeat: from the initial list, adding a
      line (ids 1, 2), removing line 1 (id 2) and adding again gives two
      lines with id 2, and removing id 2 then empties the list, which the
      length guard of the remove handler is there to prevent. */
  lemma RemovalCanEmpty()
    ensures var s1 := Added(InitialItems());
      var s3 := Added(Removed(s1, "1"));
      |s3| == 2 && s3[0].id == s3[1].id == "2" && Removed(s3, "2") == []
  {
    var s0 := InitialItems();
    assert NextId(s0) == "2" by { assert NatToDigits(2) == [DigitChar(2)]; }
    var s1 := Added(s0);
    var s2 := Removed(s1, "1");
    assert s2 == [s1[1]] by {
      WithoutAppend([s1[0]], [s1[1]], ItemId, "1");
      WithoutSingle(s1[0], ItemId, "1");
      WithoutSingle(s1[1], ItemId, "1");
      assert s1 == [s1[0]] + [s1[1]];
    }
    assert NextId(s2) == "2" by { assert NatToDigits(2) == [DigitChar(2)]; }
    var s3 := Added(s2);
    WithoutEmpty(s3, ItemId, "2");
  }

  // ---- Corrected ids ---------------------------------------------------------------------

  /** The largest number any line's id spells in decimal digits (0 if none does). */
  function MaxNumber(items: seq<M.CargoItem>): (n: nat)
    ensures forall i :: 0 <= i < |items| && AllDigits(items[i].id) ==> DigitsValue(items[i].id) <= n
  {
    if items == [] then 0
    else
      var rest := MaxNumber(items[1..]);
      assert forall i :: 1 <= i < |items| ==> items[i] == items[1..][i - 1];
      var here := if AllDigits(items[0].id) then DigitsValue(items[0].id) else 0;
      if here < rest then rest else here
  }

  /** The id a new line should get: one past the largest numeric id, which no
      line carries. */
  function FreshId(items: seq<M.CargoItem>): (s: string)
    ensures forall i :: 0 <= i < |items| ==> items[i].id != s
  {
    var s := NatToDigits(MaxNumber(items) + 1);
    assert forall i :: 0 <= i < |items| && AllDigits(items[i].id) ==> DigitsValue(items[i].id) < DigitsValue(s);
    s
  }

  /** `addCargoItem()` with the corrected id. */
  function AddedFresh(items: seq<M.CargoItem>): seq<M.CargoItem>
  {
    items + [M.BlankItem(FreshId(items))]
  }

  /** The lines are non-empty and their ids distinct. */
  predicate Lines(items: seq<M.CargoItem>)
  {
    |items| >= 1 && Distinct(items, ItemId)
  }

  /** With the corrected id every handler keeps the lines non-empty with
      distinct ids (editing any field but the id), so no sequence of
      additions, removals and edits empties the list. */
  lemma FreshKeepsLines(items: seq<M.CargoItem>, id: string, k: M.CargoField, v: string)
    ensures Lines(InitialItems())
    ensures Lines(items) ==> Lines(AddedFresh(items)) && Lines(Removed(items, id))
    ensures Lines(items) && k != M.Id ==> Lines(Changed(items, id, k, v))
  {
    if Lines(items) {
      AppendDistinct(items, ItemId, M.BlankItem(FreshId(items)));
      RemoveEmpties(items, ItemId, id);
      if |items| > 1 {
        WithoutDistinct(items, ItemId, id);
      }
      if k != M.Id {
        var change := (x: M.CargoItem) => M.WithItem(x, k, v);
        forall x ensures ItemId(change(x)) == ItemId(x) {
          assert M.GetItem(change(x), M.Id) == M.GetItem(x, M.Id);
        }
        UpdatedDistinct(items, ItemId, change, id);
      }
    }
  }
}
