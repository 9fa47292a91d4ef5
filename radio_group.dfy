/**
 * The radio group: one row per item, each row drawn selected exactly when its
 * id equals the group's selected id, and a click on a row reporting that
 * row's id to the group's optional callback.
 */
module Radio {
  import opened Wrappers

  datatype RadioButtonItem = RadioButtonItem(id: int, title: string)

  /** One `RadioGroupItem` as the group renders it: the item and its selected flag. */
  datatype ItemRow = ItemRow(item: RadioButtonItem, selected: bool)

  /** `RadioGroup`: `items.forEach` emits one row per item, in order. */
  function RadioGroup(items: seq<RadioButtonItem>, selected: int): (rows: seq<ItemRow>)
    ensures |rows| == |items|
    ensures forall i :: 0 <= i < |items| ==>
      rows[i].item == items[i] && (rows[i].selected <==> items[i].id == selected)
  {
    if items == [] then []
    else [ItemRow(items[0], selected == items[0].id)] + RadioGroup(items[1..], selected)
  }

  /** `RadioGroupItem`'s `selectable` click: passes the item's id to `onClick`, if any. */
  /**
   * A nullable callback is `Option<int -> E>`, modelled by the value its call
   * yields; `None` means there was no callback and nothing happened.
   */
  function ItemClick<E>(item: RadioButtonItem, onClick: Option<int -> E>): (r: Option<E>)
    ensures r.Some? <==> onClick.Some?
    ensures onClick.Some? ==> r.value == onClick.value(item.id)
  {
    match onClick
    case None => None
    case Some(f) => Some(f(item.id))
  }

  /** The row handler `RadioGroup` hands to the row of `item`; it ignores its argument. */
  function RowHandler<E>(item: RadioButtonItem, onItemSelect: Option<int -> E>): (handler: int -> Option<E>)
    ensures forall x :: handler(x) == if onItemSelect.Some? then Some(onItemSelect.value(item.id)) else None
  {
    _ => ItemClick(item, onItemSelect)
  }

  /**
   * A click on row `k` of the group, through the row's `selectable` and the
   * group's row handler: what `onItemSelect` yields, `None` without a callback.
   */
  function GroupClick<E>(items: seq<RadioButtonItem>, k: int, onItemSelect: Option<int -> E>): (r: Option<E>)
    requires 0 <= k < |items|
    ensures onItemSelect.None? ==> r == None
    ensures onItemSelect.Some? ==> r == Some(onItemSelect.value(items[k].id))
  {
    var dispatched := ItemClick(items[k], Some(RowHandler(items[k], onItemSelect)));
    dispatched.value
  }

  /** Number of rows drawn selected. */
  function CountSelected(rows: seq<ItemRow>): nat
  {
    if rows == [] then 0 else (if rows[0].selected then 1 else 0) + CountSelected(rows[1..])
  }

  /** No two items share an id. */
  ghost predicate DistinctIds(items: seq<RadioButtonItem>)
  {
    forall i, j :: 0 <= i < j < |items| ==> items[i].id != items[j].id
  }

  /** Some item carries `id`. */
  ghost predicate HasId(items: seq<RadioButtonItem>, id: int)
  {
    exists i :: 0 <= i < |items| && items[i].id == id
  }

  /**
   * With pairwise distinct ids, at most one row is selected, and exactly one
   * when the selected id is among the items' ids.
   */
  lemma {:induction false} AtMostOneSelected(items: seq<RadioButtonItem>, selected: int)
    requires DistinctIds(items)
    ensures CountSelected(RadioGroup(items, selected)) == if HasId(items, selected) then 1 else 0
  {
    if items != [] {
      var rows := RadioGroup(items, selected);
      var tail := items[1..];
      assert rows[1..] == RadioGroup(tail, selected);
      assert DistinctIds(tail) by {
        forall i, j | 0 <= i < j < |tail| ensures tail[i].id != tail[j].id {
          assert tail[i] == items[i + 1] && tail[j] == items[j + 1];
        }
      }
      AtMostOneSelected(tail, selected);
      if items[0].id == selected {
        assert HasId(items, selected);
        assert !HasId(tail, selected) by {
          forall i | 0 <= i < |tail| ensures tail[i].id != selected {
            assert tail[i] == items[i + 1];
          }
        }
      } else {
        assert HasId(items, selected) <==> HasId(tail, selected) by {
          if HasId(items, selected) {
            var i :| 0 <= i < |items| && items[i].id == selected;
            assert tail[i - 1] == items[i];
          }
          if HasId(tail, selected) {
            var i :| 0 <= i < |tail| && tail[i].id == selected;
            assert items[i + 1] == tail[i];
          }
        }
      }
    }
  }
}
