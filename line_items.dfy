/** The invoice's editable list of line items and the three handlers that replace it:
    edit one field of an item, append a blank item, remove an item. */
module LineItems {
  import opened FormValues

  /** One row of the edit table. `qty`, `price` and `gstRate` hold whatever the numeric
      inputs last produced, so they may not be numbers at all. */
  datatype Item = Item(
    id: int,
    description: string,
    hsn: string,
    qty: NumInput,
    price: NumInput,
    gstRate: NumInput)

  /** A (field, value) pair the edit table passes to the change handler: text for the
      description and HSN inputs, the input's numeric reading for the other three. */
  datatype FieldEdit =
    | SetDescription(text: string)
    | SetHsn(text: string)
    | SetQty(amount: NumInput)
    | SetPrice(amount: NumInput)
    | SetGstRate(amount: NumInput)

  /** The two example rows the page starts with. */
  function InitialItems(): seq<Item>
  {
    [ Item(1, "Web Development Services", "998311", Numeric(1.0), Numeric(50000.0), Numeric(18.0)),
      Item(2, "Server Hosting (1 Year)", "998315", Numeric(1.0), Numeric(15000.0), Numeric(18.0)) ]
  }

  /** The blank row appended by "Add Item". */
  function NewItem(id: int): Item
  {
    Item(id, "", "", Numeric(1.0), Numeric(0.0), Numeric(18.0))
  }

  /** No two items share an id. The page relies on this but never checks it. */
  ghost predicate UniqueIds(items: seq<Item>)
  {
    forall i, j :: 0 <= i < j < |items| ==> items[i].id != items[j].id
  }

  /** A copy of the item in which the named field takes the new value and every other
      field, the id included, keeps its old one. */
  function ApplyEdit(item: Item, edit: FieldEdit): (r: Item)
    ensures r.id == item.id
    ensures r.description == (if edit.SetDescription? then edit.text else item.description)
    ensures r.hsn == (if edit.SetHsn? then edit.text else item.hsn)
    ensures r.qty == (if edit.SetQty? then edit.amount else item.qty)
    ensures r.price == (if edit.SetPrice? then edit.amount else item.price)
    ensures r.gstRate == (if edit.SetGstRate? then edit.amount else item.gstRate)
  {
    match edit
    case SetDescription(t) => item.(description := t)
    case SetHsn(t) => item.(hsn := t)
    case SetQty(a) => item.(qty := a)
    case SetPrice(a) => item.(price := a)
    case SetGstRate(a) => item.(gstRate := a)
  }

  /** The change handler's new list: each item carrying `id` gets the edit, the rest are kept as they are. */
  function UpdateItems(items: seq<Item>, id: int, edit: FieldEdit): (r: seq<Item>)
    ensures |r| == |items|
    ensures forall i :: 0 <= i < |items| ==>
      r[i] == (if items[i].id == id then ApplyEdit(items[i], edit) else items[i])
  {
    if items == [] then []
    else
      var last := items[|items| - 1];
      UpdateItems(items[..|items| - 1], id, edit)
        + [if last.id == id then ApplyEdit(last, edit) else last]
  }

  /** The remove handler's filter: the items whose id differs from `id`, in their order. */
  function Without(items: seq<Item>, id: int): (r: seq<Item>)
    ensures |r| <= |items|
  {
    if items == [] then []
    else if items[0].id != id then [items[0]] + Without(items[1..], id)
    else Without(items[1..], id)
  }

  /** The filter keeps exactly the items whose id differs. */
  lemma {:induction false} WithoutMembers(items: seq<Item>, id: int)
    ensures forall x :: x in Without(items, id) <==> x in items && x.id != id
  {
    if items != [] {
      WithoutMembers(items[1..], id);
      assert items == [items[0]] + items[1..];
    }
  }

  /** Filtering distributes over concatenation, so the kept items stay in their order. */
  lemma {:induction false} WithoutConcat(a: seq<Item>, b: seq<Item>, id: int)
    ensures Without(a + b, id) == Without(a, id) + Without(b, id)
  {
    if a != [] {
      assert (a + b)[1..] == a[1..] + b;
      WithoutConcat(a[1..], b, id);
    } else {
      assert a + b == b;
    }
  }

  /** Removing an id no item carries changes nothing. */
  lemma {:induction false} WithoutAbsent(items: seq<Item>, id: int)
    requires forall i :: 0 <= i < |items| ==> items[i].id != id
    ensures Without(items, id) == items
  {
    if items != [] {
      WithoutAbsent(items[1..], id);
      assert [items[0]] + items[1..] == items;
    }
  }

  /** Filtering out the id of a single item surrounded by items with other ids
      leaves exactly the surrounding items. */
  lemma WithoutSingle(before: seq<Item>, x: Item, after: seq<Item>)
    requires forall i :: 0 <= i < |before| ==> before[i].id != x.id
    requires forall i :: 0 <= i < |after| ==> after[i].id != x.id
    ensures Without(before + [x] + after, x.id) == before + after
  {
    var front := before + [x];
    assert Without(front, x.id) == before by {
      WithoutConcat(before, [x], x.id);
      WithoutAbsent(before, x.id);
      assert [x][1..] == [];
      assert Without([x], x.id) == [];
      assert before + [] == before;
    }
    assert Without(front + after, x.id) == before + Without(after, x.id) by {
      WithoutConcat(front, after, x.id);
    }
    WithoutAbsent(after, x.id);
  }

  /** With unique ids, removing the id of the item at index k removes exactly that item. */
  lemma WithoutUnique(items: seq<Item>, k: nat)
    requires UniqueIds(items)
    requires k < |items|
    ensures Without(items, items[k].id) == items[..k] + items[k + 1..]
  {
    var before, after := items[..k], items[k + 1..];
    forall i | 0 <= i < |before|
      ensures before[i].id != items[k].id
    {
      assert before[i] == items[i];
    }
    forall i | 0 <= i < |after|
      ensures after[i].id != items[k].id
    {
      assert after[i] == items[k + 1 + i];
    }
    assert items == before + [items[k]] + after;
    WithoutSingle(before, items[k], after);
  }

  /** Filtering keeps the ids unique. */
  lemma {:induction false} WithoutKeepsUnique(items: seq<Item>, id: int)
    requires UniqueIds(items)
    ensures UniqueIds(Without(items, id))
  {
    if items != [] {
      WithoutKeepsUnique(items[1..], id);
      WithoutMembers(items[1..], id);
      var rest := Without(items[1..], id);
      if items[0].id != id {
        forall j | 0 <= j < |rest|
          ensures rest[j].id != items[0].id
        {
          assert rest[j] in items[1..];
        }
      }
    }
  }

  /** The list the remove handler leaves: unchanged when one item or none is left,
      otherwise every item whose id differs, in order. */
  function AfterRemove(items: seq<Item>, id: int): seq<Item>
  {
    if |items| > 1 then Without(items, id) else items
  }

  /** With unique ids the remove handler never empties a non-empty list:
      it drops at most one item, and only when at least two are present. */
  lemma RemoveNeverEmpties(items: seq<Item>, id: int)
    requires UniqueIds(items)
    requires |items| >= 1
    ensures |AfterRemove(items, id)| >= |items| - 1
    ensures |AfterRemove(items, id)| >= 1
  {
    if |items| > 1 {
      if k :| 0 <= k < |items| && items[k].id == id {
        WithoutUnique(items, k);
      } else {
        WithoutAbsent(items, id);
      }
    }
  }

  /** Without unique ids the guard is not enough: two rows sharing an id disappear together. */
  lemma DuplicateIdsEmptyTheList()
    ensures AfterRemove([NewItem(7), NewItem(7)], 7) == []
  {
    var twins := [NewItem(7), NewItem(7)];
    assert twins[1..][1..] == [];
  }

  /** The state the page holds in `items`; each handler replaces it with a new list. */
  class ItemList {
    var items: seq<Item>

    constructor ()
      ensures items == InitialItems()
      ensures UniqueIds(items)
    {
      items := InitialItems();
    }

    /** Sets one field of every item carrying `id`; length, order and all other items
        and fields stay as they were. */
    method HandleItemChange(id: int, edit: FieldEdit)
      modifies this
      ensures items == UpdateItems(old(items), id, edit)
      ensures |items| == |old(items)|
      ensures forall i :: 0 <= i < |items| ==> items[i].id == old(items)[i].id
      ensures UniqueIds(old(items)) ==> UniqueIds(items)
    {
      items := UpdateItems(items, id, edit);
    }

    /** Appends one blank item under the id the caller supplies; existing items stay. */
    method AddItem(freshId: int)
      modifies this
      ensures items == old(items) + [NewItem(freshId)]
      ensures items[..|old(items)|] == old(items)
      ensures UniqueIds(old(items)) && (forall x :: x in old(items) ==> x.id != freshId)
        ==> UniqueIds(items)
    {
      items := items + [NewItem(freshId)];
    }

    /** Removes the items carrying `id`, unless at most one item is left. */
    method RemoveItem(id: int)
      modifies this
      ensures items == AfterRemove(old(items), id)
      ensures |old(items)| <= 1 ==> items == old(items)
      ensures UniqueIds(old(items)) ==> UniqueIds(items)
      ensures UniqueIds(old(items)) && |old(items)| >= 1 ==> |items| >= 1
    {
      if |items| > 1 {
        ghost var before := items;
        items := Without(items, id);
        if UniqueIds(before) {
          WithoutKeepsUnique(before, id);
          RemoveNeverEmpties(before, id);
        }
      }
    }
  }
}
