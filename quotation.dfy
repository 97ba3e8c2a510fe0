/**
 * The quotation creator's line items: adding, removing, editing and
 * drag-reordering services, and the quotation total.  Every handler builds a
 * new list from the old one, so each is a function on sequences.
 */
module Quotation {
  import opened Wrappers
  import opened Fallbacks
  import Sequences

  datatype Item = Item(
    id: string,
    service: string,
    description: string,
    quantity: real,
    rate: real,
    amount: real,
    days: real)

  /** The item `addItem` appends: one unit for one day at rate 0. */
  function BlankItem(id: string): Item {
    Item(id, "", "", 1.0, 0.0, 0.0, 1.0)
  }

  /** An item's amount is its quantity times rate times days. */
  predicate AmountAgrees(item: Item) {
    item.amount == item.quantity * item.rate * item.days
  }

  predicate AmountsAgree(items: seq<Item>) {
    forall k :: 0 <= k < |items| ==> AmountAgrees(items[k])
  }

  predicate UniqueIds(items: seq<Item>) {
    forall i, j :: 0 <= i < j < |items| ==> items[i].id != items[j].id
  }

  /** The `total`: the sum of the item amounts, 0 for no items, and never
      negative when no amount is. */
  function Total(items: seq<Item>): (r: real)
    ensures items == [] ==> r == 0.0
    ensures (forall k :: 0 <= k < |items| ==> items[k].amount >= 0.0) ==> r >= 0.0
  {
    if items == [] then 0.0 else items[0].amount + Total(items[1..])
  }

  lemma {:induction false} TotalAppend(a: seq<Item>, b: seq<Item>)
    ensures Total(a + b) == Total(a) + Total(b)
  {
    if a != [] {
      assert (a + b)[1..] == a[1..] + b;
      TotalAppend(a[1..], b);
    } else {
      assert a + b == b;
    }
  }

  /** `addItem`: one blank item at the end, the others untouched. */
  function AddItem(items: seq<Item>, id: string): (r: seq<Item>)
    ensures |r| == |items| + 1 && r[..|items|] == items
    ensures r[|items|] == BlankItem(id)
    ensures Total(r) == Total(items)
    ensures AmountsAgree(items) ==> AmountsAgree(r)
    ensures UniqueIds(items) && (forall k :: 0 <= k < |items| ==> items[k].id != id) ==> UniqueIds(r)
  {
    TotalAppend(items, [BlankItem(id)]);
    assert Total([BlankItem(id)]) == 0.0;
    items + [BlankItem(id)]
  }

  /** `removeItem`: every item with the id goes, the rest keep their order. */
  function RemoveItem(items: seq<Item>, id: string): (r: seq<Item>)
    ensures forall k :: 0 <= k < |r| ==> r[k].id != id && r[k] in items
    ensures forall k :: 0 <= k < |items| && items[k].id != id ==> items[k] in r
    ensures (forall k :: 0 <= k < |items| ==> items[k].id != id) ==> r == items
    ensures AmountsAgree(items) ==> AmountsAgree(r)
  {
    Sequences.Filter(items, (item: Item) => item.id != id)
  }

  /** Removing from a concatenation removes from each part: order is kept. */
  lemma RemoveItemKeepsOrder(a: seq<Item>, b: seq<Item>, id: string)
    ensures RemoveItem(a + b, id) == RemoveItem(a, id) + RemoveItem(b, id)
  {
    Sequences.FilterAppend(a, b, (item: Item) => item.id != id);
  }

  /** With distinct ids, removing an id drops at most one item. */
  lemma {:induction false} RemoveItemDropsAtMostOne(items: seq<Item>, id: string)
    requires UniqueIds(items)
    ensures |RemoveItem(items, id)| >= |items| - 1
    ensures |RemoveItem(items, id)| == |items| ==> (forall k :: 0 <= k < |items| ==> items[k].id != id)
  {
    if items != [] {
      var rest := items[1..];
      assert items == [items[0]] + rest;
      RemoveItemKeepsOrder([items[0]], rest, id);
      if items[0].id == id {
        OnlyFirstHasId(items, id);
      } else {
        assert UniqueIds(rest);
        RemoveItemDropsAtMostOne(rest, id);
        assert RemoveItem([items[0]], id) == [items[0]];
      }
    }
  }

  /** With distinct ids, the first item's id appears nowhere after it. */
  lemma OnlyFirstHasId(items: seq<Item>, id: string)
    requires UniqueIds(items) && items != [] && items[0].id == id
    ensures RemoveItem(items[1..], id) == items[1..]
  {
    var rest := items[1..];
    assert forall k :: 0 <= k < |rest| ==> rest[k].id != id by {
      forall k | 0 <= k < |rest|
        ensures rest[k].id != id
      {
        assert rest[k] == items[k + 1];
      }
    }
  }

  /** The remove button, disabled while a single item is left: with
      distinct ids the list is never emptied. */
  function RemoveButton(items: seq<Item>, id: string): (r: seq<Item>)
    ensures |items| == 1 ==> r == items
    ensures |items| != 1 ==> r == RemoveItem(items, id)
    ensures UniqueIds(items) && items != [] ==> r != []
  {
    if |items| == 1 then items
    else
      if UniqueIds(items) then RemoveItemDropsAtMostOne(items, id); RemoveItem(items, id)
      else RemoveItem(items, id)
  }

  /** The fields `updateItem` can be given, each with a value of its type. */
  datatype Edit =
    | SetId(text: string)
    | SetService(text: string)
    | SetDescription(text: string)
    | SetQuantity(number: real)
    | SetRate(number: real)
    | SetAmount(number: real)
    | SetDays(number: real)

  /** Changes one field of one item; a new quantity, rate or day count
      recomputes the amount. */
  function ApplyEdit(item: Item, edit: Edit): (r: Item)
    ensures edit.SetId? ==> r == item.(id := edit.text)
    ensures edit.SetService? ==> r == item.(service := edit.text)
    ensures edit.SetDescription? ==> r == item.(description := edit.text)
    ensures edit.SetAmount? ==> r == item.(amount := edit.number)
    ensures edit.SetQuantity? ==> r == item.(quantity := edit.number, amount := r.amount)
    ensures edit.SetRate? ==> r == item.(rate := edit.number, amount := r.amount)
    ensures edit.SetDays? ==> r == item.(days := edit.number, amount := r.amount)
    ensures edit.SetQuantity? || edit.SetRate? || edit.SetDays? ==> AmountAgrees(r)
    ensures !edit.SetAmount? && AmountAgrees(item) ==> AmountAgrees(r)
  {
    match edit
    case SetId(t) => item.(id := t)
    case SetService(t) => item.(service := t)
    case SetDescription(t) => item.(description := t)
    case SetAmount(n) => item.(amount := n)
    case SetQuantity(n) => item.(quantity := n, amount := n * item.rate * item.days)
    case SetRate(n) => item.(rate := n, amount := item.quantity * n * item.days)
    case SetDays(n) => item.(days := n, amount := item.quantity * item.rate * n)
  }

  /** `updateItem`: the edit applies to the items with the id and no others. */
  function UpdateItem(items: seq<Item>, id: string, edit: Edit): (r: seq<Item>)
    ensures |r| == |items|
    ensures forall k :: 0 <= k < |items| && items[k].id != id ==> r[k] == items[k]
    ensures forall k :: 0 <= k < |items| && items[k].id == id ==> r[k] == ApplyEdit(items[k], edit)
    ensures AmountsAgree(items) && !edit.SetAmount? ==> AmountsAgree(r)
  {
    seq(|items|, k requires 0 <= k < |items| => if items[k].id == id then ApplyEdit(items[k], edit) else items[k])
  }

  /** The mount effect: every amount becomes quantity times rate times days,
      nothing else changes, and items already agreeing are left as they are. */
  function RecomputeAmounts(items: seq<Item>): (r: seq<Item>)
    ensures |r| == |items| && AmountsAgree(r)
    ensures forall k :: 0 <= k < |items| ==> r[k] == items[k].(amount := r[k].amount)
    ensures AmountsAgree(items) ==> r == items
  {
    var r := seq(|items|, k requires 0 <= k < |items| =>
                   items[k].(amount := items[k].quantity * items[k].rate * items[k].days));
    assert AmountsAgree(items) ==> forall k :: 0 <= k < |items| ==> r[k] == items[k];
    r
  }

  /** `splice(i, 1)`. */
  function RemoveAt(xs: seq<Item>, i: nat): (r: seq<Item>)
    requires i < |xs|
    ensures |r| == |xs| - 1
  {
    xs[..i] + xs[i + 1..]
  }

  /** Removing at `i` keeps the items before `i` and shifts the later ones down by one. */
  lemma RemoveAtShifts(xs: seq<Item>, i: nat)
    requires i < |xs|
    ensures forall k :: 0 <= k < i ==> RemoveAt(xs, i)[k] == xs[k]
    ensures forall k :: i <= k < |xs| - 1 ==> RemoveAt(xs, i)[k] == xs[k + 1]
  {
  }

  /** `splice(i, 0, x)`. */
  function InsertAt(xs: seq<Item>, i: nat, x: Item): (r: seq<Item>)
    requires i <= |xs|
    ensures |r| == |xs| + 1 && r[i] == x
  {
    xs[..i] + [x] + xs[i..]
  }

  /** Inserting at `i` keeps the items before `i` and shifts the later ones up by one. */
  lemma InsertAtShifts(xs: seq<Item>, i: nat, x: Item)
    requires i <= |xs|
    ensures forall k :: 0 <= k < i ==> InsertAt(xs, i, x)[k] == xs[k]
    ensures forall k :: i < k <= |xs| ==> InsertAt(xs, i, x)[k] == xs[k - 1]
  {
  }

  lemma TotalCons(x: Item, xs: seq<Item>)
    ensures Total([x] + xs) == x.amount + Total(xs)
  {
    assert ([x] + xs)[1..] == xs;
  }

  lemma RemoveAtMultiset(xs: seq<Item>, i: nat)
    requires i < |xs|
    ensures multiset(RemoveAt(xs, i)) + multiset{xs[i]} == multiset(xs)
    ensures Total(RemoveAt(xs, i)) + xs[i].amount == Total(xs)
  {
    var a, x, b := xs[..i], xs[i], xs[i + 1..];
    assert xs == a + ([x] + b) by {
      assert xs == a + xs[i..];
      assert xs[i..] == [x] + b;
    }
    assert RemoveAt(xs, i) == a + b;
    assert multiset(a + ([x] + b)) == multiset(a + b) + multiset{x};
    TotalSplit(a, x, b);
  }

  /** The total of a list with one item taken out of the middle. */
  lemma TotalSplit(a: seq<Item>, x: Item, b: seq<Item>)
    ensures Total(a + ([x] + b)) == Total(a + b) + x.amount
  {
    TotalAppend(a, [x] + b);
    TotalCons(x, b);
    TotalAppend(a, b);
  }

  lemma InsertAtMultiset(xs: seq<Item>, i: nat, x: Item)
    requires i <= |xs|
    ensures multiset(InsertAt(xs, i, x)) == multiset(xs) + multiset{x}
    ensures Total(InsertAt(xs, i, x)) == Total(xs) + x.amount
  {
    RemoveAtUndoesInsertAt(xs, i, x);
    RemoveAtMultiset(InsertAt(xs, i, x), i);
  }

  lemma RemoveAtUndoesInsertAt(xs: seq<Item>, i: nat, x: Item)
    requires i <= |xs|
    ensures RemoveAt(InsertAt(xs, i, x), i) == xs
  {
    var r := RemoveAt(InsertAt(xs, i, x), i);
    InsertAtShifts(xs, i, x);
    RemoveAtShifts(InsertAt(xs, i, x), i);
    assert forall k :: 0 <= k < |xs| ==> r[k] == xs[k];
  }

  /** `handleDragEnd`: a drop without a destination changes nothing; otherwise
      the dragged item moves to the destination index and the others keep
      their relative order.  The result is a permutation with the same total. */
  function HandleDragEnd(items: seq<Item>, source: nat, destination: Option<nat>): (r: seq<Item>)
    requires source < |items|
    requires destination.Some? ==> destination.value < |items|
    ensures destination.None? ==> r == items
    ensures |r| == |items| && multiset(r) == multiset(items)
    ensures destination.Some? ==>
              r[destination.value] == items[source]
              && RemoveAt(r, destination.value) == RemoveAt(items, source)
    ensures Total(r) == Total(items)
  {
    if destination.None? then items
    else
      var removed := items[source];
      var rest := RemoveAt(items, source);
      RemoveAtMultiset(items, source);
      InsertAtMultiset(rest, destination.value, removed);
      RemoveAtUndoesInsertAt(rest, destination.value, removed);
      InsertAt(rest, destination.value, removed)
  }

  /** The numeric inputs of an item row. */
  datatype NumericField = QuantityField | DaysField | RateField

  /** `Number.parseFloat(value) || default` for a numeric input, where `parsed`
      is `None` when the text holds no number: quantity and rate fall back to
      0, the day count to 1, so it never becomes 0. */
  function NumericInput(field: NumericField, parsed: Option<real>): (edit: Edit)
    ensures field == QuantityField ==> edit.SetQuantity?
    ensures field == RateField ==> edit.SetRate?
    ensures field == DaysField ==> edit.SetDays? && edit.number != 0.0
    ensures parsed.Some? && parsed.value != 0.0 ==> edit.number == parsed.value
    ensures parsed.None? ==> edit.number == (if field == DaysField then 1.0 else 0.0)
  {
    match field
    case QuantityField => SetQuantity(NumberOr(parsed, 0.0))
    case DaysField => SetDays(NumberOr(parsed, 1.0))
    case RateField => SetRate(NumberOr(parsed, 0.0))
  }
}
