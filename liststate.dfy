/** The list-state operations of the bill form: appending and editing items,
    discounts and extra charges, the `belongsTo` checkbox of each item, and
    the running total of the item prices shown under the items. */
module ListState {
  import opened SeqMath
  import opened Allocation

  /** `{ name: "", price: 0, belongsTo: [] }`: the item the form starts with
      and the one `addItem` appends. */
  const NewItem: Item := Item("", 0.0, [])

  /** `{ value: 0, isPercentage: false }`: the discount and the extra charge
      the form starts with, and the one `addDiscount` / `addExtraCharge` append. */
  const NewAdjustment: Adjustment := Adjustment(0.0, false)

  /** One `updateItem(index, key, value)` call: the key and its new value. */
  datatype ItemEdit = SetName(name: string) | SetPrice(price: real) | SetBelongsTo(belongsTo: seq<nat>)

  /** `total` of `items.reduce((sum, item) => sum + Number(item.price || 0), 0)`:
      the prices of all items, whether or not anybody shares them, so it is
      never below the priced items that are shared. */
  function TotalItemsPrice(items: seq<Item>): (r: real)
    ensures (forall k :: 0 <= k < |items| ==> items[k].price >= 0.0) ==> r >= AssignedPrice(items)
  {
    if items == [] then 0.0 else TotalItemsPrice(items[..|items| - 1]) + items[|items| - 1].price
  }

  /** `addItem`: one new empty item at the end, the others untouched. */
  function AddItem(items: seq<Item>): (r: seq<Item>)
    ensures |r| == |items| + 1
    ensures r[..|items|] == items && r[|items|] == NewItem
  {
    items + [NewItem]
  }

  /** `item[key] = value` for the key and value of `edit`: that field takes
      the new value and the other two keep theirs. */
  function Edited(item: Item, edit: ItemEdit): (r: Item)
    ensures r.name == if edit.SetName? then edit.name else item.name
    ensures r.price == if edit.SetPrice? then edit.price else item.price
    ensures r.belongsTo == if edit.SetBelongsTo? then edit.belongsTo else item.belongsTo
  {
    match edit
    case SetName(n) => item.(name := n)
    case SetPrice(p) => item.(price := p)
    case SetBelongsTo(b) => item.(belongsTo := b)
  }

  /** `updateItem`: a copy of the list whose entry `index` is overwritten in
      place under one key. Only that key of that entry changes, and the total
      of the prices moves by exactly the change of that entry's price. */
  method UpdateItem(items: seq<Item>, index: nat, edit: ItemEdit) returns (updated: seq<Item>)
    requires index < |items|
    ensures |updated| == |items|
    ensures forall j :: 0 <= j < |items| && j != index ==> updated[j] == items[j]
    ensures updated[index].name == if edit.SetName? then edit.name else items[index].name
    ensures updated[index].price == if edit.SetPrice? then edit.price else items[index].price
    ensures updated[index].belongsTo == if edit.SetBelongsTo? then edit.belongsTo else items[index].belongsTo
    ensures TotalItemsPrice(updated) == TotalItemsPrice(items) - items[index].price + updated[index].price
  {
    var updatedItems := new Item[|items|](j requires 0 <= j < |items| => items[j]);
    updatedItems[index] := Edited(updatedItems[index], edit);
    updated := updatedItems[..];
    assert updated == items[index := updated[index]];
    TotalAfterReplace(items, index, updated[index]);
  }

  /** `addDiscount` and `addExtraCharge`: one zero flat adjustment at the end. */
  function AddAdjustment(adjustments: seq<Adjustment>): (r: seq<Adjustment>)
    ensures |r| == |adjustments| + 1
    ensures r[..|adjustments|] == adjustments && r[|adjustments|] == NewAdjustment
  {
    adjustments + [NewAdjustment]
  }

  /** `updateDiscount` and `updateExtraCharge`: the entry at `index` is
      replaced and every other entry kept; an index past the end changes
      nothing. */
  function UpdateAdjustment(adjustments: seq<Adjustment>, index: nat, updated: Adjustment)
    : (r: seq<Adjustment>)
    ensures |r| == |adjustments|
    ensures forall i :: 0 <= i < |r| && i != index ==> r[i] == adjustments[i]
    ensures index < |r| ==> r[index] == updated
    ensures index >= |adjustments| ==> r == adjustments
  {
    seq(|adjustments|, i requires 0 <= i < |adjustments| => if i == index then updated else adjustments[i])
  }

  /** A just-added adjustment (zero, flat) changes no final total, whether it
      is a discount or an extra charge. */
  lemma NewAdjustmentIsNeutral(base: seq<real>, discounts: seq<Adjustment>, extraCharges: seq<Adjustment>,
                               taxPercentage: real)
    requires Sum(base) != 0.0
    ensures FinalTotals(base, AddAdjustment(discounts), extraCharges, taxPercentage)
         == FinalTotals(base, discounts, extraCharges, taxPercentage)
    ensures FinalTotals(base, discounts, AddAdjustment(extraCharges), taxPercentage)
         == FinalTotals(base, discounts, extraCharges, taxPercentage)
  {
    var total := Sum(base);
    assert Ratio(NewAdjustment, total) == 0.0;
    var ds, cs := AddAdjustment(discounts), AddAdjustment(extraCharges);
    assert ds[..|ds| - 1] == discounts && cs[..|cs| - 1] == extraCharges;
    var charged := ApplyCharges(base, extraCharges, total);
    assert RemoveShare(ApplyDiscounts(charged, discounts, total), 0.0) == ApplyDiscounts(charged, discounts, total);
    assert AddShare(charged, 0.0) == charged;
  }

  /** `a` occurs in `b` in order, possibly with gaps. */
  predicate IsSubsequence(a: seq<nat>, b: seq<nat>)
  {
    if a == [] then true
    else if b == [] then false
    else if a[|a| - 1] == b[|b| - 1] then IsSubsequence(a[..|a| - 1], b[..|b| - 1])
    else IsSubsequence(a, b[..|b| - 1])
  }

  /** `belongsTo.filter((person) => person !== x)`: every occurrence of `x`
      removed, every other member kept as often as before and in order. */
  function Without(s: seq<nat>, x: nat): (r: seq<nat>)
    ensures x !in r
    ensures forall y :: y != x ==> Count(r, y) == Count(s, y)
    ensures IsSubsequence(r, s)
  {
    if s == [] then []
    else
      var init, last := s[..|s| - 1], s[|s| - 1];
      var rest := Without(init, x);
      if last == x then
        assert rest == [] || rest[|rest| - 1] != x;
        rest
      else
        assert (rest + [last])[..|rest|] == rest;
        rest + [last]
  }

  /** The `onChange` of the checkbox of `person`: checking appends the person
      after the others, unchecking filters every occurrence out and keeps the
      rest in order. */
  function ToggleBelongsTo(belongsTo: seq<nat>, person: nat, checked: bool): (r: seq<nat>)
    ensures checked ==> |r| == |belongsTo| + 1 && r[..|belongsTo|] == belongsTo && r[|belongsTo|] == person
    ensures !checked ==> IsSubsequence(r, belongsTo)
    ensures person in r <==> checked
    ensures checked ==> Count(r, person) == Count(belongsTo, person) + 1
    ensures forall y :: y != person ==> Count(r, y) == Count(belongsTo, y)
  {
    if checked then
      assert (belongsTo + [person])[..|belongsTo|] == belongsTo;
      belongsTo + [person]
    else Without(belongsTo, person)
  }

  /** A click on the checkbox of `person`: the box shows `belongsTo.includes(person)`,
      so the click delivers the opposite. */
  function Click(belongsTo: seq<nat>, person: nat): (r: seq<nat>)
    ensures person in r <==> person !in belongsTo
    ensures forall y :: y != person ==> Count(r, y) == Count(belongsTo, y)
  {
    ToggleBelongsTo(belongsTo, person, person !in belongsTo)
  }

  /** A click never creates a duplicate, and it keeps the list within the
      people shown when the clicked person is one of them. */
  lemma ClickFlips(belongsTo: seq<nat>, person: nat, n: nat)
    ensures Distinct(belongsTo) ==> Distinct(Click(belongsTo, person))
    ensures AllBelow(belongsTo, n) && person < n ==> AllBelow(Click(belongsTo, person), n)
  {
    if person in belongsTo {
      if AllBelow(belongsTo, n) {
        WithoutKeepsBelow(belongsTo, person, n);
      }
      if Distinct(belongsTo) {
        WithoutKeepsDistinct(belongsTo, person);
      }
    }
  }

  lemma WithoutKeepsBelow(s: seq<nat>, x: nat, n: nat)
    requires AllBelow(s, n)
    ensures AllBelow(Without(s, x), n)
  {
    var r := Without(s, x);
    forall j | 0 <= j < |r| ensures r[j] in s {
      CountPositive(r, r[j]);
      CountPositive(s, r[j]);
    }
  }

  lemma {:induction false} WithoutKeepsDistinct(s: seq<nat>, x: nat)
    requires Distinct(s)
    ensures Distinct(Without(s, x))
  {
    if s != [] {
      var init, last := s[..|s| - 1], s[|s| - 1];
      assert Distinct(init);
      WithoutKeepsDistinct(init, x);
      var rest := Without(init, x);
      if last != x {
        assert last !in init;
        forall y | y in rest ensures y in init {
          CountPositive(rest, y);
          CountPositive(init, y);
        }
      }
    }
  }

  /** Checking an unchecked person and unchecking them again restores the list. */
  lemma {:induction false} CheckThenUncheck(belongsTo: seq<nat>, person: nat)
    requires person !in belongsTo
    ensures Click(Click(belongsTo, person), person) == belongsTo
  {
    var checked := belongsTo + [person];
    assert checked[..|checked| - 1] == belongsTo;
    WithoutAbsent(belongsTo, person);
  }

  /** Filtering out an absent member changes nothing. */
  lemma {:induction false} WithoutAbsent(s: seq<nat>, x: nat)
    requires x !in s
    ensures Without(s, x) == s
  {
    if s != [] {
      var init := s[..|s| - 1];
      WithoutAbsent(init, x);
      assert s == init + [s[|s| - 1]];
    }
  }

  /** Replacing one item moves the total of the prices by the change of that
      item's price. */
  lemma {:induction false} TotalAfterReplace(items: seq<Item>, index: nat, x: Item)
    requires index < |items|
    ensures TotalItemsPrice(items[index := x]) == TotalItemsPrice(items) - items[index].price + x.price
  {
    var k := |items| - 1;
    if index < k {
      assert items[index := x][..k] == items[..k][index := x];
      TotalAfterReplace(items[..k], index, x);
    } else {
      assert items[index := x][..k] == items[..k];
    }
  }

  /** Appending an item leaves the total of the prices and every person's
      total before extras unchanged, and keeps the items within the people. */
  lemma AddItemChangesNoTotal(items: seq<Item>, peopleCount: nat)
    ensures TotalItemsPrice(AddItem(items)) == TotalItemsPrice(items)
    ensures BaseTotals(AddItem(items), peopleCount) == BaseTotals(items, peopleCount)
    ensures AssignedWithin(items, peopleCount) ==> AssignedWithin(AddItem(items), peopleCount)
  {
    var r := AddItem(items);
    assert r[..|r| - 1] == items;
  }

  /** When every item belongs to somebody, the running total of the item
      prices equals the bill before extras that `calculateBill` distributes. */
  lemma {:induction false} AssignedPriceIsTotal(items: seq<Item>)
    requires forall k :: 0 <= k < |items| ==> |items[k].belongsTo| > 0
    ensures AssignedPrice(items) == TotalItemsPrice(items)
  {
    if items != [] {
      AssignedPriceIsTotal(items[..|items| - 1]);
    }
  }

  lemma AllAssignedBillIsItemsTotal(items: seq<Item>, peopleCount: nat)
    requires AssignedWithin(items, peopleCount)
    requires forall k :: 0 <= k < |items| ==> |items[k].belongsTo| > 0
    ensures Sum(BaseTotals(items, peopleCount)) == TotalItemsPrice(items)
  {
    BaseTotalsSum(items, peopleCount);
    AssignedPriceIsTotal(items);
  }

  /** The form's initial lists (one item that belongs to nobody, one zero
      discount, one zero extra charge) are not computable: the bill before
      extras is zero while adjustments exist, so the ratios divide zero by zero. */
  lemma InitialStateNotComputable(peopleCount: nat)
    ensures !Computable([NewItem], [NewAdjustment], [NewAdjustment], peopleCount)
  {
    var items := [NewItem];
    assert items[..0] == [];
    forall p | 0 <= p < peopleCount ensures BaseTotals(items, peopleCount)[p] == Zeros(peopleCount)[p] {
      assert BaseTotal(items, p) == BaseTotal([], p) + Credit(items[0], p);
    }
    assert BaseTotals(items, peopleCount) == Zeros(peopleCount);
    SumZeros(peopleCount);
  }
}
