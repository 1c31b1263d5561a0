/** The allocation engine of the bill splitter (`calculateBill`): each item's
    price is split equally among the people it belongs to, every extra charge
    and then every discount scales each person's running total in proportion to
    the bill before extras, and the tax multiplies every total once. */
module Allocation {
  import opened SeqMath

  /** A line item of the bill: `{ name, price, belongsTo }`; `belongsTo` holds
      the indices of the people who share it. */
  datatype Item = Item(name: string, price: real, belongsTo: seq<nat>)

  /** A discount or an extra charge: a flat amount, or a percentage of the bill
      before extras when `isPercentage` is set. */
  datatype Adjustment = Adjustment(value: real, isPercentage: bool)

  /** What `calculateBill` returns: every person's total before any adjustment
      and after all charges, discounts and tax. */
  datatype BillResult = BillResult(baseTotals: seq<real>, personTotals: seq<real>)

  /** Every index in every item's `belongsTo` names one of the `peopleCount`
      people, so that no write lands outside the per-person totals. */
  predicate AssignedWithin(items: seq<Item>, peopleCount: nat)
  {
    forall k :: 0 <= k < |items| ==> AllBelow(items[k].belongsTo, peopleCount)
  }

  /** The share of one item that goes to each of the people it belongs to. */
  function SplitValue(item: Item): real
    requires |item.belongsTo| > 0
  {
    item.price / |item.belongsTo| as real
  }

  /** What one item adds to person `p`'s total: one split value per occurrence
      of `p` in `belongsTo`; an item that belongs to nobody adds nothing. */
  function Credit(item: Item, p: nat): (r: real)
    ensures p !in item.belongsTo ==> r == 0.0
  {
    if |item.belongsTo| == 0 then 0.0
    else
      CountPositive(item.belongsTo, p);
      assert p !in item.belongsTo ==> Count(item.belongsTo, p) as real == 0.0;
      Count(item.belongsTo, p) as real * SplitValue(item)
  }

  /** What one item adds to each of the first `n` people. */
  function Credits(item: Item, n: nat): (r: seq<real>)
    ensures |r| == n
  {
    seq(n, p requires 0 <= p < n => Credit(item, p))
  }

  /** No item belongs to person `p`. */
  predicate Unassigned(items: seq<Item>, p: nat)
  {
    forall k :: 0 <= k < |items| ==> p !in items[k].belongsTo
  }

  /** Person `p`'s total before extras: the item credits, added item by item.
      It is zero for a person no item belongs to. */
  function BaseTotal(items: seq<Item>, p: nat): (r: real)
    ensures Unassigned(items, p) ==> r == 0.0
  {
    if items == [] then 0.0 else BaseTotal(items[..|items| - 1], p) + Credit(items[|items| - 1], p)
  }

  /** The per-person totals before extras (`baseTotals`): one per person, and
      zero for everyone no item belongs to. */
  function BaseTotals(items: seq<Item>, peopleCount: nat): (r: seq<real>)
    ensures |r| == peopleCount
    ensures forall p :: 0 <= p < peopleCount && Unassigned(items, p) ==> r[p] == 0.0
  {
    seq(peopleCount, p requires 0 <= p < peopleCount => BaseTotal(items, p))
  }

  /** Sum of the prices of the items that belong to at least one person. */
  function AssignedPrice(items: seq<Item>): real
  {
    if items == [] then 0.0
    else AssignedPrice(items[..|items| - 1])
         + (if |items[|items| - 1].belongsTo| > 0 then items[|items| - 1].price else 0.0)
  }

  /** The money an adjustment stands for, given the bill before extras. */
  function AdjustmentAmount(a: Adjustment, total: real): real
  {
    if a.isPercentage then (total * a.value) / 100.0 else a.value
  }

  /** The fraction of the bill before extras that an adjustment adds or takes
      away: a percentage adjustment gives its percentage whatever the total,
      a flat one gives its value relative to the total. */
  function Ratio(a: Adjustment, total: real): (r: real)
    requires total != 0.0
    ensures a.isPercentage ==> r == a.value / 100.0
    ensures !a.isPercentage ==> r * total == a.value
  {
    AdjustmentAmount(a, total) / total
  }

  /** Every entry of `t` that is zero is zero in `r` as well. */
  predicate KeepsZeros(t: seq<real>, r: seq<real>)
    requires |r| == |t|
  {
    forall i :: 0 <= i < |t| && t[i] == 0.0 ==> r[i] == 0.0
  }

  /** One extra charge applied to the running totals (`total + total * ratio`). */
  function AddShare(t: seq<real>, ratio: real): (r: seq<real>)
    ensures |r| == |t|
  {
    seq(|t|, i requires 0 <= i < |t| => t[i] + t[i] * ratio)
  }

  /** One discount applied to the running totals (`total - total * ratio`). */
  function RemoveShare(t: seq<real>, ratio: real): (r: seq<real>)
    ensures |r| == |t|
  {
    seq(|t|, i requires 0 <= i < |t| => t[i] - t[i] * ratio)
  }

  /** The extra charges applied in order, each ratio taken against the fixed
      bill before extras `total`; a running total of zero stays zero. */
  function ApplyCharges(t: seq<real>, charges: seq<Adjustment>, total: real): (r: seq<real>)
    requires charges != [] ==> total != 0.0
    ensures |r| == |t|
    ensures KeepsZeros(t, r)
  {
    if charges == [] then t
    else AddShare(ApplyCharges(t, charges[..|charges| - 1], total), Ratio(charges[|charges| - 1], total))
  }

  /** The discounts applied in order, each ratio taken against `total`; a
      running total of zero stays zero. */
  function ApplyDiscounts(t: seq<real>, discounts: seq<Adjustment>, total: real): (r: seq<real>)
    requires discounts != [] ==> total != 0.0
    ensures |r| == |t|
    ensures KeepsZeros(t, r)
  {
    if discounts == [] then t
    else RemoveShare(ApplyDiscounts(t, discounts[..|discounts| - 1], total), Ratio(discounts[|discounts| - 1], total))
  }

  function TaxMultiplier(taxPercentage: real): real
  {
    1.0 + taxPercentage / 100.0
  }

  /** Adjustments can be applied only when the bill before extras is nonzero. */
  predicate AdjustableBase(base: seq<real>, discounts: seq<Adjustment>, extraCharges: seq<Adjustment>)
  {
    discounts != [] || extraCharges != [] ==> Sum(base) != 0.0
  }

  /** The final per-person totals computed from the totals before extras:
      charges, then discounts, then tax. One per person, and a person who
      owed nothing before extras owes nothing after them. */
  function FinalTotals(base: seq<real>, discounts: seq<Adjustment>, extraCharges: seq<Adjustment>,
                       taxPercentage: real): (r: seq<real>)
    requires AdjustableBase(base, discounts, extraCharges)
    ensures |r| == |base|
    ensures KeepsZeros(base, r)
  {
    var total := Sum(base);
    Scale(ApplyDiscounts(ApplyCharges(base, extraCharges, total), discounts, total), TaxMultiplier(taxPercentage))
  }

  /** The inputs on which `calculateBill` is defined: no out-of-range person
      index, and no division of an adjustment by a zero bill. */
  predicate Computable(items: seq<Item>, discounts: seq<Adjustment>, extraCharges: seq<Adjustment>,
                       peopleCount: nat)
  {
    AssignedWithin(items, peopleCount)
    && AdjustableBase(BaseTotals(items, peopleCount), discounts, extraCharges)
  }

  /** Product of `1 + ratio` over the extra charges. */
  function ChargeFactor(charges: seq<Adjustment>, total: real): real
    requires charges != [] ==> total != 0.0
  {
    if charges == [] then 1.0
    else ChargeFactor(charges[..|charges| - 1], total) * (1.0 + Ratio(charges[|charges| - 1], total))
  }

  /** Product of `1 - ratio` over the discounts. */
  function DiscountFactor(discounts: seq<Adjustment>, total: real): real
    requires discounts != [] ==> total != 0.0
  {
    if discounts == [] then 1.0
    else DiscountFactor(discounts[..|discounts| - 1], total) * (1.0 - Ratio(discounts[|discounts| - 1], total))
  }

  /** The one factor by which every person's total before extras is scaled. */
  function BillFactor(discounts: seq<Adjustment>, extraCharges: seq<Adjustment>, total: real,
                      taxPercentage: real): real
    requires discounts != [] || extraCharges != [] ==> total != 0.0
  {
    ChargeFactor(extraCharges, total) * DiscountFactor(discounts, total) * TaxMultiplier(taxPercentage)
  }

  /** `v` added once for every occurrence of `p` in `s`, left to right. */
  function Repeated(s: seq<nat>, p: nat, v: real): real
  {
    if s == [] then 0.0 else Repeated(s[..|s| - 1], p, v) + (if s[|s| - 1] == p then v else 0.0)
  }

  lemma {:induction false} RepeatedIsProduct(s: seq<nat>, p: nat, v: real)
    ensures Repeated(s, p, v) == Count(s, p) as real * v
  {
    if s != [] {
      RepeatedIsProduct(s[..|s| - 1], p, v);
    }
  }

  /** The inner loop of the first stage: the item's split value is added, in
      place, to the total of each person listed in its `belongsTo`, once per
      listing. */
  method CreditItem(personTotals: array<real>, item: Item)
    requires AllBelow(item.belongsTo, personTotals.Length)
    modifies personTotals
    ensures forall p :: 0 <= p < personTotals.Length ==>
      personTotals[p] == old(personTotals[p]) + Credit(item, p)
  {
    // With an empty `belongsTo` the source divides by zero, but never uses the quotient.
    var splitValue := if |item.belongsTo| == 0 then 0.0 else item.price / |item.belongsTo| as real;
    var j := 0;
    while j < |item.belongsTo|
      invariant 0 <= j <= |item.belongsTo|
      invariant forall p :: 0 <= p < personTotals.Length ==>
        personTotals[p] == old(personTotals[p]) + Repeated(item.belongsTo[..j], p, splitValue)
    {
      var person := item.belongsTo[j];
      assert item.belongsTo[..j + 1][..j] == item.belongsTo[..j];
      personTotals[person] := personTotals[person] + splitValue;
      j := j + 1;
    }
    assert item.belongsTo[..j] == item.belongsTo;
    forall p | 0 <= p < personTotals.Length ensures Repeated(item.belongsTo, p, splitValue) == Credit(item, p) {
      RepeatedIsCredit(item, p, splitValue);
    }
  }

  lemma RepeatedIsCredit(item: Item, p: nat, splitValue: real)
    requires splitValue == if |item.belongsTo| == 0 then 0.0 else item.price / |item.belongsTo| as real
    ensures Repeated(item.belongsTo, p, splitValue) == Credit(item, p)
  {
    RepeatedIsProduct(item.belongsTo, p, splitValue);
  }

  /** The first stage of `calculateBill`: a fresh array of zeros receives every
      item's credits in turn. */
  method SplitItems(peopleCount: nat, items: seq<Item>) returns (baseTotals: seq<real>)
    requires AssignedWithin(items, peopleCount)
    ensures baseTotals == BaseTotals(items, peopleCount)
  {
    var personTotals := new real[peopleCount](_ => 0.0);
    var k := 0;
    while k < |items|
      invariant 0 <= k <= |items|
      invariant forall p :: 0 <= p < peopleCount ==> personTotals[p] == BaseTotal(items[..k], p)
    {
      CreditItem(personTotals, items[k]);
      assert items[..k + 1][..k] == items[..k];
      k := k + 1;
    }
    assert items[..k] == items;
    baseTotals := personTotals[..];
  }

  /** The extra-charge stage: for each charge in turn, every running total
      grows by its ratio to the bill before extras `total`. */
  method ChargeAll(totals: seq<real>, extraCharges: seq<Adjustment>, total: real) returns (running: seq<real>)
    requires extraCharges != [] ==> total != 0.0
    ensures running == ApplyCharges(totals, extraCharges, total)
  {
    running := totals;
    var c := 0;
    while c < |extraCharges|
      invariant 0 <= c <= |extraCharges|
      invariant running == ApplyCharges(totals, extraCharges[..c], total)
    {
      var charge := extraCharges[c];
      var amount := charge.value;
      if charge.isPercentage {
        amount := (total * charge.value) / 100.0;
      }
      var ratio := amount / total;
      assert ratio == Ratio(charge, total);
      running := seq(|running|, i requires 0 <= i < |running| => running[i] + running[i] * ratio);
      assert running == AddShare(ApplyCharges(totals, extraCharges[..c], total), ratio);
      assert extraCharges[..c + 1][..c] == extraCharges[..c];
      c := c + 1;
    }
    assert extraCharges[..c] == extraCharges;
  }

  /** The discount stage: for each discount in turn, every running total
      shrinks by its ratio to the bill before extras `total`. */
  method DiscountAll(totals: seq<real>, discounts: seq<Adjustment>, total: real) returns (running: seq<real>)
    requires discounts != [] ==> total != 0.0
    ensures running == ApplyDiscounts(totals, discounts, total)
  {
    running := totals;
    var d := 0;
    while d < |discounts|
      invariant 0 <= d <= |discounts|
      invariant running == ApplyDiscounts(totals, discounts[..d], total)
    {
      var discount := discounts[d];
      var discountAmount := discount.value;
      if discount.isPercentage {
        discountAmount := (total * discount.value) / 100.0;
      }
      var ratio := discountAmount / total;
      assert ratio == Ratio(discount, total);
      running := seq(|running|, i requires 0 <= i < |running| => running[i] - running[i] * ratio);
      assert running == RemoveShare(ApplyDiscounts(totals, discounts[..d], total), ratio);
      assert discounts[..d + 1][..d] == discounts[..d];
      d := d + 1;
    }
    assert discounts[..d] == discounts;
  }

  /** `calculateBill`: the per-item split, a snapshot of the totals as
      `baseTotals`, then the charges, the discounts and the tax, all ratios
      taken against the fixed bill before extras. */
  method CalculateBill(peopleCount: nat, items: seq<Item>, discounts: seq<Adjustment>,
                       extraCharges: seq<Adjustment>, taxPercentage: real)
    returns (result: BillResult)
    requires Computable(items, discounts, extraCharges, peopleCount)
    ensures result.baseTotals == BaseTotals(items, peopleCount)
    ensures result.personTotals == FinalTotals(result.baseTotals, discounts, extraCharges, taxPercentage)
    ensures result.personTotals
         == Scale(result.baseTotals, BillFactor(discounts, extraCharges, Sum(result.baseTotals), taxPercentage))
  {
    var baseTotals := SplitItems(peopleCount, items);
    var totalBillBeforeExtras := Sum(baseTotals);
    var running := ChargeAll(baseTotals, extraCharges, totalBillBeforeExtras);
    running := DiscountAll(running, discounts, totalBillBeforeExtras);
    var taxMultiplier := 1.0 + taxPercentage / 100.0;
    var personTotals := seq(|running|, i requires 0 <= i < |running| => running[i] * taxMultiplier);
    assert personTotals == Scale(running, TaxMultiplier(taxPercentage));
    assert personTotals == FinalTotals(baseTotals, discounts, extraCharges, taxPercentage);
    result := BillResult(baseTotals, personTotals);
    ScalingFactor(baseTotals, discounts, extraCharges, taxPercentage);
  }

  /** Per-item split: when nobody is listed twice, an item credits exactly
      `price / |belongsTo|` to each listed person and nothing to anyone else;
      an item that belongs to nobody credits nothing. */
  lemma CreditOfItem(item: Item, p: nat)
    requires Distinct(item.belongsTo)
    ensures p in item.belongsTo ==> Credit(item, p) == item.price / |item.belongsTo| as real
    ensures p !in item.belongsTo ==> Credit(item, p) == 0.0
  {
    CountDistinct(item.belongsTo, p);
  }

  /** The credits of one item add up to its price when it belongs to somebody
      and to zero when it belongs to nobody. */
  lemma ItemCreditsSum(item: Item, n: nat)
    requires AllBelow(item.belongsTo, n)
    ensures Sum(Credits(item, n)) == if |item.belongsTo| > 0 then item.price else 0.0
  {
    if |item.belongsTo| > 0 {
      var split := SplitValue(item);
      forall p | 0 <= p < n
        ensures Credits(item, n)[p] == Scale(CountVector(item.belongsTo, n), split)[p]
      {
      }
      assert Credits(item, n) == Scale(CountVector(item.belongsTo, n), split);
      SumScale(CountVector(item.belongsTo, n), split);
      SumCountVector(item.belongsTo, n);
    } else {
      forall p | 0 <= p < n ensures Credits(item, n)[p] == Zeros(n)[p] {
      }
      assert Credits(item, n) == Zeros(n);
      SumZeros(n);
    }
  }

  /** Sum invariant: the bill before extras (`totalBillBeforeExtras`) is the sum
      of the prices of the items that belong to somebody. */
  lemma {:induction false} BaseTotalsSum(items: seq<Item>, peopleCount: nat)
    requires AssignedWithin(items, peopleCount)
    ensures Sum(BaseTotals(items, peopleCount)) == AssignedPrice(items)
  {
    if items == [] {
      assert BaseTotals(items, peopleCount) == Zeros(peopleCount);
      SumZeros(peopleCount);
    } else {
      var init, last := items[..|items| - 1], items[|items| - 1];
      assert AssignedWithin(init, peopleCount);
      assert BaseTotals(items, peopleCount)
          == Plus(BaseTotals(init, peopleCount), Credits(last, peopleCount));
      SumPlus(BaseTotals(init, peopleCount), Credits(last, peopleCount));
      BaseTotalsSum(init, peopleCount);
      ItemCreditsSum(last, peopleCount);
    }
  }

  /** The extra charges scale every running total by the same factor. */
  lemma {:induction false} ChargesAsFactor(t: seq<real>, charges: seq<Adjustment>, total: real)
    requires charges != [] ==> total != 0.0
    ensures ApplyCharges(t, charges, total) == Scale(t, ChargeFactor(charges, total))
  {
    if charges == [] {
      assert Scale(t, 1.0) == t;
    } else {
      var init := charges[..|charges| - 1];
      var ratio := Ratio(charges[|charges| - 1], total);
      ChargesAsFactor(t, init, total);
      var f := ChargeFactor(init, total);
      AddShareOfScaled(t, f, ratio);
      assert ApplyCharges(t, charges, total) == AddShare(ApplyCharges(t, init, total), ratio);
      assert ChargeFactor(charges, total) == f * (1.0 + ratio);
    }
  }

  /** The discounts scale every running total by the same factor. */
  lemma {:induction false} DiscountsAsFactor(t: seq<real>, discounts: seq<Adjustment>, total: real)
    requires discounts != [] ==> total != 0.0
    ensures ApplyDiscounts(t, discounts, total) == Scale(t, DiscountFactor(discounts, total))
  {
    if discounts == [] {
      assert Scale(t, 1.0) == t;
    } else {
      var init := discounts[..|discounts| - 1];
      var ratio := Ratio(discounts[|discounts| - 1], total);
      DiscountsAsFactor(t, init, total);
      var f := DiscountFactor(init, total);
      RemoveShareOfScaled(t, f, ratio);
      assert ApplyDiscounts(t, discounts, total) == RemoveShare(ApplyDiscounts(t, init, total), ratio);
      assert DiscountFactor(discounts, total) == f * (1.0 - ratio);
    }
  }

  /** Raising totals that were scaled by `f` by a share `ratio` scales them by `f * (1 + ratio)`. */
  lemma AddShareOfScaled(t: seq<real>, f: real, ratio: real)
    ensures AddShare(Scale(t, f), ratio) == Scale(t, f * (1.0 + ratio))
  {
    forall i | 0 <= i < |t| ensures AddShare(Scale(t, f), ratio)[i] == Scale(t, f * (1.0 + ratio))[i] {
      var x := t[i];
      assert x * f + (x * f) * ratio == x * (f * (1.0 + ratio));
    }
  }

  /** Lowering totals that were scaled by `f` by a share `ratio` scales them by `f * (1 - ratio)`. */
  lemma RemoveShareOfScaled(t: seq<real>, f: real, ratio: real)
    ensures RemoveShare(Scale(t, f), ratio) == Scale(t, f * (1.0 - ratio))
  {
    forall i | 0 <= i < |t| ensures RemoveShare(Scale(t, f), ratio)[i] == Scale(t, f * (1.0 - ratio))[i] {
      var x := t[i];
      assert x * f - (x * f) * ratio == x * (f * (1.0 - ratio));
    }
  }

  lemma ScaleThrice(t: seq<real>, a: real, b: real, c: real)
    ensures Scale(Scale(Scale(t, a), b), c) == Scale(t, a * b * c)
  {
    forall i | 0 <= i < |t| ensures Scale(Scale(Scale(t, a), b), c)[i] == Scale(t, a * b * c)[i] {
      assert (t[i] * a) * b == t[i] * (a * b);
      assert (t[i] * (a * b)) * c == t[i] * (a * b * c);
    }
  }

  /** Common scaling factor: every final total is that person's total before
      extras times one factor shared by everyone. */
  lemma ScalingFactor(base: seq<real>, discounts: seq<Adjustment>, extraCharges: seq<Adjustment>,
                      taxPercentage: real)
    requires AdjustableBase(base, discounts, extraCharges)
    ensures FinalTotals(base, discounts, extraCharges, taxPercentage)
         == Scale(base, BillFactor(discounts, extraCharges, Sum(base), taxPercentage))
  {
    var total := Sum(base);
    var cf, df, tm := ChargeFactor(extraCharges, total), DiscountFactor(discounts, total), TaxMultiplier(taxPercentage);
    ChargesAsFactor(base, extraCharges, total);
    DiscountsAsFactor(Scale(base, cf), discounts, total);
    ScaleThrice(base, cf, df, tm);
    assert BillFactor(discounts, extraCharges, total, taxPercentage) == cf * df * tm;
    assert FinalTotals(base, discounts, extraCharges, taxPercentage) == Scale(Scale(Scale(base, cf), df), tm);
  }

  /** The grand total is the bill before extras times the common factor. */
  lemma CommonFactor(base: seq<real>, discounts: seq<Adjustment>, extraCharges: seq<Adjustment>,
                     taxPercentage: real)
    requires AdjustableBase(base, discounts, extraCharges)
    ensures FinalTotals(base, discounts, extraCharges, taxPercentage)
         == Scale(base, BillFactor(discounts, extraCharges, Sum(base), taxPercentage))
    ensures Sum(FinalTotals(base, discounts, extraCharges, taxPercentage))
         == Sum(base) * BillFactor(discounts, extraCharges, Sum(base), taxPercentage)
  {
    ScalingFactor(base, discounts, extraCharges, taxPercentage);
    SumScale(base, BillFactor(discounts, extraCharges, Sum(base), taxPercentage));
  }

  /** The grand total is whatever the bill before extras times the common
      factor comes to. */
  lemma GrandTotalFromFactor(base: seq<real>, discounts: seq<Adjustment>, extraCharges: seq<Adjustment>,
                             taxPercentage: real, g: real)
    requires AdjustableBase(base, discounts, extraCharges)
    requires Sum(base) * BillFactor(discounts, extraCharges, Sum(base), taxPercentage) == g
    ensures Sum(FinalTotals(base, discounts, extraCharges, taxPercentage)) == g
  {
    CommonFactor(base, discounts, extraCharges, taxPercentage);
  }

  /** Relative shares are kept: any two people's final totals stand in the same
      proportion as their totals before extras, and a person who owed nothing
      before extras owes nothing at the end. */
  lemma SharesPreserved(base: seq<real>, discounts: seq<Adjustment>, extraCharges: seq<Adjustment>,
                        taxPercentage: real, i: nat, j: nat)
    requires AdjustableBase(base, discounts, extraCharges)
    requires i < |base| && j < |base|
    ensures FinalTotals(base, discounts, extraCharges, taxPercentage)[i] * base[j]
         == FinalTotals(base, discounts, extraCharges, taxPercentage)[j] * base[i]
    ensures base[i] == 0.0 ==> FinalTotals(base, discounts, extraCharges, taxPercentage)[i] == 0.0
  {
    ScalingFactor(base, discounts, extraCharges, taxPercentage);
    ScaledProportional(base, BillFactor(discounts, extraCharges, Sum(base), taxPercentage),
                       FinalTotals(base, discounts, extraCharges, taxPercentage), i, j);
  }

  /** Entries scaled by one common factor stay in proportion. */
  lemma ScaledProportional(base: seq<real>, f: real, r: seq<real>, i: nat, j: nat)
    requires r == Scale(base, f)
    requires i < |base| && j < |base|
    ensures r[i] * base[j] == r[j] * base[i]
    ensures base[i] == 0.0 ==> r[i] == 0.0
  {
    assert r[i] == base[i] * f && r[j] == base[j] * f;
    assert (base[i] * f) * base[j] == (base[j] * f) * base[i];
  }

  /** Adjustments whose amount is zero leave the factor at one. */
  lemma {:induction false} NeutralDiscounts(discounts: seq<Adjustment>, total: real)
    requires total != 0.0
    requires forall k :: 0 <= k < |discounts| ==> AdjustmentAmount(discounts[k], total) == 0.0
    ensures DiscountFactor(discounts, total) == 1.0
  {
    if discounts != [] {
      NeutralDiscounts(discounts[..|discounts| - 1], total);
    }
  }

  lemma {:induction false} NeutralCharges(charges: seq<Adjustment>, total: real)
    requires total != 0.0
    requires forall k :: 0 <= k < |charges| ==> AdjustmentAmount(charges[k], total) == 0.0
    ensures ChargeFactor(charges, total) == 1.0
  {
    if charges != [] {
      NeutralCharges(charges[..|charges| - 1], total);
    }
  }

  /** One flat extra charge `v`, no effective discount and no tax: the grand
      total is the bill before extras plus `v`. */
  lemma SingleFlatCharge(base: seq<real>, v: real, discounts: seq<Adjustment>)
    requires Sum(base) != 0.0
    requires forall k :: 0 <= k < |discounts| ==> AdjustmentAmount(discounts[k], Sum(base)) == 0.0
    ensures Sum(FinalTotals(base, discounts, [Adjustment(v, false)], 0.0)) == Sum(base) + v
  {
    SingleFlatChargeFactor(Sum(base), v, discounts);
    GrandTotalFromFactor(base, discounts, [Adjustment(v, false)], 0.0, Sum(base) + v);
  }

  lemma SingleFlatChargeFactor(s: real, v: real, discounts: seq<Adjustment>)
    requires s != 0.0
    requires forall k :: 0 <= k < |discounts| ==> AdjustmentAmount(discounts[k], s) == 0.0
    ensures s * BillFactor(discounts, [Adjustment(v, false)], s, 0.0) == s + v
  {
    NeutralDiscounts(discounts, s);
    var r := Ratio(Adjustment(v, false), s);
    assert ChargeFactor([Adjustment(v, false)], s) == 1.0 + r by {
      assert [Adjustment(v, false)][..0] == [];
    }
    assert s * ((1.0 + r) * 1.0 * 1.0) == s + r * s;
  }

  /** One flat discount `v`, no effective extra charge and no tax: the grand
      total is the bill before extras minus `v`. */
  lemma SingleFlatDiscount(base: seq<real>, v: real, extraCharges: seq<Adjustment>)
    requires Sum(base) != 0.0
    requires forall k :: 0 <= k < |extraCharges| ==> AdjustmentAmount(extraCharges[k], Sum(base)) == 0.0
    ensures Sum(FinalTotals(base, [Adjustment(v, false)], extraCharges, 0.0)) == Sum(base) - v
  {
    SingleFlatDiscountFactor(Sum(base), v, extraCharges);
    GrandTotalFromFactor(base, [Adjustment(v, false)], extraCharges, 0.0, Sum(base) - v);
  }

  lemma SingleFlatDiscountFactor(s: real, v: real, extraCharges: seq<Adjustment>)
    requires s != 0.0
    requires forall k :: 0 <= k < |extraCharges| ==> AdjustmentAmount(extraCharges[k], s) == 0.0
    ensures s * BillFactor([Adjustment(v, false)], extraCharges, s, 0.0) == s - v
  {
    NeutralCharges(extraCharges, s);
    var r := Ratio(Adjustment(v, false), s);
    assert DiscountFactor([Adjustment(v, false)], s) == 1.0 - r by {
      assert [Adjustment(v, false)][..0] == [];
    }
    assert s * (1.0 * (1.0 - r) * 1.0) == s - r * s;
  }

  lemma CompoundArithmetic(s: real, v1: real, v2: real)
    requires s != 0.0
    ensures s * ((1.0 + v1 / s) * (1.0 + v2 / s)) == s + v1 + v2 + v1 * v2 / s
  {
    var r1, r2 := v1 / s, v2 / s;
    assert s * r1 == v1 && s * r2 == v2;
    calc {
      s * ((1.0 + r1) * (1.0 + r2));
      s * (1.0 + r1) + s * (1.0 + r1) * r2;
      s + v1 + (s * r2) * (1.0 + r1);
      s + v1 + v2 * (1.0 + r1);
      s + v1 + v2 + v2 * r1;
    }
    assert v2 * r1 == v1 * v2 / s;
  }

  /** Extra charges compound: two flat charges `v1`, `v2` add `v1 + v2` plus the
      cross term `v1 * v2 / total`, because the second scales the totals the
      first already raised. */
  lemma TwoFlatChargesCompound(base: seq<real>, v1: real, v2: real)
    requires Sum(base) != 0.0
    ensures Sum(FinalTotals(base, [], [Adjustment(v1, false), Adjustment(v2, false)], 0.0))
         == Sum(base) + v1 + v2 + v1 * v2 / Sum(base)
  {
    TwoFlatChargesFactor(Sum(base), v1, v2);
    GrandTotalFromFactor(base, [], [Adjustment(v1, false), Adjustment(v2, false)], 0.0,
                         Sum(base) + v1 + v2 + v1 * v2 / Sum(base));
  }

  lemma TwoFlatChargesFactor(s: real, v1: real, v2: real)
    requires s != 0.0
    ensures s * BillFactor([], [Adjustment(v1, false), Adjustment(v2, false)], s, 0.0)
         == s + v1 + v2 + v1 * v2 / s
  {
    var cs := [Adjustment(v1, false), Adjustment(v2, false)];
    assert cs[..1] == [cs[0]];
    assert cs[..1][..0] == [];
    assert ChargeFactor(cs[..1], s) == 1.0 + v1 / s;
    assert BillFactor([], cs, s, 0.0) == (1.0 + v1 / s) * (1.0 + v2 / s);
    CompoundArithmetic(s, v1, v2);
  }

  /** The example of two people sharing a pizza of 100 with one flat extra
      charge of 20, the default zero discount and 10% tax: 50 each before
      extras, 66 each at the end. */
  lemma PizzaExample()
    ensures var items := [Item("Pizza", 100.0, [0, 1])];
            var discounts := [Adjustment(0.0, false)];
            var extraCharges := [Adjustment(20.0, false)];
            Computable(items, discounts, extraCharges, 2)
            && BaseTotals(items, 2) == [50.0, 50.0]
            && FinalTotals(BaseTotals(items, 2), discounts, extraCharges, 10.0) == [66.0, 66.0]
  {
    var items := [Item("Pizza", 100.0, [0, 1])];
    var pizza := items[0];
    assert Count(pizza.belongsTo, 0) == 1 by { assert pizza.belongsTo[..1] == [0]; }
    assert Count(pizza.belongsTo, 1) == 1 by { assert pizza.belongsTo[..1] == [0]; }
    assert items[..0] == [];
    assert BaseTotal(items, 0) == 50.0;
    assert BaseTotal(items, 1) == 50.0;
    var base := BaseTotals(items, 2);
    assert base == [50.0, 50.0];
    assert Sum(base) == 100.0 by {
      assert base[..1] == [50.0];
      assert base[..1][..0] == [];
      assert Sum(base[..1]) == 50.0;
    }
    var discounts := [Adjustment(0.0, false)];
    var extraCharges := [Adjustment(20.0, false)];
    ScalingFactor(base, discounts, extraCharges, 10.0);
    assert discounts[..0] == [] && extraCharges[..0] == [];
    assert BillFactor(discounts, extraCharges, 100.0, 10.0) == 1.32;
  }
}
