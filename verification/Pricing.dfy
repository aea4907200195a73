/** The variant price calculator of utils/calculatePrice.js: a product's base
    price adjusted by at most one storage-size delta and at most one memory
    delta, chosen by exact string equality on the cart item's selectors.
    Prices are whole currency units (`int`), so scaling to cents is exact. */
module Pricing {
  import opened Wrappers

  /** An `id` property as JSON can carry it: absent, `null`, or a string.
      Two ids are `===`-equal exactly when they are equal values here, so an
      absent id matches another absent one but not a `null` one. */
  datatype Id = UndefinedId | NullId | StringId(s: string)

  /** A cart line as the client sends it; absent selectors are `None`
      (a `null` selector behaves the same: it equals no option string). */
  datatype Item = Item(
    id: Id,
    quantity: int,
    selectedSize: Option<string>,
    selectedRam: Option<string>)

  /** A catalog record as the document store returns it. `image` is `None`
      when the record has no image list at all. */
  datatype Product = Product(
    id: Id,
    name: string,
    price: int,
    image: Option<seq<string>>)

  /** The calculator as written: five independent conditional updates, the
      storage-size group first, then the memory group. */
  function CalculatePrice(item: Item, product: Product): (price: int)
    ensures product.price - 400 <= price <= product.price + 700
    ensures item.selectedSize.None? && item.selectedRam.None? ==> price == product.price
  {
    var p0 := product.price;
    var p1 := if item.selectedSize == Some("128GB") then p0 + 250 else p0;
    var p2 := if item.selectedSize == Some("256GB") then p1 + 500 else p1;
    var p3 := if item.selectedSize == Some("32GB") then p2 - 200 else p2;
    var p4 := if item.selectedRam == Some("16GB") then p3 + 200 else p3;
    var p5 := if item.selectedRam == Some("4GB") then p4 - 200 else p4;
    p5
  }

  /** The adjustment tables, as (selector value, delta) pairs. */
  const SizeDeltas: seq<(string, int)> := [("128GB", 250), ("256GB", 500), ("32GB", -200)]
  const RamDeltas: seq<(string, int)> := [("16GB", 200), ("4GB", -200)]

  /** The delta of the first table entry whose key equals the selector;
      an absent or unrecognised selector contributes nothing. */
  function Delta(table: seq<(string, int)>, selector: Option<string>): int
  {
    if |table| == 0 then 0
    else if selector == Some(table[0].0) then table[0].1
    else Delta(table[1..], selector)
  }

  function SizeDelta(selector: Option<string>): int { Delta(SizeDeltas, selector) }

  function RamDelta(selector: Option<string>): int { Delta(RamDeltas, selector) }

  /** The calculator is the base price plus one table delta per selector
      group: the conditional updates never stack within a group. */
  lemma CalculatePriceIsBasePlusDeltas(item: Item, product: Product)
    ensures CalculatePrice(item, product)
         == product.price + SizeDelta(item.selectedSize) + RamDelta(item.selectedRam)
    ensures SizeDelta(item.selectedSize) in {0, 250, 500, -200}
    ensures RamDelta(item.selectedRam) in {0, 200, -200}
  {
    SizeDeltaTable(item.selectedSize);
    RamDeltaTable(item.selectedRam);
  }

  /** The table contents, entry by entry, and the fall-through to zero. */
  lemma SizeDeltaTable(selector: Option<string>)
    ensures selector == Some("128GB") ==> SizeDelta(selector) == 250
    ensures selector == Some("256GB") ==> SizeDelta(selector) == 500
    ensures selector == Some("32GB") ==> SizeDelta(selector) == -200
    ensures selector !in {Some("128GB"), Some("256GB"), Some("32GB")} ==> SizeDelta(selector) == 0
  {
    var t := SizeDeltas;
    assert t[1..] == [("256GB", 500), ("32GB", -200)];
    assert t[1..][1..] == [("32GB", -200)];
    assert t[1..][1..][1..] == [];
    if selector !in {Some("128GB"), Some("256GB"), Some("32GB")} {
      assert Delta(t[1..][1..], selector) == Delta(t[1..][1..][1..], selector) == 0;
      assert Delta(t[1..], selector) == Delta(t[1..][1..], selector);
    }
  }

  lemma RamDeltaTable(selector: Option<string>)
    ensures selector == Some("16GB") ==> RamDelta(selector) == 200
    ensures selector == Some("4GB") ==> RamDelta(selector) == -200
    ensures selector !in {Some("16GB"), Some("4GB")} ==> RamDelta(selector) == 0
  {
    var t := RamDeltas;
    assert t[1..] == [("4GB", -200)];
    assert t[1..][1..] == [];
    if selector !in {Some("16GB"), Some("4GB")} {
      assert Delta(t[1..], selector) == Delta(t[1..][1..], selector) == 0;
    }
  }

  /** Changing one selector group moves the price by exactly the difference
      of that group's deltas, whatever the other group holds. */
  lemma SelectorGroupsIndependent(item: Item, ram: Option<string>, product: Product)
    ensures CalculatePrice(item.(selectedRam := ram), product) - CalculatePrice(item, product)
         == RamDelta(ram) - RamDelta(item.selectedRam)
  {
    CalculatePriceIsBasePlusDeltas(item, product);
    CalculatePriceIsBasePlusDeltas(item.(selectedRam := ram), product);
  }

  /** A base price of 500 with the "128GB" size option costs 750. */
  lemma Example128GB()
    ensures CalculatePrice(Item(StringId("p1"), 2, Some("128GB"), None),
                           Product(StringId("p1"), "Phone", 500, Some([]))) == 750
  {
  }
}
