/**
 * The cart of products.js as a value: its line items, the folds over them
 * (item count, total), the transformations the store applies to the loaded
 * cart (add a product, drop an id, change a quantity), and the grouping
 * by category behind the cart view and the spend summary.
 *
 * Sums are left folds, in the order `Array.prototype.reduce` visits the
 * items; prices are exact reals.
 */
module CartModel {
  import opened Text

  /** A cart line item; a missing category is the empty string. */
  datatype Item = Item(id: string, name: string, price: real, category: string, qty: int)

  /** A catalog product. */
  datatype Product = Product(id: string, name: string, price: real)

  // ---------------------------------------------------------------------------
  // Invariants of a well-kept cart
  // ---------------------------------------------------------------------------

  /** Every line has a positive quantity. */
  predicate AllPositive(cart: seq<Item>) {
    forall i :: 0 <= i < |cart| ==> cart[i].qty > 0
  }

  predicate IsLine(it: Item, id: string, category: string) {
    it.id == id && it.category == category
  }

  /** At most one line per (id, category) pair. */
  predicate UniqueLines(cart: seq<Item>) {
    forall i, j :: 0 <= i < j < |cart| ==> !IsLine(cart[j], cart[i].id, cart[i].category)
  }

  // ---------------------------------------------------------------------------
  // Count (the header badge) and total
  // ---------------------------------------------------------------------------

  /** Sum of the quantities, as `cart.reduce((sum, item) => sum + item.qty, 0)`. */
  function Count(cart: seq<Item>): int {
    if |cart| == 0 then 0 else Count(cart[..|cart| - 1]) + cart[|cart| - 1].qty
  }

  function Amount(it: Item): real {
    it.price * it.qty as real
  }

  /** Sum of price * qty, as `calculateCartTotal`. */
  function Total(cart: seq<Item>): real {
    if |cart| == 0 then 0.0 else Total(cart[..|cart| - 1]) + Amount(cart[|cart| - 1])
  }

  lemma {:induction false} CountAppend(a: seq<Item>, b: seq<Item>)
    ensures Count(a + b) == Count(a) + Count(b)
    decreases |b|
  {
    if |b| == 0 {
      assert a + b == a;
    } else {
      assert (a + b)[..|a + b| - 1] == a + b[..|b| - 1];
      assert (a + b)[|a + b| - 1] == b[|b| - 1];
      CountAppend(a, b[..|b| - 1]);
    }
  }

  lemma {:induction false} TotalAppend(a: seq<Item>, b: seq<Item>)
    ensures Total(a + b) == Total(a) + Total(b)
    decreases |b|
  {
    if |b| == 0 {
      assert a + b == a;
    } else {
      assert (a + b)[..|a + b| - 1] == a + b[..|b| - 1];
      assert (a + b)[|a + b| - 1] == b[|b| - 1];
      TotalAppend(a, b[..|b| - 1]);
    }
  }

  lemma CountOne(x: Item)
    ensures Count([x]) == x.qty
  {
    assert [x][..0] == [];
  }

  /** Replacing one line changes the count by the difference of the quantities. */
  lemma CountReplace(cart: seq<Item>, k: nat, it: Item)
    requires k < |cart|
    ensures Count(cart[k := it]) == Count(cart) - cart[k].qty + it.qty
  {
    var a, b := cart[..k], cart[k + 1..];
    assert cart == (a + [cart[k]]) + b;
    assert cart[k := it] == (a + [it]) + b;
    CountAppend(a + [cart[k]], b);
    CountAppend(a + [it], b);
    CountAppend(a, [cart[k]]);
    CountAppend(a, [it]);
    CountOne(cart[k]);
    CountOne(it);
  }

  /** Dropping one line lowers the count by that line's quantity. */
  lemma CountRemoveAt(cart: seq<Item>, k: nat)
    requires k < |cart|
    ensures Count(cart[..k] + cart[k + 1..]) == Count(cart) - cart[k].qty
  {
    SplitAround(cart, k);
    CountSplit(cart[..k], cart[k], cart[k + 1..]);
  }

  lemma SplitAround<T>(s: seq<T>, k: nat)
    requires k < |s|
    ensures s == s[..k] + [s[k]] + s[k + 1..]
  {
  }

  /** One line x between a and b adds its quantity. */
  lemma CountSplit(a: seq<Item>, x: Item, b: seq<Item>)
    ensures Count(a + [x] + b) == Count(a + b) + x.qty
  {
    CountAppend(a + [x], b);
    CountAppend(a, [x]);
    CountAppend(a, b);
    CountOne(x);
  }

  /** With positive quantities the count is at least the number of lines. */
  lemma {:induction false} CountAtLeastLines(cart: seq<Item>)
    requires AllPositive(cart)
    ensures Count(cart) >= |cart|
    ensures |cart| > 0 ==> Count(cart) > 0
  {
    if |cart| > 0 {
      CountAtLeastLines(cart[..|cart| - 1]);
    }
  }

  // ---------------------------------------------------------------------------
  // Finding a line (`cart.find`)
  // ---------------------------------------------------------------------------

  /** Index of the first line with this id and category, or |cart| if none. */
  function LineIndex(cart: seq<Item>, id: string, category: string): (k: nat)
    ensures k <= |cart|
    ensures k < |cart| ==> IsLine(cart[k], id, category)
    ensures forall j :: 0 <= j < k ==> !IsLine(cart[j], id, category)
  {
    if |cart| == 0 then 0
    else if IsLine(cart[0], id, category) then 0
    else 1 + LineIndex(cart[1..], id, category)
  }

  /** Index of the first line with this id, whatever its category, or |cart| if none. */
  function IdIndex(cart: seq<Item>, id: string): (k: nat)
    ensures k <= |cart|
    ensures k < |cart| ==> cart[k].id == id
    ensures forall j :: 0 <= j < k ==> cart[j].id != id
  {
    if |cart| == 0 then 0
    else if cart[0].id == id then 0
    else 1 + IdIndex(cart[1..], id)
  }

  // ---------------------------------------------------------------------------
  // Adding a product (the cart part of `addToCart`)
  // ---------------------------------------------------------------------------

  /** The line `addToCart` appends for a product not yet in the cart. */
  function NewLine(p: Product, category: string): Item {
    Item(p.id, p.name, p.price, category, 1)
  }

  /** The cart after adding product p of the given category once. */
  function WithAdded(cart: seq<Item>, category: string, p: Product): seq<Item> {
    var k := LineIndex(cart, p.id, category);
    if k < |cart| then cart[k := cart[k].(qty := cart[k].qty + 1)]
    else cart + [NewLine(p, category)]
  }

  /** An existing line for (id, category) gets one more unit; nothing else changes. */
  lemma AddExisting(cart: seq<Item>, category: string, p: Product, i: nat)
    requires i < |cart| && IsLine(cart[i], p.id, category)
    ensures var r := WithAdded(cart, category, p);
      && |r| == |cart|
      && exists k :: 0 <= k <= i && IsLine(cart[k], p.id, category)
           && r[k] == cart[k].(qty := cart[k].qty + 1)
           && forall j :: 0 <= j < |cart| && j != k ==> r[j] == cart[j]
  {
    var k := LineIndex(cart, p.id, category);
    assert k <= i;
  }

  /** Without a line for (id, category), one line with quantity 1 is appended. */
  lemma AddNew(cart: seq<Item>, category: string, p: Product)
    requires forall i :: 0 <= i < |cart| ==> !IsLine(cart[i], p.id, category)
    ensures WithAdded(cart, category, p) == cart + [Item(p.id, p.name, p.price, category, 1)]
  {
    var k := LineIndex(cart, p.id, category);
  }

  /** Adding raises the item count by exactly one. */
  lemma AddCount(cart: seq<Item>, category: string, p: Product)
    ensures Count(WithAdded(cart, category, p)) == Count(cart) + 1
  {
    var k := LineIndex(cart, p.id, category);
    if k < |cart| {
      CountReplace(cart, k, cart[k].(qty := cart[k].qty + 1));
    } else {
      CountAppend(cart, [NewLine(p, category)]);
    }
  }

  /** Adding keeps lines unique per (id, category) and quantities positive. */
  lemma AddPreserves(cart: seq<Item>, category: string, p: Product)
    ensures UniqueLines(cart) ==> UniqueLines(WithAdded(cart, category, p))
    ensures AllPositive(cart) ==> AllPositive(WithAdded(cart, category, p))
  {
    var k := LineIndex(cart, p.id, category);
    var r := WithAdded(cart, category, p);
    if UniqueLines(cart) {
      if k < |cart| {
        forall i, j | 0 <= i < j < |r| ensures !IsLine(r[j], r[i].id, r[i].category) {
          assert r[i].id == cart[i].id && r[i].category == cart[i].category;
          assert r[j].id == cart[j].id && r[j].category == cart[j].category;
        }
      } else {
        forall i, j | 0 <= i < j < |r| ensures !IsLine(r[j], r[i].id, r[i].category) {
          if j == |cart| {
            assert !IsLine(cart[i], p.id, category);
          }
        }
      }
    }
  }

  /** The cart after n additions of the same product. */
  function AddedTimes(cart: seq<Item>, category: string, p: Product, n: nat): seq<Item> {
    if n == 0 then cart else WithAdded(AddedTimes(cart, category, p, n - 1), category, p)
  }

  /** Adding one product n times to an empty cart yields a single line of quantity n. */
  lemma {:induction false} AddRepeated(category: string, p: Product, n: nat)
    requires n > 0
    ensures AddedTimes([], category, p, n) == [Item(p.id, p.name, p.price, category, n)]
  {
    if n > 1 {
      AddRepeated(category, p, n - 1);
      assert LineIndex([Item(p.id, p.name, p.price, category, n - 1)], p.id, category) == 0;
    }
  }

  // ---------------------------------------------------------------------------
  // Removing by id (`removeFromCart`'s filter)
  // ---------------------------------------------------------------------------

  /** The cart without any line whose id is the given one, whatever its category. */
  function WithoutId(cart: seq<Item>, id: string): (r: seq<Item>)
    ensures |r| <= |cart|
    ensures forall i :: 0 <= i < |r| ==> r[i].id != id
    ensures forall x :: x in r <==> x in cart && x.id != id
  {
    if |cart| == 0 then []
    else
      var last := cart[|cart| - 1];
      assert cart == cart[..|cart| - 1] + [last];
      WithoutId(cart[..|cart| - 1], id) + (if last.id != id then [last] else [])
  }

  /** The filter distributes over concatenation, so survivors keep their relative order. */
  lemma {:induction false} WithoutIdAppend(a: seq<Item>, b: seq<Item>, id: string)
    ensures WithoutId(a + b, id) == WithoutId(a, id) + WithoutId(b, id)
    decreases |b|
  {
    if |b| == 0 {
      assert a + b == a;
    } else {
      assert (a + b)[..|a + b| - 1] == a + b[..|b| - 1];
      assert (a + b)[|a + b| - 1] == b[|b| - 1];
      WithoutIdAppend(a, b[..|b| - 1], id);
    }
  }

  /** A cart without that id is left as it is. */
  lemma {:induction false} WithoutIdAbsent(cart: seq<Item>, id: string)
    requires forall i :: 0 <= i < |cart| ==> cart[i].id != id
    ensures WithoutId(cart, id) == cart
  {
    if |cart| > 0 {
      WithoutIdAbsent(cart[..|cart| - 1], id);
    }
  }

  lemma UniqueSnoc(cart: seq<Item>, x: Item)
    requires UniqueLines(cart)
    requires forall y :: y in cart ==> !IsLine(x, y.id, y.category)
    ensures UniqueLines(cart + [x])
  {
    var r := cart + [x];
    forall i, j | 0 <= i < j < |r| ensures !IsLine(r[j], r[i].id, r[i].category) {
      if j == |cart| {
        assert r[i] in cart;
      }
    }
  }

  /** Removing keeps lines unique and quantities positive. */
  lemma {:induction false} WithoutIdPreserves(cart: seq<Item>, id: string)
    ensures UniqueLines(cart) ==> UniqueLines(WithoutId(cart, id))
    ensures AllPositive(cart) ==> AllPositive(WithoutId(cart, id))
  {
    if |cart| > 0 {
      var init := cart[..|cart| - 1];
      var last := cart[|cart| - 1];
      WithoutIdPreserves(init, id);
      assert cart == init + [last];
      if UniqueLines(cart) {
        assert UniqueLines(init) by {
          forall i, j | 0 <= i < j < |init| ensures !IsLine(init[j], init[i].id, init[i].category) {
            assert init[i] == cart[i] && init[j] == cart[j];
          }
        }
        if last.id != id {
          forall y | y in WithoutId(init, id) ensures !IsLine(last, y.id, y.category) {
            var i :| 0 <= i < |init| && init[i] == y;
            assert cart[i] == y;
          }
          UniqueSnoc(WithoutId(init, id), last);
        }
      }
    }
  }

  // ---------------------------------------------------------------------------
  // Changing a quantity (`handleQuantityChange` once the line is found)
  // ---------------------------------------------------------------------------

  /** The cart after applying "inc", "dec" or another action to line k. */
  function WithQuantityChanged(cart: seq<Item>, k: nat, action: string): seq<Item>
    requires k < |cart|
  {
    if action == "inc" then cart[k := cart[k].(qty := cart[k].qty + 1)]
    else if action == "dec" then
      if cart[k].qty - 1 <= 0 then cart[..k] + cart[k + 1..]
      else cart[k := cart[k].(qty := cart[k].qty - 1)]
    else cart
  }

  /** "inc" adds one unit, "dec" takes one away, anything else leaves the count alone. */
  lemma QuantityCount(cart: seq<Item>, k: nat, action: string)
    requires k < |cart| && AllPositive(cart)
    ensures Count(WithQuantityChanged(cart, k, action))
         == Count(cart) + (if action == "inc" then 1 else if action == "dec" then -1 else 0)
  {
    if action == "inc" {
      CountReplace(cart, k, cart[k].(qty := cart[k].qty + 1));
    } else if action == "dec" {
      if cart[k].qty - 1 <= 0 {
        CountRemoveAt(cart, k);
      } else {
        CountReplace(cart, k, cart[k].(qty := cart[k].qty - 1));
      }
    }
  }

  /** "dec" on a line of quantity 1 drops that line and keeps the others in order. */
  lemma DecrementLastUnit(cart: seq<Item>, k: nat)
    requires k < |cart| && cart[k].qty == 1
    ensures WithQuantityChanged(cart, k, "dec") == cart[..k] + cart[k + 1..]
    ensures UniqueLines(cart) ==> forall x :: x in WithQuantityChanged(cart, k, "dec") ==> !IsLine(x, cart[k].id, cart[k].category)
  {
    var r := cart[..k] + cart[k + 1..];
    if UniqueLines(cart) {
      forall x | x in r ensures !IsLine(x, cart[k].id, cart[k].category) {
        var i :| 0 <= i < |r| && r[i] == x;
        if i < k {
          assert x == cart[i];
        } else {
          assert x == cart[i + 1];
        }
      }
    }
  }

  /** Changing a quantity keeps lines unique and every quantity positive. */
  lemma QuantityPreserves(cart: seq<Item>, k: nat, action: string)
    requires k < |cart|
    ensures UniqueLines(cart) ==> UniqueLines(WithQuantityChanged(cart, k, action))
    ensures AllPositive(cart) ==> AllPositive(WithQuantityChanged(cart, k, action))
  {
    var r := WithQuantityChanged(cart, k, action);
    if action == "dec" && cart[k].qty - 1 <= 0 {
      assert forall i :: 0 <= i < |r| ==> r[i] == (if i < k then cart[i] else cart[i + 1]);
      if UniqueLines(cart) {
        forall i, j | 0 <= i < j < |r| ensures !IsLine(r[j], r[i].id, r[i].category) {
          var i' := if i < k then i else i + 1;
          var j' := if j < k then j else j + 1;
          assert r[i] == cart[i'] && r[j] == cart[j'] && i' < j';
        }
      }
    } else if UniqueLines(cart) {
      forall i, j | 0 <= i < j < |r| ensures !IsLine(r[j], r[i].id, r[i].category) {
        assert r[i].id == cart[i].id && r[i].category == cart[i].category;
        assert r[j].id == cart[j].id && r[j].category == cart[j].category;
      }
    }
  }

  // ---------------------------------------------------------------------------
  // Grouping by category (`groupCartByCategory`, `categorySpendSummary`)
  // ---------------------------------------------------------------------------

  /** The group an item is filed under: its category, or "other" when that is missing. */
  function GroupKey(it: Item): string {
    if it.category == "" then "other" else it.category
  }

  /** The group keys in order of first appearance, as the grouped object's keys. */
  function GroupKeys(cart: seq<Item>): seq<string> {
    if |cart| == 0 then []
    else
      var ks := GroupKeys(cart[..|cart| - 1]);
      var k := GroupKey(cart[|cart| - 1]);
      if k in ks then ks else ks + [k]
  }

  /** Each key an item is filed under occurs among the group keys, exactly once, and no other. */
  lemma {:induction false} GroupKeysSpec(cart: seq<Item>)
    ensures Distinct(GroupKeys(cart))
    ensures forall k :: k in GroupKeys(cart) <==> exists i :: 0 <= i < |cart| && GroupKey(cart[i]) == k
  {
    if |cart| > 0 {
      var init := cart[..|cart| - 1];
      GroupKeysSpec(init);
      assert forall i :: 0 <= i < |init| ==> init[i] == cart[i];
    }
  }

  /** The items filed under key k, in cart order. */
  function InGroup(cart: seq<Item>, k: string): (g: seq<Item>)
    ensures |g| <= |cart|
    ensures forall i :: 0 <= i < |g| ==> GroupKey(g[i]) == k
  {
    if |cart| == 0 then []
    else
      var last := cart[|cart| - 1];
      InGroup(cart[..|cart| - 1], k) + (if GroupKey(last) == k then [last] else [])
  }

  lemma {:induction false} InGroupAppend(a: seq<Item>, b: seq<Item>, k: string)
    ensures InGroup(a + b, k) == InGroup(a, k) + InGroup(b, k)
    decreases |b|
  {
    if |b| == 0 {
      assert a + b == a;
    } else {
      assert (a + b)[..|a + b| - 1] == a + b[..|b| - 1];
      assert (a + b)[|a + b| - 1] == b[|b| - 1];
      InGroupAppend(a, b[..|b| - 1], k);
    }
  }

  /** A key that no item is filed under has an empty group. */
  lemma {:induction false} InGroupAbsent(cart: seq<Item>, k: string)
    requires k !in GroupKeys(cart)
    ensures InGroup(cart, k) == []
  {
    if |cart| > 0 {
      var init := cart[..|cart| - 1];
      assert forall i :: 0 <= i < |init| ==> init[i] == cart[i];
      InGroupAbsent(init, k);
    }
  }

  /** Sum of the group sizes over the keys ks. */
  function SizesOver(cart: seq<Item>, ks: seq<string>): int {
    if |ks| == 0 then 0 else |InGroup(cart, ks[0])| + SizesOver(cart, ks[1..])
  }

  /** Sum of the group counts over the keys ks. */
  function CountsOver(cart: seq<Item>, ks: seq<string>): int {
    if |ks| == 0 then 0 else Count(InGroup(cart, ks[0])) + CountsOver(cart, ks[1..])
  }

  /** Sum of the group totals over the keys ks. */
  function TotalsOver(cart: seq<Item>, ks: seq<string>): real {
    if |ks| == 0 then 0.0 else Total(InGroup(cart, ks[0])) + TotalsOver(cart, ks[1..])
  }

  /** Every key an item of the cart is filed under occurs in ks. */
  predicate CoversKeys(cart: seq<Item>, ks: seq<string>) {
    forall i :: 0 <= i < |cart| ==> GroupKey(cart[i]) in ks
  }

  /** Over distinct keys, adding one item x adds its measure exactly once. */
  lemma {:induction false} OverSnoc(cart: seq<Item>, x: Item, ks: seq<string>)
    requires Distinct(ks)
    ensures SizesOver(cart + [x], ks) == SizesOver(cart, ks) + (if GroupKey(x) in ks then 1 else 0)
    ensures CountsOver(cart + [x], ks) == CountsOver(cart, ks) + (if GroupKey(x) in ks then x.qty else 0)
    ensures TotalsOver(cart + [x], ks) == TotalsOver(cart, ks) + (if GroupKey(x) in ks then Amount(x) else 0.0)
  {
    if |ks| > 0 {
      assert (cart + [x])[..|cart + [x]| - 1] == cart;
      assert Distinct(ks[1..]);
      OverSnoc(cart, x, ks[1..]);
      assert GroupKey(x) == ks[0] ==> GroupKey(x) !in ks[1..];
      assert GroupKey(x) in ks <==> GroupKey(x) == ks[0] || GroupKey(x) in ks[1..];
      var g := InGroup(cart, ks[0]);
      if GroupKey(x) == ks[0] {
        assert InGroup(cart + [x], ks[0]) == g + [x];
        assert (g + [x])[..|g + [x]| - 1] == g;
      } else {
        assert InGroup(cart + [x], ks[0]) == g;
      }
    }
  }

  /**
   * Over any distinct keys that cover the cart, the groups partition it:
   * sizes sum to its length, counts to its count, totals to its total.
   */
  lemma {:induction false} GroupsPartition(cart: seq<Item>, ks: seq<string>)
    requires Distinct(ks) && CoversKeys(cart, ks)
    ensures SizesOver(cart, ks) == |cart|
    ensures CountsOver(cart, ks) == Count(cart)
    ensures TotalsOver(cart, ks) == Total(cart)
  {
    if |cart| == 0 {
      ZeroOver(cart, ks);
    } else {
      var init := cart[..|cart| - 1];
      var last := cart[|cart| - 1];
      assert cart == init + [last];
      assert CoversKeys(init, ks) by {
        forall i | 0 <= i < |init| ensures GroupKey(init[i]) in ks {
          assert init[i] == cart[i];
        }
      }
      GroupsPartition(init, ks);
      OverSnoc(init, last, ks);
    }
  }

  lemma {:induction false} ZeroOver(cart: seq<Item>, ks: seq<string>)
    requires |cart| == 0
    ensures SizesOver(cart, ks) == 0 && CountsOver(cart, ks) == 0 && TotalsOver(cart, ks) == 0.0
  {
    if |ks| > 0 {
      ZeroOver(cart, ks[1..]);
    }
  }

  /** The group sizes, counts and totals over the cart's own keys add up to the whole cart. */
  lemma GroupKeysPartition(cart: seq<Item>)
    ensures SizesOver(cart, GroupKeys(cart)) == |cart|
    ensures CountsOver(cart, GroupKeys(cart)) == Count(cart)
    ensures TotalsOver(cart, GroupKeys(cart)) == Total(cart)
  {
    GroupKeysSpec(cart);
    assert CoversKeys(cart, GroupKeys(cart)) by {
      forall i | 0 <= i < |cart| ensures GroupKey(cart[i]) in GroupKeys(cart) {
        assert exists j :: 0 <= j < |cart| && GroupKey(cart[j]) == GroupKey(cart[i]);
      }
    }
    GroupsPartition(cart, GroupKeys(cart));
  }
}
