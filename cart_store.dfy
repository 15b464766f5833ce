/**
 * The cart store of products.js: the catalog, the cart kept under one
 * storage key, the operations that load it, change it and save it back, and
 * the read-only views over a cart (grouping, category summary, segmentation
 * sample, spend per category).
 *
 * The storage entry is the field `stored`: `None` when the key is absent or
 * its value is not a parsable array, `Some(cart)` otherwise.
 */
module CartStore {
  import opened Wrappers
  import opened Text
  import opened CartModel
  import Segmentation

  // ---------------------------------------------------------------------------
  // The catalog (`CATALOG`, `findProduct`)
  // ---------------------------------------------------------------------------

  const Wines: seq<Product> := [
    Product("wine-1", "Cabernet Reserva", 29.9),
    Product("wine-2", "Pinot Noir Estate", 34.0),
    Product("wine-3", "Chardonnay Classic", 22.5),
    Product("wine-4", "Sauvignon Blanc", 18.75),
    Product("wine-5", "Ros\U{E9} Provence", 19.9),
    Product("wine-6", "Malbec Premium", 27.4)]

  const Fish: seq<Product> := [
    Product("fish-1", "Salmon Fillet", 12.5),
    Product("fish-2", "Tuna Steak", 15.0),
    Product("fish-3", "Cod Loin", 10.25),
    Product("fish-4", "Shrimp Pack", 8.75),
    Product("fish-5", "Sea Bass", 18.4),
    Product("fish-6", "Scallops", 22.3)]

  const Meat: seq<Product> := [
    Product("meat-1", "Ribeye Steak", 14.5),
    Product("meat-2", "Chicken Breast", 6.9),
    Product("meat-3", "Pork Chops", 7.8),
    Product("meat-4", "Lamb Chops", 16.2),
    Product("meat-5", "Ground Beef", 5.4),
    Product("meat-6", "Turkey Slices", 4.6)]

  const Fruits: seq<Product> := [
    Product("fruit-1", "Apples (6-pack)", 3.6),
    Product("fruit-2", "Bananas (1kg)", 2.4),
    Product("fruit-3", "Oranges (6-pack)", 3.9),
    Product("fruit-4", "Grapes (500g)", 3.2),
    Product("fruit-5", "Strawberries (250g)", 4.1),
    Product("fruit-6", "Mango (each)", 2.2)]

  const Gold: seq<Product> := [
    Product("gold-1", "Infinity Necklace", 2350.0),
    Product("gold-2", "Hoop Earrings", 760.0),
    Product("gold-3", "Bracelet", 2375.0),
    Product("gold-4", "Coin Pendant", 1205.0),
    Product("gold-5", "Rainbow Ring", 450.0),
    Product("gold-6", "Pocket watch", 520.0)]

  const Sweets: seq<Product> := [
    Product("sweet-1", "Chocolate Truffles", 6.5),
    Product("sweet-2", "Vanilla Cupcakes", 4.2),
    Product("sweet-3", "Caramel Toffee", 3.75),
    Product("sweet-4", "Macarons Assortment", 9.9),
    Product("sweet-5", "Gummy Bears", 2.8),
    Product("sweet-6", "Dark Chocolate Bar", 3.5)]

  /** The catalog by category, as `CATALOG`. */
  const Catalog: map<string, seq<Product>> := map[
    "wines" := Wines,
    "fish" := Fish,
    "meat" := Meat,
    "fruits" := Fruits,
    "gold" := Gold,
    "sweets" := Sweets]

  /** `items.find(p => p.id === id)`: the first product on the shelf with this id, if any. */
  function FindOnShelf(ps: seq<Product>, id: string): (r: Option<Product>)
    ensures r.Some? <==> exists p :: p in ps && p.id == id
    ensures r.Some? ==> r.value in ps && r.value.id == id
    ensures r.Some? ==> exists k :: 0 <= k < |ps| && ps[k] == r.value && forall j :: 0 <= j < k ==> ps[j].id != id
  {
    if |ps| == 0 then None
    else if ps[0].id == id then Some(ps[0])
    else
      var r := FindOnShelf(ps[1..], id);
      assert forall p :: p in ps <==> p == ps[0] || p in ps[1..];
      assert r.Some? ==> exists k :: 0 <= k < |ps| && ps[k] == r.value && forall j :: 0 <= j < k ==> ps[j].id != id by {
        if r.Some? {
          var k :| 0 <= k < |ps[1..]| && ps[1..][k] == r.value && forall j :: 0 <= j < k ==> ps[1..][j].id != id;
          assert ps[k + 1] == r.value;
          assert forall j :: 1 <= j < k + 1 ==> ps[j] == ps[1..][j - 1];
        }
      }
      r
  }

  /** The product found is the first one on the shelf with that id. */
  lemma {:induction false} FindOnShelfFirst(ps: seq<Product>, id: string, k: nat)
    requires k < |ps| && ps[k].id == id
    requires forall j :: 0 <= j < k ==> ps[j].id != id
    ensures FindOnShelf(ps, id) == Some(ps[k])
  {
    if k > 0 {
      FindOnShelfFirst(ps[1..], id, k - 1);
    }
  }

  /** The product with this id in this category; None for an unknown category or id. */
  function FindProduct(catalog: map<string, seq<Product>>, category: string, id: string): (r: Option<Product>)
    ensures r.Some? <==> category in catalog && exists p :: p in catalog[category] && p.id == id
    ensures r.Some? ==> r.value in catalog[category] && r.value.id == id
  {
    if category !in catalog then None else FindOnShelf(catalog[category], id)
  }

  /** A catalog lookup by category and id. */
  lemma FindProductExample()
    ensures FindProduct(Catalog, "wines", "wine-5") == Some(Product("wine-5", "Ros\U{E9} Provence", 19.9))
  {
    assert Catalog["wines"] == Wines;
    forall j | 0 <= j < 4 ensures Wines[j].id != "wine-5" {
      assert Wines[j].id[5] != "wine-5"[5];
    }
    FindOnShelfFirst(Wines, "wine-5", 4);
  }

  /** The id of a wine is not found among the fish. */
  lemma FindProductOtherCategory()
    ensures FindProduct(Catalog, "fish", "wine-5") == None
  {
    forall p | p in Fish ensures p.id != "wine-5" {
      assert p.id[0] == 'f';
    }
  }

  /** An unknown category finds nothing. */
  lemma FindProductUnknownCategory()
    ensures FindProduct(Catalog, "candles", "wine-1") == None
  {
  }

  // ---------------------------------------------------------------------------
  // The stored cart and the operations on it
  // ---------------------------------------------------------------------------

  class Store {
    /** The catalog products are looked up in: `CATALOG`. */
    const catalog: map<string, seq<Product>>

    /** The value under the storage key: None when absent or not a parsable array. */
    var stored: Option<seq<Item>>

    constructor (initial: Option<seq<Item>>)
      ensures catalog == Catalog
      ensures stored == initial
    {
      catalog := Catalog;
      stored := initial;
    }

    /** `loadCart`: never fails; an absent or unreadable entry is the empty cart. */
    function Load(): (cart: seq<Item>)
      reads this
      ensures stored.None? ==> cart == []
      ensures stored.Some? ==> cart == stored.value
    {
      match stored
      case None => []
      case Some(c) => c
    }

    /** The store keeps at most one line per (id, category), each with a positive quantity. */
    predicate Consistent()
      reads this
    {
      UniqueLines(Load()) && AllPositive(Load())
    }

    /** `saveCart` (its storage part): what is saved is what the next load returns. */
    method Save(cart: seq<Item>)
      modifies this
      ensures stored == Some(cart)
      ensures Load() == cart
    {
      stored := Some(cart);
    }

    /**
     * `addToCart`: an unknown product leaves storage untouched; a known one
     * gets one more unit on its (id, category) line, or a new line of one.
     */
    method AddToCart(category: string, id: string)
      modifies this
      ensures FindProduct(catalog, category, id).None? ==> stored == old(stored)
      ensures FindProduct(catalog, category, id).Some? ==>
                stored == Some(WithAdded(old(Load()), category, FindProduct(catalog, category, id).value))
      ensures FindProduct(catalog, category, id).Some? ==> Count(Load()) == old(Count(Load())) + 1
      ensures old(Consistent()) ==> Consistent()
    {
      var product := FindProduct(catalog, category, id);
      if product.None? {
        return;
      }
      var p := product.value;
      var cart := Load();
      ghost var before := cart;
      assert p.id == id;
      var k := LineIndex(cart, p.id, category);
      if k < |cart| {
        cart := cart[k := cart[k].(qty := cart[k].qty + 1)];
        assert cart == WithAdded(before, category, p);
      } else {
        cart := cart + [Item(p.id, p.name, p.price, category, 1)];
        assert cart == WithAdded(before, category, p);
      }
      AddCount(before, category, p);
      AddPreserves(before, category, p);
      Save(cart);
    }

    /** `removeFromCart`: saves the cart without any line of that id, whatever its category. */
    method RemoveFromCart(id: string)
      modifies this
      ensures stored == Some(WithoutId(old(Load()), id))
      ensures forall x :: x in Load() <==> x in old(Load()) && x.id != id
      ensures old(Consistent()) ==> Consistent()
    {
      var cart := Load();
      WithoutIdPreserves(cart, id);
      Save(WithoutId(cart, id));
    }

    /** `clearCart`: saves the empty cart, of count 0 and total 0. */
    method ClearCart()
      modifies this
      ensures stored == Some([])
      ensures Count(Load()) == 0 && Total(Load()) == 0.0
      ensures Consistent()
    {
      Save([]);
    }

    /**
     * `handleQuantityChange`: without a line of that id nothing is saved;
     * otherwise the first line of that id is changed as the action says and
     * the cart is saved.
     */
    method HandleQuantityChange(action: string, id: string)
      modifies this
      ensures var k := IdIndex(old(Load()), id);
        && (k == |old(Load())| ==> stored == old(stored))
        && (k < |old(Load())| ==> stored == Some(WithQuantityChanged(old(Load()), k, action)))
      ensures old(Consistent()) && IdIndex(old(Load()), id) < |old(Load())| ==>
                Count(Load()) == old(Count(Load())) + (if action == "inc" then 1 else if action == "dec" then -1 else 0)
      ensures old(Consistent()) ==> Consistent()
    {
      var cart := Load();
      ghost var before := cart;
      var k := IdIndex(cart, id);
      if k == |cart| {
        return;
      }
      if action == "inc" {
        cart := cart[k := cart[k].(qty := cart[k].qty + 1)];
      } else if action == "dec" {
        var item := cart[k].(qty := cart[k].qty - 1);
        if item.qty <= 0 {
          cart := cart[..k] + cart[k + 1..];
        } else {
          cart := cart[k := item];
        }
      }
      assert cart == WithQuantityChanged(before, k, action);
      QuantityPreserves(before, k, action);
      if AllPositive(before) {
        QuantityCount(before, k, action);
      }
      Save(cart);
    }

    /** `toSegmentationSample` on the loaded cart. */
    function SegmentationSample(): (s: seq<Segmentation.SampleItem>)
      reads this
      ensures s == ToSample(Load())
      ensures |s| == |Load()|
      ensures Segmentation.TrackedSpend(s) == TrackedTotal(Load())
    {
      TrackedSampleTotal(Load());
      ToSample(Load())
    }

    /** `categorySpendSummary` on the loaded cart. */
    method CategorySpendSummary() returns (r: seq<CategorySpend>)
      ensures r == SpendEntries(Load(), GroupKeys(Load()))
    {
      r := SpendSummaryOf(Load());
    }
  }

  // ---------------------------------------------------------------------------
  // Grouping and the category summary (`groupCartByCategory`, `createCategorySummary`)
  // ---------------------------------------------------------------------------

  /** The grouped object: its keys in insertion order and the array under each key. */
  datatype Grouped = Grouped(keys: seq<string>, groups: map<string, seq<Item>>)

  ghost predicate WellFormed(g: Grouped) {
    Distinct(g.keys) && forall k :: k in g.groups <==> k in g.keys
  }

  /** The items of the cart under each of its group keys. */
  function GroupMap(cart: seq<Item>): map<string, seq<Item>> {
    map k | k in GroupKeys(cart) :: InGroup(cart, k)
  }

  /** Reference definition: each group key of the cart, in first-appearance order, with its items. */
  function GroupedOf(cart: seq<Item>): Grouped {
    Grouped(GroupKeys(cart), GroupMap(cart))
  }

  lemma GroupedOfWellFormed(cart: seq<Item>)
    ensures WellFormed(GroupedOf(cart))
  {
    GroupKeysSpec(cart);
  }

  /** `(grouped[category] = grouped[category] || []).push(item)`: x appended to the array of its key. */
  function PushItem(m: map<string, seq<Item>>, x: Item): map<string, seq<Item>> {
    m[GroupKey(x) := (if GroupKey(x) in m then m[GroupKey(x)] else []) + [x]]
  }

  /** The reduce of `groupCartByCategory`, pushing each item onto the array of its key. */
  method GroupCartByCategory(cart: seq<Item>) returns (g: Grouped)
    ensures g == GroupedOf(cart)
  {
    var keys: seq<string> := [];
    var groups: map<string, seq<Item>> := map[];
    assert groups == GroupMap(cart[..0]);
    for i := 0 to |cart|
      invariant keys == GroupKeys(cart[..i])
      invariant groups == GroupMap(cart[..i])
    {
      KeysStep(cart, i);
      GroupMapSnoc(cart, i);
      if GroupKey(cart[i]) !in groups {
        keys := keys + [GroupKey(cart[i])];
      }
      groups := PushItem(groups, cart[i]);
    }
    assert cart[..|cart|] == cart;
    g := Grouped(keys, groups);
  }

  /** One more line is pushed onto the array of its key, which is created if new. */
  lemma GroupMapSnoc(cart: seq<Item>, i: nat)
    requires i < |cart|
    ensures GroupKey(cart[i]) in GroupMap(cart[..i]) <==> GroupKey(cart[i]) in GroupKeys(cart[..i])
    ensures GroupMap(cart[..i + 1]) == PushItem(GroupMap(cart[..i]), cart[i])
  {
    var a, b := cart[..i], cart[..i + 1];
    var key := GroupKey(cart[i]);
    KeysStep(cart, i);
    if key !in GroupKeys(a) {
      InGroupAbsent(a, key);
    }
    var target := PushItem(GroupMap(a), cart[i]);
    var ks := GroupKeys(b);
    assert forall k :: k in ks <==> k in target;
    forall k | k in ks ensures InGroup(b, k) == target[k] {
      GroupStepAt(cart, i, k);
      if k != key {
        assert InGroup(a, k) + [] == InGroup(a, k);
      }
    }
    assert GroupMap(b) == target;
  }

  /** Grouping keeps every item, under its own key, and each group in cart order. */
  lemma GroupedPartition(cart: seq<Item>)
    ensures var g := GroupedOf(cart);
      && (forall i :: 0 <= i < |cart| ==> GroupKey(cart[i]) in g.groups && cart[i] in g.groups[GroupKey(cart[i])])
      && (forall k :: k in g.groups ==> forall x :: x in g.groups[k] ==> GroupKey(x) == k && x in cart)
      && SizesOver(cart, g.keys) == |cart|
  {
    var g := GroupedOf(cart);
    GroupKeysSpec(cart);
    forall i | 0 <= i < |cart| ensures GroupKey(cart[i]) in g.groups && cart[i] in InGroup(cart, GroupKey(cart[i])) {
      assert exists j :: 0 <= j < |cart| && GroupKey(cart[j]) == GroupKey(cart[i]);
      InGroupMember(cart, i);
    }
    forall k, x | k in g.groups && x in g.groups[k] ensures x in cart {
      InGroupSubset(cart, k, x);
    }
    GroupKeysPartition(cart);
  }

  lemma {:induction false} InGroupMember(cart: seq<Item>, i: nat)
    requires i < |cart|
    ensures cart[i] in InGroup(cart, GroupKey(cart[i]))
  {
    var init := cart[..|cart| - 1];
    if i < |cart| - 1 {
      assert init[i] == cart[i];
      InGroupMember(init, i);
    }
  }

  lemma {:induction false} InGroupSubset(cart: seq<Item>, k: string, x: Item)
    requires x in InGroup(cart, k)
    ensures x in cart
  {
    var init := cart[..|cart| - 1];
    if x != cart[|cart| - 1] {
      InGroupSubset(init, k, x);
    }
  }

  const Bullet: string := " \U{2022} "

  /** One part of the summary: `${cat}(${qty})`. */
  function SummaryEntry(category: string, qty: int): string {
    category + "(" + IntToString(qty) + ")"
  }

  /** The summary parts for the keys ks, each with the quantity sum of its group. */
  function SummaryEntries(g: Grouped, ks: seq<string>): (es: seq<string>)
    requires forall k :: k in ks ==> k in g.groups
    ensures |es| == |ks|
    ensures forall i :: 0 <= i < |ks| ==> es[i] == SummaryEntry(ks[i], Count(g.groups[ks[i]]))
  {
    seq(|ks|, i requires 0 <= i < |ks| => SummaryEntry(ks[i], Count(g.groups[ks[i]])))
  }

  /** The keys in sorted order: a sorted arrangement of the same distinct keys. */
  lemma SortedKeys(keys: seq<string>)
    requires Distinct(keys)
    ensures Sorted(Sort(keys)) && Distinct(Sort(keys))
    ensures forall k :: k in Sort(keys) <==> k in keys
  {
    var ks := Sort(keys);
    PermutationDistinct(keys, ks);
    forall k ensures k in ks <==> k in keys {
      assert k in ks <==> k in multiset(ks);
      assert k in keys <==> k in multiset(keys);
    }
  }

  /** `createCategorySummary`: the parts for the sorted keys, joined by " • ". */
  function CategorySummary(g: Grouped): (s: string)
    requires WellFormed(g)
    ensures exists ks :: Sorted(ks) && Distinct(ks) && (forall k :: k in ks <==> k in g.keys)
                          && s == Join(SummaryEntries(g, ks), Bullet)
  {
    SortedKeys(g.keys);
    Join(SummaryEntries(g, Sort(g.keys)), Bullet)
  }

  /** The summary of a grouped cart lists every group key once, in sorted order. */
  lemma CategorySummaryKeys(cart: seq<Item>)
    ensures var g := GroupedOf(cart);
      var ks := Sort(g.keys);
      && WellFormed(g)
      && Sorted(ks) && Distinct(ks)
      && (forall k :: k in ks <==> exists i :: 0 <= i < |cart| && GroupKey(cart[i]) == k)
  {
    GroupedOfWellFormed(cart);
    GroupKeysSpec(cart);
    SortedKeys(GroupKeys(cart));
  }

  /**
   * Each listed key carries the quantity sum of its group, and those sums
   * add up to the cart's item count.
   */
  lemma CategorySummaryCounts(cart: seq<Item>)
    ensures WellFormed(GroupedOf(cart))
    ensures forall k :: k in Sort(GroupKeys(cart)) ==> k in GroupMap(cart)
    ensures var g := GroupedOf(cart);
      var ks := Sort(g.keys);
      && (forall i :: 0 <= i < |ks| ==> SummaryEntries(g, ks)[i] == SummaryEntry(ks[i], Count(InGroup(cart, ks[i]))))
      && CountsOver(cart, ks) == Count(cart)
  {
    GroupKeysSpec(cart);
    SortedKeys(GroupKeys(cart));
    var ks := Sort(GroupKeys(cart));
    assert CoversKeys(cart, ks) by {
      forall i | 0 <= i < |cart| ensures GroupKey(cart[i]) in ks {
        assert exists j :: 0 <= j < |cart| && GroupKey(cart[j]) == GroupKey(cart[i]);
      }
    }
    GroupsPartition(cart, ks);
  }

  /** Two lines of different categories make two groups of one line each. */
  lemma GroupedTwo(x: Item, y: Item)
    requires GroupKey(x) != GroupKey(y)
    ensures GroupedOf([x, y]) == Grouped([GroupKey(x), GroupKey(y)], map[GroupKey(x) := [x], GroupKey(y) := [y]])
  {
    var cart := [x, y];
    assert cart[..1] == [x];
    assert [x][..0] == [];
    assert GroupKeys([x]) == [GroupKey(x)];
    assert InGroup(cart, GroupKey(x)) == [x] && InGroup(cart, GroupKey(y)) == [y];
  }

  /** Two different strings sort into ascending order. */
  lemma SortTwo(a: string, b: string)
    requires a != b
    ensures Sort([a, b]) == if Less(a, b) then [a, b] else [b, a]
  {
    assert [a, b][1..] == [b] && [b][1..] == [];
    assert Sort([b]) == [b];
    assert Sort([a, b]) == Insert(a, [b]);
    LessTotal(a, b);
    if Less(a, b) {
      assert LessEq(a, b);
    } else {
      LessAsymmetric(b, a);
      assert !LessEq(a, b);
      assert Insert(a, [b]) == [b] + Insert(a, []);
    }
  }

  /** Two parts joined: the first, the separator, the second. */
  lemma JoinTwo(parts: seq<string>, sep: string)
    requires |parts| == 2
    ensures Join(parts, sep) == parts[0] + sep + parts[1]
  {
    assert parts[..1] == [parts[0]];
  }

  /** The summary of two groups, once their keys are sorted into p then q. */
  lemma SummaryOfTwoSorted(g: Grouped, p: string, q: string)
    requires WellFormed(g) && Sort(g.keys) == [p, q]
    requires p in g.groups && q in g.groups
    ensures CategorySummary(g) == SummaryEntry(p, Count(g.groups[p])) + Bullet + SummaryEntry(q, Count(g.groups[q]))
  {
    JoinTwo(SummaryEntries(g, [p, q]), Bullet);
  }

  /**
   * Two lines of different categories: the summary names the smaller key
   * first, whatever the order of the lines, each with its line's quantity.
   */
  lemma TwoCategorySummary(x: Item, y: Item)
    requires GroupKey(x) != GroupKey(y)
    ensures WellFormed(GroupedOf([x, y]))
    ensures var a, b := SummaryEntry(GroupKey(x), x.qty), SummaryEntry(GroupKey(y), y.qty);
      CategorySummary(GroupedOf([x, y])) == if Less(GroupKey(x), GroupKey(y)) then a + Bullet + b else b + Bullet + a
  {
    var kx, ky := GroupKey(x), GroupKey(y);
    var g := GroupedOf([x, y]);
    GroupedOfWellFormed([x, y]);
    GroupedTwo(x, y);
    CountOne(x);
    CountOne(y);
    SortTwo(kx, ky);
    if Less(kx, ky) {
      SummaryOfTwoSorted(g, kx, ky);
    } else {
      SummaryOfTwoSorted(g, ky, kx);
    }
  }

  // ---------------------------------------------------------------------------
  // The segmentation sample and the spend per category
  // ---------------------------------------------------------------------------

  /** `{category, price, qty}` of each line, in cart order. */
  function ToSample(cart: seq<Item>): (s: seq<Segmentation.SampleItem>)
    ensures |s| == |cart|
    ensures forall i :: 0 <= i < |cart| ==>
              s[i] == Segmentation.SampleItem(cart[i].category, cart[i].price, cart[i].qty)
  {
    seq(|cart|, i requires 0 <= i < |cart| => Segmentation.SampleItem(cart[i].category, cart[i].price, cart[i].qty))
  }

  /**
   * The classifier's tracked spend of the sample is the total of the cart
   * lines whose category it tracks; when it tracks every line, that is the
   * cart total.
   */
  lemma {:induction false} SampleTrackedSpend(cart: seq<Item>)
    ensures Segmentation.Spend4(Segmentation.Aggregate(ToSample(cart))) == TrackedTotal(cart)
    ensures (forall i :: 0 <= i < |cart| ==> Segmentation.Tracked(Lower(cart[i].category))) ==>
              Segmentation.Spend4(Segmentation.Aggregate(ToSample(cart))) == Total(cart)
  {
    Segmentation.AggregateTracked(ToSample(cart));
    TrackedSampleTotal(cart);
  }

  /** The total of the lines whose lower-cased category is tracked by the classifier. */
  function TrackedTotal(cart: seq<Item>): real {
    if |cart| == 0 then 0.0
    else
      var last := cart[|cart| - 1];
      TrackedTotal(cart[..|cart| - 1]) + (if Segmentation.Tracked(Lower(last.category)) then Amount(last) else 0.0)
  }

  lemma {:induction false} TrackedSampleTotal(cart: seq<Item>)
    ensures Segmentation.TrackedSpend(ToSample(cart)) == TrackedTotal(cart)
    ensures (forall i :: 0 <= i < |cart| ==> Segmentation.Tracked(Lower(cart[i].category))) ==>
              TrackedTotal(cart) == Total(cart)
  {
    if |cart| > 0 {
      var init := cart[..|cart| - 1];
      assert ToSample(cart)[..|cart| - 1] == ToSample(init);
      assert forall i :: 0 <= i < |init| ==> init[i] == cart[i];
      TrackedSampleTotal(init);
    }
  }

  /** One entry of `categorySpendSummary`. */
  datatype CategorySpend = CategorySpend(category: string, totalSpend: real)

  /** Reference definition: for each key of ks, the spend on the items filed under it. */
  function SpendEntries(cart: seq<Item>, ks: seq<string>): (r: seq<CategorySpend>)
    ensures |r| == |ks|
    ensures forall i :: 0 <= i < |ks| ==> r[i] == CategorySpend(ks[i], Total(InGroup(cart, ks[i])))
  {
    seq(|ks|, i requires 0 <= i < |ks| => CategorySpend(ks[i], Total(InGroup(cart, ks[i]))))
  }

  /** Total(g + [x]) adds x's amount. */
  lemma SnocTotal(g: seq<Item>, x: Item)
    ensures Total(g + [x]) == Total(g) + Amount(x)
  {
    assert (g + [x])[..|g|] == g;
  }

  /** Sum of the totalSpend fields. */
  function SumSpend(r: seq<CategorySpend>): real {
    if |r| == 0 then 0.0 else r[0].totalSpend + SumSpend(r[1..])
  }

  lemma {:induction false} SumSpendOver(cart: seq<Item>, ks: seq<string>)
    ensures SumSpend(SpendEntries(cart, ks)) == TotalsOver(cart, ks)
  {
    if |ks| > 0 {
      assert SpendEntries(cart, ks)[1..] == SpendEntries(cart, ks[1..]);
      SumSpendOver(cart, ks[1..]);
    }
  }

  /**
   * The loop of `categorySpendSummary`: adds each line's amount to the entry
   * of its key, creating the entry at 0 on first sight; keys records the
   * order in which the entries were created.
   */
  method AccumulateSpend(cart: seq<Item>) returns (keys: seq<string>, summary: map<string, real>)
    ensures keys == GroupKeys(cart)
    ensures summary == SpendMap(cart)
  {
    keys := [];
    summary := map[];
    assert summary == SpendMap(cart[..0]);
    for i := 0 to |cart|
      invariant keys == GroupKeys(cart[..i])
      invariant summary == SpendMap(cart[..i])
    {
      KeysStep(cart, i);
      SpendSnoc(cart, i);
      if GroupKey(cart[i]) !in summary {
        keys := keys + [GroupKey(cart[i])];
      }
      summary := AddSpend(summary, cart[i]);
    }
    assert cart[..|cart|] == cart;
  }

  /** `categorySpendSummary`: the accumulated entries, in the order they were created. */
  method SpendSummaryOf(cart: seq<Item>) returns (r: seq<CategorySpend>)
    ensures r == SpendEntries(cart, GroupKeys(cart))
  {
    var keys, summary := AccumulateSpend(cart);
    EntriesOfSpendMap(cart);
    r := Entries(keys, summary);
  }

  /** `Object.entries(summary).map(...)`: one entry per key with its accumulated spend. */
  function Entries(keys: seq<string>, summary: map<string, real>): (r: seq<CategorySpend>)
    requires forall k :: k in keys ==> k in summary
    ensures |r| == |keys|
    ensures forall j :: 0 <= j < |keys| ==> r[j].category == keys[j] && r[j].totalSpend == summary[keys[j]]
  {
    seq(|keys|, j requires 0 <= j < |keys| => CategorySpend(keys[j], summary[keys[j]]))
  }

  /** Listing the accumulated spend map gives the reference entries. */
  lemma EntriesOfSpendMap(cart: seq<Item>)
    ensures Entries(GroupKeys(cart), SpendMap(cart)) == SpendEntries(cart, GroupKeys(cart))
  {
  }

  /** The spend per key over the group keys of a cart. */
  function SpendMap(cart: seq<Item>): map<string, real> {
    map k | k in GroupKeys(cart) :: Total(InGroup(cart, k))
  }

  /** The summary with x's amount added to the entry of its key, an absent entry counting as 0. */
  function AddSpend(m: map<string, real>, x: Item): map<string, real> {
    m[GroupKey(x) := (if GroupKey(x) in m then m[GroupKey(x)] else 0.0) + Amount(x)]
  }

  /** One more line adds its amount to its key's entry, which starts at 0 if new. */
  lemma SpendSnoc(cart: seq<Item>, i: nat)
    requires i < |cart|
    ensures GroupKey(cart[i]) in SpendMap(cart[..i]) <==> GroupKey(cart[i]) in GroupKeys(cart[..i])
    ensures SpendMap(cart[..i + 1]) == AddSpend(SpendMap(cart[..i]), cart[i])
  {
    var a, b := cart[..i], cart[..i + 1];
    var key := GroupKey(cart[i]);
    KeysStep(cart, i);
    if key !in GroupKeys(a) {
      InGroupAbsent(a, key);
    }
    SnocTotal(InGroup(a, key), cart[i]);
    var m := SpendMap(a);
    var target := AddSpend(m, cart[i]);
    var ks := GroupKeys(b);
    assert forall k :: k in ks <==> k in target;
    assert key in m <==> key in GroupKeys(a);
    forall k | k in ks ensures Total(InGroup(b, k)) == target[k] {
      GroupStepAt(cart, i, k);
      if k == key {
        assert InGroup(b, k) == InGroup(a, k) + [cart[i]];
      } else {
        assert InGroup(b, k) == InGroup(a, k) + [];
        assert InGroup(a, k) + [] == InGroup(a, k);
      }
    }
    assert SpendMap(b) == target;
  }

  /** One more line: its key is appended to the group keys if new. */
  lemma KeysStep(cart: seq<Item>, i: nat)
    requires i < |cart|
    ensures var key := GroupKey(cart[i]);
      GroupKeys(cart[..i + 1]) == (if key in GroupKeys(cart[..i]) then GroupKeys(cart[..i]) else GroupKeys(cart[..i]) + [key])
  {
    assert cart[..i + 1][..i] == cart[..i];
  }

  /** One more line joins its own group and leaves every other group as it was. */
  lemma GroupStepAt(cart: seq<Item>, i: nat, k: string)
    requires i < |cart|
    ensures InGroup(cart[..i + 1], k) == InGroup(cart[..i], k) + (if GroupKey(cart[i]) == k then [cart[i]] else [])
  {
    assert cart[..i + 1][..i] == cart[..i];
  }

  /** The spend summary has one entry per group key, and its spends add up to the cart total. */
  lemma SpendSummaryTotal(cart: seq<Item>)
    ensures var r := SpendEntries(cart, GroupKeys(cart));
      && Distinct(GroupKeys(cart))
      && (forall k :: k in GroupKeys(cart) <==> exists i :: 0 <= i < |cart| && GroupKey(cart[i]) == k)
      && SumSpend(r) == Total(cart)
  {
    GroupKeysSpec(cart);
    SumSpendOver(cart, GroupKeys(cart));
    GroupKeysPartition(cart);
  }
}
