# Cart store and cart segmentation, modelled in Dafny

This project models the two pieces of logic behind the shop front of the
web client.

**The cart store** (`products.js`). The cart is a list of line items
`{id, name, price, category, qty}` kept under a single storage key.

- *Loading.* Reading the cart never fails: an absent or unparsable entry is
  the empty cart.
- *Changing it.* The store adds a catalog product by (category, id), removes
  every line of an id, raises or lowers the quantity of the first line of an
  id, and clears the cart. Each change is saved back under the same key.
- *Views.* On top of the cart sit the item count and the total. Further
  derived views:
  - the grouping by category (`"other"` for a missing one);
  - the sorted category summary string;
  - the `{category, price, qty}` sample handed to the classifier;
  - the spend per category.

**The segmentation classifier** (`segmentation_model.js`) turns a cart
sample into a customer cluster, step by step:

1. It sums the spend on four tracked categories, matched case-insensitively.
2. From that it derives the shares and the spend intensity.
3. It merges four behavioural features, where a value that is not a finite
   number counts as 0.
4. It builds the nine-feature vector in the model's feature order and
   standardises it.
5. It picks the first nearest of the model's centroids by squared Euclidean
   distance.

The page calling the classifier adds a two-pass "boost" rule: a
wine-heavy cart is re-classified with a fixed set of engaged behavioural
features.

## Modules

- **`Wrappers`** (`wrappers.dfy`): `Option` and `Result`.
- **`Text`** (`text.dfy`): string helpers for the views.
  - The order that the default `Array.prototype.sort` applies to strings, and an insertion sort proved to give a sorted permutation.
  - Decimal rendering of integers, with its inverse.
  - `join` and ASCII lower-casing.
- **`CartModel`** (`cart_model.dfy`): the cart as a value.
  - The folds: count and total.
  - The transformations the store applies to a loaded cart: add, remove by id, change a quantity.
  - The grouping by category.
  - The invariants the store keeps: at most one line per (id, category), and every quantity positive.
- **`CartStore`** (`cart_store.dfy`): the store itself and the views over a cart.
  - The catalog and `findProduct`.
  - The class `Store`. Its field `stored: Option<seq<Item>>` is the storage entry, and its methods load, save and change the cart.
  - The views as methods with loops: grouping and the spend per category.
  - Functions for the summary string and the classifier sample.
- **`Segmentation`** (`segmentation.dfy`): the classifier pipeline, the shipped model constants and the boost rule.

Prices and amounts are exact reals. `Math.log1p` and `Math.sqrt` are not
interpreted: a `Libm` value holding two functions is passed in wherever
the source calls them.

## Model

| member | source | states |
|---|---|---|
| CartStore.Store.Load | Project/src/web/js/products.js:68-74 | loading never fails: an absent or unreadable entry gives the empty cart, otherwise the stored array |
| CartStore.Store.Save | Project/src/web/js/products.js:80-81 | the saved cart is exactly what the next load returns |
| CartStore.FindProduct | Project/src/web/js/products.js:93-96 | a product is found iff the category exists and contains a product with that id; the product found is from that category and has that id |
| CartStore.FindOnShelf | Project/src/web/js/products.js:95 | a product is found iff the shelf holds one with the id; the one found is on the shelf, has the id, and no earlier product has it |
| CartStore.FindOnShelfFirst | Project/src/web/js/products.js:95 | conversely, the first product on the shelf with the id is the one found |
| CartStore.FindProductExample | Project/src/web/js/products.js:12-20 | looking up ("wines", "wine-5") in the shipped catalog gives the Rosé Provence at 19.9 |
| CartStore.FindProductOtherCategory | Project/src/web/js/products.js:93-96 | a wine id is not found under "fish": the lookup is per category |
| CartStore.FindProductUnknownCategory | Project/src/web/js/products.js:93-96 | an unknown category finds nothing |
| CartStore.Store.AddToCart | Project/src/web/js/products.js:104-126 | an unknown (category, id) leaves storage untouched; a known product makes the stored cart the loaded cart with that product added; the item count rises by one; the invariants are preserved |
| CartModel.LineIndex | Project/src/web/js/products.js:108-110 | the first line that matches both id and category, or none |
| CartModel.AddExisting | Project/src/web/js/products.js:112-113 | with a line for (id, category), the first such line gets one more unit, the length stays the same, and every other line is unchanged |
| CartModel.AddNew | Project/src/web/js/products.js:114-122 | without such a line, one line {id, name, price, category, qty 1} is appended |
| CartModel.WithAdded | Project/src/web/js/products.js:104-126 | the cart after one `addToCart` of a catalog product; `AddExisting`, `AddNew`, `AddCount` and `AddPreserves` state what it is |
| CartModel.AddCount | Project/src/web/js/products.js:104-126 | adding raises the item count by exactly one |
| CartModel.AddPreserves | Project/src/web/js/products.js:104-126 | adding keeps (id, category) pairs unique and every quantity positive |
| CartModel.AddRepeated | Project/src/web/js/products.js:104-126 | adding one product n times to an empty cart gives a single line of quantity n |
| CartStore.Store.RemoveFromCart | Project/src/web/js/products.js:132-134 | the saved cart equals the loaded cart without any line of that id, in any category; the invariants are preserved |
| CartModel.WithoutId | Project/src/web/js/products.js:133 | an item survives iff it was in the cart and has another id; no survivor has the id |
| CartModel.WithoutIdAppend | Project/src/web/js/products.js:133 | the filter distributes over concatenation, so survivors keep their relative order |
| CartModel.WithoutIdAbsent | Project/src/web/js/products.js:133 | a cart without that id is left as it is |
| CartModel.WithoutIdPreserves | Project/src/web/js/products.js:132-134 | removing keeps (id, category) pairs unique and every quantity positive |
| CartStore.Store.ClearCart | Project/src/web/js/products.js:139-141 | the empty cart is saved: its count and total are 0, and it satisfies the invariants |
| CartStore.Store.HandleQuantityChange | Project/src/web/js/products.js:422-437 | without a line of the id nothing is saved; otherwise the first line of that id is changed as the action says and the cart is saved; on a consistent cart the count moves by +1, -1 or 0; the invariants are preserved |
| CartModel.IdIndex | Project/src/web/js/products.js:424 | the first line with the id, whatever its category, or none |
| CartModel.QuantityCount | Project/src/web/js/products.js:427-434 | on a cart whose quantities are all positive, "inc" raises the count by one, "dec" lowers it by one, any other action leaves it alone |
| CartModel.DecrementLastUnit | Project/src/web/js/products.js:429-433 | "dec" on a line of quantity 1 removes exactly that line and keeps the others in order; when no two lines share (id, category), no line for that (id, category) is left |
| CartModel.QuantityPreserves | Project/src/web/js/products.js:422-437 | a quantity change keeps (id, category) pairs unique and every quantity positive |
| CartModel.WithQuantityChanged | Project/src/web/js/products.js:427-434 | the cart after the action on line k; `QuantityCount`, `DecrementLastUnit` and `QuantityPreserves` state what it is |
| CartModel.CountAtLeastLines | Project/src/web/js/products.js:151 | with positive quantities the count is at least the number of lines, and positive for a nonempty cart |
| CartModel.Count | Project/src/web/js/products.js:151 | the left fold of the quantities, as the header badge's reduce; `CountAppend` and `CountAtLeastLines` state its properties |
| CartModel.CountAppend | Project/src/web/js/products.js:151 | the count of two carts put together is the sum of their counts |
| CartModel.TotalAppend | Project/src/web/js/products.js:261-263 | the total of two carts put together is the sum of their totals |
| CartModel.Total | Project/src/web/js/products.js:261-263 | the left fold of price × qty, as `calculateCartTotal`; `TotalAppend` and `GroupKeysPartition` state its properties |
| CartStore.GroupCartByCategory | Project/src/web/js/products.js:248-254 | the reduce pushing each item onto the array of its key builds the reference grouping: each key in first-appearance order, with the cart's items under it |
| CartModel.GroupKeysSpec | Project/src/web/js/products.js:248-254 | the group keys have no duplicates and are exactly the keys (category, or "other") of the cart's items |
| CartModel.GroupKey | Project/src/web/js/products.js:250 | the key of an item: its category, or "other" when that is missing |
| CartModel.GroupKeys | Project/src/web/js/products.js:248-254 | the grouped object's keys in order of first appearance; `GroupKeysSpec` states that they are distinct and are exactly the items' keys |
| CartModel.InGroupAppend | Project/src/web/js/products.js:248-254 | a group of two carts put together is the first cart's group followed by the second's, so items keep their cart order within each group |
| CartStore.GroupedPartition | Project/src/web/js/products.js:248-254 | every item lies in the group of its own key; every grouped item is from the cart and has that key; the group sizes sum to the cart length |
| CartModel.GroupKeysPartition | Project/src/web/js/products.js:248-254 | the group sizes sum to the number of lines, their counts to the cart count, and their totals to the cart total |
| CartModel.GroupsPartition | Project/src/web/js/products.js:248-254 | for any duplicate-free key list covering the cart, the per-key sizes, counts and totals add up to the cart's |
| Text.Sort | Project/src/web/js/products.js:272 | the sort result is a sorted permutation of its input |
| Text.IntToStringRoundTrip | Project/src/web/js/products.js:275 | the rendered quantity parses back to the same integer |
| CartStore.SummaryEntries | Project/src/web/js/products.js:273-276 | each entry is `cat(qty)`, where qty is the quantity sum of that group |
| CartStore.CategorySummary | Project/src/web/js/products.js:270-278 | the summary is the join by " • " of the entries for some sorted, duplicate-free arrangement of exactly the grouped keys |
| Text.Join | Project/src/web/js/products.js:277 | the parts with the separator between each two, as `Array.prototype.join`; `JoinTwo` states the two-part case |
| CartStore.CategorySummaryKeys | Project/src/web/js/products.js:270-278 | the summary lists the grouped cart's keys sorted, each once, and exactly the keys of the cart's items |
| CartStore.CategorySummaryCounts | Project/src/web/js/products.js:270-278 | for a grouped cart, every sorted key has a group; each entry carries the quantity sum of the cart's items under that key; the listed quantities add up to the cart count |
| CartStore.TwoCategorySummary | Project/src/web/js/products.js:266-278 | for two lines of different categories the summary lists the smaller key first, whatever the cart order, each with its line's quantity |
| CartStore.ToSample | Project/src/web/js/products.js:533-539 | the sample has the cart's length and order; entry i is {category, price, qty} of line i |
| CartStore.Store.SegmentationSample | Project/src/web/js/products.js:533-539 | the sample is `ToSample` of the loaded cart: one {category, price, qty} entry per line, in order; its tracked spend is the total of the lines in tracked categories |
| CartStore.SampleTrackedSpend | Project/src/web/js/products.js:533-539 | the classifier's spend4 on the sample is the total of the cart lines in tracked categories, so it is the cart total when every line is tracked |
| CartStore.AccumulateSpend | Project/src/web/js/products.js:590-593 | the loop builds the reference spend map: each key in creation order, with the total of its group |
| CartStore.SpendSummaryOf | Project/src/web/js/products.js:587-599 | the summary lists each group key in first-appearance order with the total of its group |
| CartStore.Entries | Project/src/web/js/products.js:595-598 | one entry per key, in key order, with the accumulated spend |
| CartStore.Store.CategorySpendSummary | Project/src/web/js/products.js:587-599 | the spend summary of the loaded cart, as above |
| CartStore.SpendSummaryTotal | Project/src/web/js/products.js:587-599 | the summary has one entry for each distinct key of the cart and no other; the totalSpend values add up to the cart total |
| Segmentation.AggregateCartSpend | Project/src/web/js/segmentation_model.js:151-162 | the loop gives each bucket exactly the spend on items whose lower-cased category names that bucket |
| Segmentation.AggregateByCategory | Project/src/web/js/segmentation_model.js:151-162 | the left fold equals, bucket by bucket, the reference spend per category |
| Segmentation.AggregateTracked | Project/src/web/js/segmentation_model.js:151-162 | the four buckets hold the spend on tracked items; items in other categories contribute nothing |
| Segmentation.AggregateNonNegative | Project/src/web/js/segmentation_model.js:151-162 | with no negative price or quantity every bucket is non-negative |
| Segmentation.AddItemTracked | Project/src/web/js/segmentation_model.js:153-160 | one step adds the item's amount to the tracked spend exactly when its lower-cased category is tracked |
| Segmentation.Aggregate | Project/src/web/js/segmentation_model.js:151-162 | the fold of `AddItem` over the items from zero spend; `AggregateByCategory` and `AggregateTracked` state what it holds |
| Segmentation.SharesInUnitInterval | Project/src/web/js/segmentation_model.js:164-177 | spend4 is the sum of the four spends; with non-negative spends every share lies in [0, 1), the shares add up to spend4 / (spend4 + 1e-9) < 1, and an all-zero spend gives all-zero shares |
| Segmentation.ComputeShares | Project/src/web/js/segmentation_model.js:164-177 | spend4 is the sum of the four spends, the intensity is log1p(spend4), and each share times (spend4 + 1e-9) gives back its category's spend |
| Segmentation.WineFishExample | Project/src/web/js/segmentation_model.js:151-177 | 2 × 30 of wine and 1 × 10 of fish give spend (60, 0, 10, 0), spend4 70 and shares 60/(70+1e-9) and 10/(70+1e-9) |
| Segmentation.ApplyBehaviorOverrides | Project/src/web/js/segmentation_model.js:179-201 | a missing or non-object input gives all zeros; otherwise each field keeps a finite supplied value and is 0 otherwise |
| Segmentation.OverridesRoundTrip | Project/src/web/js/segmentation_model.js:179-201 | feeding the merged features back as overrides reproduces them, so the merge is idempotent |
| Segmentation.FeatureVector | Project/src/web/js/segmentation_model.js:247 | the vector follows the feature list, with 0 for a feature the row lacks |
| Segmentation.FeatureRow | Project/src/web/js/segmentation_model.js:241-245 | the row built from intensity, shares and overrides has exactly the model's nine feature names as keys |
| Segmentation.FixedFeatureOrder | Project/src/web/js/segmentation_model.js:13-23 | with the shipped feature list the vector reads: intensity, the four shares, then the four behaviours |
| Segmentation.ScaleFeatures | Project/src/web/js/segmentation_model.js:203-205 | the result has the input's length; element i times scale i plus center i gives back input element i |
| Segmentation.ScaleRoundTrip | Project/src/web/js/segmentation_model.js:203-205 | undoing the standardisation gives back the feature vector |
| Segmentation.SqDistPrefix | Project/src/web/js/segmentation_model.js:211-215 | the running sum of squared differences is never negative |
| Segmentation.FirstMin | Project/src/web/js/segmentation_model.js:207-222 | -1 for no centroids; otherwise an index in range whose distance is at most every other and strictly below every earlier one, so the lowest index wins ties |
| Segmentation.FindNearestCentroid | Project/src/web/js/segmentation_model.js:207-222 | the nested loops return the first nearest index (-1 when there are no centroids) and its squared distance, which is at most every centroid's and strictly below every earlier one's |
| Segmentation.NearestAtCentroid | Project/src/web/js/segmentation_model.js:207-222 | a vector that coincides with centroid k and lies away from every other centroid gets index k at distance 0 |
| Segmentation.Classified | Project/src/web/js/segmentation_model.js:237-258 | the cluster is the first nearest centroid to the standardised features, with sqrt of its squared distance; spend4 and shares are those of the input; the feature row has exactly the nine feature names as keys; the profile is the one stored under the cluster |
| Segmentation.Classify | Project/src/web/js/segmentation_model.js:224-259 | "Cart empty" for an absent or empty input, checked first; then "Model parameters missing…" when the scaler center, the scaler scale or the centroid table is empty, for any model; otherwise the classification above |
| Segmentation.EmptyScalerReported | Project/src/web/js/segmentation_model.js:228-235 | a nonempty input with an empty scaler center or scale is answered with "Model parameters missing…", with no condition on the feature list or the spend |
| Segmentation.ClassifyOk | Project/src/web/js/segmentation_model.js:224-259 | a nonempty input with computable shares and a complete model always give a result with an in-range cluster, its profile, and the input's spend4 |
| Segmentation.ClassifyErrorsIgnoreOverrides | Project/src/web/js/segmentation_model.js:224-239 | whether classification fails, and with which message (either of the two), does not depend on the behaviour overrides, including for a model with an empty table |
| Segmentation.FixedModelShape | Project/src/web/js/segmentation_model.js:12-113 | the shipped model fits its feature list, has three centroids with pairwise distinct first coordinates, and has profiles exactly for clusters 0–2, each carrying its own id |
| Segmentation.ThreeClusterClassification | Project/src/web/js/segmentation_model.js:146-149 | with such a model a nonempty input with computable shares lands in cluster 0, 1 or 2, with a profile for that cluster and the input's spend4 |
| Segmentation.ThreeClusterAtCentroid | Project/src/web/js/segmentation_model.js:207-258 | with such a model a standardised vector equal to centroid k is classified as k at distance sqrt(0) |
| Segmentation.BoostPolicy | Project/src/web/js/segmentation_model.js:357-384 | the engaged second pass is used exactly when the first pass succeeds and the rule (spend4 > 150, 0.75 < wine share < 0.9) fires; an error is reported from the first pass; the fallback to the first pass never changes the outcome; spend and shares always come from the first pass |
| Segmentation.ThreeClusterShowsProfile | Project/src/web/js/segmentation_model.js:357-397 | with such a model a nonempty sample with computable shares always shows a profile, never "Unknown Cluster" |
| Segmentation.GetClusterProfile | Project/src/web/js/segmentation_model.js:146-149 | a profile is returned iff one is stored under the cluster index, and it is that one |
| Segmentation.ShouldBoost | Project/src/web/js/segmentation_model.js:370-373 | the rule fires iff spend4 > 150 and 0.75 < wine share < 0.9 |
| Segmentation.PredictCluster | Project/src/web/js/segmentation_model.js:357-384 | the two-pass prediction; `BoostPolicy` states which pass it returns |
| Segmentation.ViewOf | Project/src/web/js/segmentation_model.js:364-397 | an error result shows "Segment: " and the message; a result shows its profile iff it has one, and "Unknown Cluster" otherwise, with the result's cluster either way |

## Left out

- Rendering and event handling: all DOM building, the cart modal, the product cards, the header badge, the cluster profile panel and the click and keyboard handlers are user interface. The model states only what they display: count, total, summary string, prediction view.
- Storage: `localStorage` and JSON text are not modelled. The storage entry is an `Option<seq<Item>>`, where `None` stands for an absent entry, an entry that fails to parse, and a parsed value that `|| []` replaces.
- Non-array values: a parsed value that is truthy but not an array (say, an object) is outside the model, because the entry's type is a sequence of items.
- Refreshing the views: `saveCart` is modelled only in its storage part. The badge and modal refresh it triggers are user interface.
- Browser I/O: the clipboard and download helpers, the JSON rendering of the sample, and the template loading with its cache are not modelled.
- Floating point: `Math.log1p` and `Math.sqrt` are parameters of the model and are never interpreted. Arithmetic is exact over reals, so rounding, NaN and Infinity are outside the model, as is the `toFixed` formatting of prices.
- Segmentation.FindNearestCentroid: does not reproduce the `Infinity` start value. An empty centroid list gives index -1 and squared distance 0, and `classifyCartClient` never reaches that case because it reports "Model parameters missing" first.
- Segmentation.Classify: only when the computation is reached (a nonempty input and no empty table), it requires that the model's tables cover its feature list with no zero scale (`ModelFits`), because the source would otherwise compute with `undefined` and get NaN. In the same case it excludes inputs whose tracked spend is exactly -1e-9 (`SharesDefined`), because the source would divide by zero there. Inputs with no negative price or quantity always qualify (`NonNegativeClassifiable`). Both error paths are covered for every model (`ClassifiableInput`).
- Segmentation.NearestAtCentroid: requires every other centroid to be at a positive distance from the vector. With equal centroids the earlier index would win, as `FirstMin` states.
- Segmentation.ApplyBehaviorOverrides: a field value is either a finite number or not. `Number.isFinite` is not modelled beyond that split, so NaN, the infinities, a missing field and a value that is not a number are all alike.
- Segmentation.ThreeClusterClassification: stated for any model with the shape that `FixedModelShape` proves of the shipped constants, not for the constants alone.
- Text.Lower: only ASCII letters are lower-cased. The full Unicode case mapping of `toLowerCase` is not modelled.
- Text.Less: compares characters by code point, while the default `sort` compares UTF-16 code units. The two orders agree on the strings of the shipped catalog.
- CartStore.GroupCartByCategory: object keys are kept in insertion order. JavaScript lists integer-like keys first and inherits prototype keys, and neither is modelled.
- CartStore.FindProduct: a category named like an inherited object member ("constructor", "toString", "__proto__") finds an inherited value in `CATALOG`, on which `find` throws; the model answers None for every category that is not a catalog key.
- CartStore.AccumulateSpend, CartStore.SpendSummaryOf, CartStore.Entries and CartStore.Store.CategorySpendSummary: the spend summary is an object too. `summary[category] || 0` would start from an inherited member for a prototype-named category, and `Object.entries` lists integer-like keys first in numeric order; the model starts every key at 0 and lists keys in order of first appearance.
- CartStore.FindProduct: the catalog's shelves are not proved to have unique ids. `find` returns the first match, and `FindOnShelf` models exactly that.
- Concurrency: two tabs writing the same storage key are not modelled, so whichever write comes last wins.
- Other files: `checkout.js` re-implements the load and total loop, `header.js` injects HTML and `cart.js` navigates the page. These files are not part of this model.

## Notes

- The comment on `createCategorySummary` (products.js line 268) gives "wines(3) • fish(2)" as an example. The code sorts the keys, so it would print "fish(2) • wines(3)". The model follows the code: `TwoCategorySummary` states that the smaller key comes first.
- `removeFromCart` drops every line of the id in every category, not only the first line. `handleQuantityChange` acts on the first line of the id and ignores the category. The model does both as the code does.
