/**
 * The client-side customer segmentation of segmentation_model.js: spend on
 * four tracked categories, shares and spend intensity, behavioural
 * features, a fixed nine-feature vector, standardisation and the nearest
 * of three fixed centroids; plus the caller's two-pass "boost" rule.
 *
 * Arithmetic is exact over `real`. `Math.log1p` and `Math.sqrt` are not
 * interpreted: they are the fields of a `Libm` value the caller supplies.
 * Absent fields of a sample item are written as "" (category) and 0
 * (price, qty), which the source treats the same way.
 */
module Segmentation {
  import opened Wrappers
  import opened Text

  /** One entry of the classifier's input: `{category, price, qty}`. */
  datatype SampleItem = SampleItem(category: string, price: real, qty: int)

  /** Spend per tracked category. */
  datatype Spend = Spend(wines: real, fruits: real, fish: real, sweets: real)

  /** Category shares of the tracked spend. */
  datatype Shares = Shares(wines: real, fruits: real, fish: real, sweets: real)

  datatype SharesAndIntensity = SharesAndIntensity(spend4: real, spendIntensity: real, shares: Shares)

  /** The two floating-point library functions the classifier calls. */
  datatype Libm = Libm(log1p: real -> real, sqrt: real -> real)

  /** A supplied override value: a finite number, or anything `Number.isFinite` rejects. */
  datatype Field = Finite(value: real) | NonFinite

  /** The fields of a supplied behaviour-override object. */
  datatype OverrideInput = OverrideInput(
    numWebPurchases: Field, numWebVisitsMonth: Field, webShare: Field, numDealsPurchases: Field)

  /** The four behavioural features. */
  datatype Behavior = Behavior(
    numWebPurchases: real, numWebVisitsMonth: real, webShare: real, numDealsPurchases: real)

  datatype MetricValue = Number(x: real) | Label(text: string)
  datatype Metric = Metric(key: string, value: MetricValue)

  /** Descriptive metadata of a cluster, shown next to the prediction. */
  datatype Profile = Profile(
    id: int, name: string, description: string, percentage: real, count: int,
    metrics: seq<Metric>, characteristics: seq<string>, strategy: string)

  /** The scaler, the centroids and the profiles the classifier is configured with. */
  datatype Model = Model(
    clusterFeatures: seq<string>, scalerCenter: seq<real>, scalerScale: seq<real>,
    clusterCenters: seq<seq<real>>, clusterProfiles: map<int, Profile>)

  datatype Classification = Classification(
    cluster: int, distance: real, spend4: real, shares: Shares,
    featuresRow: map<string, real>, profile: Option<Profile>)

  const Eps: real := 0.000000001

  const CartEmpty: string := "Cart empty"
  const ParamsMissing: string := "Model parameters missing. Fill scalerCenter, scalerScale, clusterCenters."

  // ---------------------------------------------------------------------------
  // The fixed model
  // ---------------------------------------------------------------------------

  const ClusterFeatures: seq<string> := [
    "spend_intensity", "Wines_share", "Fruits_share", "Fish_share", "Sweets_share",
    "NumWebPurchases", "NumWebVisitsMonth", "web_share", "NumDealsPurchases"]

  const Profile0: Profile := Profile(
    0, "Low Web Engagement",
    "Low wine preference, balanced product mix, minimal spending. Not yet converted to web channel.",
    22.3, 494,
    [Metric("wineShare", Number(-1.32)), Metric("spendIntensity", Number(-0.54)),
     Metric("dealSensitivity", Label("Low"))],
    ["Low wine share", "Low to moderate spend intensity", "Few web purchases and visits",
     "Low deal sensitivity"],
    "Convert to web with UX optimization, first-purchase discounts, educational content")

  const Profile1: Profile := Profile(
    1, "High-Value Web Enthusiast",
    "High wine preference, premium spender, frequent web user. Most valuable segment.",
    28.7, 635,
    [Metric("wineShare", Number(0.26)), Metric("spendIntensity", Number(0.06)),
     Metric("webPurchases", Number(0.58)), Metric("dealSensitivity", Number(1.04))],
    ["High wine share", "Strong spend intensity", "High web purchases", "High deal sensitivity"],
    "Upsell/cross-sell premium wines, push exclusive subscriptions, loyalty rewards")

  const Profile2: Profile := Profile(
    2, "Deal-Seeker",
    "Moderate spender, deal-sensitive, moderate web engagement. Price-conscious segment.",
    49.0, 1083,
    [Metric("productPreference", Number(-0.06)), Metric("spendIntensity", Number(-0.06)),
     Metric("webPurchases", Number(-0.14)), Metric("dealSensitivity", Number(-0.27))],
    ["Balanced product preference", "Moderate spend intensity", "Low web purchases",
     "Low deal sensitivity"],
    "Flash sales, targeted coupons, time-limited bundles, free shipping thresholds")

  const SegmentationModel: Model := Model(
    ClusterFeatures,
    [5.515440821314845, 0.7611422906762473, 0.05315274142380256,
     0.0797196261664387, 0.05515146706152799, 4.0, 6.0, 0.3333333333333333, 2.0],
    [2.8815611282140097, 0.34798201728209044, 0.10807107910304428,
     0.16593978258974565, 0.11337883774739944, 4.0, 4.0, 0.15000000000000002, 2.0],
    [[-0.5362988490159738, -1.3233863827255035, 1.4707521518309168,
      1.2076563028074556, 1.3406782454754056, -0.36464646464646516,
      -0.012626262626262957, -0.06994449944242653, -0.06565656565656608],
     [0.0614090466724502, 0.2635853201216697, -0.10774349350316914,
      -0.11289391861446224, -0.09271155927931946, 0.5812788906009244,
      0.18104776579352874, 0.6355622297324914, 1.0446841294298923],
     [-0.06182775417814905, 0.08218772426089141, 0.038030145987692776,
      0.07519639477945814, 0.049797584497630526, -0.1394589552238814,
      -0.4556902985074631, -0.4135514221669457, -0.2677238805970136]],
    map[0 := Profile0, 1 := Profile1, 2 := Profile2])

  /** The profile stored under a cluster index, if any. */
  function GetClusterProfile(m: Model, clusterId: int): (r: Option<Profile>)
    ensures r.Some? <==> clusterId in m.clusterProfiles
    ensures r.Some? ==> r.value == m.clusterProfiles[clusterId]
  {
    if clusterId in m.clusterProfiles then Some(m.clusterProfiles[clusterId]) else None
  }

  // ---------------------------------------------------------------------------
  // Spend on the tracked categories (`aggregateCartSpend`)
  // ---------------------------------------------------------------------------

  function ItemAmount(it: SampleItem): real {
    it.price * it.qty as real
  }

  /** The four category names matched against the lower-cased category. */
  predicate Tracked(name: string) {
    name == "wines" || name == "fruits" || name == "fish" || name == "sweets"
  }

  /** One step of the loop: the item's amount goes to the bucket its category picks, if any. */
  function AddItem(s: Spend, it: SampleItem): Spend {
    var cat := Lower(it.category);
    var amt := ItemAmount(it);
    if cat == "wines" then s.(wines := s.wines + amt)
    else if cat == "fruits" then s.(fruits := s.fruits + amt)
    else if cat == "fish" then s.(fish := s.fish + amt)
    else if cat == "sweets" then s.(sweets := s.sweets + amt)
    else s
  }

  /** A step adds the item's amount to the tracked spend exactly when its category is tracked. */
  lemma AddItemTracked(s: Spend, it: SampleItem)
    ensures Spend4(AddItem(s, it)) == Spend4(s) + (if Tracked(Lower(it.category)) then ItemAmount(it) else 0.0)
  {
  }

  /** The spend after visiting every item in order, starting from zero. */
  function Aggregate(items: seq<SampleItem>): Spend {
    if |items| == 0 then Spend(0.0, 0.0, 0.0, 0.0)
    else AddItem(Aggregate(items[..|items| - 1]), items[|items| - 1])
  }

  /** Reference definition: the amount spent on items whose category lower-cases to name. */
  function SpendOn(items: seq<SampleItem>, name: string): real {
    if |items| == 0 then 0.0
    else
      var last := items[|items| - 1];
      SpendOn(items[..|items| - 1], name) + (if Lower(last.category) == name then ItemAmount(last) else 0.0)
  }

  /** The amount spent on items of any tracked category. */
  function TrackedSpend(items: seq<SampleItem>): real {
    if |items| == 0 then 0.0
    else
      var last := items[|items| - 1];
      TrackedSpend(items[..|items| - 1]) + (if Tracked(Lower(last.category)) then ItemAmount(last) else 0.0)
  }

  function Spend4(s: Spend): real {
    s.wines + s.fruits + s.fish + s.sweets
  }

  /** Each bucket holds exactly the spend on its own category. */
  lemma {:induction false} AggregateByCategory(items: seq<SampleItem>)
    ensures Aggregate(items) == Spend(SpendOn(items, "wines"), SpendOn(items, "fruits"),
                                      SpendOn(items, "fish"), SpendOn(items, "sweets"))
  {
    if |items| > 0 {
      AggregateByCategory(items[..|items| - 1]);
    }
  }

  /** The four buckets together hold the spend on tracked items; other items add nothing. */
  lemma {:induction false} AggregateTracked(items: seq<SampleItem>)
    ensures Spend4(Aggregate(items)) == TrackedSpend(items)
  {
    if |items| > 0 {
      var init, last := items[..|items| - 1], items[|items| - 1];
      AggregateTracked(init);
      AddItemTracked(Aggregate(init), last);
      assert Spend4(Aggregate(items)) == Spend4(Aggregate(init)) + (if Tracked(Lower(last.category)) then ItemAmount(last) else 0.0);
    }
  }

  /** With no negative price or quantity every bucket is non-negative. */
  lemma {:induction false} AggregateNonNegative(items: seq<SampleItem>)
    requires forall i :: 0 <= i < |items| ==> items[i].price >= 0.0 && items[i].qty >= 0
    ensures var s := Aggregate(items); s.wines >= 0.0 && s.fruits >= 0.0 && s.fish >= 0.0 && s.sweets >= 0.0
  {
    if |items| > 0 {
      AggregateNonNegative(items[..|items| - 1]);
      var last := items[|items| - 1];
      assert ItemAmount(last) >= 0.0;
    }
  }

  /** The loop of `aggregateCartSpend`, updating the accumulator item by item. */
  method AggregateCartSpend(items: seq<SampleItem>) returns (spend: Spend)
    ensures spend == Aggregate(items)
    ensures spend.wines == SpendOn(items, "wines") && spend.fruits == SpendOn(items, "fruits")
    ensures spend.fish == SpendOn(items, "fish") && spend.sweets == SpendOn(items, "sweets")
  {
    spend := Spend(0.0, 0.0, 0.0, 0.0);
    for i := 0 to |items|
      invariant spend == Aggregate(items[..i])
    {
      assert items[..i + 1][..i] == items[..i];
      var cat := Lower(items[i].category);
      var amt := items[i].price * items[i].qty as real;
      if cat == "wines" {
        spend := spend.(wines := spend.wines + amt);
      } else if cat == "fruits" {
        spend := spend.(fruits := spend.fruits + amt);
      } else if cat == "fish" {
        spend := spend.(fish := spend.fish + amt);
      } else if cat == "sweets" {
        spend := spend.(sweets := spend.sweets + amt);
      }
    }
    assert items[..|items|] == items;
    AggregateByCategory(items);
  }

  // ---------------------------------------------------------------------------
  // Shares and intensity (`computeSharesAndIntensity`)
  // ---------------------------------------------------------------------------

  /** spend4, its intensity, and each category's spend divided by spend4 + eps. */
  function ComputeShares(spend: Spend, libm: Libm): (r: SharesAndIntensity)
    requires Spend4(spend) + Eps != 0.0
    ensures r.spend4 == spend.wines + spend.fruits + spend.fish + spend.sweets
    ensures r.spendIntensity == libm.log1p(r.spend4)
    ensures r.shares.wines * (r.spend4 + Eps) == spend.wines && r.shares.fruits * (r.spend4 + Eps) == spend.fruits
    ensures r.shares.fish * (r.spend4 + Eps) == spend.fish && r.shares.sweets * (r.spend4 + Eps) == spend.sweets
  {
    var spend4 := Spend4(spend);
    DivMul(spend.wines, spend4 + Eps);
    DivMul(spend.fruits, spend4 + Eps);
    DivMul(spend.fish, spend4 + Eps);
    DivMul(spend.sweets, spend4 + Eps);
    SharesAndIntensity(
      spend4, libm.log1p(spend4),
      Shares(spend.wines / (spend4 + Eps), spend.fruits / (spend4 + Eps),
             spend.fish / (spend4 + Eps), spend.sweets / (spend4 + Eps)))
  }

  lemma ShareBounds(part: real, total: real)
    requires 0.0 <= part <= total
    ensures 0.0 <= part / (total + Eps) < 1.0
  {
    assert part < total + Eps;
  }

  /**
   * With non-negative spends every share lies in [0, 1), the shares add up
   * to spend4 / (spend4 + eps) < 1, and an all-zero spend has all-zero shares.
   */
  lemma SharesInUnitInterval(spend: Spend, libm: Libm)
    requires spend.wines >= 0.0 && spend.fruits >= 0.0 && spend.fish >= 0.0 && spend.sweets >= 0.0
    ensures var r := ComputeShares(spend, libm);
      && r.spend4 == spend.wines + spend.fruits + spend.fish + spend.sweets
      && 0.0 <= r.shares.wines < 1.0 && 0.0 <= r.shares.fruits < 1.0
      && 0.0 <= r.shares.fish < 1.0 && 0.0 <= r.shares.sweets < 1.0
      && r.shares.wines + r.shares.fruits + r.shares.fish + r.shares.sweets == r.spend4 / (r.spend4 + Eps)
      && r.shares.wines + r.shares.fruits + r.shares.fish + r.shares.sweets < 1.0
      && (r.spend4 == 0.0 ==> r.shares == Shares(0.0, 0.0, 0.0, 0.0))
  {
    var t := Spend4(spend);
    var d := t + Eps;
    ShareBounds(spend.wines, t);
    ShareBounds(spend.fruits, t);
    ShareBounds(spend.fish, t);
    ShareBounds(spend.sweets, t);
    ShareBounds(t, t);
    assert ComputeShares(spend, libm).shares == Shares(spend.wines / d, spend.fruits / d, spend.fish / d, spend.sweets / d);
    QuotientSum(spend.wines, spend.fruits, spend.fish, spend.sweets, d);
  }

  lemma QuotientSum(a: real, b: real, c: real, e: real, d: real)
    requires d != 0.0
    ensures a / d + b / d + c / d + e / d == (a + b + c + e) / d
  {
  }

  // ---------------------------------------------------------------------------
  // Behavioural features (`applyBehaviorOverrides`)
  // ---------------------------------------------------------------------------

  function FiniteOrZero(f: Field): real {
    if f.Finite? then f.value else 0.0
  }

  /**
   * A missing or non-object input gives all zeros; otherwise each field keeps
   * a finite supplied value and is 0 otherwise.
   */
  function ApplyBehaviorOverrides(overrides: Option<OverrideInput>): (b: Behavior)
    ensures overrides.None? ==> b == Behavior(0.0, 0.0, 0.0, 0.0)
    ensures overrides.Some? ==>
      && b.numWebPurchases == (if overrides.value.numWebPurchases.Finite? then overrides.value.numWebPurchases.value else 0.0)
      && b.numWebVisitsMonth == (if overrides.value.numWebVisitsMonth.Finite? then overrides.value.numWebVisitsMonth.value else 0.0)
      && b.webShare == (if overrides.value.webShare.Finite? then overrides.value.webShare.value else 0.0)
      && b.numDealsPurchases == (if overrides.value.numDealsPurchases.Finite? then overrides.value.numDealsPurchases.value else 0.0)
  {
    match overrides
    case None => Behavior(0.0, 0.0, 0.0, 0.0)
    case Some(o) =>
      Behavior(FiniteOrZero(o.numWebPurchases), FiniteOrZero(o.numWebVisitsMonth),
               FiniteOrZero(o.webShare), FiniteOrZero(o.numDealsPurchases))
  }

  /** The override object that supplies exactly the features b. */
  function AsOverrides(b: Behavior): OverrideInput {
    OverrideInput(Finite(b.numWebPurchases), Finite(b.numWebVisitsMonth),
                  Finite(b.webShare), Finite(b.numDealsPurchases))
  }

  /** Supplying a feature set back as overrides reproduces it, so applying overrides is idempotent. */
  lemma OverridesRoundTrip(overrides: Option<OverrideInput>)
    ensures var b := ApplyBehaviorOverrides(overrides);
      ApplyBehaviorOverrides(Some(AsOverrides(b))) == b
  {
  }

  // ---------------------------------------------------------------------------
  // Feature vector and standardisation (`scaleFeatures`)
  // ---------------------------------------------------------------------------

  /** The feature row `{spend_intensity, ...shares, ...overrides}`. */
  function FeatureRow(spendIntensity: real, shares: Shares, b: Behavior): (row: map<string, real>)
    ensures forall f :: f in row <==> f in ClusterFeatures
  {
    map[
      "spend_intensity" := spendIntensity,
      "Wines_share" := shares.wines, "Fruits_share" := shares.fruits,
      "Fish_share" := shares.fish, "Sweets_share" := shares.sweets,
      "NumWebPurchases" := b.numWebPurchases, "NumWebVisitsMonth" := b.numWebVisitsMonth,
      "web_share" := b.webShare, "NumDealsPurchases" := b.numDealsPurchases]
  }

  /** The row read in feature order, 0 for a feature the row lacks (`featureRow[f] ?? 0`). */
  function FeatureVector(features: seq<string>, row: map<string, real>): (v: seq<real>)
    ensures |v| == |features|
    ensures forall i :: 0 <= i < |features| ==> v[i] == (if features[i] in row then row[features[i]] else 0.0)
  {
    seq(|features|, i requires 0 <= i < |features| => if features[i] in row then row[features[i]] else 0.0)
  }

  /** With the fixed feature list the vector is intensity, the four shares, the four behaviours. */
  lemma FixedFeatureOrder(spendIntensity: real, shares: Shares, b: Behavior)
    ensures FeatureVector(ClusterFeatures, FeatureRow(spendIntensity, shares, b))
         == [spendIntensity, shares.wines, shares.fruits, shares.fish, shares.sweets,
             b.numWebPurchases, b.numWebVisitsMonth, b.webShare, b.numDealsPurchases]
  {
  }

  predicate ScalerFits(v: seq<real>, center: seq<real>, scale: seq<real>) {
    |center| >= |v| && |scale| >= |v| && forall i :: 0 <= i < |v| ==> scale[i] != 0.0
  }

  /** Element i is (v[i] - center[i]) / scale[i]. */
  function ScaleFeatures(v: seq<real>, center: seq<real>, scale: seq<real>): (r: seq<real>)
    requires ScalerFits(v, center, scale)
    ensures |r| == |v|
    ensures forall i :: 0 <= i < |v| ==> r[i] * scale[i] + center[i] == v[i]
  {
    var r := seq(|v|, i requires 0 <= i < |v| => (v[i] - center[i]) / scale[i]);
    assert forall i :: 0 <= i < |v| ==> r[i] * scale[i] + center[i] == v[i] by {
      forall i | 0 <= i < |v| ensures r[i] * scale[i] + center[i] == v[i] {
        DivMul(v[i] - center[i], scale[i]);
      }
    }
    r
  }

  /** The inverse of standardisation. */
  function Unscale(r: seq<real>, center: seq<real>, scale: seq<real>): (v: seq<real>)
    requires |center| >= |r| && |scale| >= |r|
  {
    seq(|r|, i requires 0 <= i < |r| => r[i] * scale[i] + center[i])
  }

  /** Standardising and then undoing it gives back the feature vector. */
  lemma ScaleRoundTrip(v: seq<real>, center: seq<real>, scale: seq<real>)
    requires ScalerFits(v, center, scale)
    ensures Unscale(ScaleFeatures(v, center, scale), center, scale) == v
  {
    var r := ScaleFeatures(v, center, scale);
    var u := Unscale(r, center, scale);
    forall i | 0 <= i < |v| ensures u[i] == v[i] {
      assert u[i] == r[i] * scale[i] + center[i];
    }
  }

  lemma DivMul(x: real, s: real)
    requires s != 0.0
    ensures (x / s) * s == x
  {
  }

  // ---------------------------------------------------------------------------
  // Nearest centroid (`findNearestCentroid`)
  // ---------------------------------------------------------------------------

  /** Sum of squared differences over the first n coordinates of c. */
  function SqDistPrefix(v: seq<real>, c: seq<real>, n: nat): (d: real)
    requires n <= |c| <= |v|
    ensures d >= 0.0
  {
    if n == 0 then 0.0
    else SqDistPrefix(v, c, n - 1) + (v[n - 1] - c[n - 1]) * (v[n - 1] - c[n - 1])
  }

  /** Squared Euclidean distance from v to centroid c, over the coordinates of c. */
  function SqDist(v: seq<real>, c: seq<real>): real
    requires |c| <= |v|
  {
    SqDistPrefix(v, c, |c|)
  }

  /** The distance over the first n coordinates is zero when v agrees with c there. */
  lemma {:induction false} SqDistPrefixAgree(v: seq<real>, c: seq<real>, n: nat)
    requires n <= |c| <= |v|
    requires v[..n] == c[..n]
    ensures SqDistPrefix(v, c, n) == 0.0
  {
    if n > 0 {
      assert v[..n - 1] == v[..n][..n - 1] && c[..n - 1] == c[..n][..n - 1];
      assert v[n - 1] == v[..n][n - 1] && c[n - 1] == c[..n][n - 1];
      SqDistPrefixAgree(v, c, n - 1);
    }
  }

  /** The distance over the first n coordinates bounds the squared difference at each of them. */
  lemma {:induction false} SqDistPrefixAtLeast(v: seq<real>, c: seq<real>, n: nat, i: nat)
    requires i < n <= |c| <= |v|
    ensures SqDistPrefix(v, c, n) >= (v[i] - c[i]) * (v[i] - c[i])
  {
    if i < n - 1 {
      SqDistPrefixAtLeast(v, c, n - 1, i);
      assert SqDistPrefix(v, c, n) >= SqDistPrefix(v, c, n - 1);
    }
  }

  lemma SqDistAgree(v: seq<real>, c: seq<real>)
    requires |c| <= |v| && v[..|c|] == c
    ensures SqDist(v, c) == 0.0
  {
    assert c[..|c|] == c;
    SqDistPrefixAgree(v, c, |c|);
  }

  predicate CentroidsFit(v: seq<real>, cs: seq<seq<real>>) {
    forall k :: 0 <= k < |cs| ==> |cs[k]| <= |v|
  }

  /**
   * The index the scan over the first n centroids settles on: a later
   * centroid replaces the best so far only when strictly closer.
   */
  function FirstMin(v: seq<real>, cs: seq<seq<real>>, n: nat): (b: int)
    requires CentroidsFit(v, cs) && n <= |cs|
    ensures b == -1 <==> n == 0
    ensures n > 0 ==> 0 <= b < n
    ensures n > 0 ==> forall j :: 0 <= j < n ==> SqDist(v, cs[b]) <= SqDist(v, cs[j])
    ensures n > 0 ==> forall j :: 0 <= j < b ==> SqDist(v, cs[b]) < SqDist(v, cs[j])
  {
    if n == 0 then -1
    else
      var b := FirstMin(v, cs, n - 1);
      if b == -1 || SqDist(v, cs[n - 1]) < SqDist(v, cs[b]) then n - 1 else b
  }

  /** The nearest centroid, first on ties; -1 when there is none. */
  function Nearest(v: seq<real>, cs: seq<seq<real>>): int
    requires CentroidsFit(v, cs)
  {
    FirstMin(v, cs, |cs|)
  }

  /** A vector that coincides with centroid k and is away from every other centroid is classified as k. */
  lemma NearestAtCentroid(v: seq<real>, cs: seq<seq<real>>, k: nat)
    requires CentroidsFit(v, cs) && k < |cs|
    requires v[..|cs[k]|] == cs[k]
    requires forall j :: 0 <= j < |cs| && j != k ==> SqDist(v, cs[j]) > 0.0
    ensures Nearest(v, cs) == k && SqDist(v, cs[k]) == 0.0
  {
    SqDistAgree(v, cs[k]);
  }

  /**
   * The nested loops of `findNearestCentroid`. Returns the chosen index and
   * its squared distance; the square root is taken by the caller.
   */
  method FindNearestCentroid(v: seq<real>, cs: seq<seq<real>>) returns (bestIdx: int, bestSq: real)
    requires CentroidsFit(v, cs)
    ensures bestIdx == Nearest(v, cs)
    ensures |cs| == 0 ==> bestIdx == -1
    ensures |cs| > 0 ==> 0 <= bestIdx < |cs| && bestSq == SqDist(v, cs[bestIdx])
    ensures |cs| > 0 ==> forall j :: 0 <= j < |cs| ==> bestSq <= SqDist(v, cs[j])
    ensures |cs| > 0 ==> forall j :: 0 <= j < bestIdx ==> bestSq < SqDist(v, cs[j])
  {
    bestIdx, bestSq := -1, 0.0;
    var idx := 0;
    while idx < |cs|
      invariant 0 <= idx <= |cs|
      invariant bestIdx == FirstMin(v, cs, idx)
      invariant bestIdx >= 0 ==> bestSq == SqDist(v, cs[bestIdx])
    {
      var centroid := cs[idx];
      var d := 0.0;
      var i := 0;
      while i < |centroid|
        invariant 0 <= i <= |centroid|
        invariant d == SqDistPrefix(v, centroid, i)
      {
        var diff := v[i] - centroid[i];
        d := d + diff * diff;
        i := i + 1;
      }
      if bestIdx == -1 || d < bestSq {
        bestSq := d;
        bestIdx := idx;
      }
      idx := idx + 1;
    }
  }

  // ---------------------------------------------------------------------------
  // Classification (`classifyCartClient`)
  // ---------------------------------------------------------------------------

  /** The model's tables are long enough for its own feature list and no scale is zero. */
  predicate ModelFits(m: Model) {
    && |m.scalerCenter| >= |m.clusterFeatures|
    && |m.scalerScale| >= |m.clusterFeatures|
    && (forall i :: 0 <= i < |m.clusterFeatures| ==> m.scalerScale[i] != 0.0)
    && (forall k :: 0 <= k < |m.clusterCenters| ==> |m.clusterCenters[k]| <= |m.clusterFeatures|)
  }

  predicate ParamsPresent(m: Model) {
    |m.scalerCenter| > 0 && |m.scalerScale| > 0 && |m.clusterCenters| > 0
  }

  /** The shares are computable: the divisor spend4 + eps is not zero. */
  predicate SharesDefined(items: seq<SampleItem>) {
    Spend4(Aggregate(items)) + Eps != 0.0
  }

  /**
   * What the computation past the two error checks needs, and only when it
   * is reached: tables that cover the feature list with no zero scale, and
   * computable shares.
   */
  predicate ClassifiableInput(items: Option<seq<SampleItem>>, m: Model) {
    items.Some? && |items.value| > 0 && ParamsPresent(m) ==> ModelFits(m) && SharesDefined(items.value)
  }

  lemma NonNegativeClassifiable(items: seq<SampleItem>)
    requires forall i :: 0 <= i < |items| ==> items[i].price >= 0.0 && items[i].qty >= 0
    ensures SharesDefined(items)
  {
    AggregateNonNegative(items);
  }

  /** The feature row of a nonempty input (`features_row`). */
  function Row(items: seq<SampleItem>, overrides: Option<OverrideInput>, libm: Libm): map<string, real>
    requires SharesDefined(items)
  {
    var si := ComputeShares(Aggregate(items), libm);
    FeatureRow(si.spendIntensity, si.shares, ApplyBehaviorOverrides(overrides))
  }

  /** The standardised feature vector of a nonempty input. */
  function ScaledVector(items: seq<SampleItem>, overrides: Option<OverrideInput>, m: Model, libm: Libm): (r: seq<real>)
    requires ModelFits(m) && SharesDefined(items)
    ensures |r| == |m.clusterFeatures|
  {
    ScaleFeatures(FeatureVector(m.clusterFeatures, Row(items, overrides, libm)), m.scalerCenter, m.scalerScale)
  }

  /**
   * The result for a nonempty input and a complete model: the first nearest
   * centroid to the standardised features, its distance, the spend and the
   * shares of the input, and the cluster's profile.
   */
  function Classified(items: seq<SampleItem>, overrides: Option<OverrideInput>, m: Model, libm: Libm)
    : (c: Classification)
    requires ModelFits(m) && SharesDefined(items) && |m.clusterCenters| > 0
    ensures var scaled := ScaledVector(items, overrides, m, libm);
      && 0 <= c.cluster < |m.clusterCenters|
      && (forall j :: 0 <= j < |m.clusterCenters| ==>
            SqDist(scaled, m.clusterCenters[c.cluster]) <= SqDist(scaled, m.clusterCenters[j]))
      && (forall j :: 0 <= j < c.cluster ==>
            SqDist(scaled, m.clusterCenters[c.cluster]) < SqDist(scaled, m.clusterCenters[j]))
      && c.distance == libm.sqrt(SqDist(scaled, m.clusterCenters[c.cluster]))
    ensures c.spend4 == Spend4(Aggregate(items))
    ensures c.shares == ComputeShares(Aggregate(items), libm).shares
    ensures forall f :: f in c.featuresRow <==> f in ClusterFeatures
    ensures c.profile == GetClusterProfile(m, c.cluster)
  {
    var si := ComputeShares(Aggregate(items), libm);
    var scaled := ScaledVector(items, overrides, m, libm);
    var best := Nearest(scaled, m.clusterCenters);
    Classification(best, libm.sqrt(SqDist(scaled, m.clusterCenters[best])),
                   si.spend4, si.shares, Row(items, overrides, libm), GetClusterProfile(m, best))
  }

  /**
   * Classifies a cart sample: "Cart empty" for an absent or empty input,
   * checked first; then "Model parameters missing" when a constant table is
   * empty; otherwise the nearest centroid to the standardised features.
   */
  function Classify(items: Option<seq<SampleItem>>, overrides: Option<OverrideInput>, m: Model, libm: Libm)
    : (r: Result<Classification>)
    requires ClassifiableInput(items, m)
    ensures (items.None? || |items.value| == 0) ==> r == Err(CartEmpty)
    ensures items.Some? && |items.value| > 0 && !ParamsPresent(m) ==> r == Err(ParamsMissing)
    ensures items.Some? && |items.value| > 0 && ParamsPresent(m) ==>
              r == Ok(Classified(items.value, overrides, m, libm))
  {
    if items.None? || |items.value| == 0 then Err(CartEmpty)
    else if !ParamsPresent(m) then Err(ParamsMissing)
    else Ok(Classified(items.value, overrides, m, libm))
  }

  /**
   * What the guarantees below need of the shipped model: it fits its feature
   * list, has three centroids whose first coordinates all differ, and a
   * profile for exactly the clusters 0, 1 and 2, each carrying its own index.
   */
  ghost predicate ThreeClusterModel(m: Model) {
    && ModelFits(m) && ParamsPresent(m)
    && |m.clusterCenters| == 3
    && (forall c :: c in m.clusterProfiles <==> 0 <= c <= 2)
    && (forall c :: c in m.clusterProfiles ==> m.clusterProfiles[c].id == c)
    && (forall j :: 0 <= j < 3 ==> |m.clusterCenters[j]| > 0)
    && (forall j, k :: 0 <= j < 3 && 0 <= k < 3 && j != k ==>
          (m.clusterCenters[j][0] - m.clusterCenters[k][0]) * (m.clusterCenters[j][0] - m.clusterCenters[k][0]) > 0.0)
  }

  /** The constants of the classifier make such a model. */
  lemma FixedModelShape()
    ensures ThreeClusterModel(SegmentationModel)
  {
  }

  /** A nonempty input with computable shares and a complete model is classified into one of its clusters. */
  lemma ClassifyOk(items: seq<SampleItem>, overrides: Option<OverrideInput>, m: Model, libm: Libm)
    requires ModelFits(m) && ParamsPresent(m) && |items| > 0 && SharesDefined(items)
    ensures var r := Classify(Some(items), overrides, m, libm);
      && r.Ok?
      && 0 <= r.value.cluster < |m.clusterCenters|
      && r.value.profile == GetClusterProfile(m, r.value.cluster)
      && r.value.spend4 == Spend4(Aggregate(items))
  {
  }

  /** With such a model a nonempty input lands in cluster 0, 1 or 2 and always has that cluster's profile. */
  lemma ThreeClusterClassification(items: seq<SampleItem>, overrides: Option<OverrideInput>, m: Model, libm: Libm)
    requires ThreeClusterModel(m) && |items| > 0 && SharesDefined(items)
    ensures var r := Classify(Some(items), overrides, m, libm);
      && r.Ok?
      && 0 <= r.value.cluster <= 2
      && r.value.profile.Some? && r.value.profile.value.id == r.value.cluster
      && r.value.spend4 == Spend4(Aggregate(items))
  {
    ClassifyOk(items, overrides, m, libm);
  }

  /** A standardised vector equal to centroid k of such a model is classified as k at distance sqrt(0). */
  lemma ThreeClusterAtCentroid(items: seq<SampleItem>, overrides: Option<OverrideInput>, m: Model, libm: Libm, k: nat)
    requires ThreeClusterModel(m) && |items| > 0 && SharesDefined(items) && k < 3
    requires ScaledVector(items, overrides, m, libm) == m.clusterCenters[k]
    ensures var r := Classify(Some(items), overrides, m, libm);
      r.Ok? && r.value.cluster == k && r.value.distance == libm.sqrt(0.0)
  {
    var cs := m.clusterCenters;
    var v := ScaledVector(items, overrides, m, libm);
    assert v[..|cs[k]|] == v;
    forall j | 0 <= j < |cs| && j != k ensures SqDist(v, cs[j]) > 0.0 {
      SqDistPrefixAtLeast(v, cs[j], |cs[j]|, 0);
      assert (cs[k][0] - cs[j][0]) * (cs[k][0] - cs[j][0]) > 0.0;
    }
    NearestAtCentroid(v, cs, k);
  }

  /** An empty scaler table is reported as missing parameters, whatever the input's spend. */
  lemma EmptyScalerReported(items: seq<SampleItem>, overrides: Option<OverrideInput>, m: Model, libm: Libm)
    requires |items| > 0 && (|m.scalerCenter| == 0 || |m.scalerScale| == 0)
    ensures Classify(Some(items), overrides, m, libm) == Err(ParamsMissing)
  {
  }

  /** Whether classification fails, and with which message, does not depend on the behaviour overrides. */
  lemma ClassifyErrorsIgnoreOverrides(items: Option<seq<SampleItem>>, o1: Option<OverrideInput>,
                                      o2: Option<OverrideInput>, m: Model, libm: Libm)
    requires ClassifiableInput(items, m)
    ensures Classify(items, o1, m, libm).Err? <==> Classify(items, o2, m, libm).Err?
    ensures Classify(items, o1, m, libm).Err? ==> Classify(items, o1, m, libm) == Classify(items, o2, m, libm)
  {
  }

  // ---------------------------------------------------------------------------
  // The caller's two-pass policy (`renderClusterPrediction`)
  // ---------------------------------------------------------------------------

  const ZeroOverrides: OverrideInput := OverrideInput(Finite(0.0), Finite(0.0), Finite(0.0), Finite(0.0))
  const EngagedOverrides: OverrideInput := OverrideInput(Finite(2.0), Finite(6.0), Finite(0.7), Finite(2.0))

  /** A wine-heavy cart above 150 in tracked spend is re-classified as an engaged web shopper. */
  predicate ShouldBoost(c: Classification) {
    c.spend4 > 150.0 && c.shares.wines > 0.75 && c.shares.wines < 0.9
  }

  /** First pass with zero behaviour, second pass with the engaged features when the rule fires. */
  function PredictCluster(sample: seq<SampleItem>, m: Model, libm: Libm): Result<Classification>
    requires ClassifiableInput(Some(sample), m)
  {
    var base := Classify(Some(sample), Some(ZeroOverrides), m, libm);
    if base.Err? then base
    else
      var boosted := if ShouldBoost(base.value) then Classify(Some(sample), Some(EngagedOverrides), m, libm) else base;
      if boosted.Err? then base else boosted
  }

  /**
   * The boost rule: the engaged second pass is used exactly when the rule
   * fires on a successful first pass; the fallback to the first pass is never
   * needed; spend and shares are those of the first pass in every case.
   */
  lemma BoostPolicy(sample: seq<SampleItem>, m: Model, libm: Libm)
    requires ClassifiableInput(Some(sample), m)
    ensures var base := Classify(Some(sample), Some(ZeroOverrides), m, libm);
      var r := PredictCluster(sample, m, libm);
      && (base.Err? ==> r == base)
      && (base.Ok? && !ShouldBoost(base.value) ==> r == base)
      && (base.Ok? && ShouldBoost(base.value) ==> r == Classify(Some(sample), Some(EngagedOverrides), m, libm))
      && (r.Ok? ==> base.Ok? && r.value.spend4 == base.value.spend4 && r.value.shares == base.value.shares)
  {
    ClassifyErrorsIgnoreOverrides(Some(sample), Some(ZeroOverrides), Some(EngagedOverrides), m, libm);
  }

  /** What the prediction box shows: an error, an unknown cluster, or a profile. */
  datatype PredictionView = SegmentError(message: string) | UnknownCluster(cluster: int) | ShowProfile(cluster: int, profile: Profile)

  function ViewOf(r: Result<Classification>): (v: PredictionView)
    ensures v.SegmentError? <==> r.Err?
    ensures r.Err? ==> v.message == "Segment: " + r.error
    ensures r.Ok? ==> (v.ShowProfile? <==> r.value.profile.Some?)
    ensures r.Ok? ==> v.cluster == r.value.cluster
    ensures v.ShowProfile? ==> r.value.profile == Some(v.profile)
  {
    match r
    case Err(e) => SegmentError("Segment: " + e)
    case Ok(c) => if c.profile.None? then UnknownCluster(c.cluster) else ShowProfile(c.cluster, c.profile.value)
  }

  /** With such a model a nonempty sample always shows a profile, never an unknown cluster. */
  lemma ThreeClusterShowsProfile(sample: seq<SampleItem>, m: Model, libm: Libm)
    requires ThreeClusterModel(m) && |sample| > 0 && SharesDefined(sample)
    ensures ViewOf(PredictCluster(sample, m, libm)).ShowProfile?
  {
    BoostPolicy(sample, m, libm);
    ThreeClusterClassification(sample, Some(ZeroOverrides), m, libm);
    ThreeClusterClassification(sample, Some(EngagedOverrides), m, libm);
  }

  /** Two units of wine at 30 and one unit of fish at 10. */
  lemma WineFishExample(libm: Libm)
    ensures var items := [SampleItem("wines", 30.0, 2), SampleItem("fish", 10.0, 1)];
      && Aggregate(items) == Spend(60.0, 0.0, 10.0, 0.0)
      && ComputeShares(Aggregate(items), libm)
           == SharesAndIntensity(70.0, libm.log1p(70.0),
                Shares(60.0 / (70.0 + Eps), 0.0, 10.0 / (70.0 + Eps), 0.0))
  {
    var items := [SampleItem("wines", 30.0, 2), SampleItem("fish", 10.0, 1)];
    assert items[..1] == [SampleItem("wines", 30.0, 2)];
    assert Lower("wines") == "wines" && Lower("fish") == "fish";
  }
}
