/** The scarcity widgets (`src/components/psychology/ScarcityIndicator.tsx`):
    a viewer counter that drifts inside [1, 25], the stock badge, and the
    live-activity list that keeps the five newest activities. Every
    `Math.random()` is a `Draw`, a fraction in [0, 1); the timers that fire
    the updates become calls of the methods below. */
module Scarcity {
  import opened Text
  import opened Seqs

  // ---------------------------------------------------------------------------
  // Random draws
  // ---------------------------------------------------------------------------

  /** A value of `Math.random()`: the fraction `num / den`. */
  datatype Draw = Draw(num: nat, den: nat)

  /** `Math.random()` lies in [0, 1). */
  predicate ValidDraw(d: Draw) {
    d.num < d.den
  }

  /** `Math.floor(Math.random() * n)`. */
  function Scaled(d: Draw, n: nat): (r: nat)
    requires ValidDraw(d)
    ensures n > 0 ==> r < n
    ensures n == 0 ==> r == 0
  {
    ScaledBelow(d.num, d.den, n);
    d.num * n / d.den
  }

  lemma ScaledBelow(num: nat, den: nat, n: nat)
    requires num < den
    ensures num * n / den <= n
    ensures n > 0 ==> num * n / den < n
  {
  }

  // ---------------------------------------------------------------------------
  // The scarcity indicator
  // ---------------------------------------------------------------------------

  const MinViewers := 1
  const MaxViewers := 25

  /** `Math.max(1, Math.min(25, v))`. */
  function ClampViewers(v: int): (r: int)
    ensures MinViewers <= r <= MaxViewers
    ensures MinViewers <= v <= MaxViewers ==> r == v
    ensures v < MinViewers ==> r == MinViewers
    ensures v > MaxViewers ==> r == MaxViewers
  {
    if v > MaxViewers then MaxViewers else if v < MinViewers then MinViewers else v
  }

  /** `Math.floor(Math.random() * 5) - 2`: a change in [-2, 2]. */
  function ViewerChange(d: Draw): (r: int)
    requires ValidDraw(d)
    ensures -2 <= r <= 2
  {
    Scaled(d, 5) - 2
  }

  /** One tick of the viewer interval. */
  function NextViewers(prev: int, d: Draw): (r: int)
    requires ValidDraw(d)
  {
    ClampViewers(prev + ViewerChange(d))
  }

  /** Every tick lands in [1, 25], and from inside that range a tick moves
      the counter by at most two. */
  lemma NextViewersBounds(prev: int, d: Draw)
    requires ValidDraw(d)
    ensures MinViewers <= NextViewers(prev, d) <= MaxViewers
    ensures MinViewers <= prev <= MaxViewers ==> -2 <= NextViewers(prev, d) - prev <= 2
  {
  }

  /** `Math.floor(Math.random() * 15) + 3`: at most 17, not the 18 its
      comment says. */
  function InitialViewers(d: Draw): (r: int)
    requires ValidDraw(d)
    ensures 3 <= r <= 17
  {
    Scaled(d, 15) + 3
  }

  /** `Math.floor(Math.random() * 8) + 2`: at most 9, not 10. */
  function InitialStock(d: Draw): (r: int)
    requires ValidDraw(d)
    ensures 2 <= r <= 9
  {
    Scaled(d, 8) + 2
  }

  /** `Math.floor(Math.random() * 5) + 1`: at most 5, not 6. */
  function InitialSales(d: Draw): (r: int)
    requires ValidDraw(d)
    ensures 1 <= r <= 5
  {
    Scaled(d, 5) + 1
  }

  /** The stock badge appears only for a low stock. */
  predicate ShowStockBadge(showStock: bool, stockLevel: int) {
    showStock && stockLevel <= 5
  }

  const LastPrefix := "Son "
  const OnlyPrefix := "Sadece "

  /** The badge text: `Son N adet!` for two or fewer, `Sadece N adet kaldı`
      otherwise; either way the stock level follows the first word. */
  function StockBadgeText(stockLevel: int): (r: string)
    ensures stockLevel <= 2 ==> LastPrefix + IntToString(stockLevel) + " adet!" == r
    ensures stockLevel > 2 ==> OnlyPrefix + IntToString(stockLevel) + " adet kaldı" == r
    ensures stockLevel <= 2 <==> LastPrefix <= r
  {
    if stockLevel <= 2 then LastPrefix + IntToString(stockLevel) + " adet!"
    else
      assert (OnlyPrefix + IntToString(stockLevel) + " adet kaldı")[1] == 'a';
      OnlyPrefix + IntToString(stockLevel) + " adet kaldı"
  }

  /** The badges the indicator shows, in order. */
  datatype Badge = ViewersBadge(viewers: int) | StockBadge(text: string) | SalesBadge(sales: int) | TrendingBadge

  /** Which badges a visible indicator renders; `trending` is the outcome of
      the `Math.random() > 0.6` test. */
  function Badges(showViewers: bool, showStock: bool, showRecentSales: bool, showTrending: bool,
                  viewers: int, stockLevel: int, recentSales: int, trending: bool): (r: seq<Badge>)
    ensures |r| <= 4
    ensures StockBadge(StockBadgeText(stockLevel)) in r <==> ShowStockBadge(showStock, stockLevel)
    ensures ViewersBadge(viewers) in r <==> showViewers
    ensures SalesBadge(recentSales) in r <==> showRecentSales
    ensures TrendingBadge in r <==> showTrending && trending
  {
    (if showViewers then [ViewersBadge(viewers)] else [])
    + (if ShowStockBadge(showStock, stockLevel) then [StockBadge(StockBadgeText(stockLevel))] else [])
    + (if showRecentSales then [SalesBadge(recentSales)] else [])
    + (if showTrending && trending then [TrendingBadge] else [])
  }

  class ScarcityIndicator {
    var viewers: int
    var stockLevel: int
    var recentSales: int
    var isVisible: bool

    /** The viewer counter stays in [1, 25] once the data exists. */
    predicate Valid()
      reads this
    {
      isVisible ==> MinViewers <= viewers <= MaxViewers && 2 <= stockLevel <= 9 && 1 <= recentSales <= 5
    }

    /** Nothing is drawn before the first data arrives. */
    constructor()
      ensures viewers == 0 && stockLevel == 0 && recentSales == 0 && !isVisible
      ensures Valid()
    {
      viewers, stockLevel, recentSales, isVisible := 0, 0, 0, false;
    }

    /** `generateRealisticData`. */
    method GenerateRealisticData(dv: Draw, ds: Draw, dr: Draw)
      requires ValidDraw(dv) && ValidDraw(ds) && ValidDraw(dr)
      modifies this
      ensures viewers == InitialViewers(dv) && stockLevel == InitialStock(ds)
      ensures recentSales == InitialSales(dr) && isVisible
      ensures Valid()
    {
      viewers := InitialViewers(dv);
      stockLevel := InitialStock(ds);
      recentSales := InitialSales(dr);
      isVisible := true;
    }

    /** One firing of the viewer interval. */
    method ViewerTick(d: Draw)
      requires ValidDraw(d) && Valid()
      modifies this
      ensures viewers == NextViewers(old(viewers), d)
      ensures stockLevel == old(stockLevel) && recentSales == old(recentSales) && isVisible == old(isVisible)
      ensures Valid()
    {
      NextViewersBounds(viewers, d);
      viewers := NextViewers(viewers, d);
    }

    /** What the indicator renders: nothing until it is visible. */
    function Rendered(showViewers: bool, showStock: bool, showRecentSales: bool, showTrending: bool, trending: bool): (r: seq<Badge>)
      reads this
      ensures !isVisible ==> r == []
    {
      if !isVisible then []
      else Badges(showViewers, showStock, showRecentSales, showTrending, viewers, stockLevel, recentSales, trending)
    }
  }

  // ---------------------------------------------------------------------------
  // The live activity feed
  // ---------------------------------------------------------------------------

  const ActivityTypes: seq<string> := ["purchase", "view", "wishlist"]

  const SampleProducts: seq<string> := [
    "HYDRA Serum", "VITA C Serum", "AGE Recovery", "MELA Recovery",
    "AC Recovery", "Active Formula", "FOAM Cleanse"
  ]

  const SampleLocations: seq<string> := [
    "İstanbul", "Ankara", "İzmir", "Bursa", "Adana", "Gaziantep",
    "Konya", "Antalya", "Kayseri", "Mersin"
  ]

  const MaxActivities := 5

  datatype Activity = Activity(id: string, kind: string, product: string, location: string, time: string)

  /** The three draws of one `generateActivity` call and its `Date.now()` id. */
  datatype ActivityDraw = ActivityDraw(kind: Draw, product: Draw, location: Draw, id: string)

  predicate ValidActivityDraw(a: ActivityDraw) {
    ValidDraw(a.kind) && ValidDraw(a.product) && ValidDraw(a.location)
  }

  /** The activity `generateActivity` builds from its draws: a known kind,
      a sample product and a sample city, at time `şimdi`. */
  function NewActivity(a: ActivityDraw): (r: Activity)
    requires ValidActivityDraw(a)
    ensures r.kind in ActivityTypes && r.product in SampleProducts && r.location in SampleLocations
    ensures r.id == a.id && r.time == "şimdi"
  {
    Activity(a.id,
      ActivityTypes[Scaled(a.kind, |ActivityTypes|)],
      SampleProducts[Scaled(a.product, |SampleProducts|)],
      SampleLocations[Scaled(a.location, |SampleLocations|)],
      "şimdi")
  }

  /** `[newActivity, ...prev.slice(0, 4)]`: the new activity first, then
      the previous four newest in order, so at most five are kept. */
  function Pushed(prev: seq<Activity>, a: Activity): (r: seq<Activity>)
    ensures |r| == Min(MaxActivities, |prev| + 1) && r[0] == a
    ensures forall i | 1 <= i < |r| :: r[i] == prev[i - 1]
  {
    [a] + prev[..Min(MaxActivities - 1, |prev|)]
  }

  /** The activities in the order they were generated, pushed one by one. */
  function PushedAll(prev: seq<Activity>, news: seq<Activity>): seq<Activity>
    decreases |news|
  {
    if news == [] then prev else Pushed(PushedAll(prev, news[..|news| - 1]), news[|news| - 1])
  }

  /** The feed keeps the newest activities, newest first: after pushing any
      number of activities onto any feed, it holds the last
      `Min(5, |news|)` of them in reverse order, and never more than five. */
  lemma {:induction false} PushedAllNewest(prev: seq<Activity>, news: seq<Activity>)
    ensures |PushedAll(prev, news)| <= Max(|prev|, MaxActivities)
    ensures |PushedAll(prev, news)| >= Min(MaxActivities, |news|)
    ensures forall i | 0 <= i < Min(MaxActivities, |news|) :: PushedAll(prev, news)[i] == news[|news| - 1 - i]
    decreases |news|
  {
    if news != [] {
      var init := news[..|news| - 1];
      PushedAllNewest(prev, init);
      var r := PushedAll(prev, news);
      forall i | 1 <= i < Min(MaxActivities, |news|)
        ensures r[i] == news[|news| - 1 - i]
      {
        assert r[i] == PushedAll(prev, init)[i - 1];
        assert init[|init| - 1 - (i - 1)] == news[|news| - 1 - i];
      }
    }
  }

  function Max(a: int, b: int): int {
    if a >= b then a else b
  }

  /** `activities.slice(0, 1)`, with nothing rendered for an empty feed. */
  function Displayed(activities: seq<Activity>): (r: seq<Activity>)
    ensures |r| <= 1
    ensures r == [] <==> activities == []
    ensures r != [] ==> r[0] == activities[0]
  {
    activities[..Min(1, |activities|)]
  }

  /** `getActivityIcon`. */
  function ActivityIcon(kind: string): (r: string)
    ensures r == "📱" <==> kind !in ActivityTypes
  {
    if kind == "purchase" then "🛍️"
    else if kind == "view" then "👀"
    else if kind == "wishlist" then "❤️"
    else "📱"
  }

  function Verb(kind: string): string {
    if kind == "purchase" then "satın aldı"
    else if kind == "view" then "inceliyor"
    else "favoriledi"
  }

  const FromSuffix := "'den "
  const Someone := "biri "

  /** `getActivityText`: every text starts with the city; a known kind names
      the product and its verb, and only the default branch leaves both out. */
  function ActivityText(a: Activity): (r: string)
    ensures a.location + FromSuffix <= r
    ensures a.kind in ActivityTypes ==> r == a.location + FromSuffix + Someone + a.product + " " + Verb(a.kind)
    ensures a.kind in ActivityTypes <==> a.location + FromSuffix + Someone <= r
  {
    if a.kind in ActivityTypes then a.location + FromSuffix + Someone + a.product + " " + Verb(a.kind)
    else
      var r := a.location + FromSuffix + "aktivite";
      assert r[|a.location + FromSuffix|] == 'a';
      assert (a.location + FromSuffix + Someone)[|a.location + FromSuffix|] == 'b';
      r
  }

  class LiveActivity {
    var activities: seq<Activity>

    predicate Valid()
      reads this
    {
      |activities| <= MaxActivities
    }

    constructor()
      ensures activities == [] && Valid()
    {
      activities := [];
    }

    /** `generateActivity`. */
    method GenerateActivity(a: ActivityDraw)
      requires ValidActivityDraw(a) && Valid()
      modifies this
      ensures activities == Pushed(old(activities), NewActivity(a))
      ensures Valid()
    {
      activities := Pushed(activities, NewActivity(a));
    }

    /** The three initial activities, generated in the order their timeouts
        fire. */
    method GenerateInitial(draws: seq<ActivityDraw>)
      requires |draws| == 3
      requires forall i | 0 <= i < |draws| :: ValidActivityDraw(draws[i])
      requires Valid()
      modifies this
      ensures activities == PushedAll(old(activities), NewActivities(draws))
      ensures Valid()
    {
      ghost var start := activities;
      for i := 0 to 3
        invariant activities == PushedAll(start, NewActivities(draws[..i]))
        invariant Valid()
      {
        assert NewActivities(draws[..i + 1])[..i] == NewActivities(draws[..i]);
        GenerateActivity(draws[i]);
      }
      assert draws[..3] == draws;
    }
  }

  function NewActivities(draws: seq<ActivityDraw>): (r: seq<Activity>)
    requires forall i | 0 <= i < |draws| :: ValidActivityDraw(draws[i])
    ensures |r| == |draws|
    ensures forall i | 0 <= i < |draws| :: r[i] == NewActivity(draws[i])
  {
    seq(|draws|, i requires 0 <= i < |draws| => NewActivity(draws[i]))
  }
}
