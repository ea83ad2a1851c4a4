/**
 * The infinite carousel of item images: a row of items laid out at a fixed
 * spacing around the container's centre, with depths by distance from the
 * centre, scrolling, wrapping of the outermost items, centring on an item,
 * and reconfiguration. Positions are whole pixels.
 */
module Carousel {
  import opened Wrappers

  function Abs(x: int): nat {
    if x < 0 then -x else x
  }

  function Min(a: int, b: int): int {
    if a < b then a else b
  }

  // Arithmetic the layout needs, one fact per lemma.

  lemma MulAtLeast(a: int, n: int)
    requires a >= 1 && n > 0
    ensures a * n >= n
  {
  }

  lemma DivModParts(k: int, n: int)
    requires n > 0
    ensures k == (k / n) * n + k % n && 0 <= k % n < n
  {
  }

  lemma Distribute(q: int, c: int, n: int)
    ensures (q - c) * n == q * n - c * n
  {
  }

  lemma MulSucc(k: int, n: int)
    ensures (k + 1) * n == k * n + n
  {
  }

  /** The item `c * n + i` is item `i` of cycle `c`. */
  lemma DivModSplit(c: int, n: int, i: int)
    requires n > 0 && 0 <= i < n
    ensures (c * n + i) / n == c && (c * n + i) % n == i
  {
    var k := c * n + i;
    var q := k / n;
    DivModParts(k, n);
    Distribute(q, c, n);
    Distribute(c, q, n);
    if q > c {
      MulAtLeast(q - c, n);
    } else if q < c {
      MulAtLeast(c - q, n);
    }
  }

  /** `Math.ceil(a / b)` for a positive `b`. */
  function CeilDiv(a: int, b: int): (r: int)
    requires b > 0
    ensures a <= r * b < a + b
  {
    var q := (-a) / b;
    DivModParts(-a, b);
    Distribute(0, q, b);
    -q
  }

  /** A non-negative quotient of a positive divisor. */
  lemma CeilDivPositive(a: int, b: int)
    requires b > 0 && a > 0
    ensures CeilDiv(a, b) >= 1
  {
    var r := CeilDiv(a, b);
    if r <= 0 {
      MulAtLeast(1 - r, b);
      Distribute(1, r, b);
    }
  }

  lemma CeilDivNonNegative(a: int, b: int)
    requires b > 0 && a >= 0
    ensures CeilDiv(a, b) >= 0
  {
    var r := CeilDiv(a, b);
    if r < 0 {
      MulAtLeast(-r, b);
      Distribute(0, r, b);
    }
  }

  /** One item: its position, which texture it shows, where it was created, and its depth. */
  datatype Item = Item(x: int, textureIndex: nat, cycleIndex: nat, positionInCycle: nat, depth: nat)

  /** The number of cycles `createCarouselItems` builds for a width, spacing and item count. */
  function Cycles(width: int, spacing: int, count: int): int
    requires spacing > 0 && count > 0
  {
    var visibleItems := CeilDiv(width, spacing) + 2;
    CeilDiv(visibleItems, count) + 2
  }

  /** However narrow the carousel, it is built of at least three cycles. */
  lemma CyclesAtLeastThree(width: int, spacing: int, count: int)
    requires spacing > 0 && count > 0 && width >= 0
    ensures Cycles(width, spacing, count) >= 3
  {
    CeilDivNonNegative(width, spacing);
    CeilDivPositive(CeilDiv(width, spacing) + 2, count);
  }

  /** The index of the middle item of the middle cycle. */
  function MiddleIndex(cycles: int, count: int): int {
    (cycles / 2) * count + count / 2
  }

  /** Item `k` as created, before its depth is set. */
  function Placed(k: nat, count: int, textures: int, offset: int, spacing: int): Item
    requires count > 0 && textures > 0
  {
    Item(-offset + k * spacing, (k % count) % Min(count, textures), k / count, k % count, 0)
  }

  /** The items as created: cycles of `count` items, `spacing` apart, the middle one at 0. */
  function Built(cycles: int, count: int, textures: int, spacing: int): seq<Item>
    requires count > 0 && textures > 0
  {
    var n := if cycles > 0 then cycles * count else 0;
    seq(n, k requires 0 <= k => Placed(k, count, textures, MiddleIndex(cycles, count) * spacing, spacing))
  }

  /** Depth 3 within half a spacing of the centre, 2 within one and a half, else 1. */
  function Depth(x: int, spacing: int): nat {
    if 2 * Abs(x) < spacing then 3 else if 2 * Abs(x) < 3 * spacing then 2 else 1
  }

  /** Nearer the centre is never lower; the centre itself is on top; the sides do not matter. */
  lemma DepthByDistance(x: int, y: int, spacing: int)
    requires spacing > 0
    ensures Abs(x) <= Abs(y) ==> Depth(x, spacing) >= Depth(y, spacing)
    ensures Depth(0, spacing) == 3 && Depth(-x, spacing) == Depth(x, spacing)
    ensures 1 <= Depth(x, spacing) <= 3
  {
  }

  /** `updateItemStates()` on a list of items. */
  function Staged(items: seq<Item>, spacing: int): (staged: seq<Item>)
    ensures |staged| == |items|
  {
    seq(|items|, k requires 0 <= k < |items| => items[k].(depth := Depth(items[k].x, spacing)))
  }

  /** Setting the depths twice is setting them once; positions and identities are kept. */
  lemma StagedIdempotent(items: seq<Item>, spacing: int)
    ensures Staged(Staged(items, spacing), spacing) == Staged(items, spacing)
    ensures forall k :: 0 <= k < |items| ==> Staged(items, spacing)[k].(depth := items[k].depth) == items[k]
  {
  }

  /** Every item moved by the same offset. */
  function Shifted(items: seq<Item>, offset: int): (shifted: seq<Item>)
    ensures |shifted| == |items|
  {
    seq(|items|, k requires 0 <= k < |items| => items[k].(x := items[k].x + offset))
  }

  /** A uniform shift, with the depths set again, keeps the distance between any two items. */
  lemma ShiftKeepsGaps(items: seq<Item>, offset: int, spacing: int)
    ensures var moved := Staged(Shifted(items, offset), spacing);
      forall j, k :: 0 <= j < |items| && 0 <= k < |items| ==> moved[k].x - moved[j].x == items[k].x - items[j].x
  {
  }

  /** Shifting by the opposite of an item's position puts it at the centre, on top. */
  lemma ShiftCentres(items: seq<Item>, t: int, spacing: int)
    requires 0 <= t < |items| && spacing > 0
    ensures Staged(Shifted(items, -items[t].x), spacing)[t].x == 0
    ensures Staged(Shifted(items, -items[t].x), spacing)[t].depth == 3
  {
  }

  /** The layout: item k belongs to cycle k / count at position k % count, one spacing after item k - 1. */
  lemma BuiltLayout(cycles: int, count: int, textures: int, spacing: int, k: nat)
    requires count > 0 && textures > 0 && k + 1 < |Built(cycles, count, textures, spacing)|
    ensures var b := Built(cycles, count, textures, spacing);
      && b[k + 1].x - b[k].x == spacing
      && b[k].textureIndex < Min(count, textures)
      && b[k].positionInCycle < count
  {
    MulSucc(k, spacing);
  }

  /** Built with at least one cycle, the middle item of the middle cycle is at the centre. */
  lemma {:induction false} MiddleAtCentre(cycles: int, count: int, textures: int, spacing: int)
    requires count > 0 && textures > 0 && cycles >= 1
    ensures var b := Built(cycles, count, textures, spacing);
      var m := MiddleIndex(cycles, count);
      && 0 <= m < |b|
      && b[m].x == 0
      && b[m].cycleIndex == cycles / 2 && b[m].positionInCycle == count / 2
  {
    var h := cycles / 2;
    var m := MiddleIndex(cycles, count);
    DivModParts(count, 2);
    DivModParts(cycles, 2);
    assert h >= 0 && h + 1 <= cycles;
    assert 0 <= h * count by {
      if h > 0 {
        MulAtLeast(h, count);
      }
    }
    MulSucc(h, count);
    Distribute(cycles, h + 1, count);
    if cycles > h + 1 {
      MulAtLeast(cycles - (h + 1), count);
    }
    assert m < cycles * count;
    DivModSplit(h, count, count / 2);
  }

  /** Among the first `n` items, those the filter keeps. */
  predicate Matches(item: Item, filter: Option<int>) {
    filter.None? || item.textureIndex == filter.value
  }

  predicate NoneMatch(items: seq<Item>, filter: Option<int>, n: int)
    requires 0 <= n <= |items|
  {
    forall j :: 0 <= j < n ==> !Matches(items[j], filter)
  }

  /** Among the first `n` items, `t` is the first of the kept ones with the least distance from the centre. */
  predicate FirstClosest(items: seq<Item>, filter: Option<int>, t: int, n: int)
    requires 0 <= n <= |items|
  {
    && 0 <= t < n && Matches(items[t], filter)
    && (forall j :: 0 <= j < n && Matches(items[j], filter) ==> Abs(items[t].x) <= Abs(items[j].x))
    && (forall j :: 0 <= j < t && Matches(items[j], filter) ==> Abs(items[t].x) < Abs(items[j].x))
  }

  /** Among the first `n` items, `l` is the first leftmost one. */
  predicate FirstMin(items: seq<Item>, l: int, n: int)
    requires 0 <= n <= |items|
  {
    && 0 <= l < n
    && (forall j :: 0 <= j < n ==> items[l].x <= items[j].x)
    && (forall j :: 0 <= j < l ==> items[l].x < items[j].x)
  }

  /** Among the first `n` items, `r` is the first rightmost one. */
  predicate FirstMax(items: seq<Item>, r: int, n: int)
    requires 0 <= n <= |items|
  {
    && 0 <= r < n
    && (forall j :: 0 <= j < n ==> items[r].x >= items[j].x)
    && (forall j :: 0 <= j < r ==> items[r].x > items[j].x)
  }

  /**
   * `wrapItems()` once the leftmost item `l` and the rightmost item `r` are
   * known: when the right end comes within the half width plus a spacing,
   * the leftmost item goes one spacing past it; when the left end does, the
   * rightmost item goes one spacing before it. Both tests use the positions
   * from before the wrap.
   */
  function Wrapped(items: seq<Item>, l: int, r: int, width: int, spacing: int): (wrapped: seq<Item>)
    requires 0 <= l < |items| && 0 <= r < |items|
    ensures |wrapped| == |items|
  {
    var minX := items[l].x;
    var maxX := items[r].x;
    var a := if 2 * maxX < width + 2 * spacing then items[l := items[l].(x := maxX + spacing)] else items;
    if 2 * minX > -width - 2 * spacing then a[r := a[r].(x := minX - spacing)] else a
  }

  /** Only the leftmost and the rightmost item can move, and only along the row. */
  lemma WrapOnlyEnds(items: seq<Item>, l: int, r: int, width: int, spacing: int)
    requires 0 <= l < |items| && 0 <= r < |items|
    ensures var w := Wrapped(items, l, r, width, spacing);
      && (forall k :: 0 <= k < |items| && k != l && k != r ==> w[k] == items[k])
      && (forall k :: 0 <= k < |items| ==> w[k].(x := items[k].x) == items[k])
  {
  }

  /** A wrapped leftmost item becomes the rightmost one. */
  lemma WrapLeftmostGoesRight(items: seq<Item>, l: int, r: int, width: int, spacing: int)
    requires FirstMin(items, l, |items|) && FirstMax(items, r, |items|) && l != r && spacing > 0
    requires 2 * items[r].x < width + 2 * spacing
    ensures var w := Wrapped(items, l, r, width, spacing);
      forall k :: 0 <= k < |items| && k != l ==> w[k].x < w[l].x
  {
  }

  /** A wrapped rightmost item becomes the leftmost one. */
  lemma WrapRightmostGoesLeft(items: seq<Item>, l: int, r: int, width: int, spacing: int)
    requires FirstMin(items, l, |items|) && FirstMax(items, r, |items|) && l != r && spacing > 0
    requires 2 * items[l].x > -width - 2 * spacing
    ensures var w := Wrapped(items, l, r, width, spacing);
      forall k :: 0 <= k < |items| && k != r ==> w[r].x < w[k].x
  {
  }

  /** Which carousel parameters a `configureCarousel` call sets; `None` for `undefined`. */
  datatype CarouselConfig = CarouselConfig(
    itemCount: Option<int>, itemSpacing: Option<int>, scrollSpeed: Option<int>, carouselWidth: Option<int>)

  /** The scales and alphas a `configureItemStates` call sets. */
  datatype StatesConfig = StatesConfig(
    centerScale: Option<real>, middleScale: Option<real>, sideScale: Option<real>,
    centerAlpha: Option<real>, middleAlpha: Option<real>, sideAlpha: Option<real>)

  /** The structure changes, and the items must be rebuilt, when the count changes or a spacing or width is given. */
  predicate NeedsRebuild(config: CarouselConfig, itemCount: int) {
    || (config.itemCount.Some? && config.itemCount.value != itemCount)
    || config.itemSpacing.Some?
    || config.carouselWidth.Some?
  }

  /** A new scroll speed alone, or the current item count, never rebuilds. */
  lemma SpeedNeverRebuilds(config: CarouselConfig, itemCount: int)
    requires config.itemCount.None? || config.itemCount.value == itemCount
    requires config.itemSpacing.None? && config.carouselWidth.None?
    ensures !NeedsRebuild(config, itemCount)
  {
  }

  function Pick<T>(given: Option<T>, current: T): T {
    if given.Some? then given.value else current
  }

  /** JavaScript `a || b` on a number that may be missing: zero and `undefined` fall back. */
  function OrElse(given: Option<int>, fallback: int): int {
    if given.Some? && given.value != 0 then given.value else fallback
  }

  /** One pass of the inner loop of `createCarouselItems`: the `count` items of cycle `cycle`. */
  method PlaceCycle(built: seq<Item>, x: int, cycle: nat, count: int, textures: int, offset: int, spacing: int)
    returns (placed: seq<Item>, nextX: int)
    requires count > 0 && textures > 0
    requires |built| == cycle * count && x == -offset + |built| * spacing
    requires forall k :: 0 <= k < |built| ==> built[k] == Placed(k, count, textures, offset, spacing)
    ensures |placed| == |built| + count && nextX == -offset + |placed| * spacing
    ensures forall k :: 0 <= k < |placed| ==> placed[k] == Placed(k, count, textures, offset, spacing)
  {
    placed, nextX := built, x;
    for i := 0 to count
      invariant |placed| == cycle * count + i && nextX == -offset + |placed| * spacing
      invariant forall k :: 0 <= k < |placed| ==> placed[k] == Placed(k, count, textures, offset, spacing)
    {
      var textureIndex := i % Min(count, textures);
      DivModSplit(cycle, count, i);
      MulSucc(|placed|, spacing);
      placed := placed + [Item(nextX, textureIndex, cycle, i, 0)];
      nextX := nextX + spacing;
    }
  }

  /** The two creation loops: cycle after cycle, item after item, one spacing apart from `-offset` on. */
  method CreateItems(cycles: int, count: int, textures: int, spacing: int, offset: int) returns (built: seq<Item>)
    requires count > 0 && textures > 0 && offset == MiddleIndex(cycles, count) * spacing
    ensures built == Built(cycles, count, textures, spacing)
  {
    built := [];
    var currentX := -offset;
    var cycle := 0;
    while cycle < cycles
      invariant cycle == 0 || 0 < cycle <= cycles
      invariant |built| == cycle * count && currentX == -offset + |built| * spacing
      invariant forall k :: 0 <= k < |built| ==> built[k] == Placed(k, count, textures, offset, spacing)
    {
      built, currentX := PlaceCycle(built, currentX, cycle, count, textures, offset, spacing);
      MulSucc(cycle, count);
      cycle := cycle + 1;
    }
    if cycles <= 0 {
      assert cycle == 0 && 0 * count == 0;
    }
    BuiltFromPlaced(built, cycles, count, textures, spacing);
  }

  /** Items placed one by one, as many as the cycles hold, are the built layout. */
  lemma BuiltFromPlaced(built: seq<Item>, cycles: int, count: int, textures: int, spacing: int)
    requires count > 0 && textures > 0
    requires |built| == if cycles > 0 then cycles * count else 0
    requires forall k :: 0 <= k < |built| ==>
      built[k] == Placed(k, count, textures, MiddleIndex(cycles, count) * spacing, spacing)
    ensures built == Built(cycles, count, textures, spacing)
  {
  }

  /** The search loop of `centerItemByIndex` and `getCenteredItem`: the first kept item closest to the centre. */
  method FindClosest(items: seq<Item>, filter: Option<int>) returns (target: Option<nat>)
    ensures target.None? <==> NoneMatch(items, filter, |items|)
    ensures target.Some? ==> FirstClosest(items, filter, target.value, |items|)
  {
    target := None;
    var minDistance: nat := 0;
    for i := 0 to |items|
      invariant target.None? ==> NoneMatch(items, filter, i)
      invariant target.Some? ==> FirstClosest(items, filter, target.value, i) && minDistance == Abs(items[target.value].x)
    {
      if Matches(items[i], filter) {
        var distance := Abs(items[i].x);
        if target.None? || distance < minDistance {
          minDistance := distance;
          target := Some(i);
        }
      }
    }
  }

  /** The shift loop of `centerItemByIndex`: every item moved by `offset`. */
  method ShiftItems(items: seq<Item>, offset: int) returns (moved: seq<Item>)
    ensures moved == Shifted(items, offset)
  {
    moved := items;
    for i := 0 to |moved|
      invariant |moved| == |items|
      invariant forall k :: 0 <= k < i ==> moved[k] == items[k].(x := items[k].x + offset)
      invariant forall k :: i <= k < |moved| ==> moved[k] == items[k]
    {
      moved := moved[i := moved[i].(x := moved[i].x + offset)];
    }
  }

  /** The search loop of `wrapItems`: the first leftmost and the first rightmost item. */
  method FindEnds(items: seq<Item>) returns (left: nat, right: nat)
    requires items != []
    ensures FirstMin(items, left, |items|) && FirstMax(items, right, |items|)
  {
    left, right := 0, 0;
    for i := 1 to |items|
      invariant FirstMin(items, left, i) && FirstMax(items, right, i)
    {
      if items[i].x < items[left].x {
        left := i;
      }
      if items[i].x > items[right].x {
        right := i;
      }
    }
  }

  class Carousel {
    /** The scene's scale factor, a whole number here. */
    const scaleFactor: nat
    const sceneCenterX: int
    const sceneCenterY: int
    const itemKeys: seq<string>
    var items: seq<Item>
    /** Whether the container exists. */
    var hasContainer: bool
    var containerX: int
    var containerY: int
    var itemCount: int
    var itemSpacing: int
    var scrollSpeed: int
    var carouselWidth: int
    var cycleWidth: int
    /** Whether scrolling is on, and with it the per-frame scroll listener. */
    var isScrolling: bool
    var scrollTween: bool
    var scales: (real, real, real)
    var alphas: (real, real, real)

    predicate Valid()
      reads this
    {
      scaleFactor >= 1 && itemCount >= 1 && itemSpacing > 0 && |itemKeys| == 5
    }

    /** The layout the current parameters give, depths set. */
    function Layout(): seq<Item>
      requires Valid()
      reads this
    {
      Staged(Built(Cycles(carouselWidth, itemSpacing, itemCount), itemCount, |itemKeys|, itemSpacing), itemSpacing)
    }

    /** Everything but the items and the scrolling state. */
    function Settings(): (bool, int, int, int, int, int, int, int)
      reads this
    {
      (hasContainer, containerX, containerY, itemCount, itemSpacing, scrollSpeed, carouselWidth, cycleWidth)
    }

    constructor (scaleFactor: nat, sceneCenterX: int, sceneCenterY: int)
      requires scaleFactor >= 1
      ensures Valid() && this.scaleFactor == scaleFactor
      ensures itemCount == 3 && itemSpacing == 150 * scaleFactor && scrollSpeed == 1
      ensures carouselWidth == 600 * scaleFactor && cycleWidth == 0
      ensures items == [] && !hasContainer && !isScrolling && !scrollTween
      ensures containerX == sceneCenterX && containerY == sceneCenterY
      ensures itemKeys == ["item_01", "item_02", "item_03", "item_04", "item_05"]
      ensures scales == (1.0, 0.8, 0.5) && alphas == (1.0, 0.65, 0.25)
    {
      this.scaleFactor := scaleFactor;
      this.sceneCenterX := sceneCenterX;
      this.sceneCenterY := sceneCenterY;
      itemKeys := ["item_01", "item_02", "item_03", "item_04", "item_05"];
      items := [];
      hasContainer := false;
      containerX := sceneCenterX;
      containerY := sceneCenterY;
      itemCount := 3;
      itemSpacing := 150 * scaleFactor;
      scrollSpeed := 1;
      carouselWidth := 600 * scaleFactor;
      cycleWidth := 0;
      isScrolling := false;
      scrollTween := false;
      scales := (1.0, 0.8, 0.5);
      alphas := (1.0, 0.65, 0.25);
    }

    /** `updateItemStates()`: every item's depth follows its distance from the centre. */
    method UpdateItemStates()
      modifies this
      ensures items == Staged(old(items), itemSpacing)
      ensures Settings() == old(Settings()) && isScrolling == old(isScrolling) && scrollTween == old(scrollTween)
      ensures scales == old(scales) && alphas == old(alphas)
    {
      var staged := items;
      for i := 0 to |staged|
        invariant |staged| == |items|
        invariant forall k :: 0 <= k < i ==> staged[k] == items[k].(depth := Depth(items[k].x, itemSpacing))
        invariant forall k :: i <= k < |staged| ==> staged[k] == items[k]
      {
        staged := staged[i := staged[i].(depth := Depth(staged[i].x, itemSpacing))];
      }
      items := staged;
    }

    /** The items of the two creation loops replace the old ones. */
    method BuildItems(cycles: int, offset: int)
      requires Valid() && offset == MiddleIndex(cycles, itemCount) * itemSpacing
      modifies this
      ensures Valid() && items == Built(cycles, itemCount, |itemKeys|, itemSpacing)
      ensures Settings() == old(Settings()) && isScrolling == old(isScrolling) && scrollTween == old(scrollTween)
      ensures scales == old(scales) && alphas == old(alphas)
    {
      items := CreateItems(cycles, itemCount, |itemKeys|, itemSpacing, offset);
    }

    /** `createCarouselItems()`: the items are rebuilt from scratch, the middle one at the centre. */
    method CreateCarouselItems()
      requires Valid()
      modifies this
      ensures Valid() && items == Layout()
      ensures Settings() == old(Settings()) && isScrolling == old(isScrolling) && scrollTween == old(scrollTween)
      ensures scales == old(scales) && alphas == old(alphas)
    {
      var visibleItems := CeilDiv(carouselWidth, itemSpacing) + 2;
      var totalCycles := CeilDiv(visibleItems, itemCount) + 2;
      var middleCycle := totalCycles / 2;
      var middleItem := itemCount / 2;
      var centerOffset := (middleCycle * itemCount + middleItem) * itemSpacing;
      BuildItems(totalCycles, centerOffset);
      UpdateItemStates();
    }

    /**
     * `createCarousel(x, y, width)`: the container goes to the given place
     * (a missing or zero coordinate falls back to the scene's centre), a
     * given width replaces the current one, and the items are built.
     */
    method CreateCarousel(x: Option<int>, y: Option<int>, width: Option<int>)
      requires Valid()
      modifies this
      ensures Valid() && hasContainer && items == Layout()
      ensures containerX == OrElse(x, sceneCenterX) && containerY == OrElse(y, sceneCenterY)
      ensures carouselWidth == (if width.Some? && width.value != 0 then width.value * scaleFactor else old(carouselWidth))
      ensures cycleWidth == itemCount * itemSpacing
      ensures itemCount == old(itemCount) && itemSpacing == old(itemSpacing) && scrollSpeed == old(scrollSpeed)
      ensures isScrolling == old(isScrolling) && scrollTween == old(scrollTween)
    {
      containerX := OrElse(x, sceneCenterX);
      containerY := OrElse(y, sceneCenterY);
      if width.Some? && width.value != 0 {
        carouselWidth := width.value * scaleFactor;
      }
      cycleWidth := itemCount * itemSpacing;
      hasContainer := true;
      CreateCarouselItems();
      StagedIdempotent(Built(Cycles(carouselWidth, itemSpacing, itemCount), itemCount, |itemKeys|, itemSpacing), itemSpacing);
      UpdateItemStates();
    }

    /**
     * `centerItemByIndex(index)`: the first of the items showing that texture
     * that is nearest the centre is brought to the centre, every item moving
     * by the same offset; with no such item nothing changes.
     */
    method CenterItemByIndex(index: int)
      modifies this
      ensures NoneMatch(old(items), Some(index), |old(items)|) ==> items == old(items)
      ensures !NoneMatch(old(items), Some(index), |old(items)|) ==>
        exists t :: FirstClosest(old(items), Some(index), t, |old(items)|)
          && items == Staged(Shifted(old(items), -old(items)[t].x), itemSpacing)
      ensures Settings() == old(Settings()) && isScrolling == old(isScrolling) && scrollTween == old(scrollTween)
      ensures scales == old(scales) && alphas == old(alphas)
    {
      var target := FindClosest(items, Some(index));
      if target.Some? {
        var t := target.value;
        items := ShiftItems(items, -items[t].x);
        UpdateItemStates();
        assert FirstClosest(old(items), Some(index), t, |old(items)|);
      }
    }

    method GetCenteredItem() returns (centered: Option<Item>)
      ensures centered.None? <==> items == []
      ensures centered.Some? ==> exists t :: FirstClosest(items, None, t, |items|) && centered.value == items[t]
    {
      var target := FindClosest(items, None);
      if items != [] {
        assert Matches(items[0], None);
      }
      centered := if target.Some? then Some(items[target.value]) else None;
    }

    /** `wrapItems()`: the search for the ends, then the wrap of at most those two items. */
    method WrapItems()
      requires items != []
      modifies this
      ensures exists l, r ::
        && FirstMin(old(items), l, |old(items)|) && FirstMax(old(items), r, |old(items)|)
        && items == Wrapped(old(items), l, r, carouselWidth, itemSpacing)
      ensures Settings() == old(Settings()) && isScrolling == old(isScrolling) && scrollTween == old(scrollTween)
      ensures scales == old(scales) && alphas == old(alphas)
    {
      var left, right := FindEnds(items);
      var minX := items[left].x;
      var maxX := items[right].x;
      if 2 * maxX < carouselWidth + 2 * itemSpacing {
        items := items[left := items[left].(x := maxX + itemSpacing)];
      }
      if 2 * minX > -carouselWidth - 2 * itemSpacing {
        items := items[right := items[right].(x := minX - itemSpacing)];
      }
    }

    /** `startScrolling()`: turns scrolling on; when it already is, nothing happens. */
    method StartScrolling()
      modifies this
      ensures isScrolling
      ensures items == old(items) && Settings() == old(Settings()) && scrollTween == old(scrollTween)
      ensures scales == old(scales) && alphas == old(alphas)
    {
      if isScrolling {
        return;
      }
      isScrolling := true;
    }

    /** `stopScrolling()`: scrolling is off and no scroll tween is left. */
    method StopScrolling()
      modifies this
      ensures !isScrolling && !scrollTween
      ensures items == old(items) && Settings() == old(Settings())
      ensures scales == old(scales) && alphas == old(alphas)
    {
      isScrolling := false;
      if scrollTween {
        scrollTween := false;
      }
    }

    /**
     * `updateScroll(time, delta)` for a frame whose scroll amount is `amount`:
     * while scrolling, every item moves left by it, the depths follow, and
     * the ends wrap.
     */
    method UpdateScroll(amount: int)
      requires isScrolling ==> items != []
      modifies this
      ensures !old(isScrolling) ==> items == old(items)
      ensures old(isScrolling) ==>
        var staged := Staged(Shifted(old(items), -amount), itemSpacing);
        exists l, r :: FirstMin(staged, l, |staged|) && FirstMax(staged, r, |staged|)
          && items == Wrapped(staged, l, r, carouselWidth, itemSpacing)
      ensures Settings() == old(Settings()) && isScrolling == old(isScrolling) && scrollTween == old(scrollTween)
      ensures scales == old(scales) && alphas == old(alphas)
    {
      if !isScrolling {
        return;
      }
      var moved := items;
      for i := 0 to |moved|
        invariant |moved| == |items|
        invariant forall k :: 0 <= k < i ==> moved[k] == items[k].(x := items[k].x - amount)
        invariant forall k :: i <= k < |moved| ==> moved[k] == items[k]
      {
        moved := moved[i := moved[i].(x := moved[i].x - amount)];
      }
      assert moved == Shifted(items, -amount);
      items := moved;
      UpdateItemStates();
      WrapItems();
    }

    /** `setCarouselWidth(width)`: the width changes, and an existing carousel is rebuilt for it. */
    method SetCarouselWidth(width: int)
      requires Valid()
      modifies this
      ensures Valid() && carouselWidth == width * scaleFactor
      ensures hasContainer ==> items == Layout()
      ensures !hasContainer ==> items == old(items)
      ensures Settings() == old(Settings()).(6 := width * scaleFactor)
      ensures isScrolling == old(isScrolling) && scrollTween == old(scrollTween)
    {
      carouselWidth := width * scaleFactor;
      if hasContainer {
        CreateCarouselItems();
      }
    }

    /** `configureItemStates(config)`: the given scales and alphas replace the current ones. */
    method ConfigureItemStates(config: StatesConfig)
      modifies this
      ensures scales == (Pick(config.centerScale, old(scales).0), Pick(config.middleScale, old(scales).1),
                         Pick(config.sideScale, old(scales).2))
      ensures alphas == (Pick(config.centerAlpha, old(alphas).0), Pick(config.middleAlpha, old(alphas).1),
                         Pick(config.sideAlpha, old(alphas).2))
      ensures items == Staged(old(items), itemSpacing)
      ensures Settings() == old(Settings()) && isScrolling == old(isScrolling) && scrollTween == old(scrollTween)
    {
      scales := (Pick(config.centerScale, scales.0), Pick(config.middleScale, scales.1), Pick(config.sideScale, scales.2));
      alphas := (Pick(config.centerAlpha, alphas.0), Pick(config.middleAlpha, alphas.1), Pick(config.sideAlpha, alphas.2));
      UpdateItemStates();
    }

    /**
     * `configureCarousel(config)`: the given parameters replace the current
     * ones; when the structure changed and the container exists, the items
     * are rebuilt, and scrolling is back in the state it was in.
     */
    method ConfigureCarousel(config: CarouselConfig)
      requires Valid()
      requires config.itemCount.Some? ==> config.itemCount.value >= 1
      requires config.itemSpacing.Some? ==> config.itemSpacing.value > 0
      modifies this
      ensures Valid()
      ensures itemCount == Pick(config.itemCount, old(itemCount))
      ensures itemSpacing == (if config.itemSpacing.Some? then config.itemSpacing.value * scaleFactor else old(itemSpacing))
      ensures scrollSpeed == Pick(config.scrollSpeed, old(scrollSpeed))
      ensures carouselWidth == (if config.carouselWidth.Some? then config.carouselWidth.value * scaleFactor else old(carouselWidth))
      ensures hasContainer == old(hasContainer) && containerX == old(containerX) && containerY == old(containerY)
      ensures NeedsRebuild(config, old(itemCount)) && old(hasContainer) ==>
        && items == Layout() && cycleWidth == itemCount * itemSpacing
        && isScrolling == old(isScrolling) && !scrollTween
      ensures !(NeedsRebuild(config, old(itemCount)) && old(hasContainer)) ==>
        && items == old(items) && cycleWidth == old(cycleWidth)
        && isScrolling == old(isScrolling) && scrollTween == old(scrollTween)
      ensures scales == old(scales) && alphas == old(alphas)
    {
      var needsRebuild := ApplyConfig(config);
      if needsRebuild && hasContainer {
        Rebuild();
      }
    }

    /** The settings part of `configureCarousel`: the given values replace the current ones. */
    method ApplyConfig(config: CarouselConfig) returns (needsRebuild: bool)
      requires Valid()
      requires config.itemCount.Some? ==> config.itemCount.value >= 1
      requires config.itemSpacing.Some? ==> config.itemSpacing.value > 0
      modifies this
      ensures Valid() && needsRebuild == NeedsRebuild(config, old(itemCount))
      ensures itemCount == Pick(config.itemCount, old(itemCount))
      ensures itemSpacing == (if config.itemSpacing.Some? then config.itemSpacing.value * scaleFactor else old(itemSpacing))
      ensures scrollSpeed == Pick(config.scrollSpeed, old(scrollSpeed))
      ensures carouselWidth == (if config.carouselWidth.Some? then config.carouselWidth.value * scaleFactor else old(carouselWidth))
      ensures hasContainer == old(hasContainer) && containerX == old(containerX) && containerY == old(containerY)
      ensures items == old(items) && cycleWidth == old(cycleWidth)
      ensures isScrolling == old(isScrolling) && scrollTween == old(scrollTween)
      ensures scales == old(scales) && alphas == old(alphas)
    {
      needsRebuild := false;
      if config.itemCount.Some? && config.itemCount.value != itemCount {
        itemCount := config.itemCount.value;
        needsRebuild := true;
      }
      if config.itemSpacing.Some? {
        MulAtLeast(scaleFactor, config.itemSpacing.value);
        itemSpacing := config.itemSpacing.value * scaleFactor;
        needsRebuild := true;
      }
      if config.scrollSpeed.Some? {
        scrollSpeed := config.scrollSpeed.value;
      }
      if config.carouselWidth.Some? {
        carouselWidth := config.carouselWidth.value * scaleFactor;
        needsRebuild := true;
      }
    }

    /** The rebuild part of `configureCarousel`: scrolling stops, the items are rebuilt, and scrolling resumes. */
    method Rebuild()
      requires Valid()
      modifies this
      ensures Valid() && items == Layout() && cycleWidth == itemCount * itemSpacing
      ensures isScrolling == old(isScrolling) && !scrollTween
      ensures hasContainer == old(hasContainer) && containerX == old(containerX) && containerY == old(containerY)
      ensures itemCount == old(itemCount) && itemSpacing == old(itemSpacing)
      ensures scrollSpeed == old(scrollSpeed) && carouselWidth == old(carouselWidth)
      ensures scales == old(scales) && alphas == old(alphas)
    {
      var wasScrolling := isScrolling;
      StopScrolling();
      cycleWidth := itemCount * itemSpacing;
      CreateCarouselItems();
      if wasScrolling {
        StartScrolling();
      }
    }

    /** `destroy()`: scrolling stops and the items are gone. */
    method Destroy()
      modifies this
      ensures items == [] && !isScrolling && !scrollTween
      ensures Settings() == old(Settings())
    {
      StopScrolling();
      items := [];
    }
  }
}
