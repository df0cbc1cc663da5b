/** From a pointer position in the viewer's window to the absolute coordinates
    injected at the controlled side: the frame is fitted into the window, the
    position is scaled to source pixels, and those to the range [0, 65535]. */
module PointerMapping {
  import opened Protocol

  datatype Point = Point(x: int, y: int)

  datatype Rect = Rect(min: Point, max: Point) {
    function Dx(): int { max.x - min.x }
    function Dy(): int { max.y - min.y }

    predicate Contains(p: Point) {
      min.x <= p.x < max.x && min.y <= p.y < max.y
    }

    predicate Inside(outer: Rect) {
      outer.min.x <= min.x <= max.x <= outer.max.x && outer.min.y <= min.y <= max.y <= outer.max.y
    }
  }

  /** Integer division that truncates toward zero. */
  function Quotient(a: int, b: int): int
    requires b != 0
  {
    if a >= 0 then a / b else -((-a) / b)
  }

  function FitRect(area: Rect, src: Point): Rect {
    if src.x <= 0 || src.y <= 0 || area.Dx() <= 0 || area.Dy() <= 0 then area
    else
      var tall := Quotient(area.Dx() * src.y, src.x);
      var h := if tall > area.Dy() then area.Dy() else tall;
      var w := if tall > area.Dy() then Quotient(h * src.x, src.y) else area.Dx();
      var x := area.min.x + Quotient(area.Dx() - w, 2);
      var y := area.min.y + Quotient(area.Dy() - h, 2);
      Rect(Point(x, y), Point(x + w, y + h))
  }

  /** One coordinate of a position, scaled to `size` source pixels. */
  function Scale(p: int, origin: int, size: int, extent: int): int
    requires extent != 0
  {
    Quotient((p - origin) * size, extent)
  }

  const FULL_RANGE := 65535

  /** The size a coordinate is normalized against: the screen's if the message
      carries none, and never below one. */
  function Effective(size: int, screen: int): (e: int)
    ensures e >= 1
  {
    var s := if size <= 0 then screen else size;
    if s <= 1 then 1 else s
  }

  /** No result stands for the division by zero that stops the program. */
  function Normalize(x: int, size: int, screen: int): Option<int> {
    var divisor := Effective(size, screen) - 1;
    if divisor == 0 then None else Some(Quotient(x * FULL_RANGE, divisor))
  }

  // ---------------------------------------------------------- the event loop

  datatype PointerKind = Press | Release | Move | Drag | Scroll

  datatype PointerEvent = PointerEvent(kind: PointerKind, position: Point)

  datatype MouseEvent = MouseEvent(x: int, y: int, sourceWidth: int, sourceHeight: int, button: string, action: string)

  datatype Sends = Sends(events: seq<MouseEvent>, crashed: bool)

  function Translated(e: PointerEvent, rect: Rect, source: Point): MouseEvent
    requires rect.Dx() != 0 && rect.Dy() != 0
  {
    MouseEvent(Scale(e.position.x, rect.min.x, source.x, rect.Dx()),
               Scale(e.position.y, rect.min.y, source.y, rect.Dy()),
               source.x, source.y,
               if e.kind.Press? || e.kind.Release? then "left" else "",
               match e.kind
               case Press => "down"
               case Release => "up"
               case Move => "move"
               case Drag => "move"
               case Scroll => "")
  }

  predicate Relevant(e: PointerEvent, rect: Rect, allowed: bool) {
    allowed && (rect.Contains(e.position) || e.kind.Scroll?)
  }

  /** What a batch of events makes the viewer send. */
  function Handled(events: seq<PointerEvent>, rect: Rect, source: Point, allowed: bool): Sends {
    if events == [] then Sends([], false)
    else
      var before := Handled(events[..|events| - 1], rect, source, allowed);
      var e := events[|events| - 1];
      if before.crashed || !Relevant(e, rect, allowed) then before
      else if rect.Dx() == 0 || rect.Dy() == 0 then before.(crashed := true)
      else before.(events := before.events + [Translated(e, rect, source)])
  }

  /** `m` is what event `e` means: the position scaled to source pixels, dropping
      fractions, and button and action by the kind of event. */
  predicate Tells(e: PointerEvent, rect: Rect, source: Point, m: MouseEvent)
    requires rect.Dx() != 0 && rect.Dy() != 0
  {
    && Truncates(m.x, (e.position.x - rect.min.x) * source.x, rect.Dx())
    && Truncates(m.y, (e.position.y - rect.min.y) * source.y, rect.Dy())
    && m.sourceWidth == source.x && m.sourceHeight == source.y
    && match e.kind
       case Press => m.button == "left" && m.action == "down"
       case Release => m.button == "left" && m.action == "up"
       case Move | Drag => m.button == "" && m.action == "move"
       case Scroll => m.button == "" && m.action == ""
  }

  /** `picked` are, in order, the events inside the frame and the scroll events
      anywhere, and `sent` is what they mean. */
  ghost predicate TellsAll(events: seq<PointerEvent>, rect: Rect, source: Point, sent: seq<MouseEvent>, picked: seq<nat>)
    requires rect.Dx() != 0 && rect.Dy() != 0
  {
    && |picked| == |sent|
    && (forall i, j :: 0 <= i < j < |picked| ==> picked[i] < picked[j])
    && (forall i :: 0 <= i < |picked| ==> picked[i] < |events| && Tells(events[picked[i]], rect, source, sent[i]))
    && (forall k: nat :: k < |events| ==>
          (k in picked <==> rect.Contains(events[k].position) || events[k].kind == Scroll))
  }

  lemma TranslationTells(e: PointerEvent, rect: Rect, source: Point)
    requires rect.Dx() != 0 && rect.Dy() != 0
    ensures Tells(e, rect, source, Translated(e, rect, source)) == true
  {
    QuotientTruncates((e.position.x - rect.min.x) * source.x, rect.Dx());
    QuotientTruncates((e.position.y - rect.min.y) * source.y, rect.Dy());
  }

  lemma TellsOneMore(prefix: seq<PointerEvent>, e: PointerEvent, rect: Rect, source: Point,
                     sent: seq<MouseEvent>, m: MouseEvent, picked: seq<nat>)
    requires rect.Dx() != 0 && rect.Dy() != 0
    requires TellsAll(prefix, rect, source, sent, picked) && Tells(e, rect, source, m) == true
    ensures if rect.Contains(e.position) || e.kind == Scroll
            then TellsAll(prefix + [e], rect, source, sent + [m], picked + [|prefix|]) == true
            else TellsAll(prefix + [e], rect, source, sent, picked) == true
  {
    assert (prefix + [e])[|prefix|] == e;
    assert forall k :: 0 <= k < |prefix| ==> (prefix + [e])[k] == prefix[k];
  }

  /** With input allowed and a frame that is not empty, the viewer sends one mouse
      event for each event inside the frame and each scroll event, in order, and
      nothing else; otherwise it sends nothing. */
  lemma {:induction false} SendsExactly(events: seq<PointerEvent>, rect: Rect, source: Point, allowed: bool)
    returns (picked: seq<nat>)
    ensures !allowed || rect.Dx() == 0 || rect.Dy() == 0 ==> Handled(events, rect, source, allowed).events == []
    ensures allowed && rect.Dx() != 0 && rect.Dy() != 0 ==>
              !Handled(events, rect, source, allowed).crashed
              && TellsAll(events, rect, source, Handled(events, rect, source, allowed).events, picked) == true
  {
    picked := [];
    if events != [] {
      var prefix, e := events[..|events| - 1], events[|events| - 1];
      picked := SendsExactly(prefix, rect, source, allowed);
      if allowed && rect.Dx() != 0 && rect.Dy() != 0 {
        var m := Translated(e, rect, source);
        TranslationTells(e, rect, source);
        TellsOneMore(prefix, e, rect, source, Handled(prefix, rect, source, allowed).events, m, picked);
        assert events == prefix + [e];
        if rect.Contains(e.position) || e.kind.Scroll? { picked := picked + [|prefix|]; }
      }
    }
  }

  method HandleRemoteInput(events: seq<PointerEvent>, rect: Rect, source: Point, sessionId: string, inputAllowed: bool)
    returns (sent: seq<MouseEvent>, crashed: bool)
    ensures Sends(sent, crashed) == Handled(events, rect, source, sessionId != "" && inputAllowed)
  {
    sent, crashed := [], false;
    var k := 0;
    while k < |events|
      invariant k <= |events|
      invariant Sends(sent, crashed) == Handled(events[..k], rect, source, sessionId != "" && inputAllowed)
    {
      var e := events[k];
      assert events[..k + 1][..k] == events[..k];
      k := k + 1;
      if crashed || sessionId == "" || !inputAllowed {
        continue;
      }
      var p := e.position;
      if !rect.Contains(p) && e.kind != Scroll {
        continue;
      }
      if rect.Dx() == 0 || rect.Dy() == 0 {
        crashed := true;
        continue;
      }
      var x := Quotient((p.x - rect.min.x) * source.x, rect.Dx());
      var y := Quotient((p.y - rect.min.y) * source.y, rect.Dy());
      var button, action := "", "";
      match e.kind {
        case Press => button, action := "left", "down";
        case Release => button, action := "left", "up";
        case Move => action := "move";
        case Drag => action := "move";
        case Scroll =>
      }
      sent := sent + [MouseEvent(x, y, source.x, source.y, button, action)];
    }
    assert events[..|events|] == events;
  }

  // ------------------------------------------------------------- arithmetic

  function Abs(n: int): nat {
    if n < 0 then -n else n
  }

  /** `q` is the quotient of `a` by `b` without its fraction. */
  predicate Truncates(q: int, a: int, b: int) {
    && Abs(q) * Abs(b) <= Abs(a) < (Abs(q) + 1) * Abs(b)
    && (q > 0 ==> (a > 0 <==> b > 0)) && (q < 0 ==> (a > 0 <==> b < 0))
  }

  lemma QuotientTruncates(a: int, b: int)
    requires b != 0
    ensures Truncates(Quotient(a, b), a, b)
  {
    PositiveQuotient(Abs(a), Abs(b));
    var q := Abs(a) / Abs(b);
    assert Quotient(a, b) == if (a >= 0) == (b > 0) then q else -q by {
      if b < 0 { NegativeDivisor(Abs(a), b); }
    }
  }

  lemma PositiveQuotient(a: nat, b: nat)
    requires b > 0
    ensures 0 <= a / b && a / b * b <= a < (a / b + 1) * b
  {
  }

  lemma NegativeDivisor(a: nat, b: int)
    requires b < 0
    ensures a / b == -(a / -b)
  {
  }

  lemma QuotientBounds(a: int, b: int)
    requires a >= 0 && b > 0
    ensures 0 <= Quotient(a, b) && Quotient(a, b) * b <= a < (Quotient(a, b) + 1) * b
  {
  }

  lemma MulLe(a: int, b: int, k: int)
    requires a <= b && k >= 0
    ensures a * k <= b * k
  {
  }

  lemma QuotientOf(a: int, b: int, q: int)
    requires a >= 0 && b > 0 && q * b <= a < (q + 1) * b
    ensures Quotient(a, b) == q
  {
    QuotientBounds(a, b);
    var r := Quotient(a, b);
    if r < q { MulLe(r + 1, q, b); }
    if r > q { MulLe(q + 1, r, b); }
  }

  lemma QuotientMonotone(a: int, c: int, b: int)
    requires 0 <= a <= c && b > 0
    ensures Quotient(a, b) <= Quotient(c, b)
  {
    QuotientBounds(a, b);
    QuotientBounds(c, b);
    if Quotient(a, b) > Quotient(c, b) { MulLe(Quotient(c, b) + 1, Quotient(a, b), b); }
  }

  // --------------------------------------------------------- the fitted frame

  predicate Proper(area: Rect, src: Point) {
    src.x > 0 && src.y > 0 && area.Dx() > 0 && area.Dy() > 0
  }

  lemma HeightBound(w: int, h: int, d: int, src: Point)
    requires w >= 0 && h >= 0 && src.x > 0 && src.y > 0 && d >= 0
    requires Quotient(w * src.y, src.x) > h && d == Quotient(h * src.x, src.y)
    ensures 0 <= d <= w
  {
    assert w * src.y >= 0 && h * src.x >= 0;
    QuotientBounds(w * src.y, src.x);
    QuotientBounds(h * src.x, src.y);
    MulLe(h + 1, Quotient(w * src.y, src.x), src.x);
    if d > w { MulLe(w + 1, d, src.y); }
  }

  /** The fitted frame lies inside the area and fills it in one dimension; the
      other is as long as the aspect ratio allows, short of it by less than one
      source unit; and it is centered up to one pixel.  A picture or an area
      without extent is not fitted. */
  lemma FitsInside(area: Rect, src: Point)
    ensures src.x <= 0 || src.y <= 0 || area.Dx() <= 0 || area.Dy() <= 0 ==> FitRect(area, src) == area
    ensures Proper(area, src) ==>
      var r := FitRect(area, src);
      && r.Inside(area)
      && (|| (r.Dx() == area.Dx() && 0 <= r.Dx() * src.y - r.Dy() * src.x < src.x)
          || (r.Dy() == area.Dy() && 0 <= r.Dy() * src.x - r.Dx() * src.y < src.y))
      && 0 <= (area.max.x - r.max.x) - (r.min.x - area.min.x) <= 1
      && 0 <= (area.max.y - r.max.y) - (r.min.y - area.min.y) <= 1
  {
    if !Proper(area, src) { return; }
    assert area.Dx() * src.y >= 0 && area.Dy() * src.x >= 0;
    QuotientBounds(area.Dx() * src.y, src.x);
    if Quotient(area.Dx() * src.y, src.x) > area.Dy() {
      QuotientBounds(area.Dy() * src.x, src.y);
      HeightBound(area.Dx(), area.Dy(), Quotient(area.Dy() * src.x, src.y), src);
    }
  }

  /** The fitted frame is empty exactly for extreme aspect ratios: when the side
      that does not fill the area comes out below one pixel. */
  lemma FitIsEmptyIff(area: Rect, src: Point)
    requires Proper(area, src)
    ensures var r := FitRect(area, src);
      r.Dx() == 0 || r.Dy() == 0 <==>
        || area.Dx() * src.y < src.x
        || ((area.Dy() + 1) * src.x <= area.Dx() * src.y && area.Dy() * src.x < src.y)
  {
    assert area.Dx() * src.y > 0 && area.Dy() * src.x > 0;
    var tall, wide := Quotient(area.Dx() * src.y, src.x), Quotient(area.Dy() * src.x, src.y);
    QuotientBounds(area.Dx() * src.y, src.x);
    QuotientBounds(area.Dy() * src.x, src.y);
    if tall >= 1 { MulLe(1, tall, src.x); }
    if wide >= 1 { MulLe(1, wide, src.y); }
    if tall > area.Dy() {
      MulLe(area.Dy() + 1, tall, src.x);
    } else {
      MulLe(tall + 1, area.Dy() + 1, src.x);
    }
  }

  // ------------------------------------------------- window to source pixels

  /** Positions in the frame map to source pixels, in order, from the first. */
  lemma ScaleInRange(p: int, q: int, origin: int, size: int, extent: int)
    requires origin <= p <= q < origin + extent && size > 0
    ensures 0 <= Scale(p, origin, size, extent) <= Scale(q, origin, size, extent) < size
    ensures Scale(origin, origin, size, extent) == 0
  {
    var a, c := (p - origin) * size, (q - origin) * size;
    MulLe(p - origin, q - origin, size);
    assert a >= 0;
    QuotientMonotone(a, c, extent);
    QuotientBounds(a, extent);
    QuotientBounds(c, extent);
    MulLe(q - origin, extent - 1, size);
    if Quotient(c, extent) >= size { MulLe(size, Quotient(c, extent), extent); }
  }

  predicate Reachable(c: int, origin: int, size: int, extent: int)
    requires extent > 0
  {
    exists p :: origin <= p < origin + extent && Scale(p, origin, size, extent) == c
  }

  lemma ReachablePixel(c: int, origin: int, size: int, extent: int)
    requires 0 <= c < size <= extent
    ensures Reachable(c, origin, size, extent)
  {
    // The first position whose scaled value is not below c.
    var k := c * extent;
    assert k >= 0;
    var q := (k + size - 1) / size;
    assert k <= q * size < k + size;
    assert (c + 1) * extent == k + extent;
    QuotientOf(q * size, extent, c);
    if q >= extent { MulLe(extent, q, size); MulLe(c + 1, size, extent); }
    assert Scale(origin + q, origin, size, extent) == c;
  }

  lemma BelowLast(k: int, size: int, extent: int)
    requires 0 <= k < extent < size
    ensures k * size < (size - 1) * extent
  {
    MulLe(k, extent - 1, size);
    assert (extent - 1) * size == extent * size - size;
    assert (size - 1) * extent == extent * size - extent;
  }

  lemma QuotientBelow(a: int, b: int, q: int)
    requires 0 <= a < q * b && b > 0
    ensures Quotient(a, b) < q
  {
    QuotientBounds(a, b);
    if Quotient(a, b) >= q { MulLe(q, Quotient(a, b), b); }
  }

  lemma LastPixelOutOfReach(origin: int, size: int, extent: int)
    requires 0 < extent < size
    ensures !Reachable(size - 1, origin, size, extent)
  {
    forall p | origin <= p < origin + extent ensures Scale(p, origin, size, extent) != size - 1 {
      BelowLast(p - origin, size, extent);
      MulLe(0, p - origin, size);
      QuotientBelow((p - origin) * size, extent, size - 1);
    }
  }

  /** Every source pixel can be pointed at exactly when the fitted frame is at
      least as long as the source in that dimension. */
  lemma AllPixelsReachableIff(origin: int, size: int, extent: int)
    requires size > 0 && extent > 0
    ensures (forall c :: 0 <= c < size ==> Reachable(c, origin, size, extent)) <==> size <= extent
  {
    if size <= extent {
      forall c | 0 <= c < size ensures Reachable(c, origin, size, extent) { ReachablePixel(c, origin, size, extent); }
    } else {
      LastPixelOutOfReach(origin, size, extent);
      assert 0 <= size - 1 < size;
    }
  }

  // --------------------------------------------- source pixels to full range

  /** The division by zero happens exactly when the size, from the message or
      else from the screen, is at most one. */
  lemma NormalizeFailsIff(x: int, size: int, screen: int)
    ensures Normalize(x, size, screen) == None <==> (if size <= 0 then screen else size) <= 1
    ensures Normalize(x, size, screen).Some? ==>
              Truncates(Normalize(x, size, screen).value, x * 65535, (if size <= 0 then screen else size) - 1)
  {
    if Normalize(x, size, screen).Some? { QuotientTruncates(x * FULL_RANGE, Effective(size, screen) - 1); }
  }

  /** From two pixels up, normalizing keeps the order and takes the first and
      last source pixels to the ends of the range. */
  lemma NormalizeInRange(x: int, y: int, size: int, screen: int)
    requires 0 <= x <= y < size && size >= 2
    ensures Normalize(x, size, screen).Some? && Normalize(y, size, screen).Some?
    ensures 0 <= Normalize(x, size, screen).value <= Normalize(y, size, screen).value <= FULL_RANGE
    ensures x == 0 ==> Normalize(x, size, screen).value == 0
    ensures y == size - 1 ==> Normalize(y, size, screen).value == FULL_RANGE
  {
    QuotientMonotone(x * FULL_RANGE, y * FULL_RANGE, size - 1);
    QuotientMonotone(y * FULL_RANGE, (size - 1) * FULL_RANGE, size - 1);
    QuotientOf((size - 1) * FULL_RANGE, size - 1, FULL_RANGE);
    QuotientOf(0, size - 1, 0);
  }

  lemma NextIsAbove(x: int, divisor: int)
    requires x >= 0 && 0 < divisor <= FULL_RANGE
    ensures Quotient((x + 1) * FULL_RANGE, divisor) > Quotient(x * FULL_RANGE, divisor)
  {
    var a := x * FULL_RANGE;
    var q := Quotient(a, divisor);
    QuotientBounds(a, divisor);
    assert (q + 1) * divisor == q * divisor + divisor && (q + 2) * divisor == q * divisor + 2 * divisor;
    QuotientOf(a + divisor, divisor, q + 1);
    QuotientMonotone(a + divisor, (x + 1) * FULL_RANGE, divisor);
  }

  /** Different source pixels stay different exactly up to 65536 pixels. */
  lemma NormalizeInjectiveIff(size: int, screen: int)
    requires size >= 2
    ensures (forall x, y :: 0 <= x < y < size ==> Normalize(x, size, screen) != Normalize(y, size, screen))
       <==> size <= FULL_RANGE + 1
  {
    if size <= FULL_RANGE + 1 {
      forall x, y | 0 <= x < y < size ensures Normalize(x, size, screen) != Normalize(y, size, screen) {
        NextIsAbove(x, size - 1);
        QuotientMonotone((x + 1) * FULL_RANGE, y * FULL_RANGE, size - 1);
      }
    } else {
      QuotientOf(FULL_RANGE, size - 1, 0);
      QuotientOf(0, size - 1, 0);
      assert Normalize(0, size, screen) == Normalize(1, size, screen);
    }
  }

  // ---------------------------------------------------------- the whole pipeline

  /** Where a position ends up at the controlled side, in one dimension. */
  function Pipeline(p: int, origin: int, size: int, extent: int, screen: int): Option<int>
    requires extent != 0
  {
    Normalize(Scale(p, origin, size, extent), size, screen)
  }

  /** A pointer inside the fitted frame, for sources of at least two by two
      pixels: the program does not fail, the coordinates sent name a source
      pixel, those injected fit the range, and moving right or down at one end
      never moves left or up at the other. */
  lemma PipelineInRange(area: Rect, src: Point, p: Point, q: Point, screen: Point)
    requires Proper(area, src) && src.x >= 2 && src.y >= 2
    requires FitRect(area, src).Contains(p) && FitRect(area, src).Contains(q)
    ensures var r := FitRect(area, src);
      && r.Dx() > 0 && r.Dy() > 0
      && 0 <= Scale(p.x, r.min.x, src.x, r.Dx()) < src.x
      && 0 <= Scale(p.y, r.min.y, src.y, r.Dy()) < src.y
      && var x, y := Pipeline(p.x, r.min.x, src.x, r.Dx(), screen.x), Pipeline(p.y, r.min.y, src.y, r.Dy(), screen.y);
      && x.Some? && y.Some? && 0 <= x.value <= FULL_RANGE && 0 <= y.value <= FULL_RANGE
      && var x', y' := Pipeline(q.x, r.min.x, src.x, r.Dx(), screen.x), Pipeline(q.y, r.min.y, src.y, r.Dy(), screen.y);
      && x'.Some? && y'.Some?
      && (p.x <= q.x ==> x.value <= x'.value) && (p.y <= q.y ==> y.value <= y'.value)
  {
    var r := FitRect(area, src);
    AxisInRange(p.x, q.x, r.min.x, src.x, r.Dx(), screen.x);
    AxisInRange(p.y, q.y, r.min.y, src.y, r.Dy(), screen.y);
  }

  lemma AxisInRange(p: int, q: int, origin: int, size: int, extent: int, screen: int)
    requires size >= 2 && origin <= p < origin + extent && origin <= q < origin + extent
    ensures 0 <= Scale(p, origin, size, extent) < size
    ensures Pipeline(p, origin, size, extent, screen).Some? && Pipeline(q, origin, size, extent, screen).Some?
    ensures 0 <= Pipeline(p, origin, size, extent, screen).value <= FULL_RANGE
    ensures p <= q ==> Pipeline(p, origin, size, extent, screen).value <= Pipeline(q, origin, size, extent, screen).value
  {
    var low, high := if p <= q then p else q, if p <= q then q else p;
    ScaleInRange(low, high, origin, size, extent);
    NormalizeInRange(Scale(low, origin, size, extent), Scale(high, origin, size, extent), size, screen);
  }

  /** Scroll events are translated wherever the pointer is; over an empty frame
      that is the one way the viewer's loop fails. */
  lemma {:induction false} HandledCrashesIff(events: seq<PointerEvent>, rect: Rect, source: Point, allowed: bool)
    ensures Handled(events, rect, source, allowed).crashed <==>
            allowed && (rect.Dx() == 0 || rect.Dy() == 0) && exists i :: 0 <= i < |events| && events[i].kind.Scroll?
  {
    if events != [] {
      HandledCrashesIff(events[..|events| - 1], rect, source, allowed);
    }
  }
}
