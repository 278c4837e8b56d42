/**
 * The Slideshow Driver of the page: the list of this week's resources,
 * the cursor `currentIndex` and `maxIndex`, startSlideshow and the
 * repeating slideshowTick. Timers are not modelled by their durations;
 * a scheduled repeating tick timer is recorded with the interval it was
 * given, and each firing is one call of Tick. The separate hourly page
 * reload is not part of this model.
 */
module Slideshow {
  import opened StatusQueries

  /** A resource id as it is interpolated into URLs. */
  type ResourceId = string

  /**
   * What one tick hands to setImage: a resource of the list, a random
   * resource fetched on the spot, or JavaScript's `undefined` when the
   * cursor lies outside the list.
   */
  datatype Presented = Shown(id: ResourceId) | Random | Undefined

  datatype TickOutcome = TickOutcome(presented: Presented, cursor: int)

  /** `resources[i]` in JavaScript. */
  function Lookup(resources: seq<ResourceId>, i: int): (p: Presented)
    ensures p.Shown? <==> 0 <= i < |resources|
    ensures p.Shown? ==> p.id == resources[i]
    ensures !(0 <= i < |resources|) ==> p == Undefined
  {
    if 0 <= i < |resources| then Shown(resources[i]) else Undefined
  }

  /**
   * One slideshowTick: what it presents and the cursor it leaves. An empty
   * list presents a random resource and leaves the cursor alone; otherwise
   * the resource under the cursor is presented and the cursor moves on,
   * back to 0 past `maxIndex`.
   */
  function TickStep(resources: seq<ResourceId>, cursor: int, maxIndex: int): (t: TickOutcome)
    ensures |resources| == 0 ==> t == TickOutcome(Random, cursor)
    ensures |resources| > 0 && 0 <= cursor < |resources| ==> t.presented == Shown(resources[cursor])
    ensures |resources| > 0 && maxIndex == |resources| - 1 && 0 <= cursor ==> 0 <= t.cursor <= maxIndex
    ensures |resources| > 0 && 0 <= cursor < maxIndex ==> t.cursor == cursor + 1
    ensures |resources| > 0 && cursor >= maxIndex ==> t.cursor == 0
  {
    if |resources| == 0 then TickOutcome(Random, cursor)
    else
      var next := cursor + 1;
      TickOutcome(Lookup(resources, cursor), if next > maxIndex then 0 else next)
  }

  /** On a non-empty list the cursor moves modulo the length of the list. */
  lemma TickAdvancesModulo(resources: seq<ResourceId>, cursor: nat)
    requires cursor < |resources|
    ensures TickStep(resources, cursor, |resources| - 1).cursor == (cursor + 1) % |resources|
  {
  }

  /** What `k` consecutive ticks present, starting at `cursor`, once maxIndex is |resources| - 1. */
  function TickTrace(resources: seq<ResourceId>, cursor: int, k: nat): seq<Presented>
    decreases k
  {
    if k == 0 then []
    else
      var t := TickStep(resources, cursor, |resources| - 1);
      [t.presented] + TickTrace(resources, t.cursor, k - 1)
  }

  /** The cursor after `k` consecutive ticks starting at `cursor`. */
  function CursorAfter(resources: seq<ResourceId>, cursor: int, k: nat): int
    decreases k
  {
    if k == 0 then cursor
    else CursorAfter(resources, TickStep(resources, cursor, |resources| - 1).cursor, k - 1)
  }

  /** Each id of `ids`, as presented by a tick. */
  function Shows(ids: seq<ResourceId>): seq<Presented>
  {
    seq(|ids|, i requires 0 <= i < |ids| => Shown(ids[i]))
  }

  lemma ShowsAppend(a: seq<ResourceId>, b: seq<ResourceId>)
    ensures Shows(a + b) == Shows(a) + Shows(b)
  {
  }

  /** Ticking `a` times and then `b` times is ticking `a + b` times. */
  lemma {:induction false} TickTraceSplit(resources: seq<ResourceId>, cursor: int, a: nat, b: nat)
    ensures TickTrace(resources, cursor, a + b)
         == TickTrace(resources, cursor, a) + TickTrace(resources, CursorAfter(resources, cursor, a), b)
    ensures CursorAfter(resources, cursor, a + b)
         == CursorAfter(resources, CursorAfter(resources, cursor, a), b)
    decreases a
  {
    if a > 0 {
      var t := TickStep(resources, cursor, |resources| - 1);
      TickTraceSplit(resources, t.cursor, a - 1, b);
      assert a + b - 1 == (a - 1) + b;
    }
  }

  /**
   * Ticks that do not reach the end of the list present consecutive
   * resources; the cursor wraps to 0 exactly when the last one is shown.
   */
  lemma {:induction false} TickTraceWithin(resources: seq<ResourceId>, cursor: nat, k: nat)
    requires cursor < |resources| && cursor + k <= |resources|
    ensures TickTrace(resources, cursor, k) == Shows(resources[cursor..cursor + k])
    ensures CursorAfter(resources, cursor, k) == if cursor + k == |resources| then 0 else cursor + k
    decreases k
  {
    if k > 0 {
      var t := TickStep(resources, cursor, |resources| - 1);
      if k == 1 {
        assert resources[cursor..cursor + k] == [resources[cursor]];
      } else {
        assert t.cursor == cursor + 1;
        TickTraceWithin(resources, cursor + 1, k - 1);
        assert resources[cursor..cursor + k] == [resources[cursor]] + resources[cursor + 1..cursor + k];
      }
    }
  }

  /** The ticks from `cursor` to the end of the list, after which the cursor is back at 0. */
  lemma TicksToEnd(resources: seq<ResourceId>, cursor: nat)
    requires cursor < |resources|
    ensures TickTrace(resources, cursor, |resources| - cursor) == Shows(resources[cursor..])
    ensures CursorAfter(resources, cursor, |resources| - cursor) == 0
  {
    var k := |resources| - cursor;
    TickTraceWithin(resources, cursor, k);
    assert resources[cursor..cursor + k] == resources[cursor..];
  }

  /** The ticks from 0 up to `cursor`, after which the cursor is `cursor` again. */
  lemma TicksFromStart(resources: seq<ResourceId>, cursor: nat)
    requires cursor < |resources|
    ensures TickTrace(resources, 0, cursor) == Shows(resources[..cursor])
    ensures CursorAfter(resources, 0, cursor) == cursor
  {
    TickTraceWithin(resources, 0, cursor);
    assert resources[0..0 + cursor] == resources[..cursor];
  }

  /**
   * Over a list of length N, N consecutive ticks from any valid cursor
   * present the list rotated to that cursor, and bring the cursor back.
   */
  lemma FullCycle(resources: seq<ResourceId>, cursor: nat)
    requires cursor < |resources|
    ensures TickTrace(resources, cursor, |resources|) == Shows(resources[cursor..] + resources[..cursor])
    ensures CursorAfter(resources, cursor, |resources|) == cursor
  {
    var n, toEnd := |resources|, |resources| - cursor;
    TickTraceSplit(resources, cursor, toEnd, cursor);
    assert toEnd + cursor == n;
    TicksToEnd(resources, cursor);
    TicksFromStart(resources, cursor);
    var tail, head := resources[cursor..], resources[..cursor];
    assert TickTrace(resources, cursor, n) == Shows(tail) + Shows(head);
    ShowsAppend(tail, head);
  }

  /** From a fresh page, the first N ticks present the list in order. */
  lemma FirstCycleInOrder(resources: seq<ResourceId>)
    requires |resources| > 0
    ensures TickTrace(resources, 0, |resources|) == Shows(resources)
    ensures CursorAfter(resources, 0, |resources|) == 0
  {
    FullCycle(resources, 0);
    assert resources[0..] + resources[..0] == resources;
  }

  /** N consecutive ticks present every position of the list exactly once. */
  lemma FullCyclePresentsEachOnce(resources: seq<ResourceId>, cursor: nat)
    requires cursor < |resources|
    ensures multiset(TickTrace(resources, cursor, |resources|)) == multiset(Shows(resources))
  {
    var tail, head := resources[cursor..], resources[..cursor];
    FullCycle(resources, cursor);
    ShowsAppend(tail, head);
    assert multiset(TickTrace(resources, cursor, |resources|))
        == multiset(Shows(tail)) + multiset(Shows(head));
    assert head + tail == resources;
    ShowsAppend(head, tail);
    assert multiset(Shows(resources)) == multiset(Shows(head)) + multiset(Shows(tail));
  }

  /** On an empty list every tick presents a random resource and the cursor never moves. */
  lemma {:induction false} EmptyListTicks(cursor: int, k: nat)
    ensures TickTrace([], cursor, k) == seq(k, _ => Random)
    ensures CursorAfter([], cursor, k) == cursor
    decreases k
  {
    if k > 0 {
      EmptyListTicks(cursor, k - 1);
      assert seq(k, _ => Random) == [Random] + seq(k - 1, _ => Random);
    }
  }

  /** The module-level state of the page script. */
  class Driver {
    var resources: seq<ResourceId>
    var currentIndex: int
    var maxIndex: int
    /** The intervals of the repeating tick timers scheduled so far, in order. */
    var timers: seq<Interval>

    /** The cursor never goes negative and, on a non-empty list, stays in [0, maxIndex]. */
    ghost predicate Valid()
      reads this
    {
      0 <= currentIndex &&
      (|resources| > 0 ==> maxIndex == |resources| - 1 && currentIndex <= maxIndex)
    }

    /** The script as loaded: cursor and maxIndex 0, no list yet, no tick timer. */
    constructor ()
      ensures Valid()
      ensures resources == [] && currentIndex == 0 && maxIndex == 0 && timers == []
    {
      resources := [];
      currentIndex := 0;
      maxIndex := 0;
      timers := [];
    }

    /** slideshowTick: returns what it hands to setImage. */
    method Tick() returns (p: Presented)
      requires 0 <= currentIndex
      requires |resources| > 0 ==> maxIndex == |resources| - 1
      modifies this`currentIndex
      ensures Valid()
      ensures TickOutcome(p, currentIndex) == TickStep(resources, old(currentIndex), maxIndex)
      ensures |resources| == 0 ==> p == Random && currentIndex == old(currentIndex)
      ensures 0 <= old(currentIndex) < |resources| ==> p == Shown(resources[old(currentIndex)])
    {
      if |resources| == 0 {
        p := Random;
        return;
      }
      p := Lookup(resources, currentIndex);
      currentIndex := currentIndex + 1;
      if currentIndex > maxIndex {
        currentIndex := 0;
      }
    }

    /**
     * startSlideshow: takes the list, sets maxIndex, ticks once at once,
     * reads the interval and schedules the repeating tick, also when the
     * list is empty. The interval query's response is a parameter.
     */
    method StartSlideshow(response: seq<ResourceId>, intervalStatus: int, intervalText: string)
      returns (first: Presented)
      requires Valid()
      modifies this
      ensures Valid()
      ensures resources == response && maxIndex == |response| - 1
      ensures TickOutcome(first, currentIndex) == TickStep(response, old(currentIndex), |response| - 1)
      ensures timers == old(timers) + [SlideshowInterval(intervalStatus, intervalText)]
    {
      resources := response;
      maxIndex := |resources| - 1;
      first := Tick();
      var intervalInSeconds := SlideshowInterval(intervalStatus, intervalText);
      timers := timers + [intervalInSeconds];
    }
  }

  /**
   * window.onload up to the first tick: the week's list arrives and the
   * slideshow starts. The first tick presents the head of the list, and
   * exactly one repeating tick timer is scheduled, with or without
   * resources. The hourly reload timer that window.onload also starts is
   * not modelled.
   */
  method PageLoad(week: seq<ResourceId>, intervalStatus: int, intervalText: string)
    returns (driver: Driver, first: Presented)
    ensures fresh(driver) && driver.Valid()
    ensures driver.resources == week && driver.maxIndex == |week| - 1
    ensures |week| > 0 ==> first == Shown(week[0]) && driver.currentIndex == 1 % |week|
    ensures |week| == 0 ==> first == Random && driver.currentIndex == 0
    ensures driver.timers == [SlideshowInterval(intervalStatus, intervalText)]
  {
    driver := new Driver();
    first := driver.StartSlideshow(week, intervalStatus, intervalText);
  }
}
