/**
 * A click on the tray icon (electron main process, onTrayClick.js): hide
 * the window, or show it at the click's bounds, remembering them for the
 * next click.
 */
module Tray {
  import opened Wrappers

  datatype Bounds = Bounds(x: int, y: int, width: int, height: int)

  /** The modifier keys of the click event. */
  datatype Modifiers = Modifiers(alt: bool, shift: bool, ctrl: bool, meta: bool)

  /** The two effects a click can have; both are callbacks of the app object. */
  datatype WindowCall = HideWindow | ShowWindow(bounds: Option<Bounds>)

  predicate AnyModifier(m: Modifiers)
  {
    m.alt || m.shift || m.ctrl || m.meta
  }

  /** Hide when the window is up or a modifier is held. */
  predicate HidesOnClick(windowVisible: bool, m: Modifiers)
  {
    windowVisible || AnyModifier(m)
  }

  /** `bounds || cachedBounds`: the click's bounds when it has them, the remembered ones otherwise. */
  function ShowBounds(bounds: Option<Bounds>, cached: Option<Bounds>): (r: Option<Bounds>)
    ensures bounds.Some? ==> r == bounds
    ensures bounds.None? ==> r == cached
  {
    if bounds.Some? then bounds else cached
  }

  /**
   * The effect of one click and the remembered bounds after it, given
   * whether the window is up, the modifiers, the click's bounds and the
   * bounds remembered before.
   */
  function Click(windowVisible: bool, e: Modifiers, bounds: Option<Bounds>, cached: Option<Bounds>)
    : (r: (WindowCall, Option<Bounds>))
    ensures r.0.HideWindow? <==> HidesOnClick(windowVisible, e)
    ensures r.0.HideWindow? ==> r.1 == cached
    ensures r.0.ShowWindow? ==> r.0.bounds == r.1 && r.1 == ShowBounds(bounds, cached)
  {
    if HidesOnClick(windowVisible, e) then (HideWindow, cached)
    else
      var shown := ShowBounds(bounds, cached);
      (ShowWindow(shown), shown)
  }

  /**
   * A show followed by a click without bounds of its own (the second half
   * of a double click) shows the window where the first click did.
   */
  lemma DoubleClickReusesBounds(e: Modifiers, bounds: Bounds, cached: Option<Bounds>)
    requires !AnyModifier(e)
    ensures var first := Click(false, e, Some(bounds), cached);
            var second := Click(false, e, None, first.1);
            first.0 == second.0 == ShowWindow(Some(bounds)) && second.1 == Some(bounds)
  {
  }

  /** Once bounds are remembered, no click forgets them; a hide never changes them. */
  lemma BoundsNeverForgotten(windowVisible: bool, e: Modifiers, bounds: Option<Bounds>, cached: Option<Bounds>)
    requires cached.Some?
    ensures Click(windowVisible, e, bounds, cached).1.Some?
    ensures Click(windowVisible, e, bounds, cached).1 == cached || Click(windowVisible, e, bounds, cached).1 == bounds
  {
  }

  /** The app object as far as the tray click sees it. */
  class FetherApp {
    /** `win && win.isVisible()`. */
    var windowVisible: bool
    var cachedBounds: Option<Bounds>
    /** The hide/show callbacks invoked so far, oldest first. */
    var calls: seq<WindowCall>

    constructor (windowVisible: bool, cachedBounds: Option<Bounds>)
      ensures this.windowVisible == windowVisible && this.cachedBounds == cachedBounds && calls == []
    {
      this.windowVisible := windowVisible;
      this.cachedBounds := cachedBounds;
      calls := [];
    }

    /** `onTrayClick(fetherApp, e, bounds)`: exactly one of hide or show. */
    method OnTrayClick(e: Modifiers, bounds: Option<Bounds>)
      modifies this`cachedBounds, this`calls
      ensures var (call, cached) := Click(windowVisible, e, bounds, old(cachedBounds));
              calls == old(calls) + [call] && cachedBounds == cached
    {
      if windowVisible || e.alt || e.shift || e.ctrl || e.meta {
        calls := calls + [HideWindow];
        return;
      }
      var newCacheBounds := if bounds.Some? then bounds else cachedBounds;
      cachedBounds := newCacheBounds;
      calls := calls + [ShowWindow(newCacheBounds)];
    }
  }
}
