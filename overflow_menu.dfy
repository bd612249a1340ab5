/** The overflow menu (components/ui/OverflowMenu.tsx): a menu opened under its anchor,
    right-aligned to it and kept inside the window, that closes before running the pressed
    item's handler. The window width and the anchor measurement are parameters; positions
    are finite reals. */
module OverflowMenu {
  import opened Js

  /** `{ x, y, width, height }` as measured in the window */
  datatype Layout = Layout(x: real, y: real, width: real, height: real)

  /** `{ top, left }` */
  datatype Position = Position(top: real, left: real)

  /** An item, whose `label` is `title`; `action` stands for its `onPress` handler. */
  datatype MenuItem = MenuItem(title: string, action: nat)

  /** What pressing an item does, in order: the menu hides, then the handler runs. */
  datatype MenuEvent = Hidden | Ran(action: nat)

  const HorizontalPadding: real := 8.0
  const FallbackWidth: real := 220.0
  /** The gap between the anchor's bottom edge and the menu */
  const AnchorGap: real := 8.0

  /** `Math.min(Math.max(value, min), max)`: when the bounds cross, the upper one wins. */
  function Clamp(value: real, lo: real, hi: real): (r: real)
    ensures lo <= hi ==> lo <= r <= hi
    ensures lo <= value <= hi ==> r == value
    ensures lo <= hi && value < lo ==> r == lo
    ensures value > hi || lo > hi ==> r == hi
  {
    MinReal(MaxReal(value, lo), hi)
  }

  /** `menuWidth ?? fallbackWidth` */
  function EffectiveWidth(menuWidth: Option<real>): real {
    GetOr(menuWidth, FallbackWidth)
  }

  /** The largest left offset that keeps the menu clear of the window's right edge. */
  function MaxLeft(menuWidth: Option<real>, windowWidth: real): (m: real)
    ensures m >= HorizontalPadding && m >= windowWidth - EffectiveWidth(menuWidth) - HorizontalPadding
    ensures m == HorizontalPadding || m == windowWidth - EffectiveWidth(menuWidth) - HorizontalPadding
  {
    MaxReal(HorizontalPadding, windowWidth - EffectiveWidth(menuWidth) - HorizontalPadding)
  }

  /** `menuPosition`: below the anchor, right-aligned with it, clamped into the window. */
  function MenuPosition(anchor: Option<Layout>, menuWidth: Option<real>, windowWidth: real): (p: Position)
    ensures anchor.None? ==> p == Position(0.0, HorizontalPadding)
    ensures anchor.Some? ==> p.top == anchor.value.y + anchor.value.height + AnchorGap
    ensures HorizontalPadding <= p.left <= MaxLeft(menuWidth, windowWidth)
    ensures anchor.Some? ==>
      var aligned := anchor.value.x + anchor.value.width - EffectiveWidth(menuWidth);
      (HorizontalPadding <= aligned <= MaxLeft(menuWidth, windowWidth) ==> p.left == aligned)
      && (aligned < HorizontalPadding ==> p.left == HorizontalPadding)
      && (aligned > MaxLeft(menuWidth, windowWidth) ==> p.left == MaxLeft(menuWidth, windowWidth))
  {
    match anchor
    case None => Position(0.0, HorizontalPadding)
    case Some(a) =>
      Position(a.y + a.height + AnchorGap,
               Clamp(a.x + a.width - EffectiveWidth(menuWidth), HorizontalPadding, MaxLeft(menuWidth, windowWidth)))
  }

  /** A window wide enough for the menu and both paddings holds the whole menu, padding
      included. */
  lemma MenuFitsInWindow(anchor: Option<Layout>, menuWidth: Option<real>, windowWidth: real)
    requires windowWidth >= EffectiveWidth(menuWidth) + 2.0 * HorizontalPadding
    ensures var p := MenuPosition(anchor, menuWidth, windowWidth);
      HorizontalPadding <= p.left
      && p.left + EffectiveWidth(menuWidth) + HorizontalPadding <= windowWidth
  {
  }

  /** Until the menu has reported its width it is placed as if 220 wide. */
  lemma UnmeasuredMenuUsesFallback(anchor: Option<Layout>, windowWidth: real)
    ensures MenuPosition(anchor, None, windowWidth) == MenuPosition(anchor, Some(FallbackWidth), windowWidth)
  {
  }

  class Menu {
    var visible: bool
    var anchorLayout: Option<Layout>
    var menuWidth: Option<real>

    constructor ()
      ensures !visible && anchorLayout.None? && menuWidth.None?
    {
      visible, anchorLayout, menuWidth := false, None, None;
    }

    /** Where the menu is drawn in a window `windowWidth` wide. */
    function CurrentPosition(windowWidth: real): Position
      reads this
    {
      MenuPosition(anchorLayout, menuWidth, windowWidth)
    }

    /** `open`: `measured` is what `measureInWindow` reported, or `None` when the anchor is
        not mounted and nothing happens. */
    method Open(measured: Option<Layout>)
      modifies this`visible, this`anchorLayout
      ensures measured.Some? ==> visible && anchorLayout == measured
      ensures measured.Some? ==> forall w :: CurrentPosition(w) == MenuPosition(measured, menuWidth, w)
      ensures measured.Some? ==>
        forall w :: CurrentPosition(w).top == measured.value.y + measured.value.height + AnchorGap
      ensures measured.None? ==> visible == old(visible) && anchorLayout == old(anchorLayout)
    {
      if measured.Some? {
        anchorLayout := measured;
        visible := true;
      }
    }

    /** `close`: the backdrop, the back button and every item press. */
    method Close()
      modifies this`visible
      ensures !visible
    {
      visible := false;
    }

    /** The menu's `onLayout`. */
    method OnLayout(width: real)
      modifies this`menuWidth
      ensures menuWidth == Some(width)
    {
      menuWidth := Some(width);
    }

    /** Pressing the `k`-th item: the menu closes, then that item's handler runs once. */
    method PressItem(items: seq<MenuItem>, k: nat) returns (trace: seq<MenuEvent>)
      requires k < |items|
      modifies this`visible
      ensures !visible
      ensures trace == [Hidden, Ran(items[k].action)]
    {
      Close();
      trace := [Hidden];
      trace := trace + [Ran(items[k].action)];
    }
  }
}
