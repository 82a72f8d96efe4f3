/**
 * The window-style arithmetic of the desktop pet: the style word that makes
 * the window a borderless visible popup, and the extended-style bit that
 * lets mouse clicks pass through the window to the desktop. The operating
 * system's window is modelled as an object holding the two style words.
 */
module WindowUtils {

  const GWL_STYLE: int := -16
  const GWL_EXSTYLE: int := -20
  const WS_POPUP: bv32 := 0x8000_0000
  const WS_VISIBLE: bv32 := 0x1000_0000
  const WS_EX_TOPMOST: bv32 := 0x0000_0008
  const WS_EX_LAYERED: bv32 := 0x0008_0000
  /** The click-through bit. */
  const WS_EX_TRANSPARENT: bv32 := 0x0000_0020
  /** The complement of `WS_EX_TRANSPARENT` (see `MaskIsComplement`). */
  const NOT_TRANSPARENT: bv32 := 0xFFFF_FFDF

  lemma MaskIsComplement()
    ensures NOT_TRANSPARENT == !WS_EX_TRANSPARENT
  {
  }

  /** The style word `SetupWindow` writes: popup and visible, nothing else. */
  function PopupStyle(): (r: bv32)
    ensures r == 0x9000_0000
    ensures r & WS_POPUP == WS_POPUP && r & WS_VISIBLE == WS_VISIBLE
    ensures r & !(WS_POPUP | WS_VISIBLE) == 0
  {
    WS_POPUP | WS_VISIBLE
  }

  /** Whether a window with this extended style takes mouse clicks. */
  predicate TakesClicks(exStyle: bv32) {
    exStyle & WS_EX_TRANSPARENT == 0
  }

  /** The extended style `SetClickable` writes: the click-through bit cleared or set. */
  function ClickableExStyle(exStyle: bv32, isClickable: bool): (r: bv32)
    ensures isClickable ==> TakesClicks(r)
    ensures !isClickable ==> !TakesClicks(r)
    ensures r & NOT_TRANSPARENT == exStyle & NOT_TRANSPARENT
  {
    if isClickable then exStyle & NOT_TRANSPARENT else exStyle | WS_EX_TRANSPARENT
  }

  /** Marking the window always-on-top does not change whether it takes clicks. */
  lemma TopmostKeepsClicks(exStyle: bv32)
    ensures TakesClicks(exStyle | WS_EX_TOPMOST) <==> TakesClicks(exStyle)
  {
  }

  /** Layering and always-on-top survive either setting. */
  lemma KeepsLayeredAndTopmost(exStyle: bv32, isClickable: bool)
    ensures ClickableExStyle(exStyle, isClickable) & WS_EX_LAYERED == exStyle & WS_EX_LAYERED
    ensures ClickableExStyle(exStyle, isClickable) & WS_EX_TOPMOST == exStyle & WS_EX_TOPMOST
  {
  }

  /** Of two settings the later one wins. */
  lemma LastSettingWins(exStyle: bv32, first: bool, second: bool)
    ensures ClickableExStyle(ClickableExStyle(exStyle, first), second) == ClickableExStyle(exStyle, second)
  {
  }

  /** Setting twice is setting once. */
  lemma Idempotent(exStyle: bv32, isClickable: bool)
    ensures ClickableExStyle(ClickableExStyle(exStyle, isClickable), isClickable) == ClickableExStyle(exStyle, isClickable)
  {
    LastSettingWins(exStyle, isClickable, isClickable);
  }

  /** Turning click-through on and then off again restores a word that did not have it. */
  lemma RoundTrip(exStyle: bv32)
    requires TakesClicks(exStyle)
    ensures ClickableExStyle(ClickableExStyle(exStyle, false), true) == exStyle
    ensures ClickableExStyle(exStyle, true) == exStyle
  {
  }

  /** The operating system's window, reduced to its two style words. */
  class Window {
    var style: bv32
    var exStyle: bv32
    /** How many times `SetClickable` has been applied to this window. */
    ghost var clickableCalls: nat

    constructor (style: bv32, exStyle: bv32)
      ensures this.style == style && this.exStyle == exStyle && clickableCalls == 0
    {
      this.style := style;
      this.exStyle := exStyle;
      clickableCalls := 0;
    }

    method GetWindowLong(nIndex: int) returns (v: bv32)
      requires nIndex == GWL_STYLE || nIndex == GWL_EXSTYLE
      ensures v == if nIndex == GWL_STYLE then style else exStyle
    {
      v := if nIndex == GWL_STYLE then style else exStyle;
    }

    method SetWindowLong(nIndex: int, dwNewLong: bv32)
      requires nIndex == GWL_STYLE || nIndex == GWL_EXSTYLE
      modifies this
      ensures nIndex == GWL_STYLE ==> style == dwNewLong && exStyle == old(exStyle)
      ensures nIndex == GWL_EXSTYLE ==> exStyle == dwNewLong && style == old(style)
      ensures clickableCalls == old(clickableCalls)
    {
      if nIndex == GWL_STYLE {
        style := dwNewLong;
      } else {
        exStyle := dwNewLong;
      }
    }

    /**
     * `SetWindowPos(hWnd, HWND_TOPMOST, ...)` without moving or resizing:
     * the window joins the always-on-top band, which the system records in
     * the extended style's topmost bit.
     */
    method SetWindowPosTopmost()
      modifies this
      ensures exStyle == old(exStyle) | WS_EX_TOPMOST
      ensures style == old(style) && clickableCalls == old(clickableCalls)
    {
      exStyle := exStyle | WS_EX_TOPMOST;
    }
  }

  /** Make the window a borderless visible popup, then mark it always-on-top. */
  method SetupWindow(w: Window)
    modifies w
    ensures w.style == PopupStyle()
    ensures w.exStyle == old(w.exStyle) | WS_EX_TOPMOST && w.clickableCalls == old(w.clickableCalls)
  {
    w.SetWindowLong(GWL_STYLE, WS_POPUP | WS_VISIBLE);
    w.SetWindowPosTopmost();
  }

  /**
   * Read the extended style, clear or set the click-through bit, write it
   * back; the two branches of the write are the two cases of `ClickableExStyle`.
   */
  method SetClickable(w: Window, isClickable: bool)
    modifies w
    ensures w.exStyle == ClickableExStyle(old(w.exStyle), isClickable)
    ensures w.style == old(w.style) && w.clickableCalls == old(w.clickableCalls) + 1
  {
    var exStyle := w.GetWindowLong(GWL_EXSTYLE);
    w.SetWindowLong(GWL_EXSTYLE, ClickableExStyle(exStyle, isClickable));
    w.clickableCalls := w.clickableCalls + 1;
  }
}
