/** The mobile snap panel ("bottom sheet"): a panel whose height, a percentage of the
    viewport, follows touch or mouse drags and settles at one of two snap points or
    asks its owner to close it when released. */
module BottomSheet {
  import opened Wrappers

  const SnapTop: real := 100.0
  const SnapMiddle: real := 60.0
  const BackdropThreshold: real := 30.0
  const CloseThreshold: real := 15.0

  /** An element on the path from the touched element up to the document root, with the
      computed `overflow-y` style and the scroll geometry the walk inspects. */
  datatype Element = Element(id: nat, overflowY: string, scrollHeight: int, clientHeight: int)

  predicate IsScrollable(e: Element) {
    (e.overflowY == "auto" || e.overflowY == "scroll") && e.scrollHeight > e.clientHeight
  }

  /** The sheet's own element, identified by `root` (None when the sheet element is absent). */
  predicate IsRoot(e: Element, root: Option<nat>) {
    root == Some(e.id)
  }

  /** How many elements of `path` (the element, its parent, its grandparent, ...) the walk
      may visit: all of them up to, not including, the sheet's own element. */
  function WalkLength(path: seq<Element>, root: Option<nat>): (n: nat)
    ensures n <= |path|
    ensures forall i :: 0 <= i < n ==> !IsRoot(path[i], root)
    ensures n < |path| ==> IsRoot(path[n], root)
  {
    if path == [] || IsRoot(path[0], root) then 0 else 1 + WalkLength(path[1..], root)
  }

  /** The scroll owner: the first scrollable element of `path` strictly below the sheet. */
  function ScrollOwner(path: seq<Element>, root: Option<nat>): (r: Option<Element>)
    ensures r.None? <==> forall i :: 0 <= i < WalkLength(path, root) ==> !IsScrollable(path[i])
    ensures r.Some? ==> IsScrollable(r.value) && !IsRoot(r.value, root)
    ensures r.Some? ==> exists k :: 0 <= k < WalkLength(path, root) && path[k] == r.value
                              && forall i :: 0 <= i < k ==> !IsScrollable(path[i])
  {
    if path == [] || IsRoot(path[0], root) then None
    else if IsScrollable(path[0]) then Some(path[0])
    else
      var r := ScrollOwner(path[1..], root);
      assert r.Some? ==> exists k :: 0 < k < WalkLength(path, root) && path[k] == r.value
                               && forall i :: 0 <= i < k ==> !IsScrollable(path[i]) by {
        if r.Some? {
          var k :| 0 <= k < WalkLength(path[1..], root) && path[1..][k] == r.value
                   && forall i :: 0 <= i < k ==> !IsScrollable(path[1..][i]);
          assert path[k + 1] == r.value;
        }
      }
      r
  }

  /** `findScrollableParent`: walks up from the touched element towards the sheet. */
  method FindScrollableParent(path: seq<Element>, root: Option<nat>) returns (owner: Option<Element>)
    ensures owner == ScrollOwner(path, root)
  {
    var i := 0;
    while i < |path| && !IsRoot(path[i], root)
      invariant 0 <= i <= WalkLength(path, root)
      invariant ScrollOwner(path[i..], root) == ScrollOwner(path, root)
    {
      if IsScrollable(path[i]) {
        return Some(path[i]);
      }
      assert path[i..][1..] == path[i + 1..];
      i := i + 1;
    }
    return None;
  }

  /** The backdrop is visible and takes taps above the backdrop threshold. */
  predicate BackdropActive(height: real): (b: bool)
    ensures b <==> height > 30.0
  {
    height > BackdropThreshold
  }

  /** The panel counts as expanded within two points of the top snap point; an expanded
      panel always has its backdrop up. */
  predicate Expanded(height: real): (b: bool)
    ensures b <==> height >= 98.0
    ensures b ==> BackdropActive(height)
  {
    height >= SnapTop - 2.0
  }

  /** Maximized: the drag handle is hidden and the corners are squared. Only an expanded
      panel is maximized. */
  predicate Maximized(height: real): (b: bool)
    ensures b <==> height >= 100.0
    ensures b ==> Expanded(height)
  {
    height >= 100.0
  }

  /** The heights a drag may set: above 10 and at most 100 percent. */
  predicate InWindow(height: real) {
    10.0 < height <= 100.0
  }

  /** The touch path's gate: true when the drag delta (positive upward) goes to the content
      instead of resizing the panel; `ownerScrollTop` is the cached scroll owner's offset. */
  function TouchSuppressed(height: real, delta: real, owner: Option<Element>, ownerScrollTop: real): (s: bool)
    ensures !Expanded(height) ==> !s
    ensures Expanded(height) && delta > 0.0 ==> s
    ensures Expanded(height) && delta < 0.0 ==> (s <==> owner.Some? && ownerScrollTop > 0.0)
    ensures delta == 0.0 ==> !s
  {
    if Expanded(height) then
      if delta > 0.0 then true
      else if delta < 0.0 then owner.Some? && ownerScrollTop > 0.0
      else false
    else false
  }

  /** The mouse path's gate: as the touch gate, and a downward drag is also ceded to the
      content when the scroll owner was not at its top at mouse-down (`atTop`). */
  function MouseSuppressed(height: real, delta: real, atTop: bool, owner: Option<Element>, ownerScrollTop: real): (s: bool)
    ensures s <==> TouchSuppressed(height, delta, owner, ownerScrollTop) || (Expanded(height) && delta < 0.0 && !atTop)
    ensures !Expanded(height) ==> !s
  {
    if Expanded(height) && delta > 0.0 then true
    else if Expanded(height) && delta < 0.0 then !atTop || (owner.Some? && ownerScrollTop > 0.0)
    else false
  }

  /** The height a drag asks for: the pixel height at drag start plus the delta, as a
      percentage of the window. A zero window height gives an infinite or undefined
      percentage in the source, which no comparison accepts: that is `None` here. */
  function DragCandidate(startHeight: real, delta: real, windowHeight: real): Option<real> {
    if windowHeight == 0.0 then None else Some((startHeight + delta) / windowHeight * 100.0)
  }

  /** The acceptance window: a candidate inside (10, 100] replaces the height, any other
      leaves it as it was (it is rejected, not clamped). */
  function ApplyDrag(height: real, startHeight: real, delta: real, windowHeight: real): (h: real)
    ensures InWindow(height) ==> InWindow(h)
    ensures h != height ==> DragCandidate(startHeight, delta, windowHeight) == Some(h) && InWindow(h)
    ensures (match DragCandidate(startHeight, delta, windowHeight)
             case Some(c) => InWindow(c) ==> h == c
             case None => h == height)
  {
    match DragCandidate(startHeight, delta, windowHeight)
    case Some(c) => if c > 10.0 && c <= 100.0 then c else height
    case None => height
  }

  function Abs(x: real): real {
    if x < 0.0 then -x else x
  }

  /** What a release does: close the panel, or settle at a snap point. */
  datatype Release = Dismiss | SettleAt(height: real)

  /** `snapToPosition`: below the close threshold the owner is asked to close the panel;
      otherwise the nearer of the two snap points is chosen, a tie going to the middle one. */
  function Snap(height: real): (r: Release)
    ensures r.Dismiss? <==> height < CloseThreshold
    ensures r.SettleAt? ==> r.height == SnapTop || r.height == SnapMiddle
    ensures r.SettleAt? ==> (r.height == SnapTop <==> Abs(height - SnapTop) < Abs(height - SnapMiddle))
    ensures r.SettleAt? ==>
              Abs(height - r.height) <= Abs(height - SnapTop) && Abs(height - r.height) <= Abs(height - SnapMiddle)
    ensures r.SettleAt? ==> (r.height == SnapTop <==> height > (SnapTop + SnapMiddle) / 2.0)
    ensures height == SnapTop || height == SnapMiddle ==> r == SettleAt(height)
  {
    if height < CloseThreshold then Dismiss
    else
      var distTop := Abs(height - SnapTop);
      var distMiddle := Abs(height - SnapMiddle);
      if distTop < distMiddle then SettleAt(SnapTop) else SettleAt(SnapMiddle)
  }

  /** After a release that settles, the backdrop is active; the panel counts as expanded, and
      is maximized with its drag handle hidden, exactly at the top snap point. */
  lemma SettledPanelAffordances(from: real)
    requires Snap(from).SettleAt?
    ensures BackdropActive(Snap(from).height)
    ensures Expanded(Snap(from).height) <==> Snap(from).height == SnapTop
    ensures Maximized(Snap(from).height) <==> Snap(from).height == SnapTop
  {
  }

  /** The panel's state: the React state `height` and `isDragging`, the refs of the drag
      session, whether the document-level mouse listeners are attached, the `isVisible`
      prop, and the number of times `onClose` has been called. */
  class Panel {
    var height: real
    var isDragging: bool
    var startY: real
    var startHeight: real
    var activeScroll: Option<Element>
    var isAtTop: bool
    var mouseTracking: bool
    var visible: bool
    var closeRequests: nat

    /** The height never leaves the drag window (10, 100]. */
    ghost predicate Valid()
      reads this
    {
      InWindow(height)
    }

    constructor (isVisible: bool)
      ensures Valid()
      ensures height == SnapMiddle && !isDragging && startY == 0.0 && startHeight == 0.0
      ensures activeScroll == None && isAtTop && !mouseTracking
      ensures visible == isVisible && closeRequests == 0
    {
      height := SnapMiddle;
      isDragging := false;
      startY, startHeight := 0.0, 0.0;
      activeScroll := None;
      isAtTop := true;
      mouseTracking := false;
      visible := isVisible;
      closeRequests := 0;
    }

    /** The effect on `isVisible`: becoming visible resets the height to the middle snap point. */
    method SetVisible(isVisible: bool)
      requires Valid()
      modifies this`height, this`visible
      ensures Valid()
      ensures visible == isVisible
      ensures height == if isVisible && !old(visible) then SnapMiddle else old(height)
    {
      if isVisible && !visible {
        height := SnapMiddle;
      }
      visible := isVisible;
    }

    /** A tap on the backdrop closes the panel only while the backdrop takes taps. */
    method TapBackdrop()
      modifies this`closeRequests
      ensures closeRequests == if visible && BackdropActive(height) then old(closeRequests) + 1 else old(closeRequests)
    {
      if visible && BackdropActive(height) {
        closeRequests := closeRequests + 1;
      }
    }

    /** `handleTouchStart`: resolves and caches the scroll owner and opens a drag session.
        `path` is the touched element and its ancestors, `root` the sheet element, and
        `sheetHeight` the sheet's pixel height (None when the sheet element is absent). */
    method TouchStart(path: seq<Element>, root: Option<nat>, clientY: real, sheetHeight: Option<real>)
      modifies this`activeScroll, this`isDragging, this`startY, this`startHeight
      ensures activeScroll == ScrollOwner(path, root)
      ensures isDragging && startY == clientY && startHeight == sheetHeight.GetOr(0.0)
    {
      activeScroll := FindScrollableParent(path, root);
      isDragging := true;
      startY := clientY;
      startHeight := if sheetHeight.Some? then sheetHeight.value else 0.0;
    }

    /** `handleTouchMove`: ignored outside a drag session; otherwise the gate decides, and an
        admitted delta goes through the acceptance window. */
    method TouchMove(clientY: real, windowHeight: real, ownerScrollTop: real)
      requires Valid()
      modifies this`height
      ensures Valid()
      ensures !isDragging ==> height == old(height)
      ensures TouchSuppressed(old(height), startY - clientY, activeScroll, ownerScrollTop) ==> height == old(height)
      ensures isDragging && !TouchSuppressed(old(height), startY - clientY, activeScroll, ownerScrollTop) ==>
                height == ApplyDrag(old(height), startHeight, startY - clientY, windowHeight)
    {
      if !isDragging {
        return;
      }
      var delta := startY - clientY;
      if Expanded(height) {
        if delta > 0.0 {
          return;
        }
        if delta < 0.0 {
          if activeScroll.Some? && ownerScrollTop > 0.0 {
            return;
          }
        }
      }
      if windowHeight != 0.0 {
        var candidate := (startHeight + delta) / windowHeight * 100.0;
        if candidate > 10.0 && candidate <= 100.0 {
          height := candidate;
        }
      }
    }

    /** `handleTouchEnd`: ends the session and releases at the current height, whether or
        not a session was open. */
    method TouchEnd()
      requires Valid()
      modifies this`isDragging, this`height, this`closeRequests, this`activeScroll
      ensures Valid()
      ensures !isDragging && activeScroll == None
      ensures Released(old(height), old(closeRequests))
    {
      isDragging := false;
      SnapToPosition();
      activeScroll := None;
    }

    /** The state after a release at `from`: settled at the chosen snap point, or the height
        kept and one more close request. */
    ghost predicate Released(from: real, closesBefore: nat)
      reads this
    {
      match Snap(from)
      case Dismiss => height == from && closeRequests == closesBefore + 1
      case SettleAt(p) => height == p && closeRequests == closesBefore
    }

    /** `snapToPosition` applied to the current height. */
    method SnapToPosition()
      requires Valid()
      modifies this`height, this`closeRequests
      ensures Valid()
      ensures Released(old(height), old(closeRequests))
    {
      if height < CloseThreshold {
        closeRequests := closeRequests + 1;
        return;
      }
      var distTop := Abs(height - SnapTop);
      var distMiddle := Abs(height - SnapMiddle);
      if distTop < distMiddle {
        height := SnapTop;
      } else {
        height := SnapMiddle;
      }
    }

    /** `handleMouseDown`: as a touch start, and it records whether the scroll owner is at
        its top (only checked when the panel is expanded), then attaches the document-level
        mouse listeners. `ownerScrollTop` is the owner's offset at mouse-down. */
    method MouseDown(path: seq<Element>, root: Option<nat>, clientY: real, sheetHeight: Option<real>, ownerScrollTop: real)
      modifies this`activeScroll, this`isAtTop, this`isDragging, this`startY, this`startHeight, this`mouseTracking
      ensures activeScroll == ScrollOwner(path, root)
      ensures isAtTop == (activeScroll.None? || !Expanded(height) || ownerScrollTop <= 0.0)
      ensures isDragging && startY == clientY && startHeight == sheetHeight.GetOr(0.0)
      ensures mouseTracking
    {
      activeScroll := FindScrollableParent(path, root);
      if activeScroll.Some? && Expanded(height) {
        isAtTop := ownerScrollTop <= 0.0;
      } else {
        isAtTop := true;
      }
      isDragging := true;
      startY := clientY;
      startHeight := if sheetHeight.Some? then sheetHeight.value else 0.0;
      mouseTracking := true;
    }

    /** The document-level `mousemove` listener: only delivered while attached. */
    method MouseMove(clientY: real, windowHeight: real, ownerScrollTop: real)
      requires Valid()
      modifies this`height
      ensures Valid()
      ensures !mouseTracking ==> height == old(height)
      ensures MouseSuppressed(old(height), startY - clientY, isAtTop, activeScroll, ownerScrollTop) ==> height == old(height)
      ensures mouseTracking && !MouseSuppressed(old(height), startY - clientY, isAtTop, activeScroll, ownerScrollTop) ==>
                height == ApplyDrag(old(height), startHeight, startY - clientY, windowHeight)
    {
      if !mouseTracking {
        return;
      }
      var delta := startY - clientY;
      var expanded := Expanded(height);
      if expanded && delta > 0.0 {
        return;
      }
      if expanded && delta < 0.0 {
        if !isAtTop || (activeScroll.Some? && ownerScrollTop > 0.0) {
          return;
        }
      }
      if windowHeight != 0.0 {
        var candidate := (startHeight + delta) / windowHeight * 100.0;
        if candidate > 10.0 && candidate <= 100.0 {
          height := candidate;
        }
      }
    }

    /** The document-level `mouseup` listener: ends the session, detaches the listeners and
        releases at the current height. */
    method MouseUp()
      requires Valid()
      modifies this`isDragging, this`activeScroll, this`mouseTracking, this`height, this`closeRequests
      ensures Valid()
      ensures !old(mouseTracking) ==> unchanged(this)
      ensures old(mouseTracking) ==>
                !isDragging && activeScroll == None && !mouseTracking && Released(old(height), old(closeRequests))
    {
      if !mouseTracking {
        return;
      }
      isDragging := false;
      activeScroll := None;
      mouseTracking := false;
      SnapToPosition();
    }
  }
}
