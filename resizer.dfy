/**
 * The drag handle between the editor panel and the preview panel,
 * `setupResizer`: a pointer pressed on the handle starts a drag, moves
 * resize the left panel relative to where the drag started, and releasing
 * ends it. The mouse path keeps the panel within bounds; the touch path
 * does not. Pixel values are integers; the panel's measured width and the
 * window's inner width are inputs read when the event arrives.
 */
module Resizer {
  import opened Wrappers

  /** The left panel must stay wider than this on the mouse path. */
  const MinWidth: int := 320
  /** The mouse path leaves at least this much of the window to the right panel. */
  const RightReserve: int := 420

  /**
   * The events the handlers listen to, with what each handler reads: the
   * pointer's `clientX`, the left panel's measured width on a press, the
   * window's inner width on a mouse move.
   */
  datatype Event =
    | MouseDown(clientX: int, panelWidth: int)
    | MouseMove(clientX: int, innerWidth: int)
    | MouseUp
    | TouchStart(clientX: int, panelWidth: int)
    | TouchMove(clientX: int)
    | TouchEnd

  /**
   * The closure's state and what the handlers write: whether a drag is on,
   * where it started, the panel width when it started, the width set on the
   * left panel (`None` until a handler sets one), and the body's cursor and
   * user-select styles.
   */
  datatype DragState = DragState(
    dragging: bool, startX: int, startWidth: int,
    width: Option<int>, cursor: string, userSelect: string)

  /** Before any event: no drag, no width set, no body styles. */
  const Initial: DragState := DragState(false, 0, 0, None, "", "")

  /** The width a mouse move asks for, when it lies strictly between the bounds. */
  function MouseWidth(startWidth: int, dx: int, innerWidth: int): (w: Option<int>)
    ensures w.Some? <==> MinWidth < startWidth + dx < innerWidth - RightReserve
    ensures w.Some? ==> w.value == startWidth + dx
  {
    var newWidth := startWidth + dx;
    if newWidth > MinWidth && newWidth < innerWidth - RightReserve then Some(newWidth) else None
  }

  predicate IsMove(e: Event)
  {
    e.MouseMove? || e.TouchMove?
  }

  /** The events that never start a drag. */
  predicate Passive(e: Event)
  {
    e.MouseMove? || e.MouseUp? || e.TouchMove? || e.TouchEnd?
  }

  /** The state after one event, as its handler leaves it. */
  function Next(s: DragState, e: Event): (r: DragState)
    ensures r.dragging <==> e.MouseDown? || e.TouchStart? || (s.dragging && IsMove(e))
    ensures e.MouseDown? || e.TouchStart? ==> r.startX == e.clientX && r.startWidth == e.panelWidth
    ensures !(e.MouseDown? || e.TouchStart?) ==> r.startX == s.startX && r.startWidth == s.startWidth
    ensures r.width != s.width ==> s.dragging && IsMove(e)
  {
    match e
    case MouseDown(x, panelWidth) =>
      s.(dragging := true, startX := x, startWidth := panelWidth, cursor := "col-resize", userSelect := "none")
    case MouseMove(x, innerWidth) =>
      if !s.dragging then s
      else
        var w := MouseWidth(s.startWidth, x - s.startX, innerWidth);
        if w.Some? then s.(width := w) else s
    case MouseUp =>
      if !s.dragging then s else s.(dragging := false, cursor := "", userSelect := "")
    case TouchStart(x, panelWidth) =>
      s.(dragging := true, startX := x, startWidth := panelWidth)
    case TouchMove(x) =>
      if !s.dragging then s else s.(width := Some(s.startWidth + (x - s.startX)))
    case TouchEnd =>
      s.(dragging := false)
  }

  /**
   * The state after a run of events, handled in order; a helper for the
   * lemmas about runs, `IdleIgnoresPassive` and `MouseRunKeepsMin`.
   */
  function Run(s: DragState, events: seq<Event>): DragState
    decreases |events|
  {
    if events == [] then s else Run(Next(s, events[0]), events[1..])
  }

  /** Outside a drag, moves, releases and touch ends change nothing, however many arrive. */
  lemma {:induction false} IdleIgnoresPassive(s: DragState, events: seq<Event>)
    requires !s.dragging
    requires forall k :: 0 <= k < |events| ==> Passive(events[k])
    ensures Run(s, events) == s
    decreases |events|
  {
    if events != [] {
      assert Next(s, events[0]) == s;
      IdleIgnoresPassive(s, events[1..]);
    }
  }

  /**
   * A mouse move changes the width only during a drag and only to a width
   * strictly between the bounds, namely the start width plus the pointer's
   * displacement since the press.
   */
  lemma MouseMoveBounded(s: DragState, x: int, innerWidth: int)
    ensures var t := Next(s, MouseMove(x, innerWidth));
      && (t.width != s.width ==>
            && s.dragging
            && MinWidth < t.width.value < innerWidth - RightReserve
            && t.width.value == s.startWidth + (x - s.startX))
      && (s.dragging && MinWidth < s.startWidth + (x - s.startX) < innerWidth - RightReserve ==>
            t.width == Some(s.startWidth + (x - s.startX)))
  {
  }

  /** Moves change the width and nothing else: the drag's anchor and the body styles stay. */
  lemma MovesOnlySetWidth(s: DragState, e: Event)
    requires IsMove(e)
    ensures Next(s, e) == s.(width := Next(s, e).width)
  {
  }

  /**
   * Some mouse position gives a width exactly when the window is wide enough
   * for a width strictly between the bounds; in a narrower window the mouse
   * cannot resize at all.
   */
  lemma MouseResizePossible(startWidth: int, innerWidth: int)
    ensures (exists dx :: MouseWidth(startWidth, dx, innerWidth).Some?)
        <==> innerWidth >= MinWidth + RightReserve + 2
  {
    if innerWidth >= MinWidth + RightReserve + 2 {
      assert MouseWidth(startWidth, MinWidth + 1 - startWidth, innerWidth).Some?;
    }
  }

  /** A window narrower than the two bounds together freezes the width on the mouse path. */
  lemma NarrowWindowFreezes(s: DragState, x: int, innerWidth: int)
    requires innerWidth < MinWidth + RightReserve + 2
    ensures Next(s, MouseMove(x, innerWidth)) == s
  {
    MouseResizePossible(s.startWidth, innerWidth);
  }

  /** The lower bound holds for every width the mouse path leaves, over any run of mouse events. */
  predicate AboveMin(s: DragState)
  {
    s.width.Some? ==> s.width.value > MinWidth
  }

  lemma {:induction false} MouseRunKeepsMin(s: DragState, events: seq<Event>)
    requires AboveMin(s)
    requires forall k :: 0 <= k < |events| ==> !events[k].TouchMove?
    ensures AboveMin(Run(s, events))
    decreases |events|
  {
    if events != [] {
      assert AboveMin(Next(s, events[0]));
      MouseRunKeepsMin(Next(s, events[0]), events[1..]);
    }
  }

  /** A touch move during a drag sets the start width plus the displacement, with no bound at all. */
  lemma TouchMoveUnbounded(s: DragState, x: int)
    requires s.dragging
    ensures Next(s, TouchMove(x)).width == Some(s.startWidth + (x - s.startX))
  {
  }

  /** A touch drag can make the width negative, where a mouse drag would have left it alone. */
  lemma TouchCanGoNegative()
    ensures var s := Next(Initial, TouchStart(500, 300));
      && Next(s, TouchMove(0)).width == Some(-200)
      && Next(s, MouseMove(0, 1920)).width == None
  {
  }

  /** Releasing the mouse during a drag ends it and clears the body styles, keeping the width. */
  lemma MouseUpEndsDrag(s: DragState)
    requires s.dragging
    ensures var t := Next(s, MouseUp);
      !t.dragging && t.cursor == "" && t.userSelect == "" && t.width == s.width
  {
  }

  /** The handlers and the closure state they share. */
  class DragHandle {
    var dragging: bool
    var startX: int
    var startWidth: int
    /** The width set on the left panel's style, in pixels. */
    var width: Option<int>
    /** The body's `cursor` and `user-select` styles. */
    var cursor: string
    var userSelect: string

    function State(): DragState
      reads this
    {
      DragState(dragging, startX, startWidth, width, cursor, userSelect)
    }

    constructor ()
      ensures State() == Initial
    {
      dragging, startX, startWidth := false, 0, 0;
      width, cursor, userSelect := None, "", "";
    }

    method OnMouseDown(clientX: int, panelWidth: int)
      modifies this
      ensures State() == Next(old(State()), MouseDown(clientX, panelWidth))
    {
      dragging := true;
      startX := clientX;
      startWidth := panelWidth;
      cursor := "col-resize";
      userSelect := "none";
    }

    method OnMouseMove(clientX: int, innerWidth: int)
      modifies this
      ensures State() == Next(old(State()), MouseMove(clientX, innerWidth))
    {
      if !dragging {
        return;
      }
      var dx := clientX - startX;
      var newWidth := startWidth + dx;
      var min := MinWidth;
      var max := innerWidth - RightReserve;
      if newWidth > min && newWidth < max {
        width := Some(newWidth);
      }
    }

    method OnMouseUp()
      modifies this
      ensures State() == Next(old(State()), MouseUp)
    {
      if !dragging {
        return;
      }
      dragging := false;
      cursor := "";
      userSelect := "";
    }

    method OnTouchStart(clientX: int, panelWidth: int)
      modifies this
      ensures State() == Next(old(State()), TouchStart(clientX, panelWidth))
    {
      dragging := true;
      startX := clientX;
      startWidth := panelWidth;
    }

    method OnTouchMove(clientX: int)
      modifies this
      ensures State() == Next(old(State()), TouchMove(clientX))
    {
      if !dragging {
        return;
      }
      var dx := clientX - startX;
      width := Some(startWidth + dx);
    }

    method OnTouchEnd()
      modifies this
      ensures State() == Next(old(State()), TouchEnd)
    {
      dragging := false;
    }
  }
}
