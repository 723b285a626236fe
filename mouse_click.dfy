/**
 * The click hit-test of `useMouseClick`: a terminal mouse event, reported in 1-based cells,
 * reaches the handler only when it is the awaited button event and lands inside the
 * container's 0-based layout box; the handler then gets the offset from the box's corner.
 */
module MouseClick {
  import opened Wrappers

  /** A terminal mouse event: its name (`left-press`, `right-release`, …) and 1-based cell. */
  datatype MouseEvent = MouseEvent(name: string, col: int, row: int)

  /** Ink's layout box of the container, 0-based. */
  datatype BoundingBox = BoundingBox(x: int, y: int, width: int, height: int)

  /** The hook's options; an absent field takes its default. */
  datatype ClickOptions = ClickOptions(isActive: Option<bool>, button: Option<string>)

  /** One call of the handler: the original event and the offset inside the box. */
  datatype HandlerCall = HandlerCall(event: MouseEvent, relativeX: int, relativeY: int)

  /** The event awaited for a button: a press of the left button, a release of any other. */
  function EventName(button: string): (name: string)
    ensures name == "left-press" <==> button == "left"
    ensures name != "left-press" ==> name == "right-release"
  {
    if button == "left" then "left-press" else "right-release"
  }

  /**
   * The listener installed for `options`, applied to one event with the container's box
   * (`None` while the ref is unset).
   */
  function OnMouse(options: ClickOptions, container: Option<BoundingBox>, event: MouseEvent): (call: Option<HandlerCall>)
    ensures call.Some? <==>
      options.isActive.GetOr(true)
      && event.name == EventName(options.button.GetOr("left"))
      && container.Some?
      && container.value.x < event.col <= container.value.x + container.value.width
      && container.value.y < event.row <= container.value.y + container.value.height
    ensures call.Some? ==>
      call.value.event == event
      && 0 <= call.value.relativeX < container.value.width
      && 0 <= call.value.relativeY < container.value.height
      && container.value.x + call.value.relativeX + 1 == event.col
      && container.value.y + call.value.relativeY + 1 == event.row
  {
    if !options.isActive.GetOr(true) then None
    else
      var eventName := EventName(options.button.GetOr("left"));
      if event.name == eventName && container.Some? then
        var box := container.value;
        // terminal cells count from 1, the layout from 0
        var mouseX := event.col - 1;
        var mouseY := event.row - 1;
        var relativeX := mouseX - box.x;
        var relativeY := mouseY - box.y;
        if relativeX >= 0 && relativeX < box.width && relativeY >= 0 && relativeY < box.height then
          Some(HandlerCall(event, relativeX, relativeY))
        else None
      else None
  }

  /** A box with no width or no height is never hit. */
  lemma EmptyBoxNeverHit(options: ClickOptions, box: BoundingBox, event: MouseEvent)
    requires box.width <= 0 || box.height <= 0
    ensures OnMouse(options, Some(box), event) == None
  {
  }

  /**
   * A left-button listener and a listener for any other button never both fire on the same
   * event: one waits for a press, the other for a release.
   */
  lemma ButtonsExclusive(left: ClickOptions, other: ClickOptions, container: Option<BoundingBox>, event: MouseEvent)
    requires left.button.GetOr("left") == "left" && other.button.GetOr("left") != "left"
    ensures OnMouse(left, container, event).None? || OnMouse(other, container, event).None?
  {
  }

  /**
   * Two boxes side by side, the second starting where the first ends, never both take the
   * same click.
   */
  lemma AdjacentBoxesExclusive(options: ClickOptions, a: BoundingBox, b: BoundingBox, event: MouseEvent)
    requires b.x == a.x + a.width
    ensures OnMouse(options, Some(a), event).None? || OnMouse(options, Some(b), event).None?
  {
  }
}
