/**
 * The click handler's decision: a click cycles a task only when it lands on a
 * block's main content, inside the 18-by-18 icon square at its top left
 * (after the left padding), and the block carries the task tag and an id.
 * The DOM geometry (`getComputedStyle`, `getBoundingClientRect`) is given as
 * integer offsets.
 */
module IconClick {
  import opened Wrappers
  import opened TaskStatus

  /** The icon square's side, in pixels. */
  const ICON_EXTENT := 18

  /** The hit-test on offsets relative to the content's padding edge: out when any coordinate leaves `[0, 18]`. */
  function IconHit(x: int, y: int): (hit: bool)
    ensures hit <==> 0 <= x <= ICON_EXTENT && 0 <= y <= ICON_EXTENT
  {
    !(x < 0 || x > ICON_EXTENT || y < 0 || y > ICON_EXTENT)
  }

  /** A click as the handler sees it. */
  datatype Click = Click(
    onMainContent: bool,   // the target has class `orca-repr-main-content`
    clientX: int, clientY: int,
    left: int, top: int,   // the target's bounding rectangle
    paddingLeft: int,      // `parseInt` of its computed left padding
    taskTagInParent: bool, // the parent holds an `.orca-tag` named after the task tag
    blockId: Option<BlockId>)

  /** The block for which the click invokes the cycle command, `None` when the click is ignored. */
  function OnClick(c: Click): (r: Option<BlockId>)
    ensures r.Some? ==> r == c.blockId && c.onMainContent && c.taskTagInParent
    ensures r.Some? ==> 0 <= c.clientX - c.left - c.paddingLeft <= ICON_EXTENT && 0 <= c.clientY - c.top <= ICON_EXTENT
    ensures r.None? ==> !c.onMainContent || !IconHit(c.clientX - c.left - c.paddingLeft, c.clientY - c.top)
                        || !c.taskTagInParent || c.blockId.None?
  {
    if !c.onMainContent then None
    else
      var x := c.clientX - c.left - c.paddingLeft;
      var y := c.clientY - c.top;
      if !IconHit(x, y) then None
      else if !c.taskTagInParent then None
      else c.blockId
  }

  /** The square is closed: its edges at 0 and 18 are inside, one pixel beyond either edge is outside. */
  lemma HitRegionIsClosed(t: int)
    requires 0 <= t <= ICON_EXTENT
    ensures IconHit(0, t) && IconHit(ICON_EXTENT, t) && IconHit(t, 0) && IconHit(t, ICON_EXTENT)
    ensures !IconHit(-1, t) && !IconHit(ICON_EXTENT + 1, t) && !IconHit(t, -1) && !IconHit(t, ICON_EXTENT + 1)
  {
  }

  /** A click at (5, 5) inside a tagged block's content cycles it; one at (25, 5) does not. */
  lemma ClickExamples(left: int, top: int, paddingLeft: int, id: BlockId)
    ensures OnClick(Click(true, left + paddingLeft + 5, top + 5, left, top, paddingLeft, true, Some(id))) == Some(id)
    ensures OnClick(Click(true, left + paddingLeft + 25, top + 5, left, top, paddingLeft, true, Some(id))) == None
    ensures OnClick(Click(true, left + paddingLeft + 5, top + 5, left, top, paddingLeft, false, Some(id))) == None
  {
  }
}
