/**
 * One reconcile pass of `updateTaskDates`: every rendered block whose task tag
 * carries a usable scheduled and/or deadline attribute gets one formatted
 * annotation attribute. The date formatter (`parseInt`, `new Date`, `format`)
 * is a parameter.
 */
module DateAnnotations {
  import opened Wrappers

  type Attrs = map<string, string>

  /** A rendered `.orca-tag` element: its `data-name` and its other attributes. */
  datatype TagElement = TagElement(dataName: string, attrs: Attrs)

  /** A rendered `.orca-repr-main`: its task-tag element, if any, and its own attributes. */
  datatype RenderedBlock = RenderedBlock(tag: Option<TagElement>, annotations: Attrs)

  const FORMATTED_DEADLINE := "data-formatted-deadline"
  const FORMATTED_SCHEDULED := "data-formatted-scheduled"
  const FORMATTED_DATES := "data-formatted-dates"
  const NULL_SENTINEL := "null"
  const DEADLINE_PREFIX := "Deadl.: "
  const SCHEDULED_PREFIX := "Sched.: "
  const DATES_SEPARATOR := "      "

  /** `getAttribute("data-" + name)`. */
  function Attr(t: TagElement, name: string): Option<string> {
    if "data-" + name in t.attrs then Some(t.attrs["data-" + name]) else None
  }

  /** The selector test `[data-x]:not([data-x="null"])`; its negation is the `:is([data-x="null"], :not([data-x]))` test. */
  predicate Present(v: Option<string>): (p: bool)
    ensures !p <==> v.None? || v == Some(NULL_SENTINEL)
  {
    v.Some? && v.value != NULL_SENTINEL
  }

  /** The guard inside each loop: not `!v` (absent or empty) and not `"null"`. */
  predicate Usable(v: Option<string>): (u: bool)
    ensures u <==> Present(v) && v != Some("")
  {
    v.Some? && v.value != "" && v.value != NULL_SENTINEL
  }

  /** The three selectors of the pass. */
  datatype Category = DeadlineOnly | ScheduledOnly | BothDates

  /** Whether the block matches the category's `:has(...)` selector. */
  predicate Matches(c: Category, b: RenderedBlock, taskTagName: string, scheduledName: string, deadlineName: string)
    : (m: bool)
    ensures m ==> b.tag.Some? && b.tag.value.dataName == taskTagName
    ensures m ==> Present(Attr(b.tag.value, scheduledName)) || Present(Attr(b.tag.value, deadlineName))
  {
    && b.tag.Some?
    && b.tag.value.dataName == taskTagName
    && var sv := Attr(b.tag.value, scheduledName);
       var dv := Attr(b.tag.value, deadlineName);
       match c
       case DeadlineOnly => Present(dv) && !Present(sv)
       case ScheduledOnly => Present(sv) && !Present(dv)
       case BothDates => Present(sv) && Present(dv)
  }

  /** What one `forEach` body does to one block of its category. */
  function Pass(c: Category, b: RenderedBlock, taskTagName: string, scheduledName: string, deadlineName: string,
                fmt: string -> string): (r: RenderedBlock)
    ensures r.tag == b.tag
  {
    if !Matches(c, b, taskTagName, scheduledName, deadlineName) then b
    else
      var sv := Attr(b.tag.value, scheduledName);
      var dv := Attr(b.tag.value, deadlineName);
      match c
      case DeadlineOnly =>
        if !Usable(dv) then b
        else b.(annotations := b.annotations[FORMATTED_DEADLINE := DEADLINE_PREFIX + fmt(dv.value)])
      case ScheduledOnly =>
        if !Usable(sv) then b
        else b.(annotations := b.annotations[FORMATTED_SCHEDULED := SCHEDULED_PREFIX + fmt(sv.value)])
      case BothDates =>
        if !Usable(sv) || !Usable(dv) then b
        else b.(annotations := b.annotations[FORMATTED_DATES :=
                  SCHEDULED_PREFIX + fmt(sv.value) + DATES_SEPARATOR + DEADLINE_PREFIX + fmt(dv.value)])
  }

  /** The three passes in source order, applied to one block. */
  function Annotated(b: RenderedBlock, taskTagName: string, scheduledName: string, deadlineName: string,
                     fmt: string -> string): (r: RenderedBlock)
    ensures r.tag == b.tag
    ensures b.annotations.Keys <= r.annotations.Keys
  {
    Pass(BothDates,
      Pass(ScheduledOnly,
        Pass(DeadlineOnly, b, taskTagName, scheduledName, deadlineName, fmt),
        taskTagName, scheduledName, deadlineName, fmt),
      taskTagName, scheduledName, deadlineName, fmt)
  }

  /** One pass over the whole document. */
  function Reconciled(bs: seq<RenderedBlock>, taskTagName: string, scheduledName: string, deadlineName: string,
                      fmt: string -> string): (r: seq<RenderedBlock>)
    ensures |r| == |bs|
    ensures forall i :: 0 <= i < |bs| ==> r[i] == Annotated(bs[i], taskTagName, scheduledName, deadlineName, fmt)
  {
    seq(|bs|, i requires 0 <= i < |bs| => Annotated(bs[i], taskTagName, scheduledName, deadlineName, fmt))
  }

  // ---------------------------------------------------------------------------
  // Properties of the pass

  /** The three selectors are mutually exclusive. */
  lemma CategoriesExclusive(b: RenderedBlock, taskTagName: string, scheduledName: string, deadlineName: string,
                            c1: Category, c2: Category)
    requires Matches(c1, b, taskTagName, scheduledName, deadlineName)
    requires Matches(c2, b, taskTagName, scheduledName, deadlineName)
    ensures c1 == c2
  {
  }

  /**
   * Reference classification in one step: the attribute and text the pass
   * writes on a block, `None` when it writes nothing.
   */
  function Annotation(b: RenderedBlock, taskTagName: string, scheduledName: string, deadlineName: string,
                      fmt: string -> string): (r: Option<(string, string)>)
    ensures r.Some? ==> r.value.0 in {FORMATTED_DEADLINE, FORMATTED_SCHEDULED, FORMATTED_DATES}
    ensures r.Some? ==> b.tag.Some? && b.tag.value.dataName == taskTagName
  {
    if b.tag.None? || b.tag.value.dataName != taskTagName then None
    else
      var sv := Attr(b.tag.value, scheduledName);
      var dv := Attr(b.tag.value, deadlineName);
      if Usable(sv) && Usable(dv) then
        Some((FORMATTED_DATES, SCHEDULED_PREFIX + fmt(sv.value) + DATES_SEPARATOR + DEADLINE_PREFIX + fmt(dv.value)))
      else if Usable(dv) && !Present(sv) then Some((FORMATTED_DEADLINE, DEADLINE_PREFIX + fmt(dv.value)))
      else if Usable(sv) && !Present(dv) then Some((FORMATTED_SCHEDULED, SCHEDULED_PREFIX + fmt(sv.value)))
      else None
  }

  /** The three passes in sequence do exactly what the one-step classification says. */
  lemma PassesAgreeWithAnnotation(b: RenderedBlock, taskTagName: string, scheduledName: string,
                                  deadlineName: string, fmt: string -> string)
    ensures Annotated(b, taskTagName, scheduledName, deadlineName, fmt)
            == match Annotation(b, taskTagName, scheduledName, deadlineName, fmt)
               case None => b
               case Some(kv) => b.(annotations := b.annotations[kv.0 := kv.1])
  {

  }

  /** Exactly what the pass writes on a block, by category; a block in no category is untouched. */
  lemma AnnotatedByCategory(b: RenderedBlock, taskTagName: string, scheduledName: string,
                            deadlineName: string, fmt: string -> string)
    ensures var r := Annotated(b, taskTagName, scheduledName, deadlineName, fmt);
            && r.tag == b.tag
            && (Matches(DeadlineOnly, b, taskTagName, scheduledName, deadlineName)
                && Usable(Attr(b.tag.value, deadlineName)) ==>
                  r.annotations == b.annotations[FORMATTED_DEADLINE :=
                    DEADLINE_PREFIX + fmt(Attr(b.tag.value, deadlineName).value)])
            && (Matches(ScheduledOnly, b, taskTagName, scheduledName, deadlineName)
                && Usable(Attr(b.tag.value, scheduledName)) ==>
                  r.annotations == b.annotations[FORMATTED_SCHEDULED :=
                    SCHEDULED_PREFIX + fmt(Attr(b.tag.value, scheduledName).value)])
            && (Matches(BothDates, b, taskTagName, scheduledName, deadlineName)
                && Usable(Attr(b.tag.value, scheduledName)) && Usable(Attr(b.tag.value, deadlineName)) ==>
                  r.annotations == b.annotations[FORMATTED_DATES :=
                    SCHEDULED_PREFIX + fmt(Attr(b.tag.value, scheduledName).value) + DATES_SEPARATOR
                    + DEADLINE_PREFIX + fmt(Attr(b.tag.value, deadlineName).value)])
            && ((!Matches(DeadlineOnly, b, taskTagName, scheduledName, deadlineName)
                 && !Matches(ScheduledOnly, b, taskTagName, scheduledName, deadlineName)
                 && !Matches(BothDates, b, taskTagName, scheduledName, deadlineName)) ==> r == b)
  {

  }

  /**
   * The pass adds or overwrites at most one of the three annotation
   * attributes and never removes one: an annotation written for dates that
   * have since been cleared stays.
   */
  lemma AnnotationsNeverRemoved(b: RenderedBlock, taskTagName: string, scheduledName: string,
                                deadlineName: string, fmt: string -> string)
    ensures var r := Annotated(b, taskTagName, scheduledName, deadlineName, fmt);
            && b.annotations.Keys <= r.annotations.Keys
            && |r.annotations.Keys - b.annotations.Keys| <= 1
            && forall k :: k in b.annotations && k !in {FORMATTED_DEADLINE, FORMATTED_SCHEDULED, FORMATTED_DATES}
                 ==> r.annotations[k] == b.annotations[k]
  {

  }

  /** A task block with neither date set keeps whatever annotations it had. */
  lemma StaleAnnotationPersists(b: RenderedBlock, taskTagName: string, scheduledName: string, deadlineName: string,
                                fmt: string -> string)
    requires b.tag.Some? ==> !Present(Attr(b.tag.value, scheduledName)) && !Present(Attr(b.tag.value, deadlineName))
    ensures Annotated(b, taskTagName, scheduledName, deadlineName, fmt) == b
  {
  }

  /** An empty scheduled attribute passes the "both" selector but fails its guard, so a valid deadline is not shown. */
  lemma EmptyScheduledHidesDeadline(b: RenderedBlock, taskTagName: string, scheduledName: string,
                                    deadlineName: string, fmt: string -> string)
    requires b.tag.Some? && b.tag.value.dataName == taskTagName
    requires Attr(b.tag.value, scheduledName) == Some("")
    requires Usable(Attr(b.tag.value, deadlineName))
    ensures Annotated(b, taskTagName, scheduledName, deadlineName, fmt) == b
  {
  }

  /** Running the pass on its own output changes nothing. */
  lemma AnnotatedIdempotent(b: RenderedBlock, taskTagName: string, scheduledName: string,
                            deadlineName: string, fmt: string -> string)
    ensures var r := Annotated(b, taskTagName, scheduledName, deadlineName, fmt);
            Annotated(r, taskTagName, scheduledName, deadlineName, fmt) == r
  {

  }

  /** A second reconcile pass on an unchanged document is a no-op. */
  lemma {:induction false} ReconcileIdempotent(bs: seq<RenderedBlock>, taskTagName: string, scheduledName: string,
                                               deadlineName: string, fmt: string -> string)
    ensures var r := Reconciled(bs, taskTagName, scheduledName, deadlineName, fmt);
            Reconciled(r, taskTagName, scheduledName, deadlineName, fmt) == r
  {
    var r := Reconciled(bs, taskTagName, scheduledName, deadlineName, fmt);
    var r2 := Reconciled(r, taskTagName, scheduledName, deadlineName, fmt);
    forall i | 0 <= i < |bs|
      ensures r2[i] == r[i]
    {
      AnnotatedIdempotent(bs[i], taskTagName, scheduledName, deadlineName, fmt);
    }
  }

  // ---------------------------------------------------------------------------
  // The pass as the source runs it: three loops setting attributes in place

  class RenderedDocument {
    /** The rendered blocks in document order. */
    var blocks: seq<RenderedBlock>

    constructor (initial: seq<RenderedBlock>)
      ensures blocks == initial
    {
      blocks := initial;
    }

    /** `updateTaskDates(taskTagName, scheduledName, deadlineName)`. */
    method UpdateTaskDates(taskTagName: string, scheduledName: string, deadlineName: string, fmt: string -> string)
      modifies this
      ensures blocks == Reconciled(old(blocks), taskTagName, scheduledName, deadlineName, fmt)
    {
      RunPass(DeadlineOnly, taskTagName, scheduledName, deadlineName, fmt);
      RunPass(ScheduledOnly, taskTagName, scheduledName, deadlineName, fmt);
      RunPass(BothDates, taskTagName, scheduledName, deadlineName, fmt);
    }

    /** One `querySelectorAll(...).forEach(...)` loop. */
    method RunPass(c: Category, taskTagName: string, scheduledName: string, deadlineName: string,
                   fmt: string -> string)
      modifies this
      ensures |blocks| == |old(blocks)|
      ensures forall k :: 0 <= k < |blocks| ==>
                blocks[k] == Pass(c, old(blocks)[k], taskTagName, scheduledName, deadlineName, fmt)
    {
      var i := 0;
      while i < |blocks|
        invariant 0 <= i <= |blocks| == |old(blocks)|
        invariant forall k :: 0 <= k < i ==>
                    blocks[k] == Pass(c, old(blocks)[k], taskTagName, scheduledName, deadlineName, fmt)
        invariant forall k :: i <= k < |blocks| ==> blocks[k] == old(blocks)[k]
      {
        var b := blocks[i];
        if Matches(c, b, taskTagName, scheduledName, deadlineName) {
          var scheduled := Attr(b.tag.value, scheduledName);
          var deadline := Attr(b.tag.value, deadlineName);
          match c {
            case DeadlineOnly =>
              if Usable(deadline) {
                b := b.(annotations := b.annotations[FORMATTED_DEADLINE := DEADLINE_PREFIX + fmt(deadline.value)]);
              }
            case ScheduledOnly =>
              if Usable(scheduled) {
                b := b.(annotations := b.annotations[FORMATTED_SCHEDULED := SCHEDULED_PREFIX + fmt(scheduled.value)]);
              }
            case BothDates =>
              if Usable(scheduled) && Usable(deadline) {
                b := b.(annotations := b.annotations[FORMATTED_DATES :=
                       SCHEDULED_PREFIX + fmt(scheduled.value) + DATES_SEPARATOR + DEADLINE_PREFIX + fmt(deadline.value)]);
              }
          }
        }
        blocks := blocks[i := b];
        i := i + 1;
      }
    }
  }
}
