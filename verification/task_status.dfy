/**
 * The status cycle of a task: the transition table rebuilt from the settings
 * (`readyTag`) and the property list that the cycle command hands to the
 * host's `insertTag` command (`cycleTaskStatus`).
 */
module TaskStatus {
  import opened Wrappers

  /** Host block identifiers. */
  type BlockId = nat

  /** The plugin's string-valued settings. */
  datatype Settings = Settings(
    taskName: string,
    statusName: string,
    statusTodo: string,
    statusDoing: string,
    statusDone: string,
    startTimeName: string,
    endTimeName: string,
    scheduledTimeName: string,
    deadlineTimeName: string)

  /** A property value as the host hands it over: `undefined`, `null`, a string or a date-time (epoch milliseconds). */
  datatype Value = Undefined | Null | Str(str: string) | DateTime(ms: int)

  /** One entry of a tag reference's property list. */
  datatype Prop = Prop(name: string, value: Value)

  /** The reference type the host gives to tag references. */
  const TAG_REF_TYPE := 2
  /** The host's property type for date-times. */
  const DATE_TIME_TYPE := 5

  datatype Ref = Ref(refType: int, alias: string, data: seq<Prop>)
  datatype Block = Block(refs: seq<Ref>)

  datatype Position = Position(blockId: BlockId, offset: int)
  datatype Cursor = Cursor(anchor: Position, focus: Position)

  /** One property of an `insertTag` command: name, optional type, value. */
  datatype PropWrite = PropWrite(name: string, propType: Option<int>, value: Value)

  /** The host write the command issues: `core.editor.insertTag` on a block. */
  datatype TagWrite = InsertTag(blockId: BlockId, tagName: string, props: seq<PropWrite>)

  // ---------------------------------------------------------------------------
  // The transition table

  /**
   * The table `readyTag` builds: cleared, then `"" -> todo`, `todo -> doing`,
   * `doing -> done`, `done -> ""` set in that order, a later set overriding
   * an earlier one when configured values coincide.
   */
  function TransitionTable(todo: string, doing: string, done: string): (t: map<string, string>)
    ensures t.Keys == {"", todo, doing, done}
    ensures t[done] == ""
    ensures doing != done ==> t[doing] == done
    ensures todo != doing && todo != done ==> t[todo] == doing
    ensures todo != "" && doing != "" && done != "" ==> t[""] == todo
  {
    map[][""  := todo][todo := doing][doing := done][done := ""]
  }

  /** The three configured status values are non-empty and pairwise distinct. */
  predicate DistinctStatuses(todo: string, doing: string, done: string) {
    todo != "" && doing != "" && done != "" && todo != doing && todo != done && doing != done
  }

  /** The status reached after `n` lookups from `k`; `None` once a lookup misses. */
  function Iterate(t: map<string, string>, k: string, n: nat): Option<string>
    decreases n
  {
    if n == 0 then Some(k)
    else if k in t then Iterate(t, t[k], n - 1)
    else None
  }

  lemma {:induction false} IterateAdd(t: map<string, string>, k: string, a: nat, b: nat)
    ensures Iterate(t, k, a + b) == match Iterate(t, k, a) case None => None case Some(j) => Iterate(t, j, b)
    decreases a
  {
    if a > 0 && k in t {
      IterateAdd(t, t[k], a - 1, b);
    }
  }

  /** With distinct non-empty values, four steps from any of the four statuses return to it. */
  lemma CycleClosure(todo: string, doing: string, done: string, k: string)
    requires DistinctStatuses(todo, doing, done)
    requires k in {"", todo, doing, done}
    ensures Iterate(TransitionTable(todo, doing, done), k, 4) == Some(k)
  {

  }

  /** No status comes back before the fourth step: the cycle is one orbit of length four. */
  lemma CycleHasPeriodFour(todo: string, doing: string, done: string, k: string, m: nat)
    requires DistinctStatuses(todo, doing, done)
    requires k in {"", todo, doing, done}
    requires 1 <= m <= 3
    ensures Iterate(TransitionTable(todo, doing, done), k, m) != Some(k)
  {

  }

  /** Every multiple of four steps returns to the starting status. */
  lemma {:induction false} CycleReturnsEveryFourSteps(todo: string, doing: string, done: string, k: string, n: nat)
    requires DistinctStatuses(todo, doing, done)
    requires k in {"", todo, doing, done}
    ensures Iterate(TransitionTable(todo, doing, done), k, 4 * n) == Some(k)
  {
    var t := TransitionTable(todo, doing, done);
    if n > 0 {
      CycleReturnsEveryFourSteps(todo, doing, done, k, n - 1);
      IterateAdd(t, k, 4 * (n - 1), 4);
      CycleClosure(todo, doing, done, k);
    }
  }

  /** A status that is not a table key has no successor, and no later step recovers. */
  lemma UnknownStatusHasNoSuccessor(todo: string, doing: string, done: string, k: string, n: nat)
    requires k !in {"", todo, doing, done}
    requires n >= 1
    ensures Iterate(TransitionTable(todo, doing, done), k, n) == None
  {
  }

  // ---------------------------------------------------------------------------
  // Reading the block

  /** `Array.prototype.find` as an index: the first position whose element satisfies `p`. */
  function FindFirst<T>(xs: seq<T>, p: T -> bool): (r: Option<nat>)
    ensures r.Some? ==> r.value < |xs| && p(xs[r.value]) && forall j :: 0 <= j < r.value ==> !p(xs[j])
    ensures r.None? ==> forall j :: 0 <= j < |xs| ==> !p(xs[j])
  {
    if |xs| == 0 then None
    else if p(xs[0]) then Some(0)
    else match FindFirst(xs[1..], p)
      case None => None
      case Some(i) => Some(i + 1)
  }

  /** `data.find(d => d.name === name)?.value`: the first property with that name, `Undefined` when none has it. */
  function ValueOf(data: seq<Prop>, name: string): (v: Value)
    ensures (forall j :: 0 <= j < |data| ==> data[j].name != name) ==> v == Undefined
    ensures forall i :: 0 <= i < |data| && data[i].name == name && (forall j :: 0 <= j < i ==> data[j].name != name)
                        ==> v == data[i].value
  {
    match FindFirst(data, (d: Prop) => d.name == name)
    case None => Undefined
    case Some(i) => data[i].value
  }

  /** A tag reference to the task tag. */
  predicate IsTaskRef(r: Ref, taskName: string) {
    r.refType == TAG_REF_TYPE && r.alias == taskName
  }

  /** `refs.find(r => r.type === 2 && r.alias === taskName)`: the first reference to the task tag. */
  function FindTaskRef(refs: seq<Ref>, taskName: string): (r: Option<Ref>)
    ensures r.Some? ==> exists i :: 0 <= i < |refs| && refs[i] == r.value && IsTaskRef(refs[i], taskName)
                                    && forall j :: 0 <= j < i ==> !IsTaskRef(refs[j], taskName)
    ensures r.None? <==> forall j :: 0 <= j < |refs| ==> !IsTaskRef(refs[j], taskName)
  {
    match FindFirst(refs, (r: Ref) => IsTaskRef(r, taskName))
    case None => None
    case Some(i) => Some(refs[i])
  }

  /** The current status, `?? ""`: a missing or null status reads as the empty status. */
  function CurrentStatus(s: Settings, data: seq<Prop>): (v: Value)
    ensures v != Undefined && v != Null
    ensures ValueOf(data, s.statusName) == Undefined || ValueOf(data, s.statusName) == Null ==> v == Str("")
    ensures ValueOf(data, s.statusName) != Undefined && ValueOf(data, s.statusName) != Null
            ==> v == ValueOf(data, s.statusName)
  {
    var v := ValueOf(data, s.statusName);
    if v == Undefined || v == Null then Str("") else v
  }

  /** `statusState.get(curr)`: the keys are strings, so any other value misses. */
  function NextStatus(table: map<string, string>, curr: Value): (r: Option<string>)
    ensures r.Some? <==> curr.Str? && curr.str in table
    ensures r.Some? ==> r.value == table[curr.str]
  {
    if curr.Str? && curr.str in table then Some(table[curr.str]) else None
  }

  // ---------------------------------------------------------------------------
  // The property lists written back

  /** What the first trigger writes on an untagged block: todo and four nulls, no types. */
  function FirstTriggerProps(s: Settings): (ps: seq<PropWrite>)
    ensures |ps| == 5
    ensures ps[0] == PropWrite(s.statusName, None, Str(s.statusTodo))
    ensures forall i :: 1 <= i < 5 ==> ps[i].value == Null && ps[i].propType == None
  {
    [ PropWrite(s.statusName, None, Str(s.statusTodo)),
      PropWrite(s.startTimeName, None, Null),
      PropWrite(s.endTimeName, None, Null),
      PropWrite(s.scheduledTimeName, None, Null),
      PropWrite(s.deadlineTimeName, None, Null) ]
  }

  /** The configured property names in the order the command writes them. */
  function PropNames(s: Settings): seq<string> {
    [s.statusName, s.startTimeName, s.endTimeName, s.scheduledTimeName, s.deadlineTimeName]
  }

  /** What a cycle on a tagged block writes, given the tag's current property list and the time `now`. */
  function CycledProps(s: Settings, table: map<string, string>, data: seq<Prop>, now: int): (ps: seq<PropWrite>)
    ensures |ps| == 5
    ensures forall i :: 0 <= i < 5 ==> ps[i].name == PropNames(s)[i]
    ensures ps[0].propType == None
    ensures NextStatus(table, CurrentStatus(s, data)).Some? ==>
              ps[0].value == Str(NextStatus(table, CurrentStatus(s, data)).value)
    ensures NextStatus(table, CurrentStatus(s, data)).None? ==> ps[0].value == Undefined
    ensures ps[1].value == if ps[0].value == Str(s.statusDoing) then DateTime(now) else ValueOf(data, s.startTimeName)
    ensures ps[2].value == if ps[0].value == Str(s.statusDone) then DateTime(now) else ValueOf(data, s.endTimeName)
    ensures ps[3].value == ValueOf(data, s.scheduledTimeName)
    ensures ps[4].value == ValueOf(data, s.deadlineTimeName)
    ensures forall i :: 1 <= i < 5 ==> ps[i].propType == Some(DATE_TIME_TYPE)
  {
    var next := NextStatus(table, CurrentStatus(s, data));
    [ PropWrite(s.statusName, None, if next.Some? then Str(next.value) else Undefined),
      PropWrite(s.startTimeName, Some(DATE_TIME_TYPE),
                if next == Some(s.statusDoing) then DateTime(now) else ValueOf(data, s.startTimeName)),
      PropWrite(s.endTimeName, Some(DATE_TIME_TYPE),
                if next == Some(s.statusDone) then DateTime(now) else ValueOf(data, s.endTimeName)),
      PropWrite(s.scheduledTimeName, Some(DATE_TIME_TYPE), ValueOf(data, s.scheduledTimeName)),
      PropWrite(s.deadlineTimeName, Some(DATE_TIME_TYPE), ValueOf(data, s.deadlineTimeName)) ]
  }

  /** The block the command acts on: the explicit id or the cursor's block, through the mirror mapping. */
  function TargetId(mirrorOf: BlockId -> BlockId, cursor: Cursor, id: Option<BlockId>): (r: BlockId)
    ensures id.Some? ==> r == mirrorOf(id.value)
    ensures id.None? ==> r == mirrorOf(cursor.anchor.blockId)
  {
    mirrorOf(if id.Some? then id.value else cursor.anchor.blockId)
  }

  /**
   * The cycle command: `None` when nothing is written (non-collapsed selection,
   * unknown block), otherwise the one `insertTag` write it issues. The table is
   * the module-level one `readyTag` last rebuilt; `now` stands for `new Date()`.
   */
  function CycleTaskStatus(s: Settings, table: map<string, string>, blocks: map<BlockId, Block>,
                           mirrorOf: BlockId -> BlockId, cursor: Cursor, id: Option<BlockId>, now: int): (w: Option<TagWrite>)
    ensures w.Some? <==> cursor.anchor == cursor.focus && TargetId(mirrorOf, cursor, id) in blocks
    ensures w.Some? ==> w.value.blockId == TargetId(mirrorOf, cursor, id) && w.value.tagName == s.taskName
    ensures w.Some? ==> |w.value.props| == 5 && forall i :: 0 <= i < 5 ==> w.value.props[i].name == PropNames(s)[i]
  {
    if cursor.anchor != cursor.focus then None
    else
      var blockId := TargetId(mirrorOf, cursor, id);
      if blockId !in blocks then None
      else match FindTaskRef(blocks[blockId].refs, s.taskName)
        case None => Some(InsertTag(blockId, s.taskName, FirstTriggerProps(s)))
        case Some(ref) => Some(InsertTag(blockId, s.taskName, CycledProps(s, table, ref.data, now)))
  }

  // ---------------------------------------------------------------------------
  // Properties of the command

  /** A block without the task tag gets status todo and all four time properties null. */
  lemma FirstTriggerTagsAsTodo(s: Settings, table: map<string, string>, blocks: map<BlockId, Block>,
                               mirrorOf: BlockId -> BlockId, cursor: Cursor, id: Option<BlockId>, now: int)
    requires cursor.anchor == cursor.focus
    requires TargetId(mirrorOf, cursor, id) in blocks
    requires FindTaskRef(blocks[TargetId(mirrorOf, cursor, id)].refs, s.taskName).None?
    ensures var w := CycleTaskStatus(s, table, blocks, mirrorOf, cursor, id, now);
            w.Some? && w.value.props[0].value == Str(s.statusTodo)
            && forall i :: 1 <= i < 5 ==> w.value.props[i].value == Null
  {
  }

  /** On a tagged block the write is the cycled property list of its task tag. */
  lemma TaggedBlockIsCycled(s: Settings, table: map<string, string>, blocks: map<BlockId, Block>,
                            mirrorOf: BlockId -> BlockId, cursor: Cursor, id: Option<BlockId>, now: int)
    requires cursor.anchor == cursor.focus
    requires TargetId(mirrorOf, cursor, id) in blocks
    requires FindTaskRef(blocks[TargetId(mirrorOf, cursor, id)].refs, s.taskName).Some?
    ensures var ref := FindTaskRef(blocks[TargetId(mirrorOf, cursor, id)].refs, s.taskName).value;
            CycleTaskStatus(s, table, blocks, mirrorOf, cursor, id, now)
              == Some(InsertTag(TargetId(mirrorOf, cursor, id), s.taskName, CycledProps(s, table, ref.data, now)))
  {
  }

  /** A tagged block whose status is missing or null is treated as `""` and moves to todo. */
  lemma MissingStatusStartsTodo(s: Settings, data: seq<Prop>, now: int)
    requires DistinctStatuses(s.statusTodo, s.statusDoing, s.statusDone)
    requires ValueOf(data, s.statusName) == Undefined || ValueOf(data, s.statusName) == Null
    ensures var ps := CycledProps(s, TransitionTable(s.statusTodo, s.statusDoing, s.statusDone), data, now);
            ps[0].value == Str(s.statusTodo)
            && ps[1].value == ValueOf(data, s.startTimeName) && ps[2].value == ValueOf(data, s.endTimeName)
  {
  }

  /** A status that is not a table key yields `undefined` as the written status; times carry forward. */
  lemma UnrecognisedStatusWritesUndefined(s: Settings, table: map<string, string>, data: seq<Prop>, now: int)
    requires !(CurrentStatus(s, data).Str? && CurrentStatus(s, data).str in table)
    ensures var ps := CycledProps(s, table, data, now);
            ps[0].value == Undefined
            && ps[1].value == ValueOf(data, s.startTimeName) && ps[2].value == ValueOf(data, s.endTimeName)
  {
  }

  /**
   * The four transitions under distinct values: todo -> doing stamps the start,
   * doing -> done stamps the end, done -> "" and "" -> todo stamp nothing.
   */
  lemma TimesFollowTransition(s: Settings, data: seq<Prop>, now: int)
    requires DistinctStatuses(s.statusTodo, s.statusDoing, s.statusDone)
    ensures var ps := CycledProps(s, TransitionTable(s.statusTodo, s.statusDoing, s.statusDone), data, now);
            var curr := CurrentStatus(s, data);
            var start := ValueOf(data, s.startTimeName);
            var end := ValueOf(data, s.endTimeName);
            && (curr == Str(s.statusTodo) ==>
                 ps[0].value == Str(s.statusDoing) && ps[1].value == DateTime(now) && ps[2].value == end)
            && (curr == Str(s.statusDoing) ==>
                 ps[0].value == Str(s.statusDone) && ps[1].value == start && ps[2].value == DateTime(now))
            && (curr == Str(s.statusDone) ==>
                 ps[0].value == Str("") && ps[1].value == start && ps[2].value == end)
            && (curr == Str("") ==>
                 ps[0].value == Str(s.statusTodo) && ps[1].value == start && ps[2].value == end)
  {
  }

  /** Scheduled and deadline values are carried forward by every cycle, whatever the table. */
  lemma DatesCarriedForward(s: Settings, table: map<string, string>, data: seq<Prop>, now: int)
    ensures var ps := CycledProps(s, table, data, now);
            ps[3] == PropWrite(s.scheduledTimeName, Some(DATE_TIME_TYPE), ValueOf(data, s.scheduledTimeName))
            && ps[4] == PropWrite(s.deadlineTimeName, Some(DATE_TIME_TYPE), ValueOf(data, s.deadlineTimeName))
  {
  }

  // ---------------------------------------------------------------------------
  // Repeated cycles, assuming the host stores the written pairs as the tag's property list

  /** The property list the host keeps after an `insertTag` write. */
  function Stored(ps: seq<PropWrite>): (data: seq<Prop>)
    ensures |data| == |ps|
    ensures forall i :: 0 <= i < |ps| ==> data[i] == Prop(ps[i].name, ps[i].value)
  {
    seq(|ps|, i requires 0 <= i < |ps| => Prop(ps[i].name, ps[i].value))
  }

  /** The tag's property list after one cycle per entry of `nows`. */
  function CycleRepeatedly(s: Settings, table: map<string, string>, data: seq<Prop>, nows: seq<int>): seq<Prop>
    decreases |nows|
  {
    if |nows| == 0 then data
    else CycleRepeatedly(s, table, Stored(CycledProps(s, table, data, nows[0])), nows[1..])
  }

  /** After one cycle the status read back is the table successor of the current one. */
  lemma OneCycleStatus(s: Settings, table: map<string, string>, data: seq<Prop>, now: int, k: string)
    requires CurrentStatus(s, data) == Str(k) && k in table
    ensures CurrentStatus(s, Stored(CycledProps(s, table, data, now))) == Str(table[k])
  {

  }

  /** Repeated cycles follow the table: the status read back is the `|nows|`-th successor. */
  lemma {:induction false} RepeatedCyclesFollowTable(s: Settings, table: map<string, string>, data: seq<Prop>,
                                                     nows: seq<int>, k: string, j: string)
    requires CurrentStatus(s, data) == Str(k)
    requires Iterate(table, k, |nows|) == Some(j)
    ensures CurrentStatus(s, CycleRepeatedly(s, table, data, nows)) == Str(j)
    decreases |nows|
  {
    if |nows| > 0 {
      OneCycleStatus(s, table, data, nows[0], k);
      RepeatedCyclesFollowTable(s, table, Stored(CycledProps(s, table, data, nows[0])), nows[1..], table[k], j);
    }
  }

  /** Cycling a task four times through the handler restores its status. */
  lemma FourCyclesRestoreStatus(s: Settings, data: seq<Prop>, nows: seq<int>)
    requires DistinctStatuses(s.statusTodo, s.statusDoing, s.statusDone)
    requires CurrentStatus(s, data) in {Str(""), Str(s.statusTodo), Str(s.statusDoing), Str(s.statusDone)}
    requires |nows| == 4
    ensures var table := TransitionTable(s.statusTodo, s.statusDoing, s.statusDone);
            CurrentStatus(s, CycleRepeatedly(s, table, data, nows)) == CurrentStatus(s, data)
  {
    var k := CurrentStatus(s, data).str;
    CycleClosure(s.statusTodo, s.statusDoing, s.statusDone, k);
    RepeatedCyclesFollowTable(s, TransitionTable(s.statusTodo, s.statusDoing, s.statusDone), data, nows, k, k);
  }
}
