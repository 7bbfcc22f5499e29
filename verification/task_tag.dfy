/**
 * The bookkeeping `readyTag` does on module state and on the host: rebuild the
 * status table, retire the tag block of the previous alias when the configured
 * alias changed, create the tag block if no block has the alias, and (re)apply
 * the tag's property schema. Host commands are modelled as updates of an
 * alias map and a schema map; new block ids come from a counter.
 */
module TaskTag {
  import opened Wrappers
  import opened TaskStatus

  /** The host's property type for single-choice enums. */
  const ENUM_TYPE := 6

  /** One entry of a `core.editor.setProperties` schema (position left to the host). */
  datatype PropertySchema = PropertySchema(name: string, propType: int, choices: seq<string>)

  /** The schema applied to the tag block: an enum status with the three values, then four date-times. */
  function TagSchema(s: Settings): (r: seq<PropertySchema>)
    ensures |r| == 5
    ensures forall i :: 0 <= i < 5 ==> r[i].name == PropNames(s)[i]
    ensures r[0].propType == ENUM_TYPE && r[0].choices == [s.statusTodo, s.statusDoing, s.statusDone]
    ensures forall i :: 1 <= i < 5 ==> r[i].propType == DATE_TIME_TYPE && r[i].choices == []
  {
    [ PropertySchema(s.statusName, ENUM_TYPE, [s.statusTodo, s.statusDoing, s.statusDone]),
      PropertySchema(s.startTimeName, DATE_TIME_TYPE, []),
      PropertySchema(s.endTimeName, DATE_TIME_TYPE, []),
      PropertySchema(s.scheduledTimeName, DATE_TIME_TYPE, []),
      PropertySchema(s.deadlineTimeName, DATE_TIME_TYPE, []) ]
  }

  /** Deleting a block drops every alias that names it. */
  function WithoutBlock(aliases: map<string, BlockId>, id: BlockId): (r: map<string, BlockId>)
    ensures forall a :: a in r <==> a in aliases && aliases[a] != id
    ensures forall a :: a in r ==> r[a] == aliases[a]
  {
    map a | a in aliases && aliases[a] != id :: aliases[a]
  }

  /** The id of the block the old alias names, when the alias changed and the id is truthy (non-zero). */
  function RetiredId(aliases: map<string, BlockId>, prev: string, taskName: string, deleteFails: bool)
    : (r: Option<BlockId>)
    ensures r.Some? <==> taskName != prev && prev in aliases && aliases[prev] != 0 && !deleteFails
    ensures r.Some? ==> r.value == aliases[prev]
  {
    if taskName != prev && prev in aliases && aliases[prev] != 0 && !deleteFails then Some(aliases[prev]) else None
  }

  /** The aliases after the best-effort deletion of the old tag block. */
  function RetireOldTag(aliases: map<string, BlockId>, prev: string, taskName: string, deleteFails: bool)
    : (r: map<string, BlockId>)
    ensures r.Keys <= aliases.Keys
    ensures forall a :: a in r ==> r[a] == aliases[a]
    ensures taskName == prev ==> r == aliases
    ensures deleteFails ==> r == aliases
    ensures prev in aliases && aliases[prev] == 0 ==> r == aliases
    ensures taskName != prev && prev in aliases && aliases[prev] != 0 && !deleteFails
            ==> forall a :: a in aliases && aliases[a] == aliases[prev] ==> a !in r
    ensures forall a :: a in aliases && a !in r ==> taskName != prev && prev in aliases && aliases[a] == aliases[prev]
  {
    match RetiredId(aliases, prev, taskName, deleteFails)
    case None => aliases
    case Some(id) => WithoutBlock(aliases, id)
  }

  /** The schemas after the best-effort deletion: the deleted block's schema goes with it. */
  function SchemasAfterRetire(schemas: map<BlockId, seq<PropertySchema>>, aliases: map<string, BlockId>,
                              prev: string, taskName: string, deleteFails: bool): (r: map<BlockId, seq<PropertySchema>>)
    ensures r.Keys <= schemas.Keys
    ensures forall id :: id in r ==> r[id] == schemas[id]
    ensures RetiredId(aliases, prev, taskName, deleteFails).None? ==> r == schemas
    ensures RetiredId(aliases, prev, taskName, deleteFails).Some? ==>
              r.Keys == schemas.Keys - {RetiredId(aliases, prev, taskName, deleteFails).value}
  {
    match RetiredId(aliases, prev, taskName, deleteFails)
    case None => schemas
    case Some(id) => schemas - {id}
  }

  class TaskPlugin {
    /** The module-level `statusState` map. */
    var statusState: map<string, string>
    /** The module-level `prevTaskTagName`. */
    var prevTaskTagName: string
    /** Host: which block each alias names. */
    var aliases: map<string, BlockId>
    /** Host: the property schema set on each tag block. */
    var schemas: map<BlockId, seq<PropertySchema>>
    /** Host: the id the next inserted block receives. */
    var nextId: BlockId

    /** Every id the host has handed out is below `nextId`; the ids the counter hands out are non-zero. */
    ghost predicate Valid()
      reads this
    {
      && nextId > 0
      && (forall a :: a in aliases ==> aliases[a] < nextId)
      && (forall id :: id in schemas ==> id < nextId)
    }

    /**
     * A plugin instance over a host that already holds the given aliases and schemas.
     * `prevTaskTagName` starts undefined in the source; `""` stands for that, and
     * `Load` overwrites it before any use.
     */
    constructor (hostAliases: map<string, BlockId>, hostSchemas: map<BlockId, seq<PropertySchema>>, freshId: BlockId)
      requires freshId > 0 && forall a :: a in hostAliases ==> hostAliases[a] < freshId
      requires forall id :: id in hostSchemas ==> id < freshId
      ensures Valid()
      ensures statusState == map[] && prevTaskTagName == "" && aliases == hostAliases
      ensures schemas == hostSchemas && nextId == freshId
    {
      statusState := map[];
      prevTaskTagName := "";
      aliases := hostAliases;
      schemas := hostSchemas;
      nextId := freshId;
    }

    /**
     * `readyTag(isUpdate)`. `deleteFails` says whether the host rejects the
     * deletion of the old tag block, an error that is swallowed.
     */
    method ReadyTag(s: Settings, isUpdate: bool, deleteFails: bool)
      requires Valid()
      modifies this
      ensures Valid()
      ensures statusState == TransitionTable(s.statusTodo, s.statusDoing, s.statusDone)
      ensures s.taskName in aliases
      ensures var kept := RetireOldTag(old(aliases), old(prevTaskTagName), s.taskName, deleteFails);
              && (s.taskName in kept ==>
                   aliases == kept && prevTaskTagName == old(prevTaskTagName) && nextId == old(nextId))
              && (s.taskName !in kept ==>
                   aliases == kept[s.taskName := old(nextId)] && prevTaskTagName == s.taskName
                   && nextId == old(nextId) + 1)
      ensures var kept := RetireOldTag(old(aliases), old(prevTaskTagName), s.taskName, deleteFails);
              var left := SchemasAfterRetire(old(schemas), old(aliases), old(prevTaskTagName), s.taskName, deleteFails);
              schemas == if isUpdate || s.taskName !in kept then left[aliases[s.taskName] := TagSchema(s)] else left
    {
      statusState := map[];
      statusState := statusState[""  := s.statusTodo];
      statusState := statusState[s.statusTodo := s.statusDoing];
      statusState := statusState[s.statusDoing := s.statusDone];
      statusState := statusState[s.statusDone := ""];

      RemoveOldTag(s.taskName, deleteFails);
      EnsureTag(s, isUpdate);
    }

    /** Delete the block of the previous alias when the alias changed (best effort). */
    method RemoveOldTag(taskName: string, deleteFails: bool)
      requires Valid()
      modifies this`aliases, this`schemas
      ensures Valid()
      ensures aliases == RetireOldTag(old(aliases), prevTaskTagName, taskName, deleteFails)
      ensures schemas == SchemasAfterRetire(old(schemas), old(aliases), prevTaskTagName, taskName, deleteFails)
    {
      if taskName != prevTaskTagName {
        if prevTaskTagName in aliases {
          var oldTaskId := aliases[prevTaskTagName];
          if oldTaskId != 0 && !deleteFails {
            aliases := WithoutBlock(aliases, oldTaskId);
            schemas := schemas - {oldTaskId};
          }
        }
      }
    }

    /** Create the tag block and its alias when none exists, then apply the schema if asked or new. */
    method EnsureTag(s: Settings, isUpdate: bool)
      requires Valid()
      modifies this`aliases, this`schemas, this`nextId, this`prevTaskTagName
      ensures Valid()
      ensures s.taskName in aliases
      ensures s.taskName in old(aliases) ==>
                aliases == old(aliases) && prevTaskTagName == old(prevTaskTagName) && nextId == old(nextId)
      ensures s.taskName !in old(aliases) ==>
                aliases == old(aliases)[s.taskName := old(nextId)] && prevTaskTagName == s.taskName
                && nextId == old(nextId) + 1 && old(nextId) !in old(aliases).Values
      ensures schemas == if isUpdate || s.taskName !in old(aliases)
                         then old(schemas)[aliases[s.taskName] := TagSchema(s)] else old(schemas)
    {
      var nonExistent := s.taskName !in aliases;
      var taskBlockId: BlockId;
      if nonExistent {
        taskBlockId := nextId;
        nextId := nextId + 1;
        aliases := aliases[s.taskName := taskBlockId];
        prevTaskTagName := s.taskName;
      } else {
        taskBlockId := aliases[s.taskName];
      }

      if isUpdate || nonExistent {
        schemas := schemas[taskBlockId := TagSchema(s)];
      }
    }

    /** The part of `load` that touches the tag: remember the alias, then `readyTag()`. */
    method Load(s: Settings)
      requires Valid()
      modifies this
      ensures Valid()
      ensures statusState == TransitionTable(s.statusTodo, s.statusDoing, s.statusDone)
      ensures prevTaskTagName == s.taskName && s.taskName in aliases
      ensures s.taskName in old(aliases) ==>
                aliases == old(aliases) && schemas == old(schemas) && nextId == old(nextId)
      ensures s.taskName !in old(aliases) ==>
                aliases == old(aliases)[s.taskName := old(nextId)]
                && schemas == old(schemas)[old(nextId) := TagSchema(s)] && nextId == old(nextId) + 1
    {
      prevTaskTagName := s.taskName;
      ReadyTag(s, false, false);
    }

    /** The settings subscription: `readyTag(true)` on the new settings. */
    method SettingsChanged(s: Settings, deleteFails: bool)
      requires Valid()
      modifies this
      ensures Valid()
      ensures statusState == TransitionTable(s.statusTodo, s.statusDoing, s.statusDone)
      ensures s.taskName in aliases && aliases[s.taskName] in schemas && schemas[aliases[s.taskName]] == TagSchema(s)
      ensures s.taskName != old(prevTaskTagName) && old(prevTaskTagName) in old(aliases)
              && old(aliases)[old(prevTaskTagName)] != 0 && !deleteFails
              ==> old(prevTaskTagName) !in aliases
      ensures deleteFails && old(prevTaskTagName) in old(aliases) && old(prevTaskTagName) != s.taskName
              ==> old(prevTaskTagName) in aliases
      ensures var kept := RetireOldTag(old(aliases), old(prevTaskTagName), s.taskName, deleteFails);
              && (s.taskName in kept ==>
                   aliases == kept && prevTaskTagName == old(prevTaskTagName) && nextId == old(nextId))
              && (s.taskName !in kept ==>
                   aliases == kept[s.taskName := old(nextId)] && prevTaskTagName == s.taskName
                   && nextId == old(nextId) + 1)
      ensures schemas == SchemasAfterRetire(old(schemas), old(aliases), old(prevTaskTagName), s.taskName, deleteFails)
                           [aliases[s.taskName] := TagSchema(s)]
    {
      ReadyTag(s, true, deleteFails);
    }
  }

  /**
   * `prevTaskTagName` moves only when a tag block is created: renaming to an
   * alias that some block already has retires the old tag but keeps the old
   * name as the one to retire next time.
   */
  lemma AdoptedTagKeepsPreviousName(aliases: map<string, BlockId>, prev: string, taskName: string, deleteFails: bool)
    requires taskName != prev && taskName in aliases && prev in aliases
    requires aliases[taskName] != aliases[prev]
    ensures taskName in RetireOldTag(aliases, prev, taskName, deleteFails)
  {
  }
}
