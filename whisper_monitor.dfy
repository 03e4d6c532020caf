/**
 * The Whisper monitor's change log (Whisper/index.tsx): one entry
 * `{action, jsonDiff}` per recorded state, rebuilt whenever the recorded
 * actions or states change, windowed by a timestamp cursor that advances
 * after each rebuild and is reset when another instance becomes active.
 *
 * `JSON.stringify` is the parameter `show` and jsondiffpatch's `diff` the
 * parameter `diff`; neither is modelled further.
 */
module WhisperMonitor {
  import opened Js

  /** A recorded action: its timestamp, and the whole record as `JSON.stringify` sees it. */
  datatype Action = Action(timestamp: int, record: Json)

  /** One element of `TActionsMapStates`. */
  datatype ActionMapState = ActionMapState(action: string, jsonDiff: string)

  /** Every index below `n` has a recorded action. */
  predicate HasActions(actionsById: map<nat, Action>, n: nat) {
    forall i: nat :: i < n ==> i in actionsById
  }

  /** Index `i` is left out when its action is older than the cursor. */
  predicate Skipped(actionsById: map<nat, Action>, cursor: int, i: nat)
    requires i in actionsById
  {
    actionsById[i].timestamp < cursor
  }

  /**
   * The entry pushed for index `i`: the serialised action, and the serialised
   * state for index 0 or the serialised `diff(state[i], state[i - 1])` after it.
   */
  function EntryAt(actionsById: map<nat, Action>, computedStates: seq<Json>,
                   diff: (Json, Json) -> Json, show: Json -> string, i: nat): ActionMapState
    requires i < |computedStates| && i in actionsById
  {
    ActionMapState(
      show(actionsById[i].record),
      if i == 0 then show(computedStates[0]) else show(diff(computedStates[i], computedStates[i - 1])))
  }

  /** The entries the loop has pushed once it has visited the indices below `n`. */
  function EntriesUpTo(actionsById: map<nat, Action>, computedStates: seq<Json>, cursor: int,
                       diff: (Json, Json) -> Json, show: Json -> string, n: nat): (r: seq<ActionMapState>)
    requires n <= |computedStates| && HasActions(actionsById, n)
    ensures |r| <= n
    ensures n > 0 && Skipped(actionsById, cursor, n - 1) ==> |r| < n
  {
    if n == 0 then []
    else
      EntriesUpTo(actionsById, computedStates, cursor, diff, show, n - 1) +
      (if Skipped(actionsById, cursor, n - 1) then [] else [EntryAt(actionsById, computedStates, diff, show, n - 1)])
  }

  /** The indices below `n` that are not skipped, in ascending order. */
  function KeptIndices(actionsById: map<nat, Action>, cursor: int, n: nat): seq<nat>
    requires HasActions(actionsById, n)
  {
    if n == 0 then []
    else KeptIndices(actionsById, cursor, n - 1) + (if Skipped(actionsById, cursor, n - 1) then [] else [n - 1])
  }

  /** The cursor after a rebuild: the timestamp of the action at index `n`, when there is one and it is truthy. */
  function NextCursor(actionsById: map<nat, Action>, n: nat, cursor: int): (r: int)
    ensures r != cursor ==> n in actionsById && r == actionsById[n].timestamp && r != 0
    ensures n in actionsById && actionsById[n].timestamp != 0 ==> r == actionsById[n].timestamp
    ensures r == 0 ==> cursor == 0
  {
    if n in actionsById && actionsById[n].timestamp != 0 then actionsById[n].timestamp else cursor
  }

  /**
   * The entry list holds exactly one entry per index that is not skipped, in
   * ascending index order: entry `j` is the entry of the `j`-th kept index.
   */
  lemma {:induction false} EntriesAreKeptIndices(actionsById: map<nat, Action>, computedStates: seq<Json>, cursor: int,
                                                 diff: (Json, Json) -> Json, show: Json -> string, n: nat)
    requires n <= |computedStates| && HasActions(actionsById, n)
    ensures var kept := KeptIndices(actionsById, cursor, n);
      && |EntriesUpTo(actionsById, computedStates, cursor, diff, show, n)| == |kept|
      && (forall j :: 0 <= j < |kept| ==>
            (kept[j] < n &&
             EntriesUpTo(actionsById, computedStates, cursor, diff, show, n)[j] == EntryAt(actionsById, computedStates, diff, show, kept[j])))
      && (forall j, l :: 0 <= j < l < |kept| ==> kept[j] < kept[l])
      && (forall i: nat :: i < n ==> (i in kept <==> !Skipped(actionsById, cursor, i)))
  {
    if n > 0 {
      EntriesAreKeptIndices(actionsById, computedStates, cursor, diff, show, n - 1);
    }
  }

  /**
   * With the cursor at its initial `-1` and no negative timestamp nothing is
   * skipped: entry `i` is the entry of index `i`, the first one carrying the
   * whole first state and every later one the diff against its predecessor.
   */
  lemma {:induction false} NothingSkippedFromReset(actionsById: map<nat, Action>, computedStates: seq<Json>,
                                                   diff: (Json, Json) -> Json, show: Json -> string, n: nat)
    requires n <= |computedStates| && HasActions(actionsById, n)
    requires forall i: nat :: i < n ==> actionsById[i].timestamp >= 0
    ensures |EntriesUpTo(actionsById, computedStates, -1, diff, show, n)| == n
    ensures forall i :: 0 <= i < n ==>
      EntriesUpTo(actionsById, computedStates, -1, diff, show, n)[i] ==
      ActionMapState(show(actionsById[i].record),
                     if i == 0 then show(computedStates[0]) else show(diff(computedStates[i], computedStates[i - 1])))
  {
    if n > 0 {
      NothingSkippedFromReset(actionsById, computedStates, diff, show, n - 1);
    }
  }

  /**
   * Windowing: when timestamps increase strictly with the index and the
   * cursor is the timestamp of the action at index `m`, the kept indices are
   * exactly `m, m + 1, ..., n - 1`.
   */
  lemma {:induction false} CursorWindow(actionsById: map<nat, Action>, m: nat, n: nat)
    requires m in actionsById && HasActions(actionsById, n)
    requires forall i: nat, j: nat :: i < j && i in actionsById && j in actionsById ==>
      actionsById[i].timestamp < actionsById[j].timestamp
    ensures KeptIndices(actionsById, actionsById[m].timestamp, n) == seq(if m < n then n - m else 0, j => m + j)
  {
    if n > 0 {
      CursorWindow(actionsById, m, n - 1);
      var cursor := actionsById[m].timestamp;
      assert Skipped(actionsById, cursor, n - 1) <==> n - 1 < m;
    }
  }

  /** The component's state: the cursor ref and the entry list handed to the chat. */
  class WhisperChat {
    var lastTimestamp: int
    var actionsMapStates: seq<ActionMapState>

    constructor ()
      ensures lastTimestamp == -1 && actionsMapStates == []
    {
      lastTimestamp := -1;
      actionsMapStates := [];
    }

    /** The effect run when the active instance changes: the cursor goes back to `-1`. */
    method OnActiveStateChange()
      modifies this
      ensures lastTimestamp == -1
      ensures actionsMapStates == old(actionsMapStates)
    {
      lastTimestamp := -1;
    }

    /** The effect run once on mount: an unset cursor starts at the first action's timestamp. */
    method OnMount(actionsById: map<nat, Action>)
      modifies this
      ensures lastTimestamp ==
        if old(lastTimestamp) == -1 && 0 in actionsById then actionsById[0].timestamp else old(lastTimestamp)
      ensures actionsMapStates == old(actionsMapStates)
    {
      if lastTimestamp == -1 && 0 in actionsById {
        lastTimestamp := actionsById[0].timestamp;
      }
    }

    /**
     * The effect run when the actions or states change: the entry list is
     * rebuilt from empty and replaces the old one, then the cursor advances.
     * Reading the timestamp of a missing action throws, which abandons the
     * effect with nothing changed (`ok` is false).
     */
    method Rebuild(actionsById: map<nat, Action>, computedStates: seq<Json>,
                   diff: (Json, Json) -> Json, show: Json -> string) returns (ok: bool)
      modifies this
      ensures ok <==> HasActions(actionsById, |computedStates|)
      ensures ok ==>
        (actionsMapStates == EntriesUpTo(actionsById, computedStates, old(lastTimestamp), diff, show, |computedStates|))
      ensures ok ==> lastTimestamp == NextCursor(actionsById, |computedStates|, old(lastTimestamp))
      ensures !ok ==> lastTimestamp == old(lastTimestamp) && actionsMapStates == old(actionsMapStates)
    {
      var entries: seq<ActionMapState> := [];
      var index := 0;
      while index < |computedStates|
        invariant 0 <= index <= |computedStates|
        invariant HasActions(actionsById, index)
        invariant entries == EntriesUpTo(actionsById, computedStates, lastTimestamp, diff, show, index)
        invariant lastTimestamp == old(lastTimestamp)
      {
        if index !in actionsById {
          return false;
        }
        if actionsById[index].timestamp >= lastTimestamp {
          var strAction := show(actionsById[index].record);
          var strState;
          if index == 0 {
            strState := show(computedStates[index]);
          } else {
            strState := show(diff(computedStates[index], computedStates[index - 1]));
          }
          entries := entries + [ActionMapState(strAction, strState)];
        }
        index := index + 1;
      }
      actionsMapStates := entries;
      var n := |computedStates|;
      if n in actionsById && actionsById[n].timestamp != 0 {
        lastTimestamp := actionsById[n].timestamp;
      }
      return true;
    }
  }
}
