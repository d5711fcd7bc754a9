/**
  The coping-strategy checklist (src/components/CopingStrategies.tsx): the
  records of completed strategies, kept under the
  `mindally-completed-strategies` storage key. A strategy counts as completed
  while some record carries its id; toggling removes its records or appends a
  fresh one.
*/
module CopingStrategies {
  import opened Wrappers
  import opened Types
  import opened Storage
  import opened Seqs

  /** The initial load: a missing key gives no completed strategies. */
  function LoadCompleted(items: map<string, Value>): (completed: seq<CompletedStrategy>)
    ensures StrategiesKey !in items ==> completed == []
    ensures StrategiesKey in items && items[StrategiesKey].CompletedStrategies? ==> completed == items[StrategiesKey].completed
  {
    if StrategiesKey in items && items[StrategiesKey].CompletedStrategies? then items[StrategiesKey].completed else []
  }

  /** `isCompleted`: some record carries the id. */
  function IsCompleted(completed: seq<CompletedStrategy>, id: string): (done: bool)
    ensures done <==> exists i :: 0 <= i < |completed| && completed[i].id == id
  {
    Any(completed, (s: CompletedStrategy) => s.id == id)
  }

  /** `getLastCompletedDate` before formatting: the timestamp of the first record with the id. */
  function LastCompleted(completed: seq<CompletedStrategy>, id: string): (when: Option<string>)
    ensures when.None? <==> !IsCompleted(completed, id)
    ensures when.Some? ==> exists i :: 0 <= i < |completed| && completed[i].id == id && completed[i].lastCompleted == when.value
                                       && forall j :: 0 <= j < i ==> completed[j].id != id
  {
    match Find(completed, (s: CompletedStrategy) => s.id == id)
    case None => None
    case Some(s) => Some(s.lastCompleted)
  }

  /** The records of every other strategy, in their order. */
  function OtherThan(completed: seq<CompletedStrategy>, id: string): (others: seq<CompletedStrategy>)
    ensures forall s :: s in others <==> s in completed && s.id != id
  {
    Filter(completed, (s: CompletedStrategy) => s.id != id)
  }

  /**
    What `toggleStrategy` makes of the list: the id's completed state flips,
    the records of other strategies stay exactly as they were and in order,
    and a newly completed strategy gets one record, at the end, stamped `now`.
  */
  function Toggle(completed: seq<CompletedStrategy>, id: string, now: string): (toggled: seq<CompletedStrategy>)
    ensures IsCompleted(toggled, id) == !IsCompleted(completed, id)
    ensures OtherThan(toggled, id) == OtherThan(completed, id)
    ensures !IsCompleted(completed, id) ==>
      && |toggled| == |completed| + 1
      && toggled[..|completed|] == completed
      && toggled[|completed|] == CompletedStrategy(id, now)
    ensures LastCompleted(toggled, id) == if IsCompleted(completed, id) then None else Some(now)
  {
    var p := (s: CompletedStrategy) => s.id != id;
    if IsCompleted(completed, id) then
      FilterIdempotent(completed, p);
      OtherThan(completed, id)
    else
      var added := CompletedStrategy(id, now);
      FilterAppend(completed, [added], p);
      assert (completed + [added])[..|completed|] == completed;
      completed + [added]
  }

  /** Two toggles in a row restore whether the strategy is completed, and leave the other records alone. */
  lemma ToggleTwiceRestoresMembership(completed: seq<CompletedStrategy>, id: string, first: string, second: string)
    ensures IsCompleted(Toggle(Toggle(completed, id, first), id, second), id) == IsCompleted(completed, id)
    ensures OtherThan(Toggle(Toggle(completed, id, first), id, second), id) == OtherThan(completed, id)
  {
  }

  /** For a strategy that was not completed, completing and un-completing it gives back the very same list. */
  lemma ToggleTwiceFromAbsentIsIdentity(completed: seq<CompletedStrategy>, id: string, first: string, second: string)
    requires !IsCompleted(completed, id)
    ensures Toggle(Toggle(completed, id, first), id, second) == completed
  {
    var p := (s: CompletedStrategy) => s.id != id;
    var once := Toggle(completed, id, first);
    assert once == completed + [CompletedStrategy(id, first)];
    FilterAppend(completed, [CompletedStrategy(id, first)], p);
    FilterKeepsAll(completed, p);
  }

  /** For a completed strategy, two toggles leave one record for it, at the end, with the second timestamp. */
  lemma ToggleTwiceFromPresentRestamps(completed: seq<CompletedStrategy>, id: string, first: string, second: string)
    requires IsCompleted(completed, id)
    ensures Toggle(Toggle(completed, id, first), id, second) == OtherThan(completed, id) + [CompletedStrategy(id, second)]
  {
  }

  ghost predicate UniqueIds(completed: seq<CompletedStrategy>)
  {
    forall i, j :: 0 <= i < j < |completed| ==> completed[i].id != completed[j].id
  }

  lemma {:induction false} OtherThanKeepsUniqueIds(completed: seq<CompletedStrategy>, id: string)
    requires UniqueIds(completed)
    ensures UniqueIds(OtherThan(completed, id))
  {
    if completed != [] {
      var rest := OtherThan(completed[1..], id);
      OtherThanKeepsUniqueIds(completed[1..], id);
      if completed[0].id != id {
        assert OtherThan(completed, id) == [completed[0]] + rest;
        forall j | 0 <= j < |rest| ensures rest[j].id != completed[0].id {
          assert rest[j] in rest;
          var k :| 0 <= k < |completed[1..]| && completed[1..][k] == rest[j];
          assert completed[k + 1] == rest[j];
        }
      }
    }
  }

  /** Toggling keeps ids unique: at most one record per strategy. */
  lemma ToggleKeepsUniqueIds(completed: seq<CompletedStrategy>, id: string, now: string)
    requires UniqueIds(completed)
    ensures UniqueIds(Toggle(completed, id, now))
  {
    if IsCompleted(completed, id) {
      OtherThanKeepsUniqueIds(completed, id);
    }
  }

  class StrategyTracker {
    var completedStrategies: seq<CompletedStrategy>
    const storage: LocalStorage

    ghost predicate Valid()
      reads this, storage
    {
      completedStrategies == LoadCompleted(storage.items)
    }

    /** Mounting: the completed records loaded from storage. */
    constructor (storage: LocalStorage)
      ensures this.storage == storage && Valid()
      ensures completedStrategies == LoadCompleted(storage.items)
    {
      this.storage := storage;
      completedStrategies := LoadCompleted(storage.items);
    }

    /** `toggleStrategy`: replaces the list by its toggled form and writes it to storage. */
    method ToggleStrategy(id: string, now: string)
      requires Valid()
      modifies this, storage
      ensures Valid()
      ensures completedStrategies == Toggle(old(completedStrategies), id, now)
      ensures storage.items == old(storage.items)[StrategiesKey := CompletedStrategies(completedStrategies)]
    {
      var updated: seq<CompletedStrategy>;
      if Any(completedStrategies, (s: CompletedStrategy) => s.id == id) {
        updated := Filter(completedStrategies, (s: CompletedStrategy) => s.id != id);
      } else {
        updated := completedStrategies + [CompletedStrategy(id, now)];
      }
      completedStrategies := updated;
      storage.SetItem(StrategiesKey, CompletedStrategies(updated));
    }
  }
}
