/**
  The mood log held by the top-level component (src/App.tsx): mood entries,
  newest first, kept under the `mindfull-entries` storage key. The
  `onSaveMood` wiring through the layout is `SubmitMoodForm`.
*/
module App {
  import opened Wrappers
  import opened Types
  import opened Storage
  import opened MoodTracker
  import opened Seqs

  /** The initial load: a missing key gives an empty log. */
  function LoadMoods(items: map<string, Value>): (entries: seq<MoodEntry>)
    ensures MoodKey !in items ==> entries == []
    ensures MoodKey in items && items[MoodKey].MoodEntries? ==> entries == items[MoodKey].moods
  {
    if MoodKey in items && items[MoodKey].MoodEntries? then items[MoodKey].moods else []
  }

  /** `{ ...entry, id }`: the draft's fields under the given id. */
  function WithId(draft: MoodDraft, id: string): (entry: MoodEntry)
    ensures entry.id == id
    ensures entry.date == draft.date && entry.mood == draft.mood && entry.journal == draft.journal
  {
    MoodEntry(id, draft.date, draft.mood, draft.journal)
  }

  class MoodStore {
    var entries: seq<MoodEntry>
    const storage: LocalStorage
    /** The entries found in storage on mount. */
    ghost var loaded: seq<MoodEntry>
    /** Every entry saved since mount, in the order of the saves. */
    ghost var saved: seq<MoodEntry>

    ghost predicate Valid()
      reads this, storage
    {
      && entries == LoadMoods(storage.items)
      && entries == PrependAll(loaded, saved)
    }

    /** The log lists the saved entries newest first, then the loaded ones in their stored order. */
    lemma SavesNewestFirst()
      requires Valid()
      ensures entries == Reverse(saved) + loaded
      ensures |entries| == |loaded| + |saved|
    {
      PrependAllReverses(loaded, saved);
    }

    /** Mounting: the entries loaded from storage. */
    constructor (storage: LocalStorage)
      ensures this.storage == storage && Valid()
      ensures entries == LoadMoods(storage.items)
      ensures loaded == entries && saved == []
    {
      this.storage := storage;
      entries := LoadMoods(storage.items);
      loaded := LoadMoods(storage.items);
      saved := [];
    }

    /**
      `handleSaveMood`: the draft, given the fresh id, goes in front of the
      old entries; the new list is written under the mood key and no other
      key changes.
    */
    method HandleSaveMood(draft: MoodDraft, freshId: string)
      requires Valid()
      modifies this, storage
      ensures Valid()
      ensures entries == [WithId(draft, freshId)] + old(entries)
      ensures |entries| == |old(entries)| + 1 && entries[1..] == old(entries)
      ensures storage.items == old(storage.items)[MoodKey := MoodEntries(entries)]
      ensures loaded == old(loaded) && saved == old(saved) + [WithId(draft, freshId)]
    {
      var updated := [WithId(draft, freshId)] + entries;
      PrependAllSnoc(loaded, saved, WithId(draft, freshId));
      entries := updated;
      saved := saved + [WithId(draft, freshId)];
      storage.SetItem(MoodKey, MoodEntries(updated));
    }
  }

  /**
    Pressing "Save Entry" on the mood form: when a mood is selected the form
    emits one draft and the store records it; otherwise neither changes.
  */
  method SubmitMoodForm(form: MoodForm, store: MoodStore, now: string, freshId: string)
    requires store.Valid()
    modifies form, store, store.storage
    ensures store.Valid()
    ensures old(form.selectedMood).None? ==>
      unchanged(form) && unchanged(store) && unchanged(store.storage)
    ensures old(form.selectedMood).Some? ==>
      && store.entries == [MoodEntry(freshId, now, old(form.selectedMood).value, JournalField(old(form.journal)))] + old(store.entries)
      && form.selectedMood == None && form.journal == ""
  {
    var emitted := form.HandleSave(now);
    if emitted.Some? {
      store.HandleSaveMood(emitted.value, freshId);
    }
  }
}
