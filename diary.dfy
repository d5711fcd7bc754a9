/**
  The diary component (src/components/Diary.tsx): a list of entries, newest
  first, kept under the `mindally-diary` storage key, with a draft text and
  an emoji chosen from a fixed palette.
*/
module Diary {
  import opened Types
  import opened Storage
  import opened Seqs
  import opened Text

  /**
    The emoji palette the picker offers, as the strings the component holds:
    the file stores each emoji's UTF-8 bytes read back as Windows-1254 text,
    some bytes lost (the first is meant as U+1F4DD MEMO), and these garbled
    strings are what is saved with an entry. The first is selected on mount.
  */
  const CommonEmojis: seq<string> := [
    "\U{011F}\U{0178}\U{201C}", "\U{011F}\U{0178}\U{2019}\U{00AD}",
    "\U{011F}\U{0178}\U{2019}\U{00A1}", "\U{011F}\U{0178}\U{2019}\U{00AA}",
    "\U{011F}\U{0178}\U{0152}\U{0178}", "\U{00E2}\U{00A4}\U{00EF}\U{00B8}",
    "\U{011F}\U{0178}\U{00AF}", "\U{00E2}\U{0153}\U{00A8}",
    "\U{011F}\U{0178}\U{0152}\U{02C6}", "\U{011F}\U{0178}\U{2122}"
  ]

  /** The initial load: a missing key gives an empty diary. */
  function LoadDiary(items: map<string, Value>): (entries: seq<DiaryEntry>)
    ensures DiaryKey !in items ==> entries == []
    ensures DiaryKey in items && items[DiaryKey].DiaryEntries? ==> entries == items[DiaryKey].diary
  {
    if DiaryKey in items && items[DiaryKey].DiaryEntries? then items[DiaryKey].diary else []
  }

  /** The entries `handleDelete` keeps: those whose id differs. */
  function WithoutEntry(entries: seq<DiaryEntry>, id: string): (kept: seq<DiaryEntry>)
    ensures forall e :: e in kept <==> e in entries && e.id != id
  {
    Filter(entries, (e: DiaryEntry) => e.id != id)
  }

  /** Deleting an id no entry has leaves the list as it was. */
  lemma DeleteAbsentIsNoOp(entries: seq<DiaryEntry>, id: string)
    requires forall i :: 0 <= i < |entries| ==> entries[i].id != id
    ensures WithoutEntry(entries, id) == entries
  {
    FilterKeepsAll(entries, (e: DiaryEntry) => e.id != id);
  }

  /** Deleting the id of an entry just saved undoes the save, when the id was fresh. */
  lemma DeleteUndoesSave(entries: seq<DiaryEntry>, entry: DiaryEntry)
    requires forall i :: 0 <= i < |entries| ==> entries[i].id != entry.id
    ensures WithoutEntry([entry] + entries, entry.id) == entries
  {
    FilterAppend([entry], entries, (e: DiaryEntry) => e.id != entry.id);
    DeleteAbsentIsNoOp(entries, entry.id);
  }

  /** Deleting splits over the list: the surviving entries keep their relative order. */
  lemma DeleteKeepsOrder(front: seq<DiaryEntry>, back: seq<DiaryEntry>, id: string)
    ensures WithoutEntry(front + back, id) == WithoutEntry(front, id) + WithoutEntry(back, id)
  {
    FilterAppend(front, back, (e: DiaryEntry) => e.id != id);
  }

  class DiaryStore {
    var entries: seq<DiaryEntry>
    var newEntry: string
    var selectedEmoji: string
    const storage: LocalStorage

    /** The emoji is one of the palette, and the entries are what the storage key reloads to. */
    ghost predicate Valid()
      reads this, storage
    {
      selectedEmoji in CommonEmojis && entries == LoadDiary(storage.items)
    }

    /** Mounting: an empty draft, the first emoji, entries loaded from storage. */
    constructor (storage: LocalStorage)
      ensures this.storage == storage && Valid()
      ensures entries == LoadDiary(storage.items) && newEntry == "" && selectedEmoji == CommonEmojis[0]
    {
      this.storage := storage;
      entries := LoadDiary(storage.items);
      newEntry := "";
      selectedEmoji := CommonEmojis[0];
    }

    /** Typing in the text area. */
    method EditDraft(text: string)
      requires Valid()
      modifies this
      ensures Valid()
      ensures newEntry == text && entries == old(entries) && selectedEmoji == old(selectedEmoji)
    {
      newEntry := text;
    }

    /** Clicking an emoji of the palette. */
    method SelectEmoji(emoji: string)
      requires Valid() && emoji in CommonEmojis
      modifies this
      ensures Valid()
      ensures selectedEmoji == emoji && entries == old(entries) && newEntry == old(newEntry)
    {
      selectedEmoji := emoji;
    }

    /**
      `handleSave`: a blank draft changes nothing. Otherwise one entry with
      the draft exactly as typed and the selected emoji goes in front of the
      old entries, the new list is written to storage, and the draft is
      cleared while the emoji stays.
    */
    method HandleSave(freshId: string, now: string)
      requires Valid()
      modifies this, storage
      ensures Valid()
      ensures Blank(old(newEntry)) ==> unchanged(this) && unchanged(storage)
      ensures !Blank(old(newEntry)) ==>
        && entries == [DiaryEntry(freshId, old(newEntry), old(selectedEmoji), now)] + old(entries)
        && storage.items == old(storage.items)[DiaryKey := DiaryEntries(entries)]
        && newEntry == ""
        && selectedEmoji == old(selectedEmoji)
    {
      if Trim(newEntry) == "" {
        return;
      }
      var entry := DiaryEntry(freshId, newEntry, selectedEmoji, now);
      var updated := [entry] + entries;
      entries := updated;
      storage.SetItem(DiaryKey, DiaryEntries(updated));
      newEntry := "";
    }

    /** `handleDelete`: drops every entry with the id, keeps the rest in order, and writes the list to storage. */
    method HandleDelete(id: string)
      requires Valid()
      modifies this, storage
      ensures Valid()
      ensures entries == WithoutEntry(old(entries), id)
      ensures storage.items == old(storage.items)[DiaryKey := DiaryEntries(entries)]
      ensures newEntry == old(newEntry) && selectedEmoji == old(selectedEmoji)
    {
      var updated := WithoutEntry(entries, id);
      entries := updated;
      storage.SetItem(DiaryKey, DiaryEntries(updated));
    }
  }
}
