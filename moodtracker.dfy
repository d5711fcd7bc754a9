/**
  The mood form (src/components/MoodTracker.tsx): a selected mood (none at
  first) and a journal text. Saving hands a draft entry to the `onSaveMood`
  callback, which here is the draft returned to the caller.
*/
module MoodTracker {
  import opened Wrappers
  import opened Types
  import opened Text

  /** `journal.trim() || undefined`: the trimmed text, or nothing when that is empty. */
  function JournalField(journal: string): (field: Option<string>)
    ensures field.None? <==> Blank(journal)
    ensures field.Some? ==> field.value == Trim(journal)
    ensures field.Some? ==> field.value != [] && !IsWhiteSpace(field.value[0]) && !IsWhiteSpace(field.value[|field.value| - 1])
  {
    var trimmed := Trim(journal);
    if trimmed == "" then None else Some(trimmed)
  }

  /** Saving a journal that was itself saved gives the same text: trimming twice changes nothing. */
  lemma JournalFieldStable(journal: string)
    requires JournalField(journal).Some?
    ensures JournalField(JournalField(journal).value) == JournalField(journal)
  {
    TrimIdempotent(journal);
  }

  class MoodForm {
    var selectedMood: Option<Mood>
    var journal: string

    constructor ()
      ensures selectedMood == None && journal == ""
    {
      selectedMood := None;
      journal := "";
    }

    /** Clicking one of the five mood buttons. */
    method SelectMood(mood: Mood)
      modifies this
      ensures selectedMood == Some(mood) && journal == old(journal)
    {
      selectedMood := Some(mood);
    }

    /** Typing in the journal box. */
    method EditJournal(text: string)
      modifies this
      ensures journal == text && selectedMood == old(selectedMood)
    {
      journal := text;
    }

    /**
      `handleSave`: with no mood selected nothing is emitted and nothing
      changes. Otherwise exactly one draft is emitted, carrying `now`, the
      selected mood and the trimmed journal (absent when blank), and the form
      goes back to no mood and an empty journal.
    */
    method HandleSave(now: string) returns (emitted: Option<MoodDraft>)
      modifies this
      ensures old(selectedMood).None? ==> emitted.None? && unchanged(this)
      ensures old(selectedMood).Some? ==>
        && emitted == Some(MoodDraft(now, old(selectedMood).value, JournalField(old(journal))))
        && selectedMood == None
        && journal == ""
    {
      if selectedMood.None? {
        return None;
      }
      var field := JournalField(journal);
      emitted := Some(MoodDraft(now, selectedMood.value, field));
      selectedMood := None;
      journal := "";
    }
  }
}
