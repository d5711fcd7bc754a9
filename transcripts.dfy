/**
  The transcript bridge (src/components/Transcripts.tsx): cross-window
  messages from the chat widget become transcript lines, newest first, kept
  under the `mindally-transcripts` storage key. Subscribing to and
  unsubscribing from the window's message events is not modelled; each
  delivered event is one call of `HandleMessage`.
*/
module Transcripts {
  import opened Types
  import opened Storage

  /** The only origin whose messages are accepted. */
  const WidgetOrigin: string := "https://widget.synthflow.ai"

  /** The fields of `event.data` the handler reads. */
  datatype Payload = Payload(kind: string, content: string, sender: string)

  datatype MessageEvent = MessageEvent(origin: string, data: Payload)

  /** The initial load: a missing key gives an empty transcript. */
  function LoadTranscripts(items: map<string, Value>): (messages: seq<Message>)
    ensures TranscriptsKey !in items ==> messages == []
    ensures TranscriptsKey in items && items[TranscriptsKey].Transcripts? ==> messages == items[TranscriptsKey].messages
  {
    if TranscriptsKey in items && items[TranscriptsKey].Transcripts? then items[TranscriptsKey].messages else []
  }

  /**
    Clearing removes the key, which is not the same stored state as an empty
    list under the key, yet both reload to an empty transcript.
  */
  lemma ClearedReloadsEmpty(items: map<string, Value>)
    ensures LoadTranscripts(items - {TranscriptsKey}) == []
    ensures LoadTranscripts(items[TranscriptsKey := Transcripts([])]) == []
    ensures items - {TranscriptsKey} != items[TranscriptsKey := Transcripts([])]
  {
  }

  class TranscriptLog {
    var transcripts: seq<Message>
    const storage: LocalStorage

    ghost predicate Valid()
      reads this, storage
    {
      transcripts == LoadTranscripts(storage.items)
    }

    /** Mounting: the transcript loaded from storage. */
    constructor (storage: LocalStorage)
      ensures this.storage == storage && Valid()
      ensures transcripts == LoadTranscripts(storage.items)
    {
      this.storage := storage;
      transcripts := LoadTranscripts(storage.items);
    }

    /**
      `handleMessage`: an event from any origin other than the widget's, or
      whose payload type is not "message", is dropped. An accepted event
      puts one line in front, with content and sender copied unchecked from
      the payload, and the new list is written to storage.
    */
    method HandleMessage(event: MessageEvent, freshId: string, now: string)
      requires Valid()
      modifies this, storage
      ensures Valid()
      ensures event.origin != WidgetOrigin ==> unchanged(this) && unchanged(storage)
      ensures event.data.kind != "message" ==> unchanged(this) && unchanged(storage)
      ensures event.origin == WidgetOrigin && event.data.kind == "message" ==>
        && transcripts == [Message(freshId, event.data.content, event.data.sender, now)] + old(transcripts)
        && storage.items == old(storage.items)[TranscriptsKey := Transcripts(transcripts)]
    {
      if event.origin != WidgetOrigin {
        return;
      }
      if event.data.kind == "message" {
        var message := Message(freshId, event.data.content, event.data.sender, now);
        var updated := [message] + transcripts;
        storage.SetItem(TranscriptsKey, Transcripts(updated));
        transcripts := updated;
      }
    }

    /** `clearTranscripts`: the list becomes empty and the key is removed from storage. */
    method ClearTranscripts()
      requires Valid()
      modifies this, storage
      ensures Valid()
      ensures transcripts == []
      ensures storage.items == old(storage.items) - {TranscriptsKey}
    {
      transcripts := [];
      storage.RemoveItem(TranscriptsKey);
    }
  }
}
