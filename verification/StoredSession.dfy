/**
 What a session has in its two stores and in memory, and what a gated request
 makes of it. Both the endpoints and their runs of the room protocol promise
 these outcomes.
 */
module StoredSession {
  import opened Prelude
  import opened LiveDocument

  datatype Stored = Stored(row: Option<Doc>, checkpoint: Option<Doc>, live: Option<Doc>)
  {
    /** What the session contains: the live document, else PostgreSQL merged with Redis. */
    function Held(): Doc {
      if live.Some? then live.value else Content(row) + Content(checkpoint)
    }
  }

  function Merged(doc: Doc, ops: Option<Doc>): Doc {
    if ops.None? then doc else doc + ops.value
  }

  /** A loaded document goes to Redis if that accepts it, and then stays in memory only for a populated room. */
  function Checkpointed(s: Stored, crowded: bool, accepts: bool): Stored {
    if accepts then Stored(s.row, Some(s.Held()), if crowded then Some(s.Held()) else None)
    else s.(live := Some(s.Held()))
  }

  /** A save that commits. */
  function AfterSave(s: Stored, update: Doc, crowded: bool, accepts: bool): Stored {
    var saved := s.Held() + update;
    Checkpointed(Stored(Some(saved), s.checkpoint, Some(saved)), crowded, accepts)
  }

  /** A save that does not decode, or whose commit raises: the document stays in memory, merged as far as it got. */
  function AfterFailedSave(s: Stored, update: Option<Doc>): Stored {
    s.(live := Some(Merged(s.Held(), update)))
  }

  /** A restore; None is the text the document shows already. */
  function AfterRestore(s: Stored, edit: Option<Doc>, crowded: bool, accepts: bool): Stored {
    Checkpointed(s.(live := Some(Merged(s.Held(), edit))), crowded, accepts)
  }

  /** A snapshot or a run: only an empty room's document is checkpointed, to be evicted. */
  function AfterReading(s: Stored, crowded: bool, accepts: bool): Stored {
    if crowded then s.(live := Some(s.Held())) else Checkpointed(s, crowded, accepts)
  }

  /** None of them ever loses anything, whatever Redis answers. */
  lemma RequestsKeepContent(s: Stored, update: Doc, edit: Option<Doc>, crowded: bool, accepts: bool)
    requires Content(s.row) + Content(s.checkpoint) <= s.Held()
    ensures AfterSave(s, update, crowded, accepts).Held() == s.Held() + update
    ensures AfterFailedSave(s, Some(update)).Held() == s.Held() + update
    ensures AfterFailedSave(s, None).Held() == s.Held()
    ensures AfterRestore(s, edit, crowded, accepts).Held() == Merged(s.Held(), edit)
    ensures AfterReading(s, crowded, accepts).Held() == s.Held()
  {
  }
}
