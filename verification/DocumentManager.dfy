/**
 `DocumentManager` as the object document.py updates in place. A method is one
 uninterrupted segment of the source, or a whole operation that is given the
 edits that arrive while it awaits I/O. Each acts on its session's slot exactly
 as module LiveDocument says, and on no other session's.
 */
module DocumentManager {
  import opened Prelude
  import opened LiveDocument
  import opened SessionGuard

  /** How `checkpoint_and_remove` ends: True, False, or the exception of a refused Redis write. */
  datatype Removal = Removed | Retained | Raised

  /** All operations in a list of updates. */
  function Union(updates: seq<Doc>): Doc {
    if updates == [] then {} else Union(updates[..|updates| - 1]) + updates[|updates| - 1]
  }

  class Manager {
    var docs: map<string, Doc>
    var metadata: map<string, Metadata>
    var loading: set<string>
    var guards: map<string, GuardId>
    var users: map<GuardId, nat>
    var nextGuard: GuardId

    constructor ()
      ensures Valid() && forall id :: SlotOf(id) == EMPTY_SLOT && TableOf(id) == NO_GUARDS
    {
      docs, metadata, loading := map[], map[], {};
      guards, users, nextGuard := map[], map[], 0;
    }

    ghost predicate Valid()
      reads this
    {
      docs.Keys == metadata.Keys
    }

    ghost function SlotOf(id: string): Slot
      requires Valid()
      reads this
    {
      Slot(if id in docs then Some(Live(docs[id], metadata[id])) else None, id in loading)
    }

    ghost function TableOf(id: string): GuardTable
      reads this
    {
      GuardTable(if id in guards then Some(guards[id]) else None, users, nextGuard)
    }

    /** `get_or_create`; false is its "still loading" error. */
    method GetOrCreate(id: string) returns (ok: bool)
      requires Valid()
      modifies this`docs, this`metadata
      ensures Valid() && ok == LiveDocument.GetOrCreate(old(SlotOf(id))).Some?
      ensures SlotOf(id) == LiveDocument.GetOrCreate(old(SlotOf(id))).GetOr(old(SlotOf(id)))
      ensures ok <==> id in old(docs) || id !in loading
      ensures id !in old(docs) && ok ==> id in docs && docs[id] == {} && metadata[id] == Metadata(0, None, {})
      ensures id in old(docs) || !ok ==> docs == old(docs) && metadata == old(metadata)
      ensures forall o :: o != id ==> SlotOf(o) == old(SlotOf(o))
    {
      if id in docs {
        return true;
      }
      if id in loading {
        return false;
      }
      docs := docs[id := {}];
      metadata := metadata[id := Metadata(0, None, {})];
      return true;
    }

    /** `apply_update`; None is an update that does not decode, false any exception. */
    method ApplyUpdate(id: string, update: Option<Doc>) returns (ok: bool)
      requires Valid()
      modifies this`docs, this`metadata
      ensures Valid() && ok == Applies(old(SlotOf(id)), update)
      ensures SlotOf(id) == LiveDocument.ApplyUpdate(old(SlotOf(id)), update)
      ensures ok <==> update.Some? && (id in old(docs) || id !in loading)
      ensures ok && id in old(docs) ==>
                && docs == old(docs)[id := old(docs[id]) + update.value]
                && metadata == old(metadata)[id := old(metadata[id]).(generation := old(metadata[id]).generation + 1)]
      ensures forall o :: o != id ==> SlotOf(o) == old(SlotOf(o))
    {
      ok := GetOrCreate(id);
      if !ok || update.None? {
        return false;
      }
      docs := docs[id := docs[id] + update.value];
      metadata := metadata[id := metadata[id].(generation := metadata[id].generation + 1)];
    }

    /**
     `restore_text_from_state`: the document gains an edit after which it shows
     the text of `state`, unless it does so already; a state of None does not
     decode and raises first. `textOf` reads the text of a document, and
     `edit(doc, text)` is the clear-and-insert transaction on it.
     */
    method RestoreText(id: string, state: Option<Doc>, textOf: Doc -> string, edit: (Doc, string) -> Doc)
      returns (ok: bool)
      requires Valid() && forall doc, text :: textOf(doc + edit(doc, text)) == text
      modifies this`docs, this`metadata
      ensures Valid() && ok == (state.Some? && LiveDocument.GetOrCreate(old(SlotOf(id))).Some?)
      ensures ok ==> id in docs && textOf(docs[id]) == textOf(state.value)
      ensures state.None? ==> SlotOf(id) == old(SlotOf(id))
      ensures state.Some? ==>
                var shown := LiveDocument.GetOrCreate(old(SlotOf(id))).GetOr(old(SlotOf(id)));
                SlotOf(id) == if !ok || textOf(shown.live.value.doc) == textOf(state.value) then shown
                              else shown.(live := Some(Edit(shown.live.value,
                                                            edit(shown.live.value.doc, textOf(state.value)))))
      ensures forall o :: o != id ==> SlotOf(o) == old(SlotOf(o))
    {
      if state.None? {
        return false;
      }
      var desired := textOf(state.value);
      ok := GetOrCreate(id);
      if !ok {
        return;
      }
      assert SlotOf(id).live.Some?;
      if textOf(docs[id]) != desired {
        docs := docs[id := docs[id] + edit(docs[id], desired)];
        metadata := metadata[id := metadata[id].(generation := metadata[id].generation + 1)];
      }
    }

    method GetDocumentStatus(id: string) returns (status: Option<Status>)
      requires Valid()
      ensures status == StatusOf(SlotOf(id))
      ensures status == if id !in docs then None
                        else Some(Status(metadata[id].saved, docs[id] != metadata[id].saved,
                                         metadata[id].generation, metadata[id].checkpointed))
    {
      if id !in docs || id !in metadata {
        return None;
      }
      var m := metadata[id];
      return Some(Status(m.saved, docs[id] != m.saved, m.generation, m.checkpointed));
    }

    /** `_load_from_storage_locked` before its first await; false when a document is there already. */
    method BeginLoad(id: string) returns (needed: bool)
      requires Valid()
      modifies this`loading
      ensures Valid() && needed == old(SlotOf(id)).live.None?
      ensures needed <==> id !in docs
      ensures loading == if needed then old(loading) + {id} else old(loading)
      ensures SlotOf(id) == if needed then LiveDocument.BeginLoad(old(SlotOf(id))) else old(SlotOf(id))
      ensures forall o :: o != id ==> SlotOf(o) == old(SlotOf(o))
    {
      if id in docs {
        return false;
      }
      loading := loading + {id};
      return true;
    }

    /** The rest of it, once the row and the checkpoint have been read. */
    method FinishLoad(id: string, row: Option<Doc>, checkpoint: Option<Doc>)
      requires Valid()
      modifies this`docs, this`metadata, this`loading
      ensures Valid() && SlotOf(id) == LiveDocument.FinishLoad(old(SlotOf(id)), row, checkpoint)
      ensures id in docs && docs[id] == Content(row) + Content(checkpoint) && id !in loading
      ensures metadata[id] == Metadata(0, if checkpoint.Some? then Some(0) else None, Content(row))
      ensures forall o :: o != id ==> SlotOf(o) == old(SlotOf(o))
    {
      var doc: Doc := {};
      if row.Some? {
        doc := doc + row.value;
      }
      var saved := doc;
      var recovered := false;
      if checkpoint.Some? {
        doc := doc + checkpoint.value;
        recovered := true;
      }
      assert saved == Content(row) && doc == Content(row) + Content(checkpoint);
      docs := docs[id := doc];
      metadata := metadata[id := Metadata(0, if recovered then Some(0) else None, saved)];
      loading := loading - {id};
    }

    /** Its `finally` block when a read raised. */
    method AbortLoad(id: string)
      requires Valid()
      modifies this`loading
      ensures Valid() && SlotOf(id) == LiveDocument.AbortLoad(old(SlotOf(id)))
      ensures loading == old(loading) - {id}
      ensures forall o :: o != id ==> SlotOf(o) == old(SlotOf(o))
    {
      loading := loading - {id};
    }

    /** What happens while an operation awaits I/O: other coroutines edit the document. */
    method ApplyEach(id: string, during: seq<Doc>)
      requires Valid() && id in docs
      modifies this`docs, this`metadata
      ensures Valid() && id in docs && docs[id] == old(docs[id]) + Union(during)
      ensures metadata[id] == old(metadata[id]).(generation := old(metadata[id]).generation + |during|)
      ensures forall o :: o != id ==> SlotOf(o) == old(SlotOf(o))
    {
      for i := 0 to |during|
        invariant Valid() && id in docs && docs[id] == old(docs[id]) + Union(during[..i])
        invariant metadata[id] == old(metadata[id]).(generation := old(metadata[id]).generation + i)
        invariant forall o :: o != id ==> SlotOf(o) == old(SlotOf(o))
      {
        assert during[..i + 1][..i] == during[..i];
        var ok := ApplyUpdate(id, Some(during[i]));
      }
      assert during[..|during|] == during;
    }

    /**
     `_checkpoint_to_redis_locked`, with the edits that arrive during the write:
     Redis gets the state captured before it, and the generation recorded is
     the captured one.
     */
    method CheckpointToRedis(id: string, during: seq<Doc>, accepts: bool) returns (written: Option<Doc>)
      requires Valid()
      modifies this`docs, this`metadata
      ensures Valid()
      ensures id !in old(docs) ==> written.None? && SlotOf(id) == old(SlotOf(id))
      ensures id in old(docs) ==>
                && written == (if accepts then Some(old(docs[id])) else None)
                && id in docs && docs[id] == old(docs[id]) + Union(during)
                && metadata[id] == old(metadata[id]).(
                     generation := old(metadata[id]).generation + |during|,
                     checkpointed := if accepts then Some(old(metadata[id]).generation)
                                     else old(metadata[id]).checkpointed)
      ensures forall o :: o != id ==> SlotOf(o) == old(SlotOf(o))
    {
      if id !in docs {
        return None;
      }
      var state, generation := docs[id], metadata[id].generation;
      ApplyEach(id, during);
      if !accepts {
        return None;
      }
      metadata := metadata[id := metadata[id].(checkpointed := Some(generation))];
      return Some(state);
    }

    /**
     `checkpoint_and_remove`, with the edits that arrive during the write: the
     document goes away only if there were none, and then Redis holds exactly
     what was removed; otherwise every edit is still in memory.
     */
    method CheckpointAndRemove(id: string, during: seq<Doc>, accepts: bool)
      returns (outcome: Removal, written: Option<Doc>)
      requires Valid()
      modifies this`docs, this`metadata
      ensures Valid()
      ensures id !in old(docs) ==> outcome == Removed && written.None? && SlotOf(id) == old(SlotOf(id))
      ensures id in old(docs) ==>
                outcome == if !accepts then Raised else if during == [] then Removed else Retained
      ensures id in old(docs) ==> written == if accepts then Some(old(docs[id])) else None
      ensures outcome == Removed ==> id !in docs
      ensures outcome != Removed ==>
                && id in docs && docs[id] == old(docs[id]) + Union(during)
                && metadata[id] == old(metadata[id]).(
                     generation := old(metadata[id]).generation + |during|,
                     checkpointed := if accepts then Some(old(metadata[id]).generation)
                                     else old(metadata[id]).checkpointed)
      ensures forall o :: o != id ==> SlotOf(o) == old(SlotOf(o))
    {
      if id !in docs {
        return Removed, None;
      }
      var generation := metadata[id].generation;
      written := CheckpointToRedis(id, during, accepts);
      if !accepts {
        return Raised, None;
      }
      if metadata[id].generation != generation {
        return Retained, written;
      }
      docs, metadata := docs - {id}, metadata - {id};
      return Removed, written;
    }

    /** The document a storage operation works on, loading it first when there is none. */
    ghost function LoadedOr(id: string, stored: Option<Doc>, checkpoint: Option<Doc>): Live
      requires Valid()
      reads this
    {
      if id in docs then Live(docs[id], metadata[id])
      else LiveDocument.FinishLoad(SlotOf(id), stored, checkpoint).live.value
    }

    /**
     `_persist_to_db_locked`, with the edits that arrive before the commit
     returns: the row gets the captured state, and the result says whether the
     live document has moved past it. A row of None is a commit that raised.
     */
    method PersistToDb(id: string, stored: Option<Doc>, checkpoint: Option<Doc>, during: seq<Doc>, commits: bool)
      returns (row: Option<Doc>, dirty: bool)
      requires Valid()
      modifies this`docs, this`metadata, this`loading
      ensures Valid() && row == if commits then Some(old(LoadedOr(id, stored, checkpoint)).doc) else None
      ensures id in docs && docs[id] == old(LoadedOr(id, stored, checkpoint)).doc + Union(during)
      ensures var before := old(LoadedOr(id, stored, checkpoint));
              metadata[id] == before.meta.(generation := before.meta.generation + |during|,
                                           saved := if commits then before.doc else before.meta.saved)
      ensures commits ==> (dirty <==> !(Union(during) <= row.value))
      ensures commits ==> (dirty <==> StatusOf(SlotOf(id)).value.dirty)
      ensures forall o :: o != id ==> SlotOf(o) == old(SlotOf(o))
    {
      if id !in docs {
        var needed := BeginLoad(id);
        FinishLoad(id, stored, checkpoint);
        assert SlotOf(id).live.Some?;
      }
      assert SlotOf(id).live == Some(old(LoadedOr(id, stored, checkpoint)));
      var state := docs[id];
      ApplyEach(id, during);
      if !commits {
        return None, false;
      }
      metadata := metadata[id := metadata[id].(saved := state)];
      return Some(state), docs[id] != state;
    }

    /** `remove_doc`: only a checkpointed document with no storage work queued, and its guard with it. */
    method RemoveDoc(id: string) returns (removed: bool)
      requires Valid()
      modifies this`docs, this`metadata, this`guards
      ensures Valid()
      ensures removed <==>
                id !in old(docs) ||
                (old(metadata[id]).checkpointed == Some(old(metadata[id]).generation) &&
                 (id in old(guards) && old(guards)[id] in users ==> users[old(guards)[id]] == 0))
      ensures SlotOf(id) == if removed then Evict(old(SlotOf(id))) else old(SlotOf(id))
      ensures docs == if removed then old(docs) - {id} else old(docs)
      ensures TableOf(id) == if removed && id in old(docs) then old(TableOf(id)).(registered := None)
                             else old(TableOf(id))
      ensures forall o :: o != id ==> SlotOf(o) == old(SlotOf(o)) && TableOf(o) == old(TableOf(o))
    {
      if id !in metadata {
        return true;
      }
      if metadata[id].checkpointed != Some(metadata[id].generation) {
        return false;
      }
      if id in guards && guards[id] in users && users[guards[id]] != 0 {
        return false;
      }
      docs, metadata, guards := docs - {id}, metadata - {id}, guards - {id};
      return true;
    }

    /** Entering `_serialized`: the registered guard, or a new one, gains a user. */
    method EnterGuard(id: string) returns (guard: GuardId)
      modifies this`guards, this`users, this`nextGuard
      ensures (TableOf(id), guard) == Enter(old(TableOf(id)))
      ensures forall o :: o != id ==> TableOf(o).registered == old(TableOf(o)).registered
    {
      if id !in guards {
        guards, users, nextGuard := guards[id := nextGuard], users[nextGuard := 0], nextGuard + 1;
      }
      guard := guards[id];
      users := users[guard := (if guard in users then users[guard] else 0) + 1];
      assert id !in old(guards) ==> users == old(users)[guard := 1];
    }

    /** Leaving it: the guard loses a user and is retired when it is idle and guards no document. */
    method ExitGuard(id: string, guard: GuardId)
      modifies this`guards, this`users
      ensures TableOf(id) == Exit(old(TableOf(id)), guard, id in docs)
      ensures forall o :: o != id ==> TableOf(o).registered == old(TableOf(o)).registered
    {
      var count := if guard in users then users[guard] else 0;
      users := users[guard := if count == 0 then 0 else count - 1];
      if users[guard] == 0 && id !in docs && id in guards && guards[id] == guard {
        guards := guards - {id};
      }
    }
  }
}
