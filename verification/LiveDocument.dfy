/**
 One session's slice of the document manager: the in-memory Y.Doc, its
 metadata and the loading mark, with every synchronous step that
 `DocumentManager` takes between two awaits.

 A Y.Doc is the set of operations it has integrated. Applying an update is set
 union, so updates are idempotent and commutative; `get_update` is the whole
 set, and the state hash stands for the set itself because it is injective on
 canonical full updates.
 */
module LiveDocument {
  import opened Prelude

  /** An integrated Yjs item, or a deletion of one: deletions never advance the state vector. */
  datatype Op = Insert(client: nat, clock: nat) | Delete(client: nat, clock: nat)

  type Doc = set<Op>

  /** `saved` is what `saved_state_hash` identifies. */
  datatype Metadata = Metadata(generation: nat, checkpointed: Option<nat>, saved: Doc)

  datatype Live = Live(doc: Doc, meta: Metadata)

  datatype Slot = Slot(live: Option<Live>, loading: bool)

  datatype Status = Status(saved: Doc, dirty: bool, generation: nat, checkpointed: Option<nat>)

  /** The document bytes of a column or key that may be absent. */
  function Content(stored: Option<Doc>): Doc {
    stored.GetOr({})
  }

  const EMPTY_SLOT := Slot(None, false)

  /** A document created over nothing: blank, generation zero, never checkpointed. */
  const BLANK := Live({}, Metadata(0, None, {}))

  /** `get_or_create`; None is its "still loading" error. */
  function GetOrCreate(s: Slot): Option<Slot> {
    if s.live.Some? then Some(s)
    else if s.loading then None
    else Some(s.(live := Some(BLANK)))
  }

  /** Merge operations into a live document and bump its generation. */
  function Edit(l: Live, ops: Doc): Live {
    Live(l.doc + ops, l.meta.(generation := l.meta.generation + 1))
  }

  /** `apply_update`; bytes that do not decode raise after the document was fetched or created. */
  function ApplyUpdate(s: Slot, update: Option<Doc>): Slot {
    match GetOrCreate(s)
    case None => s
    case Some(created) =>
      if update.None? then created
      else created.(live := Some(Edit(created.live.value, update.value)))
  }

  /** Whether `apply_update` returned instead of raising. */
  predicate Applies(s: Slot, update: Option<Doc>) {
    GetOrCreate(s).Some? && update.Some?
  }

  /** `_load_from_storage_locked` up to its first await, when nothing is loaded. */
  function BeginLoad(s: Slot): Slot {
    s.(loading := true)
  }

  /** Publish the merge of the saved row and the checkpoint, after both reads. */
  function FinishLoad(s: Slot, row: Option<Doc>, checkpoint: Option<Doc>): Slot {
    Slot(Some(Live(Content(row) + Content(checkpoint),
                   Metadata(0, if checkpoint.Some? then Some(0) else None, Content(row)))),
         false)
  }

  function AbortLoad(s: Slot): Slot {
    s.(loading := false)
  }

  /** The metadata write that follows a successful Redis write of generation `g`. */
  function RecordCheckpoint(s: Slot, g: nat): Slot {
    match s.live
    case None => s
    case Some(l) => s.(live := Some(l.(meta := l.meta.(checkpointed := Some(g)))))
  }

  /** The metadata write that follows a committed save of `state`. */
  function RecordSave(s: Slot, state: Doc): Slot {
    match s.live
    case None => s
    case Some(l) => s.(live := Some(l.(meta := l.meta.(saved := state))))
  }

  function Evict(s: Slot): Slot {
    s.(live := None)
  }

  function StatusOf(s: Slot): Option<Status> {
    match s.live
    case None => None
    case Some(l) => Some(Status(l.meta.saved, l.doc != l.meta.saved, l.meta.generation, l.meta.checkpointed))
  }
}
