/**
 One session's document together with its PostgreSQL row, its Redis checkpoint
 and the storage operation that currently holds the session guard.

 Every await inside a storage operation is a separate value of `StorageOp`, so
 edits and other coroutines interleave between any two of its steps. The guard
 admits one operation at a time (module SessionGuard proves that of the
 retiring guards), hence a single `op` field.
 */
module DocumentStorage {
  import opened Prelude
  import opened LiveDocument

  datatype StorageOp =
    | Idle
    | ReadingRow(thenSave: bool)
    | ReadingCheckpoint(row: Option<Doc>, thenSave: bool)
    | Committing(state: Doc)
    | Committed(state: Doc)
    | Writing(state: Doc, generation: nat, evict: bool, gated: bool)
    | Written(state: Doc, generation: nat, evict: bool, gated: bool)

  /**
   The last four fields record history for the theorems and influence nothing:
   `accepted` is every operation a client was allowed to add, `versions[g]` the
   live document as of generation g, `commits` the states committed by saves,
   and `conjured` whether a blank document was ever created by `get_or_create`
   (or a load in progress was hit by it).
   */
  datatype Storage = Storage(
    row: Option<Doc>,
    checkpoint: Option<Doc>,
    slot: Slot,
    op: StorageOp,
    accepted: Doc,
    versions: seq<Doc>,
    commits: seq<Doc>,
    conjured: bool)
  {
    /** What a reload would recover: PostgreSQL merged with Redis. */
    function Durable(): Doc {
      Content(row) + Content(checkpoint)
    }

    /** Where the content of the session is: the live document if there is one, else in storage. */
    function Held(): Doc {
      if slot.live.Some? then slot.live.value.doc else Durable()
    }
  }

  // ---- Steps that hold the guard ----

  /** Load: return at once when a document exists, else mark loading and await the row. */
  function StartLoad(s: Storage, thenSave: bool): Storage {
    if s.slot.live.Some? then s
    else s.(slot := BeginLoad(s.slot), op := ReadingRow(thenSave))
  }

  function LoadRow(s: Storage): Storage
    requires s.op.ReadingRow?
  {
    s.(op := ReadingCheckpoint(s.row, s.op.thenSave))
  }

  /** The row read raised: the loading mark is dropped and nothing is published. */
  function FailLoad(s: Storage): Storage {
    s.(slot := AbortLoad(s.slot), op := Idle)
  }

  /** Read the checkpoint (an outage reads as absent), publish, and go on to the save if there is one. */
  function Publish(s: Storage, outage: bool): Storage
    requires s.op.ReadingCheckpoint?
  {
    var checkpoint := if outage then None else s.checkpoint;
    var slot := FinishLoad(s.slot, s.op.row, checkpoint);
    s.(slot := slot,
       op := if s.op.thenSave then Committing(slot.live.value.doc) else Idle,
       versions := [slot.live.value.doc])
  }

  /** Save: capture the full state, loading first when no document is live. */
  function StartSave(s: Storage): Storage {
    if s.slot.live.Some? then s.(op := Committing(s.slot.live.value.doc))
    else StartLoad(s, true)
  }

  function CommitSave(s: Storage): Storage
    requires s.op.Committing?
  {
    s.(row := Some(s.op.state), commits := s.commits + [s.op.state], op := Committed(s.op.state))
  }

  function RecordSaved(s: Storage): Storage
    requires s.op.Committed?
  {
    s.(slot := RecordSave(s.slot, s.op.state), op := Idle)
  }

  /** The save raised before it could record anything; the commit did not reach PostgreSQL. */
  function FailSave(s: Storage): Storage
    requires s.op.Committing?
  {
    s.(op := Idle)
  }

  /** Checkpoint: nothing to do without a document, else capture state and generation. */
  function StartCheckpoint(s: Storage, evict: bool, gated: bool): Storage {
    match s.slot.live
    case None => s
    case Some(l) => s.(op := Writing(l.doc, l.meta.generation, evict, gated))
  }

  function WriteCheckpoint(s: Storage): Storage
    requires s.op.Writing?
  {
    s.(checkpoint := Some(s.op.state), op := Written(s.op.state, s.op.generation, s.op.evict, s.op.gated))
  }

  /** The Redis write raised, whether or not the value reached Redis. */
  function FailCheckpoint(s: Storage): Storage
    requires s.op.Writing? || s.op.Written?
  {
    s.(op := Idle)
  }

  /** `checkpoint_and_remove` keeps a document whose generation moved during the write. */
  predicate Retains(s: Storage)
    requires s.op.Written?
  {
    !s.op.evict || s.slot.live.None? || s.slot.live.value.meta.generation != s.op.generation
  }

  function RecordCheckpointed(s: Storage): Storage
    requires s.op.Written?
  {
    var slot := RecordCheckpoint(s.slot, s.op.generation);
    s.(slot := if Retains(s) then slot else Evict(slot), op := Idle)
  }

  // ---- Synchronous steps that take no guard ----

  /** Read the document through `get_or_create`. */
  function Peek(s: Storage): Storage {
    s.(slot := GetOrCreate(s.slot).GetOr(s.slot), conjured := s.conjured || s.slot.live.None?)
  }

  function Apply(s: Storage, update: Option<Doc>): Storage {
    var p := Peek(s);
    if !Applies(s.slot, update) then p
    else
      var slot := ApplyUpdate(s.slot, update);
      p.(slot := slot,
         accepted := s.accepted + update.value,
         versions := (if s.slot.live.Some? then s.versions else [{}]) + [slot.live.value.doc])
  }

  /** Reading through `get_or_create` keeps a document, leaves a load alone, and else makes a blank one, on record. */
  lemma PeekCreates(s: Storage)
    ensures s.slot.live.Some? || s.slot.loading ==> Peek(s).slot == s.slot
    ensures s.slot.live.None? && !s.slot.loading ==> Peek(s).slot == Slot(Some(Live({}, Metadata(0, None, {}))), false)
    ensures Peek(s).conjured <==> s.conjured || s.slot.live.None?
    ensures Peek(s).row == s.row && Peek(s).checkpoint == s.checkpoint && Peek(s).op == s.op
  {
  }

  /** A save without a document loads it first and then commits the merge of both stores. */
  lemma SaveLoadsFirst(s: Storage)
    requires s.slot == EMPTY_SLOT && s.op.Idle?
    ensures StartSave(s).op.ReadingRow? && LoadRow(StartSave(s)).op.ReadingCheckpoint?
    ensures var loaded := Publish(LoadRow(StartSave(s)), false);
            && loaded.op == Committing(s.Durable())
            && loaded.slot.live.Some? && loaded.slot.live.value.doc == s.Durable()
  {
  }

  // ---- Invariant ----

  ghost predicate Ascending(docs: seq<Doc>) {
    forall i, j :: 0 <= i <= j < |docs| ==> docs[i] <= docs[j]
  }

  /** What holds of a live document in any interleaving, whatever Redis does. */
  ghost predicate LiveInv(s: Storage)
    requires s.slot.live.Some?
  {
    var l := s.slot.live.value;
    && !s.slot.loading
    && Content(s.row) <= l.doc
    && |s.versions| == l.meta.generation + 1
    && s.versions[l.meta.generation] == l.doc
    && Ascending(s.versions)
    && (l.meta.checkpointed.Some? ==>
          && l.meta.checkpointed.value <= l.meta.generation
          && s.versions[l.meta.checkpointed.value] <= s.Durable() <= l.doc)
    && (!s.op.Committed? ==> l.meta.saved == Content(s.row))
  }

  /** A version that is being written, or has been, and is not older than the recorded one. */
  ghost predicate WriteInv(s: Storage, state: Doc, g: nat) {
    && s.slot.live.Some? && g <= s.slot.live.value.meta.generation && g < |s.versions|
    && state == s.versions[g]
    && (s.slot.live.value.meta.checkpointed.Some? ==> s.slot.live.value.meta.checkpointed.value <= g)
  }

  ghost predicate OpInv(s: Storage) {
    match s.op
    case Idle => !s.slot.loading
    case ReadingRow(_) => s.slot == Slot(None, true)
    case ReadingCheckpoint(row, _) => s.slot == Slot(None, true) && row == s.row
    case Committing(state) =>
      s.slot.live.Some? && Content(s.row) <= state <= s.slot.live.value.doc
    case Committed(state) =>
      s.slot.live.Some? && s.row == Some(state) && state <= s.slot.live.value.doc
    case Writing(state, g, _, _) => WriteInv(s, state, g)
    case Written(state, g, _, _) => WriteInv(s, state, g) && s.checkpoint == Some(state)
  }

  ghost predicate CommitsInv(s: Storage) {
    && Ascending(s.commits)
    && forall i :: 0 <= i < |s.commits| ==> s.commits[i] <= Content(s.row)
  }

  ghost predicate Inv(s: Storage) {
    && OpInv(s)
    && CommitsInv(s)
    && (s.slot.live.Some? ==> LiveInv(s))
    && !s.conjured
  }

  /** Everything accepted is where readers look for it, and storage holds nothing else. */
  ghost predicate Lossless(s: Storage) {
    s.Held() == s.accepted && s.Durable() <= s.accepted
  }

  lemma StartLoadKeeps(s: Storage, thenSave: bool)
    requires Inv(s) && s.op.Idle?
    ensures Inv(StartLoad(s, thenSave))
    ensures Lossless(s) ==> Lossless(StartLoad(s, thenSave))
  {
  }

  lemma LoadRowKeeps(s: Storage)
    requires Inv(s) && s.op.ReadingRow?
    ensures Inv(LoadRow(s))
    ensures Lossless(s) ==> Lossless(LoadRow(s))
  {
  }

  lemma FailLoadKeeps(s: Storage)
    requires Inv(s) && (s.op.ReadingRow? || s.op.ReadingCheckpoint?)
    ensures Inv(FailLoad(s))
    ensures Lossless(s) ==> Lossless(FailLoad(s))
  {
  }

  /** An outage is harmless exactly when Redis has nothing that PostgreSQL lacks. */
  predicate Harmless(s: Storage) {
    Content(s.checkpoint) <= Content(s.row)
  }

  lemma PublishKeeps(s: Storage, outage: bool)
    requires Inv(s) && s.op.ReadingCheckpoint?
    ensures Inv(Publish(s, outage))
    ensures Publish(s, outage).slot.live.Some?
    ensures Lossless(s) && (!outage || Harmless(s)) ==> Lossless(Publish(s, outage))
    ensures Lossless(s) && outage && !Harmless(s) ==> Publish(s, outage).Held() != s.accepted
  {
  }

  lemma StartSaveKeeps(s: Storage)
    requires Inv(s) && s.op.Idle?
    ensures Inv(StartSave(s))
    ensures Lossless(s) ==> Lossless(StartSave(s))
  {
  }

  lemma CommitSaveKeeps(s: Storage)
    requires Inv(s) && s.op.Committing?
    ensures Inv(CommitSave(s))
    ensures Lossless(s) ==> Lossless(CommitSave(s))
  {
  }

  lemma RecordSavedKeeps(s: Storage)
    requires Inv(s) && s.op.Committed?
    ensures Inv(RecordSaved(s))
    ensures Lossless(s) ==> Lossless(RecordSaved(s))
  {
  }

  lemma FailSaveKeeps(s: Storage)
    requires Inv(s) && s.op.Committing?
    ensures Inv(FailSave(s))
    ensures Lossless(s) ==> Lossless(FailSave(s))
  {
  }

  lemma StartCheckpointKeeps(s: Storage, evict: bool, gated: bool)
    requires Inv(s) && s.op.Idle?
    ensures Inv(StartCheckpoint(s, evict, gated))
    ensures Lossless(s) ==> Lossless(StartCheckpoint(s, evict, gated))
  {
  }

  lemma WriteCheckpointKeeps(s: Storage)
    requires Inv(s) && s.op.Writing?
    ensures Inv(WriteCheckpoint(s))
    ensures Lossless(s) ==> Lossless(WriteCheckpoint(s))
  {
  }

  lemma FailCheckpointKeeps(s: Storage)
    requires Inv(s) && (s.op.Writing? || s.op.Written?)
    ensures Inv(FailCheckpoint(s))
    ensures Lossless(s) ==> Lossless(FailCheckpoint(s))
  {
  }

  lemma RecordCheckpointedKeeps(s: Storage)
    requires Inv(s) && s.op.Written?
    ensures Inv(RecordCheckpointed(s))
    ensures Lossless(s) ==> Lossless(RecordCheckpointed(s))
  {
  }

  lemma ApplyKeeps(s: Storage, update: Option<Doc>)
    requires Inv(s) && s.slot.live.Some?
    ensures Inv(Apply(s, update))
    ensures Lossless(s) ==> Lossless(Apply(s, update))
  {
  }
}
