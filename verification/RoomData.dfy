/** What a run of the room protocol keeps of its document, and what makes it lose any of it. */
module RoomData {
  import opened Prelude
  import opened LiveDocument
  import opened DocumentStorage
  import opened Membership
  import opened RoomRegistry
  import opened RoomProtocol
  import opened RoomInvariants

  /** Every operation of every update that reached the document. */
  function Updates(applied: seq<Applied>): Doc {
    if applied == [] then {} else Updates(applied[..|applied| - 1]) + applied[|applied| - 1].update
  }

  /** `accepted` is what the session held at first and what has been applied since. */
  ghost predicate Accounted(s: State, base: Doc) {
    s.storage.accepted == base + Updates(s.applied)
  }

  /** Storage steps keep the storage invariant; they lose something only by a harmful outage. */
  ghost predicate Kept(s: Storage, s': Storage, harmful: bool) {
    && DocumentStorage.Inv(s')
    && s'.accepted == s.accepted
    && (Lossless(s) && !harmful ==> Lossless(s'))
    && (Lossless(s) && harmful ==> s'.Held() != s'.accepted)
  }

  predicate Harmful(s: State, e: Event) {
    e == CheckpointRead(true) && !Harmless(s.storage)
  }

  /** Of everything a connection does, only a frame under the room lock touches the document. */
  lemma OnlyFramesApply(s: State, e: Event)
    requires AuthInv(s) && ControlInv(s) && Enabled(s, e) && IsConnEvent(e) && !e.ApplyFrame?
    ensures Step(s, e).storage == s.storage && Step(s, e).applied == s.applied
  {
    if e.CheckJoined? || e.Handle? {
      ConnectedMeansLive(s, e.conn);
      assert Peek(s.storage) == s.storage;
    }
  }

  lemma ApplyForKeeps(s: State, user: User, update: Option<Doc>, base: Doc)
    requires DocumentStorage.Inv(s.storage) && s.storage.slot.live.Some? && Accounted(s, base)
    ensures DocumentStorage.Inv(ApplyFor(s, user, update).storage)
    ensures Lossless(s.storage) ==> Lossless(ApplyFor(s, user, update).storage)
    ensures Accounted(ApplyFor(s, user, update), base)
  {
    ApplyKeeps(s.storage, update);
    var r := ApplyFor(s, user, update);
    if r.applied != s.applied {
      assert r.applied[..|r.applied| - 1] == s.applied;
    }
  }

  lemma FrameKeepsData(s: State, c: ConnId, base: Doc)
    requires AuthInv(s) && ControlInv(s) && Enabled(s, ApplyFrame(c))
    requires DocumentStorage.Inv(s.storage) && Accounted(s, base)
    ensures DocumentStorage.Inv(Step(s, ApplyFrame(c)).storage) && Accounted(Step(s, ApplyFrame(c)), base)
    ensures Lossless(s.storage) ==> Lossless(Step(s, ApplyFrame(c)).storage)
  {
    ConnectedMeansLive(s, c);
    var applied, s' := ApplyFor(s, s.conns[c].user, s.conns[c].phase.update), Step(s, ApplyFrame(c));
    assert (s'.storage == s.storage && s'.applied == s.applied)
        || (s'.storage == applied.storage && s'.applied == applied.applied);
    ApplyForKeeps(s, s.conns[c].user, s.conns[c].phase.update, base);
  }

  lemma ConnStepKeepsData(s: State, e: Event, base: Doc)
    requires AuthInv(s) && ControlInv(s) && Enabled(s, e) && IsConnEvent(e)
    requires DocumentStorage.Inv(s.storage) && Accounted(s, base)
    ensures DocumentStorage.Inv(Step(s, e).storage) && Accounted(Step(s, e), base)
    ensures Lossless(s.storage) ==> Lossless(Step(s, e).storage)
  {
    if e.ApplyFrame? {
      FrameKeepsData(s, e.conn, base);
    } else {
      OnlyFramesApply(s, e);
    }
  }

  lemma RequestStepKeepsData(s: State, e: Event, base: Doc)
    requires AuthInv(s) && ControlInv(s) && Enabled(s, e) && !IsConnEvent(e) && !IsStorageEvent(e)
    requires DocumentStorage.Inv(s.storage) && Accounted(s, base)
    ensures DocumentStorage.Inv(Step(s, e).storage) && Accounted(Step(s, e), base)
    ensures Lossless(s.storage) ==> Lossless(Step(s, e).storage)
  {
    if e.Act? {
      assert Peek(s.storage) == s.storage;
      match s.gate.request {
        case Save(user, update) => ApplyForKeeps(s, user, update, base);
        case Restore(user, edit) => ApplyForKeeps(s, user, edit, base);
        case _ =>
      }
    }
  }

  /** Whatever the gate holder does next, it neither logs an update nor touches storage. */
  lemma SettlingIsStorage(s: State, storage: Storage, gated: bool)
    ensures Settle(s, storage, gated).storage == storage
    ensures Settle(s, storage, gated).applied == s.applied
  {
  }

  predicate IsLoadEvent(e: Event) {
    e.BeginLoad? || e.RowRead? || e.RowReadFails? || e.CheckpointRead?
  }

  predicate IsSaveEvent(e: Event) {
    e.BeginSave? || e.SaveCommits? || e.SaveFails? || e.SaveRecorded?
  }

  lemma LoadStepKeepsData(s: State, e: Event)
    requires DocumentStorage.Inv(s.storage) && Enabled(s, e) && IsLoadEvent(e)
    ensures Kept(s.storage, Step(s, e).storage, Harmful(s, e)) && Step(s, e).applied == s.applied
  {
    if e.BeginLoad? {
      StartLoadKeeps(s.storage, false);
      SettlingIsStorage(s, StartLoad(s.storage, false), true);
    } else if e.RowRead? {
      LoadRowKeeps(s.storage);
    } else if e.RowReadFails? {
      FailLoadKeeps(s.storage);
    } else {
      PublishKeeps(s.storage, e.outage);
      SettlingIsStorage(s, Publish(s.storage, e.outage), true);
    }
  }

  lemma SaveStepKeepsData(s: State, e: Event)
    requires DocumentStorage.Inv(s.storage) && Enabled(s, e) && IsSaveEvent(e)
    ensures Kept(s.storage, Step(s, e).storage, false) && Step(s, e).applied == s.applied
  {
    if e.BeginSave? {
      StartSaveKeeps(s.storage);
    } else if e.SaveCommits? {
      CommitSaveKeeps(s.storage);
    } else if e.SaveFails? {
      FailSaveKeeps(s.storage);
    } else {
      RecordSavedKeeps(s.storage);
      SettlingIsStorage(s, RecordSaved(s.storage), true);
    }
  }

  lemma CheckpointStepKeepsData(s: State, e: Event)
    requires DocumentStorage.Inv(s.storage) && Enabled(s, e)
    requires IsStorageEvent(e) && !IsLoadEvent(e) && !IsSaveEvent(e)
    ensures Kept(s.storage, Step(s, e).storage, false) && Step(s, e).applied == s.applied
  {
    if e.BeginCheckpoint? {
      StartCheckpointKeeps(s.storage, Evicts(s.gate), true);
      SettlingIsStorage(s, StartCheckpoint(s.storage, Evicts(s.gate), true), true);
    } else if e.BeginBackgroundCheckpoint? {
      StartCheckpointKeeps(s.storage, false, false);
    } else if e.CheckpointWritten? {
      WriteCheckpointKeeps(s.storage);
    } else if e.CheckpointFails? {
      FailCheckpointKeeps(s.storage);
      SettlingIsStorage(s, FailCheckpoint(s.storage), s.storage.op.gated);
    } else {
      RecordCheckpointedKeeps(s.storage);
      SettlingIsStorage(s, RecordCheckpointed(s.storage), s.storage.op.gated);
    }
  }

  /** One step of any event: the storage invariant survives, and so does all content unless the step is harmful. */
  lemma StepKeepsData(s: State, e: Event, base: Doc)
    requires AuthInv(s) && ControlInv(s) && Enabled(s, e)
    requires DocumentStorage.Inv(s.storage) && Accounted(s, base)
    ensures DocumentStorage.Inv(Step(s, e).storage) && Accounted(Step(s, e), base)
    ensures Lossless(s.storage) && !Harmful(s, e) ==> Lossless(Step(s, e).storage)
    ensures Lossless(s.storage) && Harmful(s, e) ==>
              Step(s, e).storage.Held() != Step(s, e).storage.accepted
  {
    if IsConnEvent(e) {
      ConnStepKeepsData(s, e, base);
    } else if IsLoadEvent(e) {
      LoadStepKeepsData(s, e);
    } else if IsSaveEvent(e) {
      SaveStepKeepsData(s, e);
    } else if IsStorageEvent(e) {
      CheckpointStepKeepsData(s, e);
    } else {
      RequestStepKeepsData(s, e, base);
    }
  }

  /** Everything every run keeps, whether or not Redis can be read. */
  ghost predicate RunInv(s: State, base: Doc) {
    AuthInv(s) && ControlInv(s) && DocumentStorage.Inv(s.storage) && Accounted(s, base)
  }

  lemma StepKeepsRoom(s: State, e: Event, base: Doc)
    requires RunInv(s, base) && Enabled(s, e)
    ensures RunInv(Step(s, e), base)
  {
    StepKeepsAuth(s, e);
    StepKeepsControl(s, e);
    StepKeepsData(s, e, base);
  }

  lemma InitHolds(s: State)
    requires Init(s)
    ensures RunInv(s, s.storage.Durable()) && Lossless(s.storage)
  {
  }

  lemma {:induction false} RunKeepsRoom(s: State, events: seq<Event>, base: Doc)
    requires RunInv(s, base) && Run(s, events).Some?
    ensures RunInv(Run(s, events).value, base)
    decreases |events|
  {
    if events != [] {
      StepKeepsRoom(s, events[0], base);
      RunKeepsRoom(Step(s, events[0]), events[1..], base);
    }
  }

  /** What every run from a stored session reaches. */
  lemma Reachable(s: State, events: seq<Event>)
    requires Init(s) && Run(s, events).Some?
    ensures RunInv(Run(s, events).value, s.storage.Durable())
  {
    InitHolds(s);
    RunKeepsRoom(s, events, s.storage.Durable());
  }

  // ---- Outages ----

  /** Each failed Redis read of the run happens while Redis has nothing that PostgreSQL lacks. */
  ghost predicate OutagesAreHarmless(s: State, events: seq<Event>)
    decreases |events|
  {
    events != [] && Enabled(s, events[0]) ==>
      !Harmful(s, events[0]) && OutagesAreHarmless(Step(s, events[0]), events[1..])
  }

  /** In particular, Redis that can always be read. */
  lemma {:induction false} ReadableRedisIsHarmless(s: State, events: seq<Event>)
    requires CheckpointRead(true) !in events
    ensures OutagesAreHarmless(s, events)
    decreases |events|
  {
    if events != [] && Enabled(s, events[0]) {
      assert events[0] in events && forall e :: e in events[1..] ==> e in events;
      ReadableRedisIsHarmless(Step(s, events[0]), events[1..]);
    }
  }

  lemma {:induction false} HarmlessRunKeepsLossless(s: State, events: seq<Event>, base: Doc)
    requires RunInv(s, base) && Lossless(s.storage)
    requires Run(s, events).Some? && OutagesAreHarmless(s, events)
    ensures Lossless(Run(s, events).value.storage)
    decreases |events|
  {
    if events != [] {
      StepKeepsRoom(s, events[0], base);
      StepKeepsData(s, events[0], base);
      HarmlessRunKeepsLossless(Step(s, events[0]), events[1..], base);
    }
  }

  // ---- Versions ----

  lemma ApplyExtendsVersions(s: Storage, update: Option<Doc>)
    requires s.slot.live.Some?
    ensures s.versions <= DocumentStorage.Apply(s, update).versions
    ensures Peek(s).versions == s.versions
  {
  }

  lemma ConnStepExtendsVersions(s: State, e: Event)
    requires Enabled(s, e) && IsConnEvent(e) && s.storage.slot.live.Some?
    ensures s.storage.versions <= Step(s, e).storage.versions
  {
    if e.ApplyFrame? {
      ApplyExtendsVersions(s.storage, s.conns[e.conn].phase.update);
    } else {
      assert Peek(s.storage) == s.storage.(conjured := s.storage.conjured);
      assert Step(s, e).storage.versions == s.storage.versions;
    }
  }

  lemma RequestStepExtendsVersions(s: State, e: Event)
    requires Enabled(s, e) && !IsConnEvent(e) && !IsStorageEvent(e) && s.storage.slot.live.Some?
    ensures s.storage.versions <= Step(s, e).storage.versions
  {
    if e.Act? {
      match s.gate.request {
        case Save(_, update) => ApplyExtendsVersions(s.storage, update);
        case Restore(_, edit) => ApplyExtendsVersions(s.storage, edit);
        case _ =>
      }
    } else {
      assert Step(s, e).storage == s.storage;
    }
  }

  lemma StepExtendsVersions(s: State, e: Event)
    requires ControlInv(s) && Enabled(s, e) && s.storage.slot.live.Some?
    ensures s.storage.versions <= Step(s, e).storage.versions
  {
    if IsConnEvent(e) {
      ConnStepExtendsVersions(s, e);
    } else if IsStorageEvent(e) {
      assert Step(s, e).storage.versions == s.storage.versions;
    } else {
      RequestStepExtendsVersions(s, e);
    }
  }

  // ---- Saves ----

  /** The update a save merged is in the state it captured, and then in PostgreSQL. */
  ghost predicate SaveInv(s: State) {
    s.gate.Http? && s.gate.request.Save? ==>
      && (s.gate.point.Saving? || s.gate.point.Settling? ==> s.gate.request.update.Some?)
      && (s.gate.point.Saving? ==>
            && s.storage.slot.live.Some?
            && s.gate.request.update.value <= s.storage.slot.live.value.doc
            && (s.storage.op.Committing? || s.storage.op.Committed? ==>
                  s.gate.request.update.value <= s.storage.op.state))
      && (s.gate.point.Settling? ==> s.gate.request.update.value <= Content(s.storage.row))
  }

  lemma ConnStepKeepsSave(s: State, e: Event)
    requires AuthInv(s) && ControlInv(s) && SaveInv(s) && Enabled(s, e) && IsConnEvent(e)
    ensures SaveInv(Step(s, e))
  {
    if !e.ApplyFrame? {
      OnlyFramesApply(s, e);
      assert Step(s, e).gate == s.gate || !Step(s, e).gate.Http?;
    }
  }

  lemma RequestStepKeepsSave(s: State, e: Event)
    requires ControlInv(s) && SaveInv(s) && Enabled(s, e) && !IsConnEvent(e) && !IsStorageEvent(e)
    ensures SaveInv(Step(s, e))
  {
  }

  lemma SaveStepKeepsSave(s: State, e: Event)
    requires ControlInv(s) && DocumentStorage.Inv(s.storage) && SaveInv(s) && Enabled(s, e) && IsSaveEvent(e)
    ensures SaveInv(Step(s, e))
  {
  }

  lemma LoadStepKeepsSave(s: State, e: Event)
    requires ControlInv(s) && SaveInv(s) && Enabled(s, e)
    requires IsLoadEvent(e)
    ensures SaveInv(Step(s, e))
  {
  }

  lemma CheckpointStepKeepsSave(s: State, e: Event)
    requires ControlInv(s) && SaveInv(s) && Enabled(s, e)
    requires IsStorageEvent(e) && !IsLoadEvent(e) && !IsSaveEvent(e)
    ensures SaveInv(Step(s, e))
  {
  }

  lemma StorageStepKeepsSave(s: State, e: Event)
    requires ControlInv(s) && DocumentStorage.Inv(s.storage) && SaveInv(s) && Enabled(s, e) && IsStorageEvent(e)
    ensures SaveInv(Step(s, e))
  {
    if IsSaveEvent(e) {
      SaveStepKeepsSave(s, e);
    } else if IsLoadEvent(e) {
      LoadStepKeepsSave(s, e);
    } else {
      CheckpointStepKeepsSave(s, e);
    }
  }

  lemma {:induction false} RunKeepsSave(s: State, events: seq<Event>, base: Doc)
    requires RunInv(s, base) && SaveInv(s) && Run(s, events).Some?
    ensures SaveInv(Run(s, events).value)
    decreases |events|
  {
    if events != [] {
      var e := events[0];
      StepKeepsRoom(s, e, base);
      if IsConnEvent(e) {
        ConnStepKeepsSave(s, e);
      } else if IsStorageEvent(e) {
        StorageStepKeepsSave(s, e);
      } else {
        RequestStepKeepsSave(s, e);
      }
      RunKeepsSave(Step(s, e), events[1..], base);
    }
  }
}
