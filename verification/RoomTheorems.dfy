/** What the room protocol promises over every run, from any stored session. */
module RoomTheorems {
  import opened Prelude
  import opened Runs
  import opened LiveDocument
  import opened DocumentStorage
  import opened Membership
  import opened RoomRegistry
  import opened RoomProtocol
  import opened RoomInvariants
  import opened RoomData

  // ---- Authorization and residency ----

  lemma MutationKeepsOwner(row: SessionRow, m: Mutation)
    requires SingleOwner(row) && MutationAccepted(row, m)
    ensures SingleOwner(Mutate(row, m))
  {
  }

  lemma ConnStepKeepsRow(s: State, e: Event)
    requires Enabled(s, e) && IsConnEvent(e)
    ensures Step(s, e).row == s.row
  {
  }

  lemma StorageStepKeepsRow(s: State, e: Event)
    requires Enabled(s, e) && IsStorageEvent(e)
    ensures Step(s, e).row == s.row
  {
  }

  lemma StepKeepsOwner(s: State, e: Event)
    requires SingleOwner(s.row) && Enabled(s, e)
    ensures SingleOwner(Step(s, e).row)
  {
    if IsConnEvent(e) {
      ConnStepKeepsRow(s, e);
    } else if IsStorageEvent(e) {
      StorageStepKeepsRow(s, e);
    } else if e.CommitMutation? {
      MutationKeepsOwner(s.row, s.gate.mutation);
    } else if !e.InviteMember? {
      assert Step(s, e).row == s.row;
    }
  }

  /** Over every run from any state: no membership change makes a second owner or takes the owner's role away. */
  lemma {:induction false} OwnerStaysSingle(s: State, events: seq<Event>)
    requires SingleOwner(s.row) && Run(s, events).Some?
    ensures SingleOwner(Run(s, events).value.row)
    decreases |events|
  {
    if events != [] {
      StepKeepsOwner(s, events[0]);
      OwnerStaysSingle(Step(s, events[0]), events[1..]);
    }
  }

  /**
   In every interleaving, each update that reached the document came from a
   user whom PostgreSQL showed, at that very moment, as an editor or the owner
   of an active session; and a session with exactly its own owner keeps it so.
   */
  lemma EveryAppliedUpdateWasAuthorized(s: State, events: seq<Event>)
    requires Init(s) && Run(s, events).Some?
    ensures forall a :: a in Run(s, events).value.applied ==>
              && a.row.active && a.user in a.row.members
              && (a.row.members[a.user] == Editor || a.row.members[a.user] == Owner)
    ensures SingleOwner(s.row) ==> SingleOwner(Run(s, events).value.row)
  {
    Reachable(s, events);
    if SingleOwner(s.row) {
      OwnerStaysSingle(s, events);
    }
  }

  /** An unfenced connection that was not admitted as a viewer has the role PostgreSQL shows, and its edit lands. */
  lemma CurrentFrameIsApplied(r: State, c: ConnId, ops: Doc)
    requires AuthInv(r) && ControlInv(r) && Enabled(r, ApplyFrame(c))
    requires r.conns[c].phase == WaitingToApply(Some(ops))
    requires Failure(r.registry, r.conns[c].user, c).None? && r.conns[c].role != Viewer
    ensures r.row.active && r.conns[c].user in r.row.members && r.row.members[r.conns[c].user] == r.conns[c].role
    ensures var r' := Step(r, ApplyFrame(c));
            && At(r', c, Serving)
            && r'.applied == r.applied + [Applied(r.conns[c].user, ops, r.row)]
            && r'.storage.Held() == r.storage.Held() + ops
            && r'.registry == r.registry
  {
    ConnectedMeansLive(r, c);
    AcceptedMeansCurrent(r, c);
  }

  lemma FencedFrameIsRefused(r: State, c: ConnId, reason: Reason)
    requires Enabled(r, ApplyFrame(c)) && Failure(r.registry, r.conns[c].user, c) == Some(reason)
    ensures Step(r, ApplyFrame(c)) ==
              Goto(r, c, Serving).(registry := r.registry.(revoked := r.registry.revoked[c := reason]))
  {
  }

  lemma ViewerFrameIsRefused(r: State, c: ConnId)
    requires Enabled(r, ApplyFrame(c)) && Failure(r.registry, r.conns[c].user, c).None? && r.conns[c].role == Viewer
    ensures Step(r, ApplyFrame(c)) == Goto(r, c, Serving)
  {
  }

  /** A fenced one is revoked with the fence's reason, and a viewer is told; in both cases nothing is applied. */
  lemma StaleFrameIsRefused(r: State, c: ConnId)
    requires AuthInv(r) && ControlInv(r) && Enabled(r, ApplyFrame(c))
    requires Failure(r.registry, r.conns[c].user, c).Some? || r.conns[c].role == Viewer
    ensures var r' := Step(r, ApplyFrame(c));
            && At(r', c, Serving) && r'.applied == r.applied && r'.storage == r.storage
            && (match Failure(r.registry, r.conns[c].user, c)
                case None => r'.registry == r.registry
                case Some(reason) => r'.registry == r.registry.(revoked := r.registry.revoked[c := reason]))
    ensures Failure(r.registry, r.conns[c].user, c).None? ==>
              r.conns[c].user in r.row.members && r.row.members[r.conns[c].user] == Viewer
  {
    match Failure(r.registry, r.conns[c].user, c) {
      case Some(reason) => FencedFrameIsRefused(r, c, reason);
      case None =>
        ViewerFrameIsRefused(r, c);
        AcceptedMeansCurrent(r, c);
    }
  }

  lemma FrameOutcome(r: State, c: ConnId, ops: Doc)
    requires AuthInv(r) && ControlInv(r) && Enabled(r, ApplyFrame(c))
    requires r.conns[c].phase == WaitingToApply(Some(ops))
    ensures var r' := Step(r, ApplyFrame(c));
            var user, unfenced := r.conns[c].user, Failure(r.registry, r.conns[c].user, c).None?;
            var current := unfenced && r.conns[c].role != Viewer;
            && r'.applied == r.applied + (if current then [Applied(user, ops, r.row)] else [])
            && r'.storage.Held() == r.storage.Held() + (if current then ops else {})
            && (current <==> unfenced && r.row.active && user in r.row.members && r.row.members[user] != Viewer)
  {
    if Failure(r.registry, r.conns[c].user, c).None? && r.conns[c].role != Viewer {
      CurrentFrameIsApplied(r, c, ops);
    } else {
      StaleFrameIsRefused(r, c);
    }
  }

  /**
   A frame that decodes is applied exactly when its connection's authorization
   is still current and the role it was admitted with is not that of a viewer,
   which is then the role PostgreSQL shows; the document then holds it.
   */
  lemma FrameIsAppliedIff(s: State, events: seq<Event>, c: ConnId, ops: Doc)
    requires Init(s) && Run(s, events).Some?
    requires Enabled(Run(s, events).value, ApplyFrame(c))
    requires Run(s, events).value.conns[c].phase == WaitingToApply(Some(ops))
    ensures var r := Run(s, events).value;
            var r' := Step(r, ApplyFrame(c));
            var user, unfenced := r.conns[c].user, Failure(r.registry, r.conns[c].user, c).None?;
            var current := unfenced && r.conns[c].role != Viewer;
            && r'.applied == r.applied + (if current then [Applied(user, ops, r.row)] else [])
            && r'.storage.Held() == r.storage.Held() + (if current then ops else {})
            && (current <==> unfenced && r.row.active && user in r.row.members && r.row.members[user] != Viewer)
  {
    Reachable(s, events);
    FrameOutcome(Run(s, events).value, c, ops);
  }

  /** Stamps and revocations are kept only for connections that still exist. */
  lemma NothingIsKeptForGoneConnections(s: State, events: seq<Event>)
    requires Init(s) && Run(s, events).Some?
    ensures var r := Run(s, events).value;
            r.registry.stamps.Keys + r.registry.revoked.Keys + AllConns(r.registry.room) <= r.conns.Keys
  {
    Reachable(s, events);
  }

  /**
   While a room has a connection its document is loaded, and no frame or
   endpoint ever makes `get_or_create` conjure a blank document.
   */
  lemma ConnectedRoomsStayLoaded(s: State, events: seq<Event>)
    requires Init(s) && Run(s, events).Some?
    ensures var r := Run(s, events).value;
            && (r.registry.room != [] ==> r.storage.slot.live.Some?)
            && !r.storage.conjured
  {
    Reachable(s, events);
  }

  lemma ConnStepKeepsResidency(s: State, e: Event)
    requires AuthInv(s) && ControlInv(s) && Enabled(s, e) && IsConnEvent(e)
    ensures Step(s, e).storage.slot.live.Some? <==> s.storage.slot.live.Some?
  {
    if e.ApplyFrame? {
      ConnectedMeansLive(s, e.conn);
    } else {
      OnlyFramesApply(s, e);
    }
  }

  lemma RequestStepKeepsResidency(s: State, e: Event)
    requires ControlInv(s) && Enabled(s, e) && !IsConnEvent(e) && !IsStorageEvent(e)
    ensures Step(s, e).storage.slot.live.Some? <==> s.storage.slot.live.Some?
  {
    if !e.Act? {
      assert Step(s, e).storage == s.storage;
    }
  }

  lemma StorageStepResidency(s: State, e: Event)
    requires AuthInv(s) && ControlInv(s) && Enabled(s, e) && IsStorageEvent(e)
    ensures s.storage.slot.live.None? && Step(s, e).storage.slot.live.Some? ==> e.CheckpointRead?
    ensures s.storage.slot.live.Some? && Step(s, e).storage.slot.live.None? ==>
              e == CheckpointRecorded && s.storage.op.evict && s.registry.room == []
  {
    if e.CheckpointRecorded? {
      RecordingIsStorage(s);
    }
  }

  /**
   After every run: a document appears only when a load publishes it, and goes
   only when a checkpoint that was to evict it is recorded with nobody connected.
   */
  lemma DocumentsAppearByLoading(s: State, events: seq<Event>, e: Event)
    requires Init(s) && Run(s, events).Some? && Enabled(Run(s, events).value, e)
    ensures var r := Run(s, events).value;
            var r' := Step(r, e);
            && (r.storage.slot.live.None? && r'.storage.slot.live.Some? ==> e.CheckpointRead?)
            && (r.storage.slot.live.Some? && r'.storage.slot.live.None? ==>
                  e == CheckpointRecorded && r.storage.op.evict && r.registry.room == [])
  {
    Reachable(s, events);
    var r := Run(s, events).value;
    if IsConnEvent(e) {
      ConnStepKeepsResidency(r, e);
    } else if IsStorageEvent(e) {
      StorageStepResidency(r, e);
    } else {
      RequestStepKeepsResidency(r, e);
    }
  }

  // ---- No loss ----

  /** The session holds what it held at first and every update applied since, and nothing else. */
  ghost predicate HoldsEverything(s: State, r: State) {
    r.storage.Held() == s.storage.Durable() + Updates(r.applied)
  }

  /**
   No accepted edit is lost by eviction and reload: while Redis can be read,
   and even when it cannot but has nothing new, the live document if there is
   one, and otherwise PostgreSQL merged with Redis, is exactly what was stored
   when the run began and every update applied since.
   */
  lemma NoAcceptedEditIsLost(s: State, events: seq<Event>)
    requires Init(s) && Run(s, events).Some? && OutagesAreHarmless(s, events)
    ensures HoldsEverything(s, Run(s, events).value)
  {
    Reachable(s, events);
    InitHolds(s);
    HarmlessRunKeepsLossless(s, events, s.storage.Durable());
  }

  /**
   The exact condition under which finishing a load keeps everything, to be
   read off the two stores before the load: the checkpoint can be read, or
   PostgreSQL has all of it.
   */
  lemma LoadKeepsEverythingIff(s: State, events: seq<Event>, outage: bool)
    requires Init(s) && Run(s, events).Some? && OutagesAreHarmless(s, events)
    requires Run(s, events).value.storage.op.ReadingCheckpoint?
    ensures var r := Run(s, events).value;
            HoldsEverything(s, Step(r, CheckpointRead(outage))) <==>
              (!outage || Content(r.storage.checkpoint) <= Content(r.storage.row))
  {
    var r, e := Run(s, events).value, CheckpointRead(outage);
    Reachable(s, events);
    InitHolds(s);
    HarmlessRunKeepsLossless(s, events, s.storage.Durable());
    StepKeepsData(r, e, s.storage.Durable());
  }

  lemma {:induction false} HarmlessPrefix(s: State, events: seq<Event>, n: nat)
    requires Run(s, events).Some? && n <= |events| && OutagesAreHarmless(s, events)
    ensures OutagesAreHarmless(s, events[..n])
    decreases n
  {
    if n > 0 {
      PrefixRuns(Next, s, events, n);
      HarmlessPrefix(Step(s, events[0]), events[1..], n - 1);
      assert events[..n][0] == events[0] && events[..n][1..] == events[1..][..n - 1];
    }
  }

  /** A run with a harmful outage is short of something right after the first of them. */
  lemma {:induction false} HarmfulOutageLoses(s: State, events: seq<Event>, base: Doc) returns (n: nat)
    requires RunInv(s, base) && Lossless(s.storage)
    requires Run(s, events).Some? && !OutagesAreHarmless(s, events)
    ensures n <= |events| && Run(s, events[..n]).Some?
    ensures var r := Run(s, events[..n]).value; r.storage.Held() != base + Updates(r.applied)
    decreases |events|
  {
    StepKeepsRoom(s, events[0], base);
    StepKeepsData(s, events[0], base);
    if Harmful(s, events[0]) {
      n := 1;
      PrefixRuns(Next, s, events, n);
      assert events[1..][..0] == [];
    } else {
      var m := HarmfulOutageLoses(Step(s, events[0]), events[1..], base);
      n := m + 1;
      PrefixRuns(Next, s, events, n);
    }
  }

  /** A run loses nothing at any point if and only if each failed Redis read came when Redis had nothing new. */
  lemma NothingIsEverLostIff(s: State, events: seq<Event>)
    requires Init(s) && Run(s, events).Some?
    ensures forall n :: 0 <= n <= |events| ==> Run(s, events[..n]).Some?
    ensures (forall n :: 0 <= n <= |events| ==> HoldsEverything(s, Run(s, events[..n]).value)) <==>
              OutagesAreHarmless(s, events)
  {
    forall n | 0 <= n <= |events| ensures Run(s, events[..n]).Some? {
      PrefixRuns(Next, s, events, n);
    }
    if OutagesAreHarmless(s, events) {
      forall n | 0 <= n <= |events| ensures HoldsEverything(s, Run(s, events[..n]).value) {
        HarmlessPrefix(s, events, n);
        NoAcceptedEditIsLost(s, events[..n]);
      }
    } else {
      InitHolds(s);
      var n := HarmfulOutageLoses(s, events, s.storage.Durable());
    }
  }

  /** The process dies: PostgreSQL and Redis survive, everything in memory is gone. */
  function AfterCrash(s: State): State {
    State(s.row,
          Storage(s.storage.row, s.storage.checkpoint, EMPTY_SLOT, StorageOp.Idle, s.storage.Durable(), [], [], false),
          EMPTY_REGISTRY, map[], Open, [])
  }

  /**
   A recorded checkpoint generation is truthful: it does not exceed the current
   one, and whenever the process crashes, every later run of the restarted
   server still holds the document as it was at that generation. Without a
   live document a crash loses nothing that was not lost before.
   */
  lemma CrashLosesOnlyUncheckpointedEdits(s: State, events: seq<Event>, later: seq<Event>)
    requires Init(s) && Run(s, events).Some?
    requires Run(AfterCrash(Run(s, events).value), later).Some?
    requires OutagesAreHarmless(AfterCrash(Run(s, events).value), later)
    ensures var r := Run(s, events).value;
            var recovered := Run(AfterCrash(r), later).value.storage.Held();
            match r.storage.slot.live
            case None => OutagesAreHarmless(s, events) ==> s.storage.Durable() + Updates(r.applied) <= recovered
            case Some(l) => l.meta.checkpointed.Some? ==>
              var g := l.meta.checkpointed.value;
              g <= l.meta.generation && g < |r.storage.versions| && r.storage.versions[g] <= recovered
  {
    Reachable(s, events);
    NoAcceptedEditIsLost(AfterCrash(Run(s, events).value), later);
    if OutagesAreHarmless(s, events) {
      NoAcceptedEditIsLost(s, events);
    }
  }

  // ---- Checkpoints, evictions and saves ----

  /** `versions[g]` never changes while a document stays loaded, and its last entry is the document itself. */
  lemma VersionsRecordTheDocument(s: State, events: seq<Event>, e: Event)
    requires Init(s) && Run(s, events).Some? && Enabled(Run(s, events).value, e)
    requires Run(s, events).value.storage.slot.live.Some?
    ensures var r := Run(s, events).value.storage;
            var r' := Step(Run(s, events).value, e).storage;
            && |r.versions| == r.slot.live.value.meta.generation + 1
            && r.versions[r.slot.live.value.meta.generation] == r.slot.live.value.doc
            && (r'.slot.live.Some? ==> r.versions <= r'.versions)
  {
    Reachable(s, events);
    if Step(Run(s, events).value, e).storage.slot.live.Some? {
      StepExtendsVersions(Run(s, events).value, e);
    }
  }

  lemma RecordingIsStorage(s: State)
    requires Enabled(s, CheckpointRecorded)
    ensures Step(s, CheckpointRecorded).storage == RecordCheckpointed(s.storage)
  {
  }

  /**
   Finishing `checkpoint_and_remove`: a document that is removed is, bit for
   bit, what Redis holds, however many edits arrived during the write; when one
   did arrive, the document is kept. Either way nobody is connected.
   */
  lemma EvictionLeavesRedisEqual(s: State, events: seq<Event>)
    requires Init(s) && Run(s, events).Some?
    requires Run(s, events).value.storage.op.Written? && Run(s, events).value.storage.op.evict
    ensures var r := Run(s, events).value;
            var r' := Step(r, CheckpointRecorded).storage;
            var l := r.storage.slot.live;
            && r.registry.room == [] && l.Some?
            && (r'.slot.live.None? <==> l.value.meta.generation == r.storage.op.generation)
            && (r'.slot.live.None? ==> r'.checkpoint == Some(l.value.doc))
            && (r'.slot.live.Some? ==> r'.slot.live.value.doc == l.value.doc)
  {
    Reachable(s, events);
    RecordingIsStorage(Run(s, events).value);
  }

  /** A checkpoint that keeps the document records the generation it wrote, and Redis holds exactly that version. */
  lemma CheckpointRecordsWhatItWrote(s: State, events: seq<Event>)
    requires Init(s) && Run(s, events).Some?
    requires Run(s, events).value.storage.op.Written?
    requires Step(Run(s, events).value, CheckpointRecorded).storage.slot.live.Some?
    ensures var r := Run(s, events).value.storage;
            var r' := Step(Run(s, events).value, CheckpointRecorded).storage;
            && r'.slot.live.value.meta.checkpointed == Some(r.op.generation)
            && r.op.generation < |r'.versions|
            && r'.checkpoint == Some(r'.versions[r.op.generation])
  {
    Reachable(s, events);
    RecordingIsStorage(Run(s, events).value);
  }

  /** A document whose latest generation is checkpointed, as `remove_doc` demands, is exactly what a reload recovers. */
  lemma CheckpointedDocumentsAreDurable(s: State, events: seq<Event>)
    requires Init(s) && Run(s, events).Some?
    requires var l := Run(s, events).value.storage.slot.live;
             l.Some? && l.value.meta.checkpointed == Some(l.value.meta.generation)
    ensures var r := Run(s, events).value.storage; r.slot.live.value.doc == r.Durable()
  {
    Reachable(s, events);
  }

  /** Saves commit in order, each committed state contains all earlier ones, and the row never falls behind them. */
  lemma SavesNeverGoBackwards(s: State, events: seq<Event>)
    requires Init(s) && Run(s, events).Some?
    ensures var r := Run(s, events).value.storage;
            && (forall i, j :: 0 <= i <= j < |r.commits| ==> r.commits[i] <= r.commits[j])
            && (forall i :: 0 <= i < |r.commits| ==> r.commits[i] <= Content(r.row))
  {
    Reachable(s, events);
  }

  /** Outside the window between a commit and its metadata write, `dirty` is the truth about PostgreSQL. */
  lemma DirtyIsTruthful(s: State, events: seq<Event>)
    requires Init(s) && Run(s, events).Some?
    requires !Run(s, events).value.storage.op.Committed?
    ensures var r := Run(s, events).value.storage;
            StatusOf(r.slot).Some? ==>
              && StatusOf(r.slot).value.saved == Content(r.row)
              && (StatusOf(r.slot).value.dirty <==> r.slot.live.value.doc != Content(r.row))
  {
    Reachable(s, events);
  }

  /** A load never publishes over a document that appeared meanwhile, nor from a row that has since changed. */
  lemma PublishNeverOverwrites(s: State, events: seq<Event>)
    requires Init(s) && Run(s, events).Some?
    requires Run(s, events).value.storage.op.ReadingCheckpoint?
    ensures var r := Run(s, events).value.storage;
            r.slot.live.None? && r.op.row == r.row
  {
    Reachable(s, events);
  }

  /** A save that got past its commit has its update in PostgreSQL, whatever ran in between. */
  lemma SavedUpdateReachesPostgres(s: State, events: seq<Event>)
    requires Init(s) && Run(s, events).Some?
    requires var g := Run(s, events).value.gate; g.Http? && g.request.Save? && g.point.Settling?
    ensures var r := Run(s, events).value;
            r.gate.request.update.Some? && r.gate.request.update.value <= Content(r.storage.row)
  {
    InitHolds(s);
    RunKeepsSave(s, events, s.storage.Durable());
  }

  /** In particular, with a Redis that can be read throughout, nothing is missing at any point of any run. */
  lemma ReadableRedisLosesNothing(s: State, events: seq<Event>, n: nat)
    requires Init(s) && Run(s, events).Some? && CheckpointRead(true) !in events && n <= |events|
    ensures Run(s, events[..n]).Some? && HoldsEverything(s, Run(s, events[..n]).value)
  {
    ReadableRedisIsHarmless(s, events);
    NothingIsEverLostIff(s, events);
  }

  // ---- What a harmful outage looks like ----

  /** Any member of an active session reaches the load of an empty room without touching storage. */
  lemma MemberReachesLoad(s: State, c: ConnId, user: User) returns (events: seq<Event>, r: State)
    requires Init(s) && s.row.active && user in s.row.members
    ensures Run(s, events) == Some(r) && r.gate == Joining(c) && c in r.conns && r.storage == s.storage
  {
    events, r := Advance(s, [], s, Connect(c, user));
    events, r := Advance(s, events, r, ReadSession(c));
    events, r := Advance(s, events, r, ReadMember(c));
    events, r := Advance(s, events, r, RegisterStamp(c));
    events, r := Advance(s, events, r, EnterJoin(c));
  }

  /** A load that cannot read Redis publishes the saved row alone. */
  lemma OutageLoadsRowOnly(s: State, before: seq<Event>, r: State) returns (events: seq<Event>, r': State)
    requires Run(s, before) == Some(r)
    requires r.gate.Joining? && r.gate.conn in r.conns
    requires r.storage.op == StorageOp.Idle && r.storage.slot == EMPTY_SLOT
    ensures Run(s, events) == Some(r') && r'.storage.op == StorageOp.Idle && r'.storage.slot.live.Some?
    ensures r'.storage.slot.live.value.doc == Content(r.storage.row) && r'.storage.row == r.storage.row
  {
    events, r' := Advance(s, before, r, BeginLoad);
    events, r' := Advance(s, events, r', RowRead);
    events, r' := Advance(s, events, r', CheckpointRead(true));
  }

  /** Opening a session while Redis cannot be read, and checkpointing it again, overwrites unsaved edits for good. */
  lemma OutageLosesEdits() returns (s: State, events: seq<Event>)
    ensures Init(s) && Run(s, events).Some?
    ensures !(s.storage.Durable() <= Run(s, events).value.storage.Held() + Run(s, events).value.storage.Durable())
  {
    var unsaved: Doc := {Insert(1, 0)};
    s := State(CreateSession(7),
               Storage(None, Some(unsaved), EMPTY_SLOT, StorageOp.Idle, unsaved, [], [], false),
               EMPTY_REGISTRY, map[], Open, []);
    assert Insert(1, 0) in s.storage.Durable();
    var r;
    events, r := MemberReachesLoad(s, 0, 7);
    events, r := OutageLoadsRowOnly(s, events, r);
    events, r := Advance(s, events, r, BeginBackgroundCheckpoint);
    events, r := Advance(s, events, r, CheckpointWritten);
  }
}
