/**
 The retiring per-session guards behind `DocumentManager._serialized`.

 Guard objects have identities, because a retired guard and its successor are
 different locks: mutual exclusion needs every waiter and holder to use the
 same one. Tasks of one session enter, acquire and leave in any order, and may
 be cancelled while they wait. Whoever holds the guard loads, checkpoints and
 evicts; edits and `remove_doc` take no guard and come at any time, also in the
 middle of a load.
 */
module SessionGuard {
  import opened Prelude
  import opened Runs
  import opened LiveDocument

  type GuardId = nat
  type Task = nat

  /** `_guards[session]` and the `users` count of every guard object ever made. */
  datatype GuardTable = GuardTable(registered: Option<GuardId>, users: map<GuardId, nat>, next: GuardId)

  const NO_GUARDS := GuardTable(None, map[], 0)

  /** `setdefault` followed by `users += 1`; the result names the guard to lock. */
  function Enter(t: GuardTable): (GuardTable, GuardId) {
    match t.registered
    case Some(g) => (t.(users := t.users[g := UsersOf(t, g) + 1]), g)
    case None => (GuardTable(Some(t.next), t.users[t.next := 1], t.next + 1), t.next)
  }

  function UsersOf(t: GuardTable, g: GuardId): nat {
    if g in t.users then t.users[g] else 0
  }

  /** The `finally` block: `users -= 1`, and retire the guard if it is idle, documentless and still registered. */
  function Exit(t: GuardTable, g: GuardId, loaded: bool): GuardTable {
    var left := if UsersOf(t, g) == 0 then 0 else UsersOf(t, g) - 1;
    var t' := t.(users := t.users[g := left]);
    if left == 0 && !loaded && t.registered == Some(g) then t'.(registered := None) else t'
  }

  /** `remove_doc` refuses while storage work is queued on the guard. */
  predicate Busy(t: GuardTable) {
    t.registered.Some? && UsersOf(t, t.registered.value) != 0
  }

  datatype Place = Waiting(guard: GuardId) | Holding(guard: GuardId)

  /** The document and its loading mark, with the task whose load set the mark. */
  datatype State = State(
    table: GuardTable,
    slot: Slot,
    loader: Option<Task>,
    holder: map<GuardId, Task>,
    tasks: map<Task, Place>)

  datatype Event =
    | Arrive(task: Task)
    | Acquire(task: Task)
    | Depart(task: Task)        // normal exit, or cancellation while waiting
    | StartsLoad(task: Task)
    | Publishes(task: Task, row: Option<Doc>, checkpoint: Option<Doc>)
    | AbortsLoad(task: Task)
    | Checkpoints(task: Task, generation: nat)
    | Evicts(task: Task)
    | Edits(update: Option<Doc>)
    | RemovesDoc

  const INIT := State(NO_GUARDS, EMPTY_SLOT, None, map[], map[])

  predicate Holds(s: State, t: Task) {
    t in s.tasks && s.tasks[t].Holding?
  }

  /** What `remove_doc` demands. */
  predicate Removable(s: State) {
    s.slot.live.Some? && !Busy(s.table) &&
    s.slot.live.value.meta.checkpointed == Some(s.slot.live.value.meta.generation)
  }

  predicate Enabled(s: State, e: Event) {
    match e
    case Arrive(t) => t !in s.tasks
    case Acquire(t) => t in s.tasks && s.tasks[t].Waiting? && s.tasks[t].guard !in s.holder
    case Depart(t) => t in s.tasks && s.loader != Some(t)
    case StartsLoad(t) => Holds(s, t) && s.loader != Some(t) && s.slot.live.None?
    case Publishes(t, _, _) => Holds(s, t) && s.loader == Some(t)
    case AbortsLoad(t) => Holds(s, t) && s.loader == Some(t)
    case Checkpoints(t, _) => Holds(s, t) && s.loader != Some(t)
    case Evicts(t) => Holds(s, t) && s.loader != Some(t)
    case Edits(_) => true
    case RemovesDoc => true
  }

  function Step(s: State, e: Event): State
    requires Enabled(s, e)
  {
    match e
    case Arrive(t) =>
      var (table, g) := Enter(s.table);
      s.(table := table, tasks := s.tasks[t := Waiting(g)])
    case Acquire(t) =>
      var g := s.tasks[t].guard;
      s.(holder := s.holder[g := t], tasks := s.tasks[t := Holding(g)])
    case Depart(t) =>
      var g := s.tasks[t].guard;
      s.(table := Exit(s.table, g, s.slot.live.Some?),
         holder := if s.tasks[t].Holding? then s.holder - {g} else s.holder,
         tasks := s.tasks - {t})
    case StartsLoad(t) => s.(slot := BeginLoad(s.slot), loader := Some(t))
    case Publishes(_, row, checkpoint) => s.(slot := FinishLoad(s.slot, row, checkpoint), loader := None)
    case AbortsLoad(_) => s.(slot := AbortLoad(s.slot), loader := None)
    case Checkpoints(_, g) => s.(slot := RecordCheckpoint(s.slot, g))
    case Evicts(_) => s.(slot := Evict(s.slot))
    case Edits(update) => s.(slot := ApplyUpdate(s.slot, update))
    case RemovesDoc =>
      if Removable(s) then s.(slot := Evict(s.slot), table := s.table.(registered := None)) else s
  }

  function Next(s: State, e: Event): Option<State> {
    if Enabled(s, e) then Some(Step(s, e)) else None
  }

  /** The state after a run, or None when some event of it was not enabled. */
  function Run(s: State, events: seq<Event>): Option<State> {
    RunOf(Next, s, events)
  }

  /** One more step of a run. */
  lemma Advance(s: State, events: seq<Event>, r: State, e: Event) returns (events': seq<Event>, r': State)
    requires Run(s, events) == Some(r) && Enabled(r, e)
    ensures events' == events + [e] && r' == Step(r, e)
    ensures Run(s, events') == Some(r')
  {
    events', r' := events + [e], Step(r, e);
    RunExtends(Next, s, events, e);
  }

  // ---- What `_serialized` keeps ----

  ghost predicate UsesRegistered(s: State) {
    forall t :: t in s.tasks ==> s.table.registered == Some(s.tasks[t].guard)
  }

  ghost predicate CountsTasks(s: State) {
    match s.table.registered
    case None => s.tasks == map[]
    case Some(g) => UsersOf(s.table, g) == |s.tasks|
  }

  ghost predicate HolderConsistent(s: State) {
    && (forall t :: t in s.tasks && s.tasks[t].Holding? ==>
                      s.tasks[t].guard in s.holder && s.holder[s.tasks[t].guard] == t)
    && (forall g :: g in s.holder ==>
                      s.holder[g] in s.tasks && s.tasks[s.holder[g]] == Holding(g))
  }

  ghost predicate Inv(s: State) {
    && UsesRegistered(s)
    && CountsTasks(s)
    && HolderConsistent(s)
    && (s.table.registered.Some? ==> s.table.registered.value < s.table.next)
    && (s.table.registered.Some? && s.tasks == map[] ==> s.slot.live.Some?)
    && (s.loader.Some? ==> Holds(s, s.loader.value) && s.slot == Slot(None, true))
    && (s.loader.None? ==> !s.slot.loading)
  }

  /** A newcomer waits; nobody else is disturbed. */
  lemma NewcomerKeepsHolder(s: State, s': State, t: Task, g: GuardId)
    requires HolderConsistent(s) && t !in s.tasks
    requires s'.holder == s.holder && s'.tasks == s.tasks[t := Waiting(g)]
    ensures HolderConsistent(s')
  {
  }

  /** Entering counts the newcomer on the registered guard. */
  lemma EnterCounts(t: GuardTable, tasks: nat)
    requires t.registered.Some? ==> UsersOf(t, t.registered.value) == tasks
    requires t.registered.None? ==> tasks == 0
    ensures Enter(t).0.registered == Some(Enter(t).1)
    ensures UsersOf(Enter(t).0, Enter(t).1) == tasks + 1
  {
  }

  lemma NewcomerIsCounted(tasks: map<Task, Place>, t: Task, p: Place)
    requires t !in tasks
    ensures |tasks[t := p]| == |tasks| + 1
  {
    assert tasks[t := p].Keys == tasks.Keys + {t};
  }

  lemma ArriveKeepsInv(s: State, t: Task)
    requires Inv(s) && t !in s.tasks
    ensures Inv(Step(s, Arrive(t)))
  {
    var (table, g) := Enter(s.table);
    EnterCounts(s.table, |s.tasks|);
    NewcomerIsCounted(s.tasks, t, Waiting(g));
    var s' := s.(table := table, tasks := s.tasks[t := Waiting(g)]);
    NewcomerKeepsHolder(s, s', t, g);
    assert t in s'.tasks;
  }

  lemma AcquireKeepsInv(s: State, t: Task)
    requires Inv(s) && Enabled(s, Acquire(t))
    ensures Inv(Step(s, Acquire(t)))
  {
    var s' := Step(s, Acquire(t));
    assert s'.tasks.Keys == s.tasks.Keys;
    assert |s'.tasks| == |s.tasks|;
    assert t in s'.tasks;
  }

  lemma DepartKeepsInv(s: State, t: Task)
    requires Inv(s) && Enabled(s, Depart(t))
    ensures Inv(Step(s, Depart(t)))
  {
    var s' := Step(s, Depart(t));
    assert s'.tasks.Keys == s.tasks.Keys - {t};
    assert |s'.tasks| == |s.tasks| - 1;
    if |s'.tasks| == 0 {
      assert s'.tasks == map[];
    } else {
      assert s'.table.registered == s.table.registered;
    }
  }

  lemma OneHolder(s: State, t: Task, u: Task)
    requires Inv(s) && Holds(s, t) && Holds(s, u)
    ensures t == u
  {
    assert s.tasks[t].guard == s.tasks[u].guard;
  }

  /** Only one task holds the guard, so its storage work meets no load but its own. */
  lemma HolderKeepsInv(s: State, e: Event, t: Task)
    requires Inv(s) && Enabled(s, e) && Holds(s, t)
    requires e.StartsLoad? || e.Publishes? || e.AbortsLoad? || e.Checkpoints? || e.Evicts?
    requires e.task == t
    ensures Inv(Step(s, e))
  {
    assert s.tasks != map[];
    if s.loader.Some? {
      OneHolder(s, t, s.loader.value);
    }
  }

  lemma StepKeepsInv(s: State, e: Event)
    requires Inv(s) && Enabled(s, e)
    ensures Inv(Step(s, e))
  {
    match e {
      case Arrive(t) => ArriveKeepsInv(s, t);
      case Acquire(t) => AcquireKeepsInv(s, t);
      case Depart(t) => DepartKeepsInv(s, t);
      case Edits(_) =>
      case RemovesDoc =>
        if Removable(s) {
          assert s.tasks == map[];
        }
      case StartsLoad(t) => HolderKeepsInv(s, e, t);
      case Publishes(t, _, _) => HolderKeepsInv(s, e, t);
      case AbortsLoad(t) => HolderKeepsInv(s, e, t);
      case Checkpoints(t, _) => HolderKeepsInv(s, e, t);
      case Evicts(t) => HolderKeepsInv(s, e, t);
    }
  }

  lemma {:induction false} RunKeepsInv(s: State, events: seq<Event>)
    requires Inv(s) && Run(s, events).Some?
    ensures Inv(Run(s, events).value)
    decreases |events|
  {
    if events != [] {
      StepKeepsInv(s, events[0]);
      RunKeepsInv(Step(s, events[0]), events[1..]);
    }
  }

  /** After every run, whatever guards were retired and recreated: at most one task is inside. */
  lemma MutualExclusion(events: seq<Event>, t: Task, u: Task)
    requires Run(INIT, events).Some?
    requires t in Run(INIT, events).value.tasks && u in Run(INIT, events).value.tasks
    requires Run(INIT, events).value.tasks[t].Holding? && Run(INIT, events).value.tasks[u].Holding?
    ensures t == u
  {
    RunKeepsInv(INIT, events);
  }

  /**
   After every run: each waiter or holder uses the registered guard, `users`
   counts exactly those tasks, and an idle guard remains only for a document.
   */
  lemma GuardAccounting(events: seq<Event>)
    requires Run(INIT, events).Some?
    ensures var s := Run(INIT, events).value;
            && (forall t :: t in s.tasks ==> s.table.registered == Some(s.tasks[t].guard))
            && (s.table.registered.Some? ==> UsersOf(s.table, s.table.registered.value) == |s.tasks.Keys|)
            && (s.table.registered.Some? && UsersOf(s.table, s.table.registered.value) == 0 ==> s.slot.live.Some?)
  {
    RunKeepsInv(INIT, events);
    var s := Run(INIT, events).value;
    assert |s.tasks.Keys| == |s.tasks|;
    if |s.tasks| == 0 {
      assert s.tasks == map[];
    }
  }

  /**
   After every run: a load in progress has nothing to overwrite when it
   publishes, because no edit can make a document while the mark is set and the
   guard keeps every other load and eviction away. Edits meanwhile do nothing.
   */
  lemma PublishOverwritesNothing(events: seq<Event>, t: Task, update: Option<Doc>)
    requires Run(INIT, events).Some? && Run(INIT, events).value.loader == Some(t)
    ensures var s := Run(INIT, events).value;
            && s.slot.live.None? && Holds(s, t)
            && Step(s, Edits(update)) == s && Step(s, RemovesDoc) == s
            && forall u :: Holds(s, u) ==> u == t
  {
    RunKeepsInv(INIT, events);
    var s := Run(INIT, events).value;
    forall u | Holds(s, u) ensures u == t {
      OneHolder(s, u, t);
    }
  }

  /** `remove_doc` removes exactly a document whose latest generation is checkpointed while no task uses its guard. */
  lemma RemoveDocIff(s: State)
    requires s.slot.live.Some?
    ensures var r := Step(s, RemovesDoc);
            var idle := s.table.registered.None? || s.table.registered.value !in s.table.users ||
                        s.table.users[s.table.registered.value] == 0;
            && (r.slot.live.None? <==>
                  idle && s.slot.live.value.meta.checkpointed == Some(s.slot.live.value.meta.generation))
            && (r.slot.live.None? ==> r.table.registered.None?)
            && (r.slot.live.Some? ==> r == s)
            && r.tasks == s.tasks && r.holder == s.holder
  {
  }

  /** A load by a newcomer, with an edit arriving in the middle that comes to nothing. */
  lemma UninterruptedLoad(row: Option<Doc>, checkpoint: Option<Doc>, update: Option<Doc>)
    returns (events: seq<Event>, r: State)
    ensures events ==
              [Arrive(1), Acquire(1), StartsLoad(1), Edits(update), Publishes(1, row, checkpoint), Depart(1)]
    ensures Run(INIT, events) == Some(r) && r.tasks == map[] && r.holder == map[] && r.loader.None?
    ensures r.slot.live.Some? && r.slot.live.value.doc == Content(row) + Content(checkpoint) && !r.slot.loading
    ensures r.table.registered == Some(0)
  {
    events, r := Advance(INIT, [], INIT, Arrive(1));
    events, r := Advance(INIT, events, r, Acquire(1));
    events, r := Advance(INIT, events, r, StartsLoad(1));
    events, r := Advance(INIT, events, r, Edits(update));
    events, r := Advance(INIT, events, r, Publishes(1, row, checkpoint));
    events, r := Advance(INIT, events, r, Depart(1));
    assert r.tasks == map[] && r.holder == map[];
  }

  /** One that fails leaves no document, and the guard it made is retired. */
  lemma UninterruptedAbort() returns (r: State)
    ensures Run(INIT, [Arrive(1), Acquire(1), StartsLoad(1), AbortsLoad(1), Depart(1)]) == Some(r)
    ensures r.slot == EMPTY_SLOT && r.tasks == map[] && r.table.registered.None?
  {
    var events;
    events, r := Advance(INIT, [], INIT, Arrive(1));
    events, r := Advance(INIT, events, r, Acquire(1));
    events, r := Advance(INIT, events, r, StartsLoad(1));
    events, r := Advance(INIT, events, r, AbortsLoad(1));
    events, r := Advance(INIT, events, r, Depart(1));
    assert r.tasks == map[];
  }

  /** Checkpointing and evicting an idle document takes it and its guard away. */
  lemma UninterruptedEviction(s: State, t: Task) returns (events: seq<Event>, r: State)
    requires Inv(s) && s.tasks == map[] && s.slot.live.Some?
    ensures events == [Arrive(t), Acquire(t), Checkpoints(t, s.slot.live.value.meta.generation), Evicts(t), Depart(t)]
    ensures Run(s, events) == Some(r) && r.slot == EMPTY_SLOT && r.tasks == map[] && r.table.registered.None?
  {
    assert s.loader.None?;
    events, r := Advance(s, [], s, Arrive(t));
    assert forall g :: g !in s.holder;
    events, r := Advance(s, events, r, Acquire(t));
    events, r := Advance(s, events, r, Checkpoints(t, s.slot.live.value.meta.generation));
    events, r := Advance(s, events, r, Evicts(t));
    events, r := Advance(s, events, r, Depart(t));
    assert r.tasks == map[];
  }
}
