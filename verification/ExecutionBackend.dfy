/**
 The execution table and Redis lists as the objects that service.py and
 worker.py update in place, one method per function, each run without
 interruption. ExecutionLifecycle interleaves the same steps.
 */
module ExecutionBackend {
  import opened Prelude
  import opened Runs
  import opened ExecutionStatus
  import opened ExecutionLifecycle

  datatype Record = Record(code: string, status: Status, stdout: string, stderr: string, exitCode: Option<int>)

  /** A Redis write, which may raise after it has taken effect. */
  datatype Write = Accepted | Raised(landed: bool)

  predicate Landed(w: Write) {
    w.Accepted? || w.landed
  }

  datatype CancelResult = CancelDone | NotFound | Conflict | QueueUnavailable

  /** What the sandbox does once it has been asked for. */
  datatype Sandbox =
    | CreationFails(message: string)
    | TimesOut(stdout: string, stderr: string, code: int)
    | Exits(stdout: string, stderr: string, code: int)

  const RESTARTED := "Execution worker restarted before completion."

  predicate Waits(rows: map<JobId, Record>, item: Item) {
    item.Job? && item.id in rows && rows[item.id].status == QUEUED
  }

  /** What the row of an execution shows once its code has run. */
  function Report(code: string, sandbox: Sandbox, cancelled: bool): Record {
    match sandbox
    case CreationFails(message) => Record(code, FAILED, "", message, None)
    case TimesOut(stdout, stderr, exit) =>
      Record(code, if cancelled then CANCELLED else TIMEOUT, stdout, stderr, Some(exit))
    case Exits(stdout, stderr, exit) =>
      Record(code, if cancelled then CANCELLED else if exit == 0 then COMPLETED else FAILED, stdout, stderr, Some(exit))
  }

  /** One turn of the worker, seen from the rows: only an execution that waits is run. */
  function Processed(rows: map<JobId, Record>, keys: set<JobId>, item: Item, sandbox: Sandbox): map<JobId, Record> {
    if Waits(rows, item) then rows[item.id := Report(rows[item.id].code, sandbox, item.id in keys)] else rows
  }

  function KeysAfter(rows: map<JobId, Record>, keys: set<JobId>, item: Item): set<JobId> {
    if Waits(rows, item) then keys - {item.id} else keys
  }

  /** The items of a recovered processing list whose rows still wait. */
  function Requeued(rows: map<JobId, Record>, items: seq<Item>): seq<Item> {
    if items == [] then [] else (if Waits(rows, items[0]) then [items[0]] else []) + Requeued(rows, items[1..])
  }

  /** Every row a dead worker had claimed becomes FAILED; the others are untouched. */
  function Reconciled(rows: map<JobId, Record>, items: seq<Item>): map<JobId, Record> {
    map id | id in rows ::
      if Job(id) in items && Active(rows[id].status)
      then rows[id].(status := FAILED, stderr := RESTARTED) else rows[id]
  }

  lemma {:induction false} RequeuedAppends(rows: map<JobId, Record>, items: seq<Item>, item: Item)
    ensures Requeued(rows, items + [item]) == Requeued(rows, items) + Requeued(rows, [item])
  {
    if items == [] {
      assert items + [item] == [item];
    } else {
      assert (items + [item])[1..] == items[1..] + [item];
      RequeuedAppends(rows, items[1..], item);
    }
  }

  lemma {:induction false} RequeuedAre(rows: map<JobId, Record>, items: seq<Item>)
    ensures forall x :: x in Requeued(rows, items) <==>
                          x in items && x.Job? && x.id in rows && rows[x.id].status == QUEUED
  {
    if items != [] {
      RequeuedAre(rows, items[1..]);
      assert items == [items[0]] + items[1..];
    }
  }

  /** Requeueing depends only on which rows wait, and recovery never changes that. */
  lemma {:induction false} ReconciledStillWaits(rows: map<JobId, Record>, done: seq<Item>, items: seq<Item>)
    ensures Requeued(Reconciled(rows, done), items) == Requeued(rows, items)
  {
    if items != [] {
      ReconciledStillWaits(rows, done, items[1..]);
    }
  }

  lemma ReconciledComposes(rows: map<JobId, Record>, first: seq<Item>, rest: seq<Item>)
    ensures Reconciled(rows, first + rest) == Reconciled(Reconciled(rows, first), rest)
  {
  }

  /** What the lifecycle machine sees of the rows. */
  function Statuses(rows: map<JobId, Record>): map<JobId, Status> {
    map id | id in rows :: rows[id].status
  }

  lemma RecoverOneAgrees(s: State, rows: map<JobId, Record>, item: Item)
    requires s.rows == Statuses(rows)
    ensures RecoverOne(s, item).rows == Statuses(Reconciled(rows, [item]))
    ensures RecoverOne(s, item).queue == s.queue + Requeued(rows, [item])
  {
    if item.Job? && item.id in rows && Active(rows[item.id].status) {
      assert Allowed(s.rows[item.id], FAILED);
    }
  }

  /** One item takes the machine two steps. */
  lemma RecoverItemAgrees(s: State, rows: map<JobId, Record>) returns (events: seq<Event>, r: State)
    requires s.worker.Recovering? && s.worker.todo != [] && s.locked == {} && s.rows == Statuses(rows)
    ensures Run(s, events) == Some(r)
    ensures r.worker == Recovering(s.worker.todo[1..]) && r.locked == {} && r.keys == s.keys
    ensures r.rows == Statuses(Reconciled(rows, [s.worker.todo[0]]))
    ensures r.queue == s.queue + Requeued(rows, [s.worker.todo[0]])
    ensures r.processing == RemoveAll(s.processing, s.worker.todo[0])
  {
    RecoverOneAgrees(s, rows, s.worker.todo[0]);
    events, r := Advance(s, [], s, RecoverRow);
    events, r := Advance(s, events, r, RecoverRemove);
  }

  /** What `RecoverProcessing` promises, said of two states of the machine. */
  ghost predicate Recovers(rows: map<JobId, Record>, s: State, r: State)
    requires s.worker.Recovering?
  {
    && r.worker == Recovering([])
    && r.rows == Statuses(Reconciled(rows, s.worker.todo))
    && r.queue == s.queue + Requeued(rows, s.worker.todo)
    && (forall x :: x in r.processing <==> x in s.processing && x !in s.worker.todo)
    && r.keys == s.keys
  }

  /** Recovering a whole list is recovering its first item and then the others. */
  lemma RecoveryComposes(rows: map<JobId, Record>, todo: seq<Item>)
    requires todo != []
    ensures Reconciled(rows, todo) == Reconciled(Reconciled(rows, [todo[0]]), todo[1..])
    ensures Requeued(rows, todo) == Requeued(rows, [todo[0]]) + Requeued(Reconciled(rows, [todo[0]]), todo[1..])
  {
    assert [todo[0]] + todo[1..] == todo;
    ReconciledComposes(rows, [todo[0]], todo[1..]);
    ReconciledStillWaits(rows, [todo[0]], todo[1..]);
    RequeuedHead(rows, todo);
  }

  lemma RemovalsCompose(before: seq<Item>, after: seq<Item>, todo: seq<Item>)
    requires todo != []
    requires forall x :: x in after <==> x in RemoveAll(before, todo[0]) && x !in todo[1..]
    ensures forall x :: x in after <==> x in before && x !in todo
  {
    assert todo == [todo[0]] + todo[1..];
  }

  lemma Regroup(a: seq<Item>, b: seq<Item>, c: seq<Item>)
    ensures a + b + c == a + (b + c)
  {
  }

  lemma RecoversComposes(rows: map<JobId, Record>, s: State, s2: State, r: State)
    requires s.worker.Recovering? && s.worker.todo != [] && s2.worker == Recovering(s.worker.todo[1..])
    requires s2.queue == s.queue + Requeued(rows, [s.worker.todo[0]]) && s2.keys == s.keys
    requires s2.processing == RemoveAll(s.processing, s.worker.todo[0])
    requires Recovers(Reconciled(rows, [s.worker.todo[0]]), s2, r)
    ensures Recovers(rows, s, r)
  {
    var first, rest := [s.worker.todo[0]], s.worker.todo[1..];
    RecoveryComposes(rows, s.worker.todo);
    RemovalsCompose(s.processing, r.processing, s.worker.todo);
    Regroup(s.queue, Requeued(rows, first), Requeued(Reconciled(rows, first), rest));
  }

  /** Recovery that nothing interrupts is a run of the lifecycle machine to the state `RecoverProcessing` promises. */
  lemma {:induction false} UninterruptedRecovery(s: State, rows: map<JobId, Record>)
    returns (events: seq<Event>, r: State)
    requires s.worker.Recovering? && s.locked == {} && s.rows == Statuses(rows)
    ensures Run(s, events) == Some(r) && Recovers(rows, s, r)
    decreases |s.worker.todo|
  {
    if s.worker.todo == [] {
      events, r := [], s;
      assert Reconciled(rows, []) == rows;
    } else {
      var first, s2 := RecoverItemAgrees(s, rows);
      var rest;
      rest, r := UninterruptedRecovery(s2, Reconciled(rows, [s.worker.todo[0]]));
      events := first + rest;
      RunsCompose(Next, s, first, rest);
      RecoversComposes(rows, s, s2, r);
    }
  }

  lemma {:induction false} RequeuedHead(rows: map<JobId, Record>, items: seq<Item>)
    requires items != []
    ensures Requeued(rows, items) == Requeued(rows, [items[0]]) + Requeued(rows, items[1..])
  {
    var first := [items[0]];
    assert first[1..] == [] && Requeued(rows, []) == [];
    assert Requeued(rows, first) == (if Waits(rows, items[0]) then first else []) + [];
  }

  lemma UninterruptedStart(s: State, rows: map<JobId, Record>) returns (events: seq<Event>, r: State)
    requires s.worker.Waiting? && s.queue != [] && s.locked == {} && s.rows == Statuses(rows)
    requires Waits(rows, s.queue[0])
    ensures Run(s, events) == Some(r) && r.worker == Preparing(s.queue[0].id)
    ensures r.rows == s.rows[s.queue[0].id := STARTING]
    ensures r.queue == s.queue[1..] && r.processing == s.processing + [s.queue[0]]
    ensures r.keys == s.keys && r.locked == {} && r.illegal == s.illegal
  {
    events, r := Advance(s, [], s, Claim);
    events, r := Advance(s, events, r, Begin);
  }

  /** From the claim to the last step before the row is finished, with the outcome the worker will record. */
  lemma UninterruptedClaim(s: State, rows: map<JobId, Record>, sandbox: Sandbox) returns (events: seq<Event>, r: State)
    requires s.worker.Waiting? && s.queue != [] && s.locked == {} && s.rows == Statuses(rows)
    requires Waits(rows, s.queue[0])
    ensures Run(s, events) == Some(r)
    ensures var id := s.queue[0].id;
            && r.worker == Finishing(id, Report("", sandbox, id in s.keys).status, sandbox.CreationFails?)
            && r.rows == s.rows[id := if sandbox.CreationFails? then STARTING else RUNNING]
    ensures r.queue == s.queue[1..] && r.processing == s.processing + [s.queue[0]]
    ensures r.keys == s.keys && r.locked == {} && r.illegal == s.illegal
  {
    events, r := UninterruptedStart(s, rows);
    if sandbox.CreationFails? {
      events, r := Advance(s, events, r, Fails);
    } else {
      events, r := Advance(s, events, r, Launch);
      events, r := Advance(s, events, r, Observe(Report("", sandbox, s.queue[0].id in s.keys).status));
    }
  }

  lemma FinishAgrees(s: State, rows: map<JobId, Record>, id: JobId, report: Record)
    requires id in rows && s.worker.Finishing? && s.worker.id == id && id !in s.locked
    requires s.worker.target == report.status
    requires (s.rows == Statuses(rows)[id := RUNNING] && report.status in {COMPLETED, FAILED, TIMEOUT, CANCELLED}) ||
             (s.rows == Statuses(rows)[id := STARTING] && report.status == FAILED)
    ensures forall code :: Step(s, Finish).rows == Statuses(rows[id := report.(code := code)])
    ensures Step(s, Finish).illegal == s.illegal
  {
    assert Allowed(s.rows[id], report.status);
  }

  lemma UninterruptedProcess(s: State, rows: map<JobId, Record>, sandbox: Sandbox)
    returns (events: seq<Event>, r: State)
    requires s.worker.Waiting? && s.queue != [] && s.locked == {} && s.rows == Statuses(rows)
    requires Waits(rows, s.queue[0])
    ensures Run(s, events) == Some(r) && r.worker == Acknowledging(s.queue[0])
    ensures r.queue == s.queue[1..] && r.processing == s.processing + [s.queue[0]]
    ensures r.rows == Statuses(Processed(rows, s.keys, s.queue[0], sandbox))
    ensures r.keys == KeysAfter(rows, s.keys, s.queue[0]) && r.locked == {} && r.illegal == s.illegal
  {
    events, r := UninterruptedClaim(s, rows, sandbox);
    FinishAgrees(r, rows, s.queue[0].id, Report("", sandbox, s.queue[0].id in s.keys));
    events, r := Advance(s, events, r, Finish);
    events, r := Advance(s, events, r, Clear);
  }

  /** An item that does not wait is acknowledged at once. */
  lemma UninterruptedSkip(s: State, rows: map<JobId, Record>) returns (events: seq<Event>, r: State)
    requires s.worker.Waiting? && s.queue != [] && s.locked == {} && s.rows == Statuses(rows)
    requires !Waits(rows, s.queue[0])
    ensures Run(s, events) == Some(r) && r.worker == Acknowledging(s.queue[0])
    ensures r.queue == s.queue[1..] && r.processing == s.processing + [s.queue[0]]
    ensures r.rows == s.rows && r.keys == s.keys && r.locked == {} && r.illegal == s.illegal
  {
    events, r := Advance(s, [], s, Claim);
    events, r := Advance(s, events, r, Begin);
  }

  /** A turn that nothing interrupts runs through the lifecycle machine to the very state `RunOnce` promises. */
  lemma UninterruptedTurn(s: State, rows: map<JobId, Record>, sandbox: Sandbox) returns (events: seq<Event>, r: State)
    requires s.worker.Waiting? && s.queue != [] && s.locked == {} && s.rows == Statuses(rows)
    ensures Run(s, events) == Some(r) && r.worker.Waiting?
    ensures r.queue == s.queue[1..] && r.processing == RemoveAll(s.processing + [s.queue[0]], s.queue[0])
    ensures r.rows == Statuses(Processed(rows, s.keys, s.queue[0], sandbox))
    ensures r.keys == KeysAfter(rows, s.keys, s.queue[0])
    ensures r.locked == {} && r.illegal == s.illegal
  {
    if Waits(rows, s.queue[0]) {
      events, r := UninterruptedProcess(s, rows, sandbox);
    } else {
      events, r := UninterruptedSkip(s, rows);
    }
    events, r := Advance(s, events, r, Acknowledge);
  }

  class Backend {
    var rows: map<JobId, Record>
    var queue: seq<Item>
    var processing: seq<Item>
    var keys: set<JobId>

    constructor ()
      ensures rows == map[] && queue == [] && processing == [] && keys == {}
    {
      rows, queue, processing, keys := map[], [], [], {};
    }

    /**
     `create_queued_execution`: persist, then enqueue, and take the row back
     when that raises. An item that had landed by then stays behind without it.
     */
    method CreateQueuedExecution(id: JobId, code: string, push: Write) returns (ok: bool)
      requires id !in rows
      modifies this
      ensures ok == push.Accepted?
      ensures rows == if ok then old(rows)[id := Record(code, QUEUED, "", "", None)] else old(rows)
      ensures queue == old(queue) + (if push.Accepted? || push.landed then [Job(id)] else [])
      ensures processing == old(processing) && keys == old(keys)
    {
      rows := rows[id := Record(code, QUEUED, "", "", None)];
      if Landed(push) {
        queue := queue + [Job(id)];
      }
      ok := push.Accepted?;
      if !ok {
        rows := rows - {id};
      }
    }

    /**
     `cancel_execution`: only QUEUED and RUNNING executions, signalling the
     worker for the latter. A signal that raised may be there all the same.
     */
    method CancelExecution(id: JobId, signal: Write) returns (r: CancelResult)
      modifies this
      ensures r == CancelDone <==>
                id in old(rows) &&
                (old(rows)[id].status == QUEUED || (old(rows)[id].status == RUNNING && signal.Accepted?))
      ensures r == NotFound <==> id !in old(rows)
      ensures r == QueueUnavailable <==> id in old(rows) && old(rows)[id].status == RUNNING && signal.Raised?
      ensures rows == if r == CancelDone then old(rows)[id := old(rows)[id].(status := CANCELLED)] else old(rows)
      ensures keys == if id in old(rows) && old(rows)[id].status == RUNNING && (signal.Accepted? || signal.landed)
                      then old(keys) + {id} else old(keys)
      ensures queue == old(queue) && processing == old(processing)
    {
      if id !in rows {
        return NotFound;
      }
      var row := rows[id];
      if row.status !in {QUEUED, RUNNING} {
        return Conflict;
      }
      if row.status == RUNNING {
        if Landed(signal) {
          keys := keys + {id};
        }
        if signal.Raised? {
          return QueueUnavailable;
        }
      }
      rows := rows[id := row.(status := CANCELLED)];
      return CancelDone;
    }

    /** `_transition`: claims nothing unless the row is in the expected status. */
    method Transition(id: JobId, expected: Status, target: Status) returns (moved: bool)
      requires Allowed(expected, target)
      modifies this`rows
      ensures moved <==> id in old(rows) && old(rows)[id].status == expected
      ensures rows == if moved then old(rows)[id := old(rows)[id].(status := target)] else old(rows)
    {
      if id !in rows || rows[id].status != expected {
        return false;
      }
      rows := rows[id := rows[id].(status := target)];
      return true;
    }

    /** `_finish`: the outputs are stored even when a cancellation came first; false is the ValueError. */
    method Finish(id: JobId, target: Status, stdout: string, stderr: string, code: Option<int>) returns (legal: bool)
      modifies this`rows
      ensures legal <==> id !in old(rows) || old(rows)[id].status == CANCELLED || Allowed(old(rows)[id].status, target)
      ensures !legal || id !in old(rows) ==> rows == old(rows)
      ensures legal && id in old(rows) ==>
                rows == old(rows)[id := Record(old(rows)[id].code,
                                               if old(rows)[id].status == CANCELLED then CANCELLED else target,
                                               stdout, stderr, code)]
    {
      if id !in rows {
        return true;
      }
      var row := rows[id];
      if row.status != CANCELLED {
        if !Allowed(row.status, target) {
          return false;
        }
        row := row.(status := target);
      }
      rows := rows[id := row.(stdout := stdout, stderr := stderr, exitCode := code)];
      return true;
    }

    /**
     `process`, run to its return: a QUEUED execution ends in a terminal status
     that reports the sandbox's outcome, its cancellation key is gone, and
     nothing else changes; any other execution is left alone.
     */
    method Process(id: JobId, sandbox: Sandbox)
      modifies this`rows, this`keys
      ensures rows == Processed(old(rows), old(keys), Job(id), sandbox)
      ensures keys == KeysAfter(old(rows), old(keys), Job(id))
      ensures id in old(rows) && old(rows)[id].status == QUEUED ==>
                && id in rows && Terminal(rows[id].status) && rows[id].code == old(rows)[id].code
                && (match sandbox
                    case CreationFails(message) =>
                      rows[id].status == FAILED && rows[id].stdout == "" && rows[id].stderr == message &&
                      rows[id].exitCode == None
                    case TimesOut(stdout, stderr, exit) =>
                      && rows[id].stdout == stdout && rows[id].stderr == stderr && rows[id].exitCode == Some(exit)
                      && rows[id].status == if id in old(keys) then CANCELLED else TIMEOUT
                    case Exits(stdout, stderr, exit) =>
                      && rows[id].stdout == stdout && rows[id].stderr == stderr && rows[id].exitCode == Some(exit)
                      && (rows[id].status == CANCELLED <==> id in old(keys))
                      && (rows[id].status == COMPLETED <==> id !in old(keys) && exit == 0)
                      && (rows[id].status == FAILED <==> id !in old(keys) && exit != 0))
      ensures id in old(rows) && old(rows)[id].status == QUEUED ==> id !in keys
      ensures id !in old(rows) || old(rows)[id].status != QUEUED ==> rows == old(rows) && keys == old(keys)
      ensures forall x :: x != id ==> (x in rows <==> x in old(rows)) && (x in keys <==> x in old(keys))
      ensures forall x :: x != id && x in rows ==> rows[x] == old(rows)[x]
    {
      var claimed := Transition(id, QUEUED, STARTING);
      if !claimed {
        return;
      }
      match sandbox {
        case CreationFails(message) =>
          var legal := Finish(id, FAILED, "", message, None);
        case TimesOut(stdout, stderr, code) =>
          var launched := Transition(id, STARTING, RUNNING);
          var target := if id in keys then CANCELLED else TIMEOUT;
          var legal := Finish(id, target, stdout, stderr, Some(code));
        case Exits(stdout, stderr, code) =>
          var launched := Transition(id, STARTING, RUNNING);
          var target := if id in keys then CANCELLED else if code == 0 then COMPLETED else FAILED;
          var legal := Finish(id, target, stdout, stderr, Some(code));
      }
      keys := keys - {id};
    }

    /** One turn of `run`: claim the head of the queue, process it, acknowledge it. */
    method RunOnce(sandbox: Sandbox)
      requires queue != []
      modifies this
      ensures queue == old(queue)[1..]
      ensures processing == RemoveAll(old(processing) + [old(queue)[0]], old(queue)[0])
      ensures rows == Processed(old(rows), old(keys), old(queue)[0], sandbox)
      ensures keys == KeysAfter(old(rows), old(keys), old(queue)[0])
      ensures old(queue)[0].Job? && old(queue)[0].id in old(rows) && old(rows)[old(queue)[0].id].status == QUEUED ==>
                var id := old(queue)[0].id;
                && id in rows && rows[id].code == old(rows)[id].code
                && (match sandbox
                    case CreationFails(message) =>
                      rows[id].status == FAILED && rows[id].stdout == "" && rows[id].stderr == message &&
                      rows[id].exitCode == None
                    case TimesOut(stdout, stderr, exit) =>
                      && rows[id].stdout == stdout && rows[id].stderr == stderr && rows[id].exitCode == Some(exit)
                      && rows[id].status == if id in old(keys) then CANCELLED else TIMEOUT
                    case Exits(stdout, stderr, exit) =>
                      && rows[id].stdout == stdout && rows[id].stderr == stderr && rows[id].exitCode == Some(exit)
                      && (rows[id].status == CANCELLED <==> id in old(keys))
                      && (rows[id].status == COMPLETED <==> id !in old(keys) && exit == 0)
                      && (rows[id].status == FAILED <==> id !in old(keys) && exit != 0))
    {
      var item := queue[0];
      queue, processing := queue[1..], processing + [item];
      if item.Job? {
        Process(item.id, sandbox);
      }
      processing := RemoveAll(processing, item);
    }

    /**
     `_recover_processing`: afterwards the processing list is empty, everything
     it held that still waits is back in the queue in order, and everything a
     dead worker had claimed is FAILED.
     */
    method RecoverProcessing()
      modifies this
      ensures processing == []
      ensures queue == old(queue) + Requeued(old(rows), old(processing))
      ensures rows == Reconciled(old(rows), old(processing))
      ensures rows.Keys == old(rows).Keys && keys == old(keys)
      ensures forall id :: id in rows && Job(id) in old(processing) && old(rows)[id].status in {STARTING, RUNNING} ==>
                rows[id] == old(rows)[id].(status := FAILED, stderr := "Execution worker restarted before completion.")
      ensures forall id :: id in rows &&
                           (Job(id) !in old(processing) || old(rows)[id].status !in {STARTING, RUNNING}) ==>
                rows[id] == old(rows)[id]
      ensures forall id :: id in rows && Job(id) in old(processing) && old(rows)[id].status == QUEUED ==>
                Job(id) in queue
    {
      var items := processing;
      var i := 0;
      while i < |items|
        invariant 0 <= i <= |items| && items == old(processing)
        invariant forall x :: x in processing ==> x in items[i..]
        invariant queue == old(queue) + Requeued(old(rows), items[..i])
        invariant rows == Reconciled(old(rows), items[..i])
        invariant keys == old(keys)
      {
        assert items[..i + 1] == items[..i] + [items[i]];
        assert items[i..] == [items[i]] + items[i + 1..];
        RequeuedAppends(old(rows), items[..i], items[i]);
        ReconciledStillWaits(old(rows), items[..i], [items[i]]);
        ReconciledComposes(old(rows), items[..i], [items[i]]);
        RecoverItem(items[i]);
        i := i + 1;
      }
      assert items[..i] == items;
      EmptyOrHasHead(processing);
      RequeuedAre(old(rows), items);
    }

    /** The body of the recovery loop: settle one row, then remove its item. */
    method RecoverItem(item: Item)
      modifies this
      ensures queue == old(queue) + Requeued(old(rows), [item])
      ensures rows == Reconciled(old(rows), [item])
      ensures processing == RemoveAll(old(processing), item)
      ensures keys == old(keys)
    {
      if item.Job? && item.id in rows {
        var row := rows[item.id];
        if row.status == QUEUED {
          queue := queue + [item];
        } else if row.status in {STARTING, RUNNING} {
          rows := rows[item.id := row.(status := FAILED, stderr := RESTARTED)];
        }
      }
      processing := RemoveAll(processing, item);
    }
  }
}
