/** Execution statuses and the transition table of `models.py`. */
module ExecutionStatus {

  datatype Status = QUEUED | STARTING | RUNNING | COMPLETED | FAILED | TIMEOUT | CANCELLED

  function ValidTransitions(from: Status): set<Status> {
    match from
    case QUEUED => {STARTING, CANCELLED}
    case STARTING => {RUNNING, FAILED}
    case RUNNING => {COMPLETED, FAILED, TIMEOUT, CANCELLED}
    case _ => {}
  }

  predicate Allowed(from: Status, to: Status) {
    to in ValidTransitions(from)
  }

  predicate Terminal(s: Status) {
    ValidTransitions(s) == {}
  }

  /** Claimed by a worker and not finished. */
  predicate Active(s: Status) {
    s.STARTING? || s.RUNNING?
  }

  /** Position along the lifecycle; every transition moves forward, so no status is ever entered twice. */
  function Progress(s: Status): nat {
    match s
    case QUEUED => 0
    case STARTING => 1
    case RUNNING => 2
    case _ => 3
  }

  lemma TransitionsMoveForward(from: Status, to: Status)
    requires Allowed(from, to)
    ensures Progress(from) < Progress(to)
    ensures Terminal(to) <==> Progress(to) == 3
  {
    if to.STARTING? {
      assert RUNNING in ValidTransitions(to);
    } else if to.RUNNING? {
      assert FAILED in ValidTransitions(to);
    }
  }

  /** The whole table: a job is claimed, then run, then over; it can be cancelled except while it is STARTING. */
  lemma AllowedIff(from: Status, to: Status)
    ensures Allowed(from, to) <==>
              || (to == STARTING && from == QUEUED)
              || (to == RUNNING && from == STARTING)
              || (to == CANCELLED && (from == QUEUED || from == RUNNING))
              || (to == FAILED && (from == STARTING || from == RUNNING))
              || ((to == COMPLETED || to == TIMEOUT) && from == RUNNING)
    ensures Terminal(from) <==> from != QUEUED && from != STARTING && from != RUNNING
  {
    assert STARTING in ValidTransitions(QUEUED);
    assert RUNNING in ValidTransitions(STARTING);
    assert FAILED in ValidTransitions(RUNNING);
  }

  /** One row of `executions`, as an object whose status only `TransitionTo` changes. */
  class Execution {
    var status: Status

    constructor ()
      ensures status == QUEUED
    {
      status := QUEUED;
    }

    /** False stands for the ValueError of an illegal transition, which leaves the row as it was. */
    method TransitionTo(newStatus: Status) returns (ok: bool)
      modifies this
      ensures ok <==> Allowed(old(status), newStatus)
      ensures status == if ok then newStatus else old(status)
      ensures Terminal(old(status)) ==> status == old(status)
    {
      var allowed := ValidTransitions(status);
      if newStatus !in allowed {
        return false;
      }
      status := newStatus;
      return true;
    }
  }
}
