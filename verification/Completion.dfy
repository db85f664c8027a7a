/** COMPLETED is meant to be terminal. The UPDATEs that mark a key are
    unconditional (src/idempotency/idempotency.service.ts), so a caller that
    outlives its grant can undo it: when exactly, and that callers who act
    within their lease never do. */
module Completion {
  import opened Common
  import opened CanonicalHash
  import opened Ingestion
  import opened IngestionAgreement

  // ---- When COMPLETED can still be left ----

  /** The caller may yet mark this key failed. */
  predicate MayFail(c: Caller, key: Key) {
    (c.Owning? || c.HasTicket? || c.Erring?) && c.key == key
  }

  ghost predicate SomeoneMayFail(s: State, key: Key) {
    exists p :: p in s.callers && MayFail(s.callers[p], key)
  }

  predicate IsCompleted(db: Db, key: Key) {
    key in db.keys && db.keys[key].status.COMPLETED?
  }

  lemma StaysCompletedStep(s: State, step: Step, key: Key)
    requires IsCompleted(s.db, key) && !SomeoneMayFail(s, key) && !step.Prune?
    ensures IsCompleted(StepDb(s, step), key) && !SomeoneMayFail(Apply(s, step), key)
  {
    var t := Apply(s, step);
    forall p | p in t.callers ensures !MayFail(t.callers[p], key) {
      if p in s.callers { assert !MayFail(s.callers[p], key); }
    }
    if step.Next? && step.p in s.callers { assert !MayFail(s.callers[step.p], key); }
  }

  lemma {:induction false} StaysCompleted(s: State, steps: seq<Step>, key: Key)
    requires IsCompleted(s.db, key) && !SomeoneMayFail(s, key) && NoPrunes(steps)
    ensures IsCompleted(Run(s, steps).db, key) && !SomeoneMayFail(Run(s, steps), key)
  {
    if steps == [] {
    } else {
      StaysCompleted(s, steps[..|steps| - 1], key);
      StaysCompletedStep(Run(s, steps[..|steps| - 1]), steps[|steps| - 1], key);
    }
  }

  /** One more failure of its transaction or enqueue, and the caller marks the
      key failed. */
  lemma LateFailure(s: State, p: Pid, key: Key) returns (steps: seq<Step>)
    requires key in s.db.keys && p in s.callers && MayFail(s.callers[p], key)
    ensures NoPrunes(steps) && key in Run(s, steps).db.keys && Run(s, steps).db.keys[key].status.FAILED?
  {
    var n := Next(p, false, THREW_BEFORE);
    var s1 := Apply(s, n);
    if !s.callers[p].Erring? { assert s1.db == s.db && s1.callers[p] == Erring(key); }
    steps := [n] + [n];
    RunAppend(s, [], n);
    assert [] + [n] == [n];
    RunAppend(s, [n], n);
  }

  /** A completed key can leave COMPLETED, in some run without retention, exactly
      when a caller granted it has not yet got its job in, or is about to mark
      it failed. */
  lemma CompletedLeavesIff(s: State, key: Key)
    requires IsCompleted(s.db, key)
    ensures (exists steps :: NoPrunes(steps) && key in Run(s, steps).db.keys && !IsCompleted(Run(s, steps).db, key))
            <==> SomeoneMayFail(s, key)
  {
    if SomeoneMayFail(s, key) {
      var p :| p in s.callers && MayFail(s.callers[p], key);
      var steps := LateFailure(s, p, key);
      assert !IsCompleted(Run(s, steps).db, key);
    } else {
      forall steps | NoPrunes(steps) ensures IsCompleted(Run(s, steps).db, key) { StaysCompleted(s, steps, key); }
    }
  }

  // ---- Callers that act within their lease ----

  predicate Granted(c: Caller) { c.Owning? || c.HasTicket? || c.HasJob? || c.Erring? }

  /** When each caller was granted its key. */
  function GrantsAfter(s: State, granted: map<Pid, nat>, step: Step): map<Pid, nat> {
    if step.Insert? && step.p !in s.callers && step.key !in s.db.keys then granted[step.p := s.db.now]
    else if step.Next? && step.p in s.callers && s.callers[step.p].Reclaiming? then granted[step.p := s.db.now]
    else granted
  }

  function GrantTimes(s: State, steps: seq<Step>): map<Pid, nat> {
    if steps == [] then map[]
    else
      var front := steps[..|steps| - 1];
      GrantsAfter(Run(s, front), GrantTimes(s, front), steps[|steps| - 1])
  }

  predicate WithinLease(s: State, granted: map<Pid, nat>, p: Pid) {
    p in s.callers && Granted(s.callers[p]) && p in granted && s.db.now <= granted[p] + s.db.lease
  }

  /** No granted caller acts after its lease. It may stall past it or crash. */
  predicate ActsInTime(s: State, granted: map<Pid, nat>, step: Step) {
    step.Next? && step.p in s.callers && Granted(s.callers[step.p]) ==> WithinLease(s, granted, step.p)
  }

  predicate TimelyRun(s: State, steps: seq<Step>) {
    steps == [] ||
    var front := steps[..|steps| - 1];
    TimelyRun(s, front) && ActsInTime(Run(s, front), GrantTimes(s, front), steps[|steps| - 1])
  }

  /** While a caller's lease runs the key is pending under its lock, and it is
      the only one. */
  ghost predicate LocksHeld(s: State, granted: map<Pid, nat>) {
    && (forall p :: p in s.callers && Granted(s.callers[p]) ==> p in granted)
    && (forall p :: WithinLease(s, granted, p) ==>
          var key := s.callers[p].key;
          key in s.db.keys && s.db.keys[key].status.PENDING? && s.db.keys[key].lockedAt == Some(granted[p]))
    && (forall p, q :: WithinLease(s, granted, p) && WithinLease(s, granted, q) && s.callers[p].key == s.callers[q].key
          ==> p == q)
  }

  lemma InsertHolds(s: State, granted: map<Pid, nat>, step: Step)
    requires LocksHeld(s, granted) && step.Insert?
    ensures LocksHeld(Apply(s, step), GrantsAfter(s, granted, step))
  {
    var t, after := Apply(s, step), GrantsAfter(s, granted, step);
    forall p | p != step.p ensures WithinLease(t, after, p) <==> WithinLease(s, granted, p) {}
  }

  lemma ReclaimHolds(s: State, granted: map<Pid, nat>, step: Step)
    requires LocksHeld(s, granted) && step.Next? && step.p in s.callers && s.callers[step.p].Reclaiming?
    ensures LocksHeld(Apply(s, step), GrantsAfter(s, granted, step))
  {
    var t, after := Apply(s, step), GrantsAfter(s, granted, step);
    forall p | p != step.p ensures WithinLease(t, after, p) <==> WithinLease(s, granted, p) {}
  }

  lemma ActionHolds(s: State, granted: map<Pid, nat>, step: Step)
    requires LocksHeld(s, granted) && step.Next? && step.p in s.callers && !s.callers[step.p].Reclaiming?
    requires ActsInTime(s, granted, step)
    ensures LocksHeld(Apply(s, step), granted)
  {
    var t := Apply(s, step);
    forall p | WithinLease(t, granted, p) ensures WithinLease(s, granted, p) && t.callers[p].key == s.callers[p].key {}
    forall p | WithinLease(t, granted, p)
      ensures var key := t.callers[p].key;
              key in t.db.keys && t.db.keys[key].status.PENDING? && t.db.keys[key].lockedAt == Some(granted[p])
    {
      KeepsLock(s, granted, step, p);
    }
  }

  /** Only the holder of a lock can release it in time. */
  lemma KeepsLock(s: State, granted: map<Pid, nat>, step: Step, p: Pid)
    requires LocksHeld(s, granted) && step.Next? && step.p in s.callers && !s.callers[step.p].Reclaiming?
    requires ActsInTime(s, granted, step) && WithinLease(s, granted, p)
    requires p in Apply(s, step).callers && Granted(Apply(s, step).callers[p])
    ensures var key := s.callers[p].key;
            && key in StepDb(s, step).keys && StepDb(s, step).keys[key].status.PENDING?
            && StepDb(s, step).keys[key].lockedAt == Some(granted[p])
  {
    if Granted(s.callers[step.p]) { assert WithinLease(s, granted, step.p); }
  }

  lemma LocksHeldStep(s: State, granted: map<Pid, nat>, step: Step)
    requires LocksHeld(s, granted) && ActsInTime(s, granted, step)
    ensures LocksHeld(Apply(s, step), GrantsAfter(s, granted, step))
  {
    match step
    case Insert(_, _, _) => InsertHolds(s, granted, step);
    case Next(p, _, _) =>
      if p in s.callers {
        if s.callers[p].Reclaiming? { ReclaimHolds(s, granted, step); } else { ActionHolds(s, granted, step); }
      }
    case Tick(_) =>
      assert forall p :: WithinLease(Apply(s, step), granted, p) ==> WithinLease(s, granted, p);
    case Crash(_) =>
      assert forall p :: WithinLease(Apply(s, step), granted, p) ==> WithinLease(s, granted, p);
    case JobExpires(_) =>
      assert forall p :: WithinLease(Apply(s, step), granted, p) ==> WithinLease(s, granted, p);
    case Prune(_, _, _) =>
      assert forall p :: WithinLease(Apply(s, step), granted, p) ==> WithinLease(s, granted, p);
  }

  lemma {:induction false} LocksHeldRun(lease: nat, steps: seq<Step>)
    requires TimelyRun(Init(lease), steps)
    ensures LocksHeld(Run(Init(lease), steps), GrantTimes(Init(lease), steps))
  {
    if steps == [] {
    } else {
      var front := steps[..|steps| - 1];
      LocksHeldRun(lease, front);
      LocksHeldStep(Run(Init(lease), front), GrantTimes(Init(lease), front), steps[|steps| - 1]);
    }
  }

  /** The ledger row is completed or gone. */
  predicate Final(db: Db, key: Key, row: RowId) {
    row < db.nextId && (key in db.keys && db.keys[key].id == row ==> db.keys[key].status.COMPLETED?)
  }

  lemma FinalStep(s: State, granted: map<Pid, nat>, step: Step, key: Key, row: RowId)
    requires LocksHeld(s, granted) && ActsInTime(s, granted, step) && Final(s.db, key, row)
    ensures Final(StepDb(s, step), key, row)
  {
    if step.Next? && step.p in s.callers && s.callers[step.p].Erring? { assert WithinLease(s, granted, step.p); }
  }

  /** In every run whose granted callers act within their lease or not at all,
      retention included, a completed ledger row stays completed as long as it
      lives. */
  lemma {:induction false} CompletedIsTerminal(lease: nat, steps: seq<Step>, more: seq<Step>, key: Key)
    requires TimelyRun(Init(lease), steps + more) && IsCompleted(Run(Init(lease), steps).db, key)
    ensures Final(Run(Init(lease), steps + more).db, key, Run(Init(lease), steps).db.keys[key].id)
  {
    var init, row := Init(lease), Run(Init(lease), steps).db.keys[key].id;
    if more == [] {
      assert steps + more == steps;
      InvRun(init, steps);
    } else {
      var front, last := more[..|more| - 1], more[|more| - 1];
      assert (steps + more)[..|steps + more| - 1] == steps + front;
      CompletedIsTerminal(lease, steps, front, key);
      LocksHeldRun(lease, steps + front);
      FinalStep(Run(init, steps + front), GrantTimes(init, steps + front), last, key, row);
    }
  }
}
