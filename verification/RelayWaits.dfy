/** How long a notification is tried (src/outbox/outbox.relay.ts,
    src/common/backoff/backoff.ts): the delays the relays schedule for one row. */
module RelayWaits {
  import opened Common
  import opened Backoff
  import opened OutboxRelay

  /** Failures that were followed by a delay: all but the last of a FAILED row. */
  function Retries(row: Row): nat {
    if row.status.FAILED? && row.attempts >= 1 then row.attempts - 1 else row.attempts
  }

  /** The delays scheduled for a row are within bounds, and it was not tried
      again before all of them had passed. */
  ghost predicate RowWaited(s: State, id: Id)
    requires id in s.rows
  {
    var row := s.rows[id];
    && WaitBounds(s.cfg.backoffBaseMs, MAX_SAFE_INTEGER, Retries(row), s.waits[id])
    && row.createdAt + s.waits[id] <= row.nextAttemptAt
    && (!row.status.PENDING? ==> row.nextAttemptAt <= s.now)
  }

  ghost predicate RowsWaited(s: State) {
    && (forall id :: id in s.rows ==> RowWaited(s, id))
    && (forall id :: id !in s.used ==> s.waits[id] == 0)
  }

  ghost predicate ClaimsTimely(s: State) {
    forall p :: p in s.relays ==>
      && s.relays[p].now <= s.now
      && forall id :: id in s.relays[p].claimed && id in s.rows ==> s.rows[id].nextAttemptAt <= s.relays[p].now
  }

  ghost predicate Waited(s: State) {
    RowsWaited(s) && ClaimsTimely(s)
  }

  lemma {:induction false} ScheduledAt(cfg: Config, rows: map<Id, Row>, now: nat, batch: seq<Id>,
                                       results: seq<Dispatched>)
    requires |results| <= |batch| && Distinct(batch) && forall id :: id in batch ==> id in rows
    ensures forall i :: 0 <= i < |results| ==>
              Scheduled(cfg, rows, now, batch, results)[batch[i]] == WaitAfter(cfg, rows[batch[i]], now, results[i])
    ensures forall id :: id !in batch[..|results|] ==> Scheduled(cfg, rows, now, batch, results)[id] == 0
  {
    if results == [] {
    } else {
      var n := |results| - 1;
      ScheduledAt(cfg, rows, now, batch, results[..n]);
      assert batch[..n + 1] == batch[..n] + [batch[n]];
      assert batch[n] !in batch[..n];
    }
  }

  /** One dispatch of a waiting row keeps its bounds. */
  lemma DispatchWaits(cfg: Config, row: Row, waited: nat, now: nat, d: Dispatched)
    requires row.status.PENDING? && row.nextAttemptAt <= now && row.createdAt + waited <= row.nextAttemptAt
    requires WaitBounds(cfg.backoffBaseMs, MAX_SAFE_INTEGER, row.attempts, waited)
    ensures var after, total := AfterDispatch(cfg, row, now, d), waited + WaitAfter(cfg, row, now, d);
            && WaitBounds(cfg.backoffBaseMs, MAX_SAFE_INTEGER, Retries(after), total)
            && after.createdAt + total <= after.nextAttemptAt
            && (!after.status.PENDING? ==> after.nextAttemptAt <= now)
  {
    if d.THREW? && row.attempts + 1 < cfg.maxAttempts {
      OneMoreDelay(cfg.backoffBaseMs, MAX_SAFE_INTEGER, row.attempts, waited, d.draw);
    }
  }

  lemma DrainedRowWaits(cfg: Config, rows: map<Id, Row>, now: nat, batch: seq<Id>, results: seq<Dispatched>, i: nat,
      waited: nat)
    requires |results| == |batch| && Distinct(batch) && i < |batch| && forall id :: id in batch ==> id in rows
    requires var row := rows[batch[i]];
             && row.status.PENDING? && row.nextAttemptAt <= now && row.createdAt + waited <= row.nextAttemptAt
             && WaitBounds(cfg.backoffBaseMs, MAX_SAFE_INTEGER, row.attempts, waited)
    ensures batch[i] in Drained(cfg, rows, now, batch, results)
    ensures var after := Drained(cfg, rows, now, batch, results)[batch[i]];
            var total := waited + Scheduled(cfg, rows, now, batch, results)[batch[i]];
            && WaitBounds(cfg.backoffBaseMs, MAX_SAFE_INTEGER, Retries(after), total)
            && after.createdAt + total <= after.nextAttemptAt
            && (!after.status.PENDING? ==> after.nextAttemptAt <= now)
  {
    DrainedAt(cfg, rows, now, batch, results);
    ScheduledAt(cfg, rows, now, batch, results);
    DispatchWaits(cfg, rows[batch[i]], waited, now, results[i]);
  }

  lemma CommittedRowWaited(s: State, p: Pid, id: Id)
    requires Inv(s) && Waited(s) && CanCommit(s, p) && id in s.rows
    ensures id in CommitBatch(s, p).rows && RowWaited(CommitBatch(s, p), id)
    ensures id !in s.relays[p].claimed ==> CommitBatch(s, p).rows[id] == s.rows[id]
  {
    var tx := s.relays[p];
    assert RowWaited(s, id);
    if id in tx.claimed {
      var i :| 0 <= i < |tx.claimed| && tx.claimed[i] == id;
      DrainedRowWaits(s.cfg, s.rows, tx.now, tx.claimed, tx.results, i, s.waits[id]);
    } else {
      UnclaimedRowSame(s, p, id);
    }
  }

  lemma UnclaimedRowSame(s: State, p: Pid, id: Id)
    requires LocksDisjoint(s) && CanCommit(s, p) && id !in s.relays[p].claimed
    ensures CommitBatch(s, p).waits[id] == s.waits[id]
    ensures id in s.rows ==> id in CommitBatch(s, p).rows && CommitBatch(s, p).rows[id] == s.rows[id]
  {
    var tx := s.relays[p];
    DrainedAt(s.cfg, s.rows, tx.now, tx.claimed, tx.results);
    ScheduledAt(s.cfg, s.rows, tx.now, tx.claimed, tx.results);
    assert tx.claimed[..|tx.results|] == tx.claimed;
  }

  lemma UnclaimedDoNotWait(s: State, p: Pid)
    requires Inv(s) && CanCommit(s, p)
    ensures forall id :: id !in s.used ==> CommitBatch(s, p).waits[id] == s.waits[id]
  {
    forall id | id !in s.used ensures CommitBatch(s, p).waits[id] == s.waits[id] { UnclaimedRowSame(s, p, id); }
  }

  lemma CommitWaits(s: State, p: Pid)
    requires Inv(s) && Waited(s) && CanCommit(s, p)
    ensures Waited(CommitBatch(s, p))
  {
    var t := CommitBatch(s, p);
    var tx := s.relays[p];
    DrainedAt(s.cfg, s.rows, tx.now, tx.claimed, tx.results);
    forall id | id in t.rows ensures RowWaited(t, id) { CommittedRowWaited(s, p, id); }
    UnclaimedDoNotWait(s, p);
    forall q, id | q in t.relays && id in t.relays[q].claimed && id in t.rows
      ensures t.rows[id].nextAttemptAt <= t.relays[q].now
    {
      CommittedRowWaited(s, p, id);
      assert id !in tx.claimed;
    }
  }

  lemma ClaimWaits(s: State, p: Pid, batch: seq<Id>)
    requires Waited(s) && p !in s.relays && IsBatch(s.cfg, s.rows, Locked(s), s.now, batch)
    ensures Waited(s.(relays := s.relays[p := Tx(s.now, batch, [])]))
  {
    assert forall id :: id in batch ==> Due(s.rows, Locked(s), s.now, id);
  }

  lemma WaitedStep(s: State, step: Step)
    requires Inv(s) && Waited(s)
    ensures Waited(Apply(s, step))
  {
    match step
    case Claim(p, batch) =>
      if p !in s.relays && IsBatch(s.cfg, s.rows, Locked(s), s.now, batch) { ClaimWaits(s, p, batch); }
    case Commit(p) => if CanCommit(s, p) { CommitWaits(s, p); }
    case Insert(id) => if id !in s.used { assert s.waits[id] == 0; }
    case Tick(_) =>
    case Dispatch(_, _, _) =>
    case Abort(_) =>
    case Prune(_) =>
  }

  lemma {:induction false} WaitedRun(cfg: Config, steps: seq<Step>)
    requires ValidConfig(cfg)
    ensures Inv(Run(Init(cfg), steps)) && Waited(Run(Init(cfg), steps))
  {
    if steps == [] {
    } else {
      var n := |steps| - 1;
      WaitedRun(cfg, steps[..n]);
      WaitedStep(Run(Init(cfg), steps[..n]), steps[n]);
      InvStep(Run(Init(cfg), steps[..n]), steps[n]);
    }
  }

  lemma FailedRowWaited(s: State, id: Id)
    requires Inv(s) && Waited(s) && id in s.rows && s.rows[id].status.FAILED?
    ensures WaitBounds(s.cfg.backoffBaseMs, MAX_SAFE_INTEGER, s.cfg.maxAttempts - 1, s.waits[id])
    ensures s.rows[id].createdAt + s.waits[id] <= s.now
  {
    assert RowSound(s, id) && RowWaited(s, id);
  }

  /** In every run of any number of relays: a row is given up only after its
      MAX - 1 delays, which add up to at least the half ceilings and to at most
      base * (2^(MAX - 1) - 1), and only once that much time has passed. */
  lemma {:induction false} AbandonedAfterItsWait(cfg: Config, steps: seq<Step>, id: Id)
    requires ValidConfig(cfg) && id in Run(Init(cfg), steps).rows && Run(Init(cfg), steps).rows[id].status.FAILED?
    ensures WaitBounds(cfg.backoffBaseMs, MAX_SAFE_INTEGER, cfg.maxAttempts - 1, Run(Init(cfg), steps).waits[id])
    ensures var s := Run(Init(cfg), steps); s.rows[id].createdAt + s.waits[id] <= s.now
  {
    var s := Run(Init(cfg), steps);
    assert s.cfg == cfg by { ConfigFixed(cfg, steps); }
    assert Inv(s) && Waited(s) by { WaitedRun(cfg, steps); }
    FailedRowWaited(s, id);
  }
}
