/** The outbox relay (src/outbox/outbox.relay.ts): any number of relays claim
    batches with FOR UPDATE SKIP LOCKED, dispatch row by row and commit or roll
    back the whole batch. A delivery is outside the database and survives a
    rollback. */
module OutboxRelay {
  import opened Common
  import opened Backoff
  import P = TicketPipeline

  type Id = P.Effect

  datatype Status = PENDING | SENT | FAILED

  datatype Row = Row(status: Status, attempts: nat, nextAttemptAt: nat, createdAt: nat)

  datatype Config = Config(maxAttempts: nat, batchSize: nat, backoffBaseMs: nat)

  predicate ValidConfig(cfg: Config) { cfg.maxAttempts >= 1 && cfg.batchSize >= 1 }

  type Draw = r: real | 0.0 <= r < 1.0

  /** How one dispatch went, and the jitter drawn for its retry. */
  datatype Dispatched = OK | THREW(draw: Draw)

  function Delay(attempt: nat, base: nat, draw: Draw): nat {
    DelayBounds(attempt, base, MAX_SAFE_INTEGER, draw);
    BackoffWithJitter(attempt, base, MAX_SAFE_INTEGER, draw)
  }

  /** dispatchRow and handleDispatchFailure; now is the transaction's. */
  function AfterDispatch(cfg: Config, row: Row, now: nat, d: Dispatched): Row {
    match d
    case OK => row.(status := SENT)
    case THREW(draw) =>
      var attempts := row.attempts + 1;
      if attempts >= cfg.maxAttempts then row.(status := FAILED, attempts := attempts)
      else row.(attempts := attempts, nextAttemptAt := now + Delay(attempts, cfg.backoffBaseMs, draw))
  }

  /** What one dispatch does to a row: a success settles it; a failure counts one
      attempt, and gives the row up at the maximum or puts it off by a wait
      within the window of its failures so far. Nothing else changes. */
  predicate DispatchedTo(cfg: Config, before: Row, after: Row, now: nat, d: Dispatched) {
    if d.OK? then after == before.(status := SENT)
    else
      && after.attempts == before.attempts + 1 && after.createdAt == before.createdAt
      && (after.attempts >= cfg.maxAttempts ==> after.status.FAILED? && after.nextAttemptAt == before.nextAttemptAt)
      && (after.attempts < cfg.maxAttempts ==>
            && after.status == before.status
            && RetryWindow(cfg.backoffBaseMs, MAX_SAFE_INTEGER, before.attempts, after.nextAttemptAt - now))
  }

  lemma DispatchFits(cfg: Config, row: Row, now: nat, d: Dispatched)
    ensures DispatchedTo(cfg, row, AfterDispatch(cfg, row, now, d), now, d)
  {
    if d.THREW? { DelayInWindow(row.attempts, cfg.backoffBaseMs, MAX_SAFE_INTEGER, d.draw); }
  }

  /** The table once the rows of a batch were dispatched in order. */
  function Drained(cfg: Config, rows: map<Id, Row>, now: nat, batch: seq<Id>, results: seq<Dispatched>): map<Id, Row>
    requires |results| <= |batch| && forall id :: id in batch ==> id in rows
  {
    if results == [] then rows
    else
      var n := |results| - 1;
      Drained(cfg, rows, now, batch, results[..n])[batch[n] := AfterDispatch(cfg, rows[batch[n]], now, results[n])]
  }

  predicate Distinct(batch: seq<Id>) {
    forall i, j :: 0 <= i < j < |batch| ==> batch[i] != batch[j]
  }

  /** What the polling query may return: due rows nobody holds, earliest first,
      as many as there are up to the limit. */
  ghost predicate IsBatch(cfg: Config, rows: map<Id, Row>, locked: set<Id>, now: nat, batch: seq<Id>) {
    && Distinct(batch) && |batch| <= cfg.batchSize
    && (forall i :: 0 <= i < |batch| ==> Due(rows, locked, now, batch[i]))
    && (|batch| < cfg.batchSize ==> forall id :: Due(rows, locked, now, id) ==> id in batch)
    && (forall i, j :: 0 <= i < j < |batch| ==> rows[batch[i]].nextAttemptAt <= rows[batch[j]].nextAttemptAt)
    && (forall i, id :: 0 <= i < |batch| && Due(rows, locked, now, id) && id !in batch
          ==> rows[batch[i]].nextAttemptAt <= rows[id].nextAttemptAt)
  }

  predicate Due(rows: map<Id, Row>, locked: set<Id>, now: nat, id: Id) {
    id in rows && rows[id].status.PENDING? && rows[id].nextAttemptAt <= now && id !in locked
  }

  // ---- Many relays ----

  /** A relay's open transaction; results holds the rows dispatched so far. */
  datatype Tx = Tx(now: nat, claimed: seq<Id>, results: seq<Dispatched>)

  datatype State = State(
    cfg: Config,
    now: nat,
    rows: map<Id, Row>,
    relays: map<Pid, Tx>,
    used: set<Id>,               // every id ever inserted
    delivered: multiset<Id>,     // deliveries made, committed or not
    failures: multiset<Id>,      // committed failed dispatches
    claims: multiset<Id>,        // committed claims
    waits: multiset<Id>)         // milliseconds of delay scheduled, per id

  datatype Step =
    | Tick(ms: nat)
    | Insert(id: Id)
    | Claim(p: Pid, batch: seq<Id>)
    | Dispatch(p: Pid, result: Dispatched, arrived: bool)   // arrived: the target got it even if the call threw
    | Commit(p: Pid)
    | Abort(p: Pid)
    | Prune(ids: set<Id>)

  function Init(cfg: Config): State {
    State(cfg, 0, map[], map[], {}, multiset{}, multiset{}, multiset{}, multiset{})
  }

  ghost function Locked(s: State): set<Id> {
    set p, id | p in s.relays && id in s.relays[p].claimed :: id
  }

  function Missed(batch: seq<Id>, results: seq<Dispatched>): multiset<Id>
    requires |results| <= |batch|
  {
    if results == [] then multiset{}
    else
      var n := |results| - 1;
      Missed(batch, results[..n]) + if results[n].THREW? then multiset{batch[n]} else multiset{}
  }

  /** How far the dispatch puts the row off: read from the row itself. */
  function WaitAfter(cfg: Config, row: Row, now: nat, d: Dispatched): nat {
    var after := AfterDispatch(cfg, row, now, d);
    if d.THREW? && after.status.PENDING? && after.nextAttemptAt >= now then after.nextAttemptAt - now else 0
  }

  function Times(id: Id, n: nat): multiset<Id> {
    var none: multiset<Id> := multiset{};
    none[id := n]
  }

  /** The delays a batch schedules. */
  function Scheduled(cfg: Config, rows: map<Id, Row>, now: nat, batch: seq<Id>, results: seq<Dispatched>): multiset<Id>
    requires |results| <= |batch| && forall id :: id in batch ==> id in rows
  {
    if results == [] then multiset{}
    else
      var n := |results| - 1;
      Scheduled(cfg, rows, now, batch, results[..n]) + Times(batch[n], WaitAfter(cfg, rows[batch[n]], now, results[n]))
  }

  function InsertRow(s: State, id: Id): State {
    s.(rows := s.rows[id := Row(PENDING, 0, s.now, s.now)], used := s.used + {id})
  }

  function DispatchNext(s: State, p: Pid, result: Dispatched, arrived: bool): State
    requires p in s.relays && |s.relays[p].results| < |s.relays[p].claimed|
  {
    var tx := s.relays[p];
    s.(relays := s.relays[p := tx.(results := tx.results + [result])],
       delivered := if result.OK? || arrived then s.delivered + multiset{tx.claimed[|tx.results|]} else s.delivered)
  }

  ghost predicate CanCommit(s: State, p: Pid) {
    && p in s.relays && |s.relays[p].results| == |s.relays[p].claimed|
    && forall id :: id in s.relays[p].claimed ==> id in s.rows
  }

  ghost function CommitBatch(s: State, p: Pid): State
    requires CanCommit(s, p)
  {
    var tx := s.relays[p];
    s.(rows := Drained(s.cfg, s.rows, tx.now, tx.claimed, tx.results),
       relays := s.relays - {p},
       failures := s.failures + Missed(tx.claimed, tx.results),
       claims := s.claims + multiset(tx.claimed),
       waits := s.waits + Scheduled(s.cfg, s.rows, tx.now, tx.claimed, tx.results))
  }

  predicate Prunable(s: State, ids: set<Id>) {
    forall id :: id in ids ==> id in s.rows && !s.rows[id].status.PENDING?
  }

  ghost function Apply(s: State, step: Step): State {
    match step
    case Tick(ms) => s.(now := s.now + ms)
    case Insert(id) => if id in s.used then s else InsertRow(s, id)
    case Claim(p, batch) =>
      if p !in s.relays && IsBatch(s.cfg, s.rows, Locked(s), s.now, batch)
      then s.(relays := s.relays[p := Tx(s.now, batch, [])]) else s
    case Dispatch(p, result, arrived) =>
      if p in s.relays && |s.relays[p].results| < |s.relays[p].claimed| then DispatchNext(s, p, result, arrived) else s
    case Commit(p) => if CanCommit(s, p) then CommitBatch(s, p) else s
    case Abort(p) => s.(relays := s.relays - {p})
    case Prune(ids) => if Prunable(s, ids) then s.(rows := s.rows - ids) else s
  }

  ghost function Run(s: State, steps: seq<Step>): State {
    if steps == [] then s else Apply(Run(s, steps[..|steps| - 1]), steps[|steps| - 1])
  }

  // ---- Invariants of every run ----

  /** No two open transactions hold a common row, and none holds one twice. */
  ghost predicate LocksDisjoint(s: State) {
    && (forall p :: p in s.relays ==> Distinct(s.relays[p].claimed))
    && (forall p, q, id :: p in s.relays && q in s.relays && id in s.relays[p].claimed && id in s.relays[q].claimed
          ==> p == q)
  }

  ghost predicate TxsSound(s: State) {
    forall p :: p in s.relays ==>
      var tx := s.relays[p];
      && |tx.results| <= |tx.claimed| <= s.cfg.batchSize
      && (forall id :: id in tx.claimed ==> id in s.rows && s.rows[id].status.PENDING?)
      && (forall i :: 0 <= i < |tx.results| && tx.results[i].OK? ==> s.delivered[tx.claimed[i]] >= 1)
  }

  /** attempts counts the committed failures; a row is FAILED exactly when they
      reach the maximum; SENT implies a delivery; every committed claim either
      failed once more or settled the row. */
  ghost predicate RowSound(s: State, id: Id)
    requires id in s.rows
  {
    var row := s.rows[id];
    && row.attempts == s.failures[id]
    && (row.status.FAILED? <==> row.attempts == s.cfg.maxAttempts)
    && row.attempts <= s.cfg.maxAttempts
    && (row.status.SENT? ==> s.delivered[id] >= 1)
    && s.claims[id] == row.attempts + if row.status.SENT? then 1 else 0
  }

  ghost predicate RowsSound(s: State) {
    && ValidConfig(s.cfg)
    && (forall id :: id in s.rows ==> RowSound(s, id))
    && (forall id :: id in s.rows ==> id in s.used)
    && (forall id :: id !in s.used ==> s.failures[id] == 0 && s.claims[id] == 0)
    && (forall id :: id in s.delivered ==> id in s.used)
  }

  ghost predicate Inv(s: State) {
    LocksDisjoint(s) && TxsSound(s) && RowsSound(s)
  }

  lemma {:induction false} DrainedAt(cfg: Config, rows: map<Id, Row>, now: nat, batch: seq<Id>,
      results: seq<Dispatched>)
    requires |results| <= |batch| && Distinct(batch) && forall id :: id in batch ==> id in rows
    ensures Drained(cfg, rows, now, batch, results).Keys == rows.Keys
    ensures forall i :: 0 <= i < |results| ==>
              Drained(cfg, rows, now, batch, results)[batch[i]] == AfterDispatch(cfg, rows[batch[i]], now, results[i])
    ensures forall id :: id in rows && id !in batch[..|results|] ==>
              Drained(cfg, rows, now, batch, results)[id] == rows[id]
  {
    if results == [] {
    } else {
      var n := |results| - 1;
      DrainedAt(cfg, rows, now, batch, results[..n]);
      assert batch[..n + 1] == batch[..n] + [batch[n]];
    }
  }

  lemma {:induction false} MissedAt(batch: seq<Id>, results: seq<Dispatched>)
    requires |results| <= |batch| && Distinct(batch)
    ensures forall i :: 0 <= i < |results| ==> Missed(batch, results)[batch[i]] == if results[i].THREW? then 1 else 0
    ensures forall id :: id !in batch[..|results|] ==> Missed(batch, results)[id] == 0
  {
    if results == [] {
    } else {
      var n := |results| - 1;
      MissedAt(batch, results[..n]);
      assert batch[..n + 1] == batch[..n] + [batch[n]];
      assert batch[n] !in batch[..n];
    }
  }

  lemma CountDistinct(batch: seq<Id>)
    requires Distinct(batch)
    ensures forall id :: multiset(batch)[id] == if id in batch then 1 else 0
  {
    if batch == [] {
    } else {
      var n := |batch| - 1;
      CountDistinct(batch[..n]);
      assert batch == batch[..n] + [batch[n]];
      assert batch[n] !in batch[..n];
    }
  }

  lemma InvClaim(s: State, p: Pid, batch: seq<Id>)
    requires Inv(s) && p !in s.relays && IsBatch(s.cfg, s.rows, Locked(s), s.now, batch)
    ensures Inv(s.(relays := s.relays[p := Tx(s.now, batch, [])]))
  {
    forall q, id | q in s.relays && id in s.relays[q].claimed ensures id !in batch {
      assert id in Locked(s);
    }
  }

  lemma InvDispatch(s: State, p: Pid, result: Dispatched, arrived: bool)
    requires Inv(s) && p in s.relays && |s.relays[p].results| < |s.relays[p].claimed|
    ensures Inv(DispatchNext(s, p, result, arrived))
  {
    DispatchKeepsRows(s, p, result, arrived);
  }

  lemma DispatchKeepsRows(s: State, p: Pid, result: Dispatched, arrived: bool)
    requires RowsSound(s) && p in s.relays && |s.relays[p].results| < |s.relays[p].claimed|
    requires forall id :: id in s.relays[p].claimed ==> id in s.rows
    ensures RowsSound(DispatchNext(s, p, result, arrived))
    ensures forall id :: DispatchNext(s, p, result, arrived).delivered[id] >= s.delivered[id]
  {
    assert s.relays[p].claimed[|s.relays[p].results|] in s.used;
  }

  /** The row and its counts after a committed batch. */
  lemma CommittedRow(s: State, p: Pid, id: Id)
    requires Inv(s) && CanCommit(s, p) && id in s.rows
    ensures CommitBatch(s, p).rows.Keys == s.rows.Keys
    ensures var t, tx := CommitBatch(s, p), s.relays[p];
            if id !in tx.claimed
            then t.rows[id] == s.rows[id] && t.failures[id] == s.failures[id] && t.claims[id] == s.claims[id]
            else && t.claims[id] == s.claims[id] + 1 && s.rows[id].status.PENDING?
                 && exists d :: t.rows[id] == AfterDispatch(s.cfg, s.rows[id], tx.now, d)
                                && t.failures[id] == s.failures[id] + (if d.THREW? then 1 else 0)
                                && (d.OK? ==> s.delivered[id] >= 1)
  {
    var tx := s.relays[p];
    CountDistinct(tx.claimed);
    CommitRows(s, p);
    if id in tx.claimed {
      var i :| 0 <= i < |tx.claimed| && tx.claimed[i] == id;
      ClaimedRow(s, p, i);
      var d := tx.results[i];
      assert CommitBatch(s, p).rows[id] == AfterDispatch(s.cfg, s.rows[id], tx.now, d);
    } else {
      UnclaimedRow(s, p, id);
    }
  }

  /** The parts of the state a commit computes. */
  lemma CommitRows(s: State, p: Pid)
    requires Inv(s) && CanCommit(s, p)
    ensures var t, tx := CommitBatch(s, p), s.relays[p];
            && t.rows == Drained(s.cfg, s.rows, tx.now, tx.claimed, tx.results) && t.rows.Keys == s.rows.Keys
            && (forall id :: t.failures[id] == s.failures[id] + Missed(tx.claimed, tx.results)[id])
            && (forall id :: t.claims[id] == s.claims[id] + multiset(tx.claimed)[id])
  {
    var tx := s.relays[p];
    DrainedAt(s.cfg, s.rows, tx.now, tx.claimed, tx.results);
  }

  lemma UnclaimedRow(s: State, p: Pid, id: Id)
    requires Inv(s) && CanCommit(s, p) && id in s.rows && id !in s.relays[p].claimed
    ensures var tx := s.relays[p];
            && id in Drained(s.cfg, s.rows, tx.now, tx.claimed, tx.results)
            && Drained(s.cfg, s.rows, tx.now, tx.claimed, tx.results)[id] == s.rows[id]
            && Missed(tx.claimed, tx.results)[id] == 0
  {
    var tx := s.relays[p];
    DrainedAt(s.cfg, s.rows, tx.now, tx.claimed, tx.results);
    MissedAt(tx.claimed, tx.results);
    assert tx.claimed[..|tx.results|] == tx.claimed;
  }

  lemma ClaimedRow(s: State, p: Pid, i: nat)
    requires Inv(s) && CanCommit(s, p) && i < |s.relays[p].claimed|
    ensures var tx := s.relays[p]; var id, d := tx.claimed[i], tx.results[i];
            && id in s.rows && id in Drained(s.cfg, s.rows, tx.now, tx.claimed, tx.results)
            && Drained(s.cfg, s.rows, tx.now, tx.claimed, tx.results)[id] == AfterDispatch(s.cfg, s.rows[id], tx.now, d)
            && Missed(tx.claimed, tx.results)[id] == (if d.THREW? then 1 else 0)
            && (d.OK? ==> s.delivered[id] >= 1)
  {
    var tx := s.relays[p];
    assert tx.claimed[i] in tx.claimed;
    DrainedAt(s.cfg, s.rows, tx.now, tx.claimed, tx.results);
    MissedAt(tx.claimed, tx.results);
  }

  lemma CommittedRowSound(s: State, p: Pid, id: Id)
    requires Inv(s) && CanCommit(s, p) && id in s.rows
    ensures id in CommitBatch(s, p).rows && RowSound(CommitBatch(s, p), id)
    ensures id !in s.relays[p].claimed ==> CommitBatch(s, p).rows[id] == s.rows[id]
  {
    CommittedRow(s, p, id);
    assert RowSound(s, id);
  }

  lemma InvCommit(s: State, p: Pid)
    requires Inv(s) && CanCommit(s, p)
    ensures Inv(CommitBatch(s, p))
  {
    var t, tx := CommitBatch(s, p), s.relays[p];
    DrainedAt(s.cfg, s.rows, tx.now, tx.claimed, tx.results);
    MissedAt(tx.claimed, tx.results);
    CountDistinct(tx.claimed);
    assert tx.claimed[..|tx.results|] == tx.claimed;
    forall id | id in s.rows { CommittedRowSound(s, p, id); }
    assert LocksDisjoint(t);
    assert RowsSound(t);
  }

  lemma InvRows(s: State, id: Id, ids: set<Id>)
    requires Inv(s)
    ensures id !in s.used ==> Inv(InsertRow(s, id))
    ensures Prunable(s, ids) ==> Inv(s.(rows := s.rows - ids))
  {
  }

  lemma InvStep(s: State, step: Step)
    requires Inv(s)
    ensures Inv(Apply(s, step))
  {
    match step
    case Tick(ms) =>
    case Insert(id) => InvRows(s, id, {});
    case Claim(p, batch) =>
      if p !in s.relays && IsBatch(s.cfg, s.rows, Locked(s), s.now, batch) { InvClaim(s, p, batch); }
    case Dispatch(p, result, arrived) =>
      if p in s.relays && |s.relays[p].results| < |s.relays[p].claimed| { InvDispatch(s, p, result, arrived); }
    case Commit(p) => if CanCommit(s, p) { InvCommit(s, p); }
    case Abort(p) =>
    case Prune(ids) => if Prunable(s, ids) { InvRows(s, P.Effect(0, P.TRIAGED), ids); }
  }

  lemma {:induction false} InvRun(cfg: Config, steps: seq<Step>)
    requires ValidConfig(cfg)
    ensures Inv(Run(Init(cfg), steps))
  {
    if steps == [] {
    } else {
      InvRun(cfg, steps[..|steps| - 1]);
      InvStep(Run(Init(cfg), steps[..|steps| - 1]), steps[|steps| - 1]);
    }
  }

  // ---- Safety over whole runs ----

  /** In every run of any number of relays, rolled back anywhere. */
  lemma {:induction false} RelaySafety(cfg: Config, steps: seq<Step>, id: Id)
    requires ValidConfig(cfg)
    ensures var s := Run(Init(cfg), steps);
            (forall p :: p in s.relays ==> |s.relays[p].claimed| <= cfg.batchSize) &&
            forall p, q :: p in s.relays && q in s.relays && p != q ==>
                id !in s.relays[p].claimed || id !in s.relays[q].claimed
    ensures var s := Run(Init(cfg), steps); id in s.rows ==>
              && s.rows[id].attempts == s.failures[id]
              && (s.rows[id].status.PENDING? ==> s.rows[id].attempts < cfg.maxAttempts)
              && (s.rows[id].status.FAILED? <==> s.rows[id].attempts == cfg.maxAttempts)
              && (s.rows[id].status.SENT? ==> id in s.delivered)
              && s.claims[id] <= cfg.maxAttempts
    ensures var s := Run(Init(cfg), steps); id in s.delivered ==> id in s.used
  {
    InvRun(cfg, steps);
    ConfigFixed(cfg, steps);
  }

  lemma {:induction false} ConfigFixed(cfg: Config, steps: seq<Step>)
    ensures Run(Init(cfg), steps).cfg == cfg
  {
    if steps == [] {
    } else {
      ConfigFixed(cfg, steps[..|steps| - 1]);
    }
  }

  lemma RowKept(s: State, step: Step, id: Id)
    requires Inv(s) && id in s.rows && !(step.Prune? && id in step.ids)
    ensures id in Apply(s, step).rows
    ensures !s.rows[id].status.PENDING? ==> Apply(s, step).rows[id] == s.rows[id]
  {
    if step.Commit? && CanCommit(s, step.p) { CommittedRowSound(s, step.p, id); }
  }

  /** No row is lost, and SENT and FAILED are absorbing, until the row is
      pruned. */
  lemma {:induction false} SettledForGood(s: State, steps: seq<Step>, id: Id)
    requires Inv(s) && id in s.rows && forall i :: 0 <= i < |steps| ==> !(steps[i].Prune? && id in steps[i].ids)
    ensures Inv(Run(s, steps)) && id in Run(s, steps).rows
    ensures !s.rows[id].status.PENDING? ==> Run(s, steps).rows[id] == s.rows[id]
  {
    if steps == [] {
    } else {
      var n := |steps| - 1;
      SettledForGood(s, steps[..n], id);
      InvStep(Run(s, steps[..n]), steps[n]);
      RowKept(Run(s, steps[..n]), steps[n], id);
    }
  }

  // ---- Progress ----

  function Remaining(cfg: Config, row: Row): nat {
    if row.status.PENDING? && row.attempts < cfg.maxAttempts then cfg.maxAttempts - row.attempts else 0
  }

  /** The attempts left over all pending rows. */
  ghost function Potential(cfg: Config, rows: map<Id, Row>): nat {
    if rows == map[] then 0
    else var id :| id in rows; Remaining(cfg, rows[id]) + Potential(cfg, rows - {id})
  }

  lemma {:induction false} PotentialSplit(cfg: Config, rows: map<Id, Row>, id: Id)
    requires id in rows
    ensures Potential(cfg, rows) == Remaining(cfg, rows[id]) + Potential(cfg, rows - {id})
    decreases |rows|
  {
    var x :| x in rows && Potential(cfg, rows) == Remaining(cfg, rows[x]) + Potential(cfg, rows - {x});
    if x != id {
      PotentialSplit(cfg, rows - {x}, id);
      PotentialSplit(cfg, rows - {id}, x);
      assert rows - {x} - {id} == rows - {id} - {x};
    }
  }

  lemma PotentialUpdate(cfg: Config, rows: map<Id, Row>, id: Id, row: Row)
    requires id in rows
    ensures Potential(cfg, rows[id := row]) + Remaining(cfg, rows[id]) == Potential(cfg, rows) + Remaining(cfg, row)
  {
    PotentialSplit(cfg, rows, id);
    PotentialSplit(cfg, rows[id := row], id);
    assert rows[id := row] - {id} == rows - {id};
  }

  lemma {:induction false} DrainedPotential(cfg: Config, rows: map<Id, Row>, now: nat, batch: seq<Id>,
      results: seq<Dispatched>)
    requires |results| <= |batch| && Distinct(batch)
    requires forall id :: id in batch ==> id in rows && rows[id].status.PENDING? && rows[id].attempts < cfg.maxAttempts
    ensures Potential(cfg, Drained(cfg, rows, now, batch, results)) + |results| <= Potential(cfg, rows)
  {
    if results == [] {
    } else {
      var n := |results| - 1;
      DrainedPotential(cfg, rows, now, batch, results[..n]);
      DrainedAt(cfg, rows, now, batch, results[..n]);
      assert batch[n] !in batch[..n];
      PotentialUpdate(cfg, Drained(cfg, rows, now, batch, results[..n]), batch[n],
          AfterDispatch(cfg, rows[batch[n]], now, results[n]));
    }
  }

  /** Every committed drain of n rows uses up at least n of the attempts left. */
  lemma CommitMakesProgress(s: State, p: Pid)
    requires Inv(s) && CanCommit(s, p)
    ensures Potential(s.cfg, Apply(s, Commit(p)).rows) + |s.relays[p].claimed| <= Potential(s.cfg, s.rows)
  {
    var tx := s.relays[p];
    DrainedPotential(s.cfg, s.rows, tx.now, tx.claimed, tx.results);
  }

  // ---- One relay process ----

  lemma SentWasDelivered(cfg: Config, rows: map<Id, Row>, now: nat, batch: seq<Id>, results: seq<Dispatched>)
    requires IsBatch(cfg, rows, {}, now, batch) && |results| == |batch|
    ensures forall i :: 0 <= i < |batch| ==> batch[i] in Drained(cfg, rows, now, batch, results)
    ensures forall i :: 0 <= i < |batch| && Drained(cfg, rows, now, batch, results)[batch[i]].status.SENT? ==>
              results[i].OK?
  {
    DrainedAt(cfg, rows, now, batch, results);
    assert forall i :: 0 <= i < |batch| ==> Due(rows, {}, now, batch[i]);
  }

  /** Each row of the batch was dispatched, and no other row changed. */
  ghost predicate BatchDispatched(cfg: Config, before: map<Id, Row>, after: map<Id, Row>, now: nat, batch: seq<Id>,
                                  results: seq<Dispatched>)
    requires |results| == |batch|
  {
    && after.Keys == before.Keys && (forall id :: id in before && id !in batch ==> after[id] == before[id])
    && forall i :: 0 <= i < |batch| ==>
         batch[i] in before && DispatchedTo(cfg, before[batch[i]], after[batch[i]], now, results[i])
  }

  lemma DrainFits(cfg: Config, rows: map<Id, Row>, now: nat, batch: seq<Id>, results: seq<Dispatched>)
    requires IsBatch(cfg, rows, {}, now, batch) && |results| == |batch|
    ensures forall i :: 0 <= i < |batch| ==> batch[i] in rows
    ensures BatchDispatched(cfg, rows, Drained(cfg, rows, now, batch, results), now, batch, results)
  {
    assert forall i :: 0 <= i < |batch| ==> Due(rows, {}, now, batch[i]);
    DrainedAt(cfg, rows, now, batch, results);
    assert batch[..|results|] == batch;
    forall i | 0 <= i < |batch|
      ensures DispatchedTo(cfg, rows[batch[i]], Drained(cfg, rows, now, batch, results)[batch[i]], now, results[i])
    {
      DispatchFits(cfg, rows[batch[i]], now, results[i]);
    }
  }

  lemma DrainedNext(cfg: Config, rows: map<Id, Row>, now: nat, batch: seq<Id>, results: seq<Dispatched>, n: nat)
    requires n < |batch| == |results| && Distinct(batch) && forall id :: id in batch ==> id in rows
    ensures var before := Drained(cfg, rows, now, batch, results[..n]);
            && batch[n] in before && before[batch[n]] == rows[batch[n]]
            && Drained(cfg, rows, now, batch, results[..n + 1]) ==
                before[batch[n] := AfterDispatch(cfg, rows[batch[n]], now, results[n])]
  {
    DrainedAt(cfg, rows, now, batch, results[..n]);
    assert batch[n] !in batch[..n];
    assert results[..n + 1][..n] == results[..n];
  }

  class Relay {
    var rows: map<Id, Row>
    var stopped: bool
    var draining: bool
    ghost var delivered: multiset<Id>
    const cfg: Config

    constructor (cfg: Config)
      ensures rows == map[] && !stopped && !draining && delivered == multiset{} && this.cfg == cfg
    {
      rows, stopped, draining, delivered := map[], false, false, multiset{};
      this.cfg := cfg;
    }

    method DispatchRow(id: Id, now: nat, result: Dispatched)
      requires id in rows
      modifies this`rows, this`delivered
      ensures rows == old(rows)[id := AfterDispatch(cfg, old(rows)[id], now, result)]
      ensures DispatchedTo(cfg, old(rows)[id], rows[id], now, result)
      ensures delivered == old(delivered) + if result.OK? then multiset{id} else multiset{}
    {
      var row := rows[id];
      DispatchFits(cfg, row, now, result);
      match result
      case OK =>
        delivered := delivered + multiset{id};
        rows := rows[id := row.(status := SENT)];
      case THREW(draw) =>
        var attempts := row.attempts + 1;
        if attempts >= cfg.maxAttempts {
          rows := rows[id := row.(status := FAILED, attempts := attempts)];
        } else {
          var delay := Delay(attempts, cfg.backoffBaseMs, draw);
          rows := rows[id := row.(attempts := attempts, nextAttemptAt := now + delay)];
        }
    }

    /** One drain that commits: each claimed row is settled or rescheduled, no
        other row changes, and a full batch of attempts is used up. */
    method DrainOnce(now: nat, batch: seq<Id>, results: seq<Dispatched>) returns (processed: nat)
      requires IsBatch(cfg, rows, {}, now, batch) && |results| == |batch|
      modifies this`rows, this`delivered
      ensures processed == |batch| <= cfg.batchSize
      ensures rows == Drained(cfg, old(rows), now, batch, results)
      ensures forall i :: 0 <= i < |batch| ==>
                batch[i] in rows && (rows[batch[i]].status.SENT? ==> batch[i] in delivered)
      ensures forall i :: 0 <= i < |batch| && results[i].OK? ==> batch[i] in delivered
      ensures BatchDispatched(cfg, old(rows), rows, now, batch, results)
      ensures (forall id :: id in batch ==> old(rows)[id].attempts < cfg.maxAttempts) ==>
                Potential(cfg, rows) + processed <= Potential(cfg, old(rows))
    {
      var n := 0;
      while n < |batch|
        invariant n <= |batch|
        invariant rows == Drained(cfg, old(rows), now, batch, results[..n])
        invariant forall i :: 0 <= i < n && results[i].OK? ==> batch[i] in delivered
      {
        DrainedNext(cfg, old(rows), now, batch, results, n);
        DispatchRow(batch[n], now, results[n]);
        n := n + 1;
      }
      assert results[..n] == results;
      SentWasDelivered(cfg, old(rows), now, batch, results);
      DrainFits(cfg, old(rows), now, batch, results);
      if forall id :: id in batch ==> old(rows)[id].attempts < cfg.maxAttempts {
        DrainedPotential(cfg, old(rows), now, batch, results);
      }
      processed := |batch|;
    }

    /** One timer tick: no drain starts while one is running or after shutdown.
        A drain that fails rolls its rows back, but not its deliveries. A full
        batch is followed by another drain at once, and a shutdown during the
        drain (stops) by none. */
    method Tick(now: nat, batch: seq<Id>, results: seq<Dispatched>, commits: bool, stops: bool, pollIntervalMs: nat)
      returns (next: Option<nat>)
      requires ValidConfig(cfg) && IsBatch(cfg, rows, {}, now, batch) && |results| == |batch|
      modifies this
      ensures draining == old(draining)
      ensures old(stopped) || old(draining) ==>
                rows == old(rows) && delivered == old(delivered) && stopped == old(stopped) && next == None
      ensures !(old(stopped) || old(draining)) ==>
                && rows == (if commits then Drained(cfg, old(rows), now, batch, results) else old(rows))
                && (forall i :: 0 <= i < |batch| && results[i].OK? ==> batch[i] in delivered)
                && stopped == stops
                && next == if stops then None
                           else Some(if commits && |batch| == cfg.batchSize then 0 else pollIntervalMs)
    {
      if stopped || draining { return None; }
      draining := true;
      var before := rows;
      var processed := DrainOnce(now, batch, results);
      if !commits {
        rows := before;
        processed := 0;
      }
      stopped := stops;
      draining := false;
      next := if stopped then None else Some(if processed >= cfg.batchSize then 0 else pollIntervalMs);
    }
  }
}
