/** A due row is not starved: with one relay that does not crash, retries are put
    behind the rows that were waiting (src/outbox/outbox.relay.ts). */
module RelayFairness {
  import opened Common
  import opened Backoff
  import opened OutboxRelay

  // ---- Rounds of one relay ----

  /** What happens between two drains, then a drain by relay p. */
  datatype Round = Round(between: seq<Step>, p: Pid, batch: seq<Id>, results: seq<Dispatched>, arrived: seq<bool>)

  /** A step of anybody but a relay. */
  predicate Quiet(step: Step) { step.Tick? || step.Insert? || step.Prune? }

  function Dispatches(p: Pid, results: seq<Dispatched>, arrived: seq<bool>): seq<Step>
    requires |results| == |arrived|
  {
    seq(|results|, i requires 0 <= i < |results| => Dispatch(p, results[i], arrived[i]))
  }

  function DrainSteps(r: Round): seq<Step>
    requires |r.results| == |r.arrived|
  {
    [Claim(r.p, r.batch)] + (Dispatches(r.p, r.results, r.arrived) + [Commit(r.p)])
  }

  ghost function AfterRound(s: State, r: Round): State
    requires |r.results| == |r.arrived|
  {
    Run(Run(s, r.between), DrainSteps(r))
  }

  /** The drain claims what the polling query may return then, dispatches it all
      and commits. */
  ghost predicate RoundLegal(s: State, r: Round) {
    && |r.results| == |r.arrived| == |r.batch|
    && (forall i :: 0 <= i < |r.between| ==> Quiet(r.between[i]))
    && var now := Run(s, r.between); IsBatch(now.cfg, now.rows, Locked(now), now.now, r.batch)
  }

  ghost predicate RoundsLegal(s: State, rounds: seq<Round>)
    decreases |rounds|
  {
    rounds == [] || (RoundLegal(s, rounds[0]) && RoundsLegal(AfterRound(s, rounds[0]), rounds[1..]))
  }

  lemma {:induction false} RunConcat(s: State, a: seq<Step>, b: seq<Step>)
    ensures Run(s, a + b) == Run(Run(s, a), b)
  {
    if b == [] {
      assert a + b == a;
    } else {
      RunConcat(s, a, b[..|b| - 1]);
      assert (a + b)[..|a + b| - 1] == a + b[..|b| - 1];
    }
  }

  lemma RunOne(s: State, step: Step)
    ensures Run(s, [step]) == Apply(s, step)
  {
    assert [step][..0] == [];
  }

  lemma {:induction false} DispatchesRun(s: State, p: Pid, batch: seq<Id>, results: seq<Dispatched>,
      arrived: seq<bool>, n: nat)
    requires s.relays == map[p := Tx(s.now, batch, [])] && n <= |results| == |arrived| == |batch|
    ensures var t := Run(s, Dispatches(p, results, arrived)[..n]);
            t == s.(relays := map[p := Tx(s.now, batch, results[..n])], delivered := t.delivered)
  {
    var steps := Dispatches(p, results, arrived);
    if n == 0 {
      assert steps[..0] == [];
    } else {
      DispatchesRun(s, p, batch, results, arrived, n - 1);
      assert steps[..n][..n - 1] == steps[..n - 1];
      assert results[..n] == results[..n - 1] + [results[n - 1]];
      DispatchStep(Run(s, steps[..n - 1]), p, s.now, batch, results[..n - 1], results[n - 1], arrived[n - 1]);
    }
  }

  lemma DispatchStep(s: State, p: Pid, now: nat, batch: seq<Id>, done: seq<Dispatched>, result: Dispatched,
                     arrived: bool)
    requires s.relays == map[p := Tx(now, batch, done)] && |done| < |batch|
    ensures var t := Apply(s, Dispatch(p, result, arrived));
            t == s.(relays := map[p := Tx(now, batch, done + [result])], delivered := t.delivered)
  {
  }

  lemma LoneCommit(s: State, p: Pid)
    requires s.relays.Keys == {p} && CanCommit(s, p)
    ensures var t, tx := Apply(s, Commit(p)), s.relays[p];
            && t.rows == Drained(s.cfg, s.rows, tx.now, tx.claimed, tx.results)
            && t.cfg == s.cfg && t.now == s.now && t.relays == map[] && t.used == s.used
            && t.claims == s.claims + multiset(tx.claimed)
  {
  }

  /** A drain alone is one of the machine's runs: it leaves the drained table, no
      open transaction, and one more claim for each row of the batch. */
  lemma DrainIsARun(s: State, r: Round)
    requires s.relays == map[] && |r.results| == |r.arrived| == |r.batch|
    requires IsBatch(s.cfg, s.rows, Locked(s), s.now, r.batch)
    ensures var t := Run(s, DrainSteps(r));
            && t.rows == Drained(s.cfg, s.rows, s.now, r.batch, r.results)
            && t.cfg == s.cfg && t.now == s.now && t.relays == map[] && t.used == s.used
            && t.claims == s.claims + multiset(r.batch)
  {
    var claim, all := Claim(r.p, r.batch), Dispatches(r.p, r.results, r.arrived);
    var s1 := Apply(s, claim);
    assert s1 == s.(relays := map[r.p := Tx(s.now, r.batch, [])]);
    DispatchesRun(s1, r.p, r.batch, r.results, r.arrived, |all|);
    assert all[..|all|] == all && r.results[..|all|] == r.results;
    var s2 := Run(s1, all);
    assert s2 == s.(relays := map[r.p := Tx(s.now, r.batch, r.results)], delivered := s2.delivered);
    assert forall id :: id in r.batch ==> Due(s.rows, Locked(s), s.now, id);
    LoneCommit(s2, r.p);
    RunOne(s, claim);
    RunConcat(s, [claim], all + [Commit(r.p)]);
    RunConcat(s1, all, [Commit(r.p)]);
    RunOne(s2, Commit(r.p));
  }

  // ---- Who is ahead ----

  ghost function Ahead(rows: map<Id, Row>, id: Id): set<Id>
    requires id in rows
  {
    set x | x in rows && x != id && rows[x].status.PENDING? && rows[x].nextAttemptAt <= rows[id].nextAttemptAt
  }

  /** Rows inserted meanwhile become due after the given time. */
  ghost predicate InsertsAfter(s: State, steps: seq<Step>, due: nat) {
    forall i :: 0 <= i < |steps| && steps[i].Insert? ==> due < Run(s, steps[..i]).now
  }

  ghost predicate ArrivalsBehind(s: State, rounds: seq<Round>, due: nat)
    requires RoundsLegal(s, rounds)
    decreases |rounds|
  {
    rounds == [] ||
    (InsertsAfter(s, rounds[0].between, due) && ArrivalsBehind(AfterRound(s, rounds[0]), rounds[1..], due))
  }

  /** The row is as it was, and nothing got ahead of it. */
  ghost predicate StillAhead(s: State, t: State, id: Id)
    requires id in s.rows
  {
    && t.relays == map[] && t.cfg == s.cfg && t.now >= s.now
    && id in t.rows && t.rows[id] == s.rows[id] && Ahead(t.rows, id) <= Ahead(s.rows, id)
  }

  lemma QuietStep(s: State, step: Step, id: Id)
    requires Inv(s) && s.relays == map[] && Quiet(step) && id in s.rows && s.rows[id].status.PENDING?
    requires step.Insert? ==> s.rows[id].nextAttemptAt < s.now
    ensures StillAhead(s, Apply(s, step), id)
  {
  }

  lemma {:induction false} QuietRun(s: State, steps: seq<Step>, id: Id)
    requires Inv(s) && s.relays == map[] && (forall i :: 0 <= i < |steps| ==> Quiet(steps[i]))
    requires id in s.rows && s.rows[id].status.PENDING? && InsertsAfter(s, steps, s.rows[id].nextAttemptAt)
    ensures Inv(Run(s, steps)) && StillAhead(s, Run(s, steps), id)
  {
    if steps == [] {
    } else {
      var n := |steps| - 1;
      var before := Run(s, steps[..n]);
      InsertsAfterPrefix(s, steps, s.rows[id].nextAttemptAt);
      QuietRun(s, steps[..n], id);
      QuietStep(before, steps[n], id);
      assert Inv(Apply(before, steps[n])) by { InvStep(before, steps[n]); }
      StillAheadOn(s, before, Apply(before, steps[n]), id);
    }
  }

  lemma InsertsAfterPrefix(s: State, steps: seq<Step>, due: nat)
    requires steps != [] && InsertsAfter(s, steps, due)
    ensures InsertsAfter(s, steps[..|steps| - 1], due)
    ensures steps[|steps| - 1].Insert? ==> due < Run(s, steps[..|steps| - 1]).now
  {
    var front := steps[..|steps| - 1];
    forall i | 0 <= i < |front| && front[i].Insert? ensures due < Run(s, front[..i]).now {
      assert front[..i] == steps[..i];
    }
  }

  lemma StillAheadOn(s: State, t: State, u: State, id: Id)
    requires id in s.rows && StillAhead(s, t, id) && StillAhead(t, u, id)
    ensures StillAhead(s, u, id)
  {
  }

  // ---- One drain ----

  lemma DelayPositive(attempt: nat, base: nat, draw: Draw)
    requires base >= 2
    ensures Delay(attempt, base, draw) >= 1
  {
    DelayBounds(attempt, base, MAX_SAFE_INTEGER, draw);
    Pow2Monotone(0, if attempt <= 1 then 0 else attempt - 1);
    Scale(base, 1, Pow2(if attempt <= 1 then 0 else attempt - 1));
  }

  /** Every retry waits, whatever the jitter, exactly when the base is at least
      two milliseconds. */
  lemma EveryDelayPositiveIff(base: nat)
    ensures (forall attempt: nat, draw: Draw :: Delay(attempt, base, draw) >= 1) <==> base >= 2
  {
    if base >= 2 {
      forall attempt: nat, draw: Draw ensures Delay(attempt, base, draw) >= 1 { DelayPositive(attempt, base, draw); }
    } else {
      assert Ceiling(1, base, MAX_SAFE_INTEGER) == base;
      assert 0.0 * (base as real / 2.0) == 0.0;
      assert Delay(1, base, 0.0) == 0;
    }
  }

  lemma DistinctSet(batch: seq<Id>)
    requires Distinct(batch)
    ensures |set id | id in batch| == |batch|
  {
    if batch == [] {
    } else {
      var n := |batch| - 1;
      DistinctSet(batch[..n]);
      assert batch == batch[..n] + [batch[n]];
      assert (set id | id in batch) == (set id | id in batch[..n]) + {batch[n]};
    }
  }

  lemma RetryIsLater(cfg: Config, row: Row, now: nat, d: Dispatched)
    ensures var after := AfterDispatch(cfg, row, now, d);
            after.status.PENDING? && d.THREW? ==>
              after.nextAttemptAt >= now && (cfg.backoffBaseMs >= 2 ==> after.nextAttemptAt > now)
  {
    if d.THREW? && cfg.backoffBaseMs >= 2 { DelayPositive(row.attempts + 1, cfg.backoffBaseMs, d.draw); }
  }

  /** What a drain leaves of a row: settled or rescheduled if it was in the
      batch, untouched otherwise. */
  lemma RowAfterDrain(cfg: Config, rows: map<Id, Row>, now: nat, batch: seq<Id>, results: seq<Dispatched>, x: Id)
    requires IsBatch(cfg, rows, {}, now, batch) && |results| == |batch| && x in rows
    ensures forall id :: id in batch ==> id in rows
    ensures var after := Drained(cfg, rows, now, batch, results);
            && x in after
            && (x !in batch ==> after[x] == rows[x])
            && (x in batch && after[x].status.PENDING? ==>
                  after[x].nextAttemptAt >= now && (cfg.backoffBaseMs >= 2 ==> after[x].nextAttemptAt > now))
  {
    assert forall i :: 0 <= i < |batch| ==> Due(rows, {}, now, batch[i]);
    DrainedAt(cfg, rows, now, batch, results);
    assert batch[..|results|] == batch;
    if x in batch {
      var i :| 0 <= i < |batch| && batch[i] == x;
      assert Drained(cfg, rows, now, batch, results)[batch[i]] == AfterDispatch(cfg, rows[x], now, results[i]);
      RetryIsLater(cfg, rows[x], now, results[i]);
    }
  }

  lemma TakenWasAhead(cfg: Config, rows: map<Id, Row>, now: nat, batch: seq<Id>, id: Id, x: Id)
    requires IsBatch(cfg, rows, {}, now, batch) && Due(rows, {}, now, id) && id !in batch && x in batch
    ensures x in Ahead(rows, id)
  {
    var i :| 0 <= i < |batch| && batch[i] == x;
    assert Due(rows, {}, now, batch[i]);
    assert rows[batch[i]].nextAttemptAt <= rows[id].nextAttemptAt;
  }

  /** A drain that passes a due row over takes a full batch of the rows ahead of
      it, and settles them or moves them behind it. */
  lemma DrainPassesOver(cfg: Config, rows: map<Id, Row>, now: nat, batch: seq<Id>, results: seq<Dispatched>, id: Id)
    requires IsBatch(cfg, rows, {}, now, batch) && |results| == |batch| && Due(rows, {}, now, id) && id !in batch
    requires cfg.backoffBaseMs >= 2 || rows[id].nextAttemptAt < now
    ensures forall x :: x in batch ==> x in rows
    ensures var after := Drained(cfg, rows, now, batch, results);
            id in after && after[id] == rows[id] && |Ahead(after, id)| + cfg.batchSize <= |Ahead(rows, id)|
  {
    RowAfterDrain(cfg, rows, now, batch, results, id);
    var after, taken := Drained(cfg, rows, now, batch, results), set x | x in batch;
    DistinctSet(batch);
    forall x | x in taken ensures x in Ahead(rows, id) { TakenWasAhead(cfg, rows, now, batch, id, x); }
    DrainedAt(cfg, rows, now, batch, results);
    forall x | x in Ahead(after, id) ensures x in Ahead(rows, id) - taken {
      RowAfterDrain(cfg, rows, now, batch, results, x);
    }
    SubsetSize(Ahead(after, id), Ahead(rows, id) - taken);
    assert taken <= Ahead(rows, id);
    assert |Ahead(rows, id) - taken| == |Ahead(rows, id)| - |taken|;
  }

  // ---- One round, and many ----

  /** The row is waiting: pending, due, and no retry can tie with it. */
  ghost predicate Waiting(s: State, id: Id) {
    && Inv(s) && s.relays == map[] && id in s.rows && s.rows[id].status.PENDING?
    && (s.rows[id].nextAttemptAt < s.now || (s.rows[id].nextAttemptAt == s.now && s.cfg.backoffBaseMs >= 2))
  }

  lemma {:induction false} InvSteps(s: State, steps: seq<Step>)
    requires Inv(s)
    ensures Inv(Run(s, steps))
  {
    if steps == [] {
    } else {
      InvSteps(s, steps[..|steps| - 1]);
      InvStep(Run(s, steps[..|steps| - 1]), steps[|steps| - 1]);
    }
  }

  lemma LockedNone(s: State)
    requires s.relays == map[]
    ensures Locked(s) == {}
  {
  }

  /** A waiting row that is passed over keeps waiting while a full batch of the
      rows ahead of it is settled or moved behind it. */
  lemma PassedOver(s: State, r: Round, id: Id)
    requires Waiting(s, id) && RoundLegal(s, r) && InsertsAfter(s, r.between, s.rows[id].nextAttemptAt) &&
               id !in r.batch
    ensures var t := AfterRound(s, r);
            && Waiting(t, id) && t.cfg == s.cfg && t.rows[id] == s.rows[id]
            && |Ahead(t.rows, id)| + s.cfg.batchSize <= |Ahead(s.rows, id)|
  {
    var s1 := Run(s, r.between);
    QuietRun(s, r.between, id);
    LockedNone(s1);
    DrainPassesOver(s1.cfg, s1.rows, s1.now, r.batch, r.results, id);
    DrainIsARun(s1, r);
    InvSteps(s1, DrainSteps(r));
    SubsetSize(Ahead(s1.rows, id), Ahead(s.rows, id));
  }

  lemma {:induction false} ClaimedInTime(s: State, rounds: seq<Round>, id: Id) returns (i: nat)
    requires Waiting(s, id) && RoundsLegal(s, rounds) && ArrivalsBehind(s, rounds, s.rows[id].nextAttemptAt)
    requires |Ahead(s.rows, id)| < |rounds| * s.cfg.batchSize
    ensures i < |rounds| && i * s.cfg.batchSize <= |Ahead(s.rows, id)| && id in rounds[i].batch
    decreases |rounds|
  {
    if id in rounds[0].batch {
      i := 0;
    } else {
      var t := AfterRound(s, rounds[0]);
      RestOfRounds(s, rounds, id);
      OneMore(|rounds| - 1, s.cfg.batchSize);
      i := ClaimedInTime(t, rounds[1..], id);
      OneMore(i, s.cfg.batchSize);
      i := i + 1;
    }
  }

  lemma RestOfRounds(s: State, rounds: seq<Round>, id: Id)
    requires rounds != [] && Waiting(s, id) && RoundsLegal(s, rounds)
    requires ArrivalsBehind(s, rounds, s.rows[id].nextAttemptAt) && id !in rounds[0].batch
    ensures RoundLegal(s, rounds[0])
    ensures var t := AfterRound(s, rounds[0]);
            && Waiting(t, id) && RoundsLegal(t, rounds[1..]) && ArrivalsBehind(t, rounds[1..], t.rows[id].nextAttemptAt)
            && t.cfg == s.cfg && |Ahead(t.rows, id)| + s.cfg.batchSize <= |Ahead(s.rows, id)|
  {
    PassedOver(s, rounds[0], id);
  }

  lemma QuotientBound(i: nat, k: nat, n: nat)
    requires n >= 1
    ensures i * n <= k <==> i <= k / n
  {
    var q := k / n;
    assert q * n <= k < (q + 1) * n by { OneMore(q, n); }
    if i <= q { MulMonotone(i, q, n); } else { MulMonotone(q + 1, i, n); }
  }

  /** From any state of the relays' runs with no drain open: with one relay that
      does not crash, a waiting row with k rows ahead of it is claimed within
      k / batchSize + 1 drains, whatever else is inserted after its due time,
      ticked or pruned. */
  lemma {:induction false} DueRowIsClaimed(s: State, rounds: seq<Round>, id: Id) returns (i: nat)
    requires Waiting(s, id) && RoundsLegal(s, rounds) && ArrivalsBehind(s, rounds, s.rows[id].nextAttemptAt)
    requires |Ahead(s.rows, id)| / s.cfg.batchSize < |rounds|
    ensures i <= |Ahead(s.rows, id)| / s.cfg.batchSize && id in rounds[i].batch
  {
    QuotientBound(|rounds|, |Ahead(s.rows, id)|, s.cfg.batchSize);
    i := ClaimedInTime(s, rounds, id);
    QuotientBound(i, |Ahead(s.rows, id)|, s.cfg.batchSize);
  }

  // ---- A row already overdue ----

  lemma {:induction false} ClockRuns(s: State, steps: seq<Step>)
    ensures Run(s, steps).now >= s.now
  {
    if steps == [] {
    } else {
      ClockRuns(s, steps[..|steps| - 1]);
    }
  }

  lemma {:induction false} OverdueArrivals(s: State, rounds: seq<Round>, due: nat)
    requires RoundsLegal(s, rounds) && due < s.now
    ensures ArrivalsBehind(s, rounds, due)
    decreases |rounds|
  {
    if rounds == [] {
    } else {
      forall i | 0 <= i < |rounds[0].between| ensures due < Run(s, rounds[0].between[..i]).now {
        ClockRuns(s, rounds[0].between[..i]);
      }
      ClockRuns(s, rounds[0].between);
      ClockRuns(Run(s, rounds[0].between), DrainSteps(rounds[0]));
      OverdueArrivals(AfterRound(s, rounds[0]), rounds[1..], due);
    }
  }

  /** One millisecond after a row became due, nothing more is needed: not of the
      backoff base, and not of what arrives. */
  lemma {:induction false} OverdueRowIsClaimed(cfg: Config, before: seq<Step>, rounds: seq<Round>, id: Id)
    returns (i: nat)
    requires ValidConfig(cfg)
    requires var s := Run(Init(cfg), before);
             && s.relays == map[] && id in s.rows && s.rows[id].status.PENDING? && s.rows[id].nextAttemptAt < s.now
             && RoundsLegal(s, rounds) && |Ahead(s.rows, id)| / cfg.batchSize < |rounds|
    ensures var s := Run(Init(cfg), before);
            i <= |Ahead(s.rows, id)| / cfg.batchSize && id in rounds[i].batch
  {
    var s := Run(Init(cfg), before);
    InvRun(cfg, before);
    ConfigFixed(cfg, before);
    OverdueArrivals(s, rounds, s.rows[id].nextAttemptAt);
    i := DueRowIsClaimed(s, rounds, id);
  }
}
