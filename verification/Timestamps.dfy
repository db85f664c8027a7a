/** The times retention goes by are the times things happened: a row that a step
    inserts or updates is stamped with that step's time, and a row keeps its
    stamp otherwise. */
module Timestamps {
  import opened Common
  import opened Engine
  import I = Ingestion
  import P = TicketPipeline
  import R = OutboxRelay
  import opened Retention

  ghost predicate KeysStamped(s: I.State, t: I.State) {
    forall k :: k in t.db.keys ==>
      t.db.keys[k].createdAt == if k in s.db.keys then s.db.keys[k].createdAt else s.db.now
  }

  ghost predicate EventsStamped(s: I.State, t: I.State) {
    forall e :: e in t.db.events ==>
      if e in s.db.events then t.db.events[e] == s.db.events[e] else t.db.events[e].receivedAt == s.db.now
  }

  /** Events keep their ids to themselves. */
  ghost predicate EventsOld(s: I.State) {
    forall e :: e in s.db.events ==> e < s.db.nextId
  }

  lemma IngestStamps(s: I.State, step: I.Step)
    requires EventsOld(s)
    ensures KeysStamped(s, I.Apply(s, step)) && EventsStamped(s, I.Apply(s, step)) && EventsOld(I.Apply(s, step))
  {
    KeyStamps(s, step);
    EventStamps(s, step);
  }

  lemma KeyStamps(s: I.State, step: I.Step)
    ensures KeysStamped(s, I.Apply(s, step))
  {
  }

  lemma EventStamps(s: I.State, step: I.Step)
    requires EventsOld(s)
    ensures EventsStamped(s, I.Apply(s, step)) && EventsOld(I.Apply(s, step))
  {
  }

  /** A ticket is stamped when it is created and whenever a write lands on it. */
  ghost predicate TicketsStamped(s: P.State, t: P.State, now: nat) {
    forall id :: Touched(s, t, id) ==> t.tickets[id].updatedAt == now
  }

  /** The ticket is new or was written. */
  predicate Touched(s: P.State, t: P.State, id: TicketId) {
    id in t.tickets && !(id in s.tickets && t.tickets[id] == s.tickets[id])
  }

  lemma PipeStamps(s: P.State, step: P.Step, now: nat)
    requires (step.Create? ==> step.now == now) && (step.Commit? ==> step.now == now)
    ensures TicketsStamped(s, P.Apply(s, step), now)
  {
  }

  /** A notification is stamped, and due, when it is inserted. */
  ghost predicate RowsStamped(s: R.State, t: R.State) {
    forall id :: id in t.rows ==>
      if id in s.rows then t.rows[id].createdAt == s.rows[id].createdAt
      else t.rows[id] == R.Row(R.PENDING, 0, s.now, s.now)
  }

  lemma RelayStamps(s: R.State, step: R.Step)
    requires R.Inv(s)
    ensures RowsStamped(s, R.Apply(s, step))
  {
    if step.Commit? && R.CanCommit(s, step.p) {
      var tx := s.relays[step.p];
      var t := R.Apply(s, step);
      forall id | id in s.rows ensures id in t.rows && t.rows[id].createdAt == s.rows[id].createdAt {
        R.CommittedRow(s, step.p, id);
      }
      R.DrainedAt(s.cfg, s.rows, tx.now, tx.claimed, tx.results);
    }
  }

  ghost predicate Stamped(e: State, after: State) {
    && KeysStamped(e.ing, after.ing) && EventsStamped(e.ing, after.ing)
    && TicketsStamped(e.pipe, after.pipe, e.ing.db.now) && RowsStamped(e.relay, after.relay)
  }

  /** Every step of the engine stamps what it inserts or updates with its time and
      keeps every other stamp. */
  lemma StepStamps(e: State, step: Step)
    requires Inv(e) && EventsOld(e.ing)
    ensures Stamped(e, Apply(e, step)) && EventsOld(Apply(e, step).ing)
  {
    match step
    case Tick(ms) =>
      IngestStamps(e.ing, I.Tick(ms));
    case Ingest(s) =>
      if !s.Tick? && !s.Prune? {
        IngestStamps(e.ing, s);
        PipeStamps(e.pipe, P.Create(e.ing.db.nextId + 1, e.ing.db.now), e.ing.db.now);
      }
    case Work(a) =>
      if Works(e, a) {
        PipeStamps(e.pipe, a, e.ing.db.now);
        if Inserted(e.pipe, a).Some? { RelayStamps(e.relay, R.Insert(Inserted(e.pipe, a).value)); }
      }
    case Relay(m) => if Relays(m) { RelayStamps(e.relay, m); }
    case Sweep(cutoff) =>
      var d := DeletedBy(e, cutoff);
      IngestStamps(e.ing, I.Prune(d.keys, d.tickets, d.events));
      PipeStamps(e.pipe, P.Prune(d.effects, d.tickets), e.ing.db.now);
      RelayStamps(e.relay, R.Prune(d.effects));
  }

  // ---- Over whole runs ----

  /** What came after a moment is stamped no earlier. */
  ghost predicate NewRowsYoung(e: State, t: State) {
    && (forall k :: k in t.ing.db.keys && k !in e.ing.db.keys ==> t.ing.db.keys[k].createdAt >= e.ing.db.now)
    && (forall v :: v in t.ing.db.events && v !in e.ing.db.events ==> t.ing.db.events[v].receivedAt >= e.ing.db.now)
    && (forall id :: Touched(e.pipe, t.pipe, id) ==> t.pipe.tickets[id].updatedAt >= e.ing.db.now)
    && (forall id :: id in t.relay.rows && id !in e.relay.rows ==> t.relay.rows[id].createdAt >= e.ing.db.now)
  }

  lemma StillYoung(e: State, t: State, u: State)
    requires NewRowsYoung(e, t) && Stamped(t, u) && e.ing.db.now <= t.ing.db.now == t.relay.now
    ensures NewRowsYoung(e, u)
  {
  }

  lemma ClockStep(e: State, step: Step)
    ensures Apply(e, step).ing.db.now >= e.ing.db.now
  {
  }

  lemma {:induction false} YoungRun(e: State, steps: seq<Step>)
    requires Inv(e) && EventsOld(e.ing) && SafeRun(e, steps)
    ensures var t := Run(e, steps); NewRowsYoung(e, t) && EventsOld(t.ing) && e.ing.db.now <= t.ing.db.now
  {
    if steps == [] {
    } else {
      var front, last := steps[..|steps| - 1], steps[|steps| - 1];
      YoungRun(e, front);
      InvRun(e, front);
      StepStamps(Run(e, front), last);
      ClockStep(Run(e, front), last);
      StillYoung(e, Run(e, front), Apply(Run(e, front), last));
    }
  }

  /** The rows that are new since e stay. */
  ghost predicate Spared(e: State, t: State, d: Deleted) {
    && (forall k :: k in t.ing.db.keys && k !in e.ing.db.keys ==> k !in d.keys)
    && (forall v :: v in t.ing.db.events && v !in e.ing.db.events ==> v !in d.events)
    && (forall id :: Touched(e.pipe, t.pipe, id) ==> id !in d.tickets)
    && (forall id :: id in t.relay.rows && id !in e.relay.rows ==> id !in d.effects)
  }

  lemma YoungSurvive(e: State, t: State, cutoff: int)
    requires Linked(t) && NewRowsYoung(e, t) && cutoff <= e.ing.db.now
    ensures var d := DeletedBy(t, cutoff);
            Spared(e, t, d)
  {
    NothingYoungGoes(TablesOf(t), cutoff);
    assert TablesOf(t).tickets.Keys == t.pipe.tickets.Keys;
  }

  /** In every safe run: a key, event or notification inserted after some moment,
      and a ticket created or written after it, is not deleted by a sweep whose
      cutoff lies at or before that moment. */
  lemma {:induction false} SweepsSpareTheYoung(lease: nat, cfg: R.Config, steps: seq<Step>, more: seq<Step>,
                                               cutoff: int)
    requires R.ValidConfig(cfg) && SafeRun(Init(lease, cfg), steps)
    requires SafeRun(Run(Init(lease, cfg), steps), more) && cutoff <= Run(Init(lease, cfg), steps).ing.db.now
    ensures var e := Run(Init(lease, cfg), steps); var t := Run(e, more); var d := DeletedBy(t, cutoff);
            Spared(e, t, d)
  {
    var init := Init(lease, cfg);
    InitInv(lease, cfg);
    InvRun(init, steps);
    YoungRun(init, steps);
    var e := Run(init, steps);
    YoungRun(e, more);
    InvRun(e, more);
    YoungSurvive(e, Run(e, more), cutoff);
  }
}
