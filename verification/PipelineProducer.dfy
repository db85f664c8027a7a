/** The queue's producer (src/pipeline/pipeline.producer.ts) and the sweep that
    re-drives degraded tickets (src/pipeline/reconcile.sweeper.ts). */
module PipelineProducer {
  import opened Common
  import opened JobIds

  datatype JobData = JobData(key: Key, ticket: TicketId, event: EventId, replayOf: Option<string>,
      upgradeAttempt: Option<nat>)

  datatype JobState = LIVE | COMPLETED | FAILED

  datatype Job = Job(data: JobData, state: JobState)

  /** The jobs the queue still holds, by id. */
  type Jobs = map<string, Job>

  /** How an enqueue to reconcile may go wrong. */
  datatype Fault = NONE | THROWS_AT_ONCE | THROWS_BEFORE_ADD | THROWS_AFTER_ADD

  /** queue.add: an id still held suppresses the add. */
  function Added(jobs: Jobs, id: string, data: JobData): Jobs {
    if id in jobs then jobs else jobs[id := Job(data, LIVE)]
  }

  function WithoutFailed(jobs: Jobs, id: string): Jobs {
    if id in jobs && jobs[id].state.FAILED? then jobs - {id} else jobs
  }

  function Reconciled(jobs: Jobs, data: JobData, fault: Fault): Jobs {
    var id := Render(Reconcile(data.key));
    match fault
    case THROWS_AT_ONCE => jobs
    case THROWS_BEFORE_ADD => WithoutFailed(jobs, id)
    case NONE => Added(WithoutFailed(jobs, id), id, data)
    case THROWS_AFTER_ADD => Added(WithoutFailed(jobs, id), id, data)
  }

  /** Adds of different jobs never suppress each other: an add under one issued
      id leaves every other issued id as it was. */
  lemma AddsAreIndependent(jobs: Jobs, a: JobId, b: JobId, data: JobData)
    requires Issued(a) && Issued(b) && a != b
    ensures Render(b) in Added(jobs, Render(a), data) <==> Render(b) in jobs
    ensures Render(b) in jobs ==> Added(jobs, Render(a), data)[Render(b)] == jobs[Render(b)]
  {
    JobIdsInjective(a, b);
  }

  /** After a reconcile that does not throw, a job that has not failed holds the
      ticket's reconcile id, whatever was there before. */
  lemma ReconcileRevives(jobs: Jobs, data: JobData)
    ensures var id := Render(Reconcile(data.key)); var after := Reconciled(jobs, data, NONE);
            id in after && !after[id].state.FAILED?
            && (id in jobs && !jobs[id].state.FAILED? ==> after == jobs)
            && (id in jobs && jobs[id].state.FAILED? ==> after == jobs[id := Job(data, LIVE)])
  {
  }

  /** The report of a reconcile that does not throw, that no job was held, says
      whether it added one exactly when no failed job was held. */
  lemma ReportIsRightIff(jobs: Jobs, data: JobData)
    ensures var id := Render(Reconcile(data.key));
            (id !in jobs <==> Reconciled(jobs, data, NONE) != jobs) <==> !(id in jobs && jobs[id].state.FAILED?)
  {
    ReconcileRevives(jobs, data);
  }

  // ---- How long a finished reconcile job is kept ----

  function ReconcileJobTtlSeconds(sweepIntervalMs: nat): nat {
    var half := sweepIntervalMs / 1000 / 2;
    if half > 5 then half else 5
  }

  /** Half the interval in whole seconds, and never less than five. */
  lemma TtlIsHalfTheInterval(sweepIntervalMs: nat)
    ensures var ttl := ReconcileJobTtlSeconds(sweepIntervalMs);
            && ttl >= 5 && 2000 * ttl >= sweepIntervalMs - 1999
            && (ttl > 5 ==> 2000 * ttl <= sweepIntervalMs)
  {
  }

  /** The retention is meant to be shorter than the sweep interval, so that a
      ticket still degraded is eligible again by the next pass. It is, exactly
      for intervals above five seconds. */
  lemma TtlBelowIntervalIff(sweepIntervalMs: nat)
    ensures ReconcileJobTtlSeconds(sweepIntervalMs) * 1000 < sweepIntervalMs <==> sweepIntervalMs > 5000
  {
  }

  predicate Reached(fault: Fault) { fault.NONE? || fault.THROWS_AFTER_ADD? }

  /** An id already held keeps its job; otherwise a live job with this data is
      added under it, and nothing else changes. */
  predicate HoldsOrAdded(before: Jobs, after: Jobs, id: string, data: JobData) {
    if id in before then after == before else after == before[id := Job(data, LIVE)]
  }

  class Producer {
    var jobs: Jobs

    constructor ()
      ensures jobs == map[]
    {
      jobs := map[];
    }

    method Add(id: JobId, data: JobData) returns (jobId: string)
      modifies this
      ensures jobId == Render(id) && jobs == Added(old(jobs), jobId, data)
    {
      jobId := Render(id);
      if jobId !in jobs { jobs := jobs[jobId := Job(data, LIVE)]; }
    }

    method Enqueue(data: JobData) returns (jobId: string)
      modifies this
      ensures jobId == data.key && jobs == Added(old(jobs), jobId, data)
      ensures HoldsOrAdded(old(jobs), jobs, jobId, data)
    {
      jobId := Add(Ingest(data.key), data);
    }

    method EnqueueReplay(data: JobData, deadLetter: string) returns (jobId: string)
      modifies this
      ensures jobId == Render(Replay(data.key, deadLetter)) &&
                jobs == Added(old(jobs), jobId, data.(replayOf := Some(deadLetter)))
      ensures HoldsOrAdded(old(jobs), jobs, jobId,
                           JobData(data.key, data.ticket, data.event, Some(deadLetter), data.upgradeAttempt))
    {
      jobId := Add(Replay(data.key, deadLetter), data.(replayOf := Some(deadLetter)));
    }

    method EnqueueUpgrade(data: JobData) returns (jobId: string)
      modifies this
      ensures jobId == Render(Upgrade(data.key, if data.upgradeAttempt.Some? then data.upgradeAttempt.value else 1))
      ensures jobs == Added(old(jobs), jobId, data)
      ensures HoldsOrAdded(old(jobs), jobs, jobId, data)
    {
      var attempt := if data.upgradeAttempt.Some? then data.upgradeAttempt.value else 1;
      jobId := Add(Upgrade(data.key, attempt), data);
    }

    /** True only for a job added where none was held; a job put in the place of
        a failed one reports false. None stands for a throw, which an add that
        reached the queue can also end in. */
    method EnqueueReconcile(data: JobData, fault: Fault) returns (added: Option<bool>)
      modifies this
      ensures jobs == Reconciled(old(jobs), data, fault)
      ensures fault.THROWS_AT_ONCE? ==> jobs == old(jobs)
      ensures var id := Render(Reconcile(data.key)); var failed := id in old(jobs) && old(jobs)[id].state.FAILED?;
              && (fault.THROWS_BEFORE_ADD? ==> jobs == if failed then old(jobs) - {id} else old(jobs))
              && (Reached(fault) ==>
                    jobs == if id in old(jobs) && !failed then old(jobs) else old(jobs)[id := Job(data, LIVE)])
      ensures added == if fault.NONE? then Some(Render(Reconcile(data.key)) !in old(jobs)) else None
    {
      if fault.THROWS_AT_ONCE? { return None; }
      var jobId := Render(Reconcile(data.key));
      var existing := jobId in jobs;
      if existing && jobs[jobId].state.FAILED? { jobs := jobs - {jobId}; }
      if fault.THROWS_BEFORE_ADD? { return None; }
      var _ := Add(Reconcile(data.key), data);
      added := if fault.THROWS_AFTER_ADD? then None else Some(!existing);
    }
  }

  // ---- The reconcile sweep ----

  datatype StrandedRow = StrandedRow(ticket: TicketId, event: EventId, key: Key, updatedAt: nat)

  function ReconcileData(row: StrandedRow): JobData {
    JobData(row.key, row.ticket, row.event, None, None)
  }

  /** The job is the row's: its key, its ticket and its event, a fresh upgrade
      chain and no replay. */
  predicate JobOf(row: StrandedRow, job: Job) {
    && job.data.key == row.key && job.data.ticket == row.ticket && job.data.event == row.event
    && job.data.replayOf.None? && job.data.upgradeAttempt.None? && job.state.LIVE?
  }

  /** Every job that was not there before, in this state, is one of the rows'. */
  ghost predicate NewJobsAreRows(before: Jobs, after: Jobs, rows: seq<StrandedRow>) {
    forall id :: id in after && !(id in before && before[id] == after[id]) ==>
      exists i :: 0 <= i < |rows| && id == Render(Reconcile(rows[i].key)) && JobOf(rows[i], after[id])
  }

  lemma NewJobsGrow(before: Jobs, mid: Jobs, after: Jobs, rows: seq<StrandedRow>, n: nat, fault: Fault)
    requires n < |rows| && NewJobsAreRows(before, mid, rows) && after == Reconciled(mid, ReconcileData(rows[n]), fault)
    ensures NewJobsAreRows(before, after, rows)
  {
    forall id | id in after && !(id in before && before[id] == after[id])
      ensures exists i :: 0 <= i < |rows| && id == Render(Reconcile(rows[i].key)) && JobOf(rows[i], after[id])
    {
      if id in mid && mid[id] == after[id] {
        var i :| 0 <= i < |rows| && id == Render(Reconcile(rows[i].key)) && JobOf(rows[i], mid[id]);
      } else {
        assert JobOf(rows[n], after[id]);
      }
    }
  }

  class ReconcileSweeper {
    const producer: Producer
    var stopped: bool
    var running: bool

    constructor (producer: Producer)
      ensures this.producer == producer && !stopped && !running
    {
      this.producer := producer;
      stopped, running := false, false;
    }

    /** One pass over the query's rows; faults says how each enqueue goes. A row
        that throws does not stop the others: every row whose add is reached ends
        with a job that has not failed under its reconcile id. Jobs that had not
        failed stay. The count is the number of ids added, unless a throw lost a
        failed job or hid an add; with hidden adds alone it is never above it. */
    method Sweep(rows: seq<StrandedRow>, faults: seq<Fault>) returns (redriven: nat)
      requires |faults| == |rows|
      modifies this`running, producer
      ensures running == old(running)
      ensures old(stopped) || old(running) ==> redriven == 0 && producer.jobs == old(producer.jobs)
      ensures !(old(stopped) || old(running)) ==>
                forall i :: 0 <= i < |rows| && Reached(faults[i]) ==> Revived(producer.jobs, rows[i].key)
      ensures OnlyRowsAdded(old(producer.jobs), producer.jobs, rows)
      ensures redriven <= |rows|
      ensures (forall i :: 0 <= i < |rows| ==> !faults[i].THROWS_BEFORE_ADD?) ==>
                |producer.jobs| >= |old(producer.jobs)| + redriven
      ensures (forall i :: 0 <= i < |rows| ==> faults[i].NONE? || faults[i].THROWS_AT_ONCE?) ==>
                |producer.jobs| == |old(producer.jobs)| + redriven
    {
      if stopped || running { return 0; }
      running := true;
      redriven := 0;
      var n := 0;
      while n < |rows|
        invariant n <= |rows| && running
        invariant SweptSoFar(old(producer.jobs), producer.jobs, rows, faults, n, redriven)
      {
        SweptOneMore(old(producer.jobs), producer.jobs, rows, faults, n, redriven);
        var enqueued := producer.EnqueueReconcile(ReconcileData(rows[n]), faults[n]);
        if enqueued.Some? && enqueued.value { redriven := redriven + 1; }
        n := n + 1;
      }
      running := false;
    }
  }

  /** A job that has not failed holds the ticket's reconcile id. */
  predicate Revived(jobs: Jobs, key: Key) {
    var id := Render(Reconcile(key)); id in jobs && !jobs[id].state.FAILED?
  }

  ghost predicate LiveJobsStay(before: Jobs, after: Jobs) {
    forall id :: id in before && !before[id].state.FAILED? ==> id in after && after[id] == before[id]
  }

  /** Jobs that had not failed stay, and every new one is a row's. */
  ghost predicate OnlyRowsAdded(before: Jobs, after: Jobs, rows: seq<StrandedRow>) {
    LiveJobsStay(before, after) && NewJobsAreRows(before, after, rows)
  }

  lemma OneRowMore(before: Jobs, mid: Jobs, after: Jobs, rows: seq<StrandedRow>, n: nat, fault: Fault)
    requires n < |rows| && OnlyRowsAdded(before, mid, rows) && after == Reconciled(mid, ReconcileData(rows[n]), fault)
    ensures OnlyRowsAdded(before, after, rows)
  {
    NewJobsGrow(before, mid, after, rows, n, fault);
    ReconcileKeeps(mid, ReconcileData(rows[n]), fault);
  }

  /** What a pass has done after n of its rows. */
  ghost predicate SweptSoFar(before: Jobs, after: Jobs, rows: seq<StrandedRow>, faults: seq<Fault>, n: nat,
                             redriven: nat)
    requires n <= |rows| == |faults|
  {
    && redriven <= n && OnlyRowsAdded(before, after, rows)
    && (forall i :: 0 <= i < n && Reached(faults[i]) ==> Revived(after, rows[i].key))
    && ((forall i :: 0 <= i < |rows| ==> !faults[i].THROWS_BEFORE_ADD?) ==> |after| >= |before| + redriven)
    && ((forall i :: 0 <= i < |rows| ==> faults[i].NONE? || faults[i].THROWS_AT_ONCE?) ==>
          |after| == |before| + redriven)
  }

  lemma SweptOneMore(before: Jobs, mid: Jobs, rows: seq<StrandedRow>, faults: seq<Fault>, n: nat, redriven: nat)
    requires n < |rows| == |faults| && SweptSoFar(before, mid, rows, faults, n, redriven)
    ensures var adds := faults[n].NONE? && Render(Reconcile(rows[n].key)) !in mid;
            SweptSoFar(before, Reconciled(mid, ReconcileData(rows[n]), faults[n]), rows, faults, n + 1,
                       redriven + if adds then 1 else 0)
  {
    ReconcileCount(mid, ReconcileData(rows[n]));
    ReconcileKeeps(mid, ReconcileData(rows[n]), faults[n]);
    OneRowMore(before, mid, Reconciled(mid, ReconcileData(rows[n]), faults[n]), rows, n, faults[n]);
  }

  lemma ReconcileKeeps(jobs: Jobs, data: JobData, fault: Fault)
    ensures LiveJobsStay(jobs, Reconciled(jobs, data, fault))
    ensures Reached(fault) ==> Revived(Reconciled(jobs, data, fault), data.key)
    ensures forall key :: Revived(jobs, key) ==> Revived(Reconciled(jobs, data, fault), key)
  {
    ReconcileRevives(jobs, data);
  }

  lemma ReconcileCount(jobs: Jobs, data: JobData)
    ensures |Reconciled(jobs, data, NONE)| == |jobs| + if Render(Reconcile(data.key)) in jobs then 0 else 1
  {
    ReconcileRevives(jobs, data);
  }
}
