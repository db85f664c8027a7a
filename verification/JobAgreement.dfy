/** A completed key had its job added, as long as no retention pass deletes a key
    whose job id the queue still holds or is about to hold; and exactly then. */
module JobAgreement {
  import opened Common
  import opened CanonicalHash
  import opened Ingestion
  import opened IngestionAgreement

  // ---- Which retention passes are safe ----

  /** A pass deletes no key whose job id is held, and none a caller is about to
      add a job for. */
  ghost predicate JobsClear(s: State, keys: set<Key>) {
    && (forall k :: k in keys ==> k !in s.db.queue)
    && (forall p :: p in s.callers && s.callers[p].HasTicket? ==> s.callers[p].key !in keys)
  }

  ghost predicate PruneSafe(s: State, keys: set<Key>, tickets: set<TicketId>) {
    CallersClear(s, keys, tickets) && JobsClear(s, keys)
  }

  // ---- What is promised ----

  ghost predicate CompletedKeysHaveJobs(db: Db) {
    forall k :: k in db.keys && db.keys[k].status.COMPLETED? && db.keys[k].ticketId.Some? ==>
      JobAdded(k, db.keys[k].ticketId.value) in db.log
  }

  /** Every completion was marked after a job for its ticket had been added. */
  predicate JobsBeforeCompletion(log: seq<Entry>) {
    log == [] ||
    var front, last := log[..|log| - 1], log[|log| - 1];
    JobsBeforeCompletion(front) && (last.MarkedCompleted? ==> JobAdded(last.key, last.ticket) in front)
  }

  ghost predicate Kept(db: Db) {
    Promised(db) && CompletedKeysHaveJobs(db) && JobsBeforeCompletion(db.log)
  }

  // ---- Why it holds ----

  ghost predicate QueueAgrees(db: Db) {
    && (forall k :: k in db.queue ==>
          JobAdded(k, db.queue[k]) in db.log && k in db.keys && db.keys[k].ticketId == Some(db.queue[k]))
    && (forall k, t: TicketId :: JobAdded(k, t) in db.log ==> t < db.nextId)
  }

  ghost predicate CallerHasJob(db: Db, c: Caller) {
    match c
    case HasTicket(key, row, ticket) => Holds(db, key, row, ticket)
    case HasJob(key, _, ticket) => JobAdded(key, ticket) in db.log
    case _ => true
  }

  ghost predicate CallersHaveJobs(s: State) {
    forall p :: p in s.callers ==> CallerHasJob(s.db, s.callers[p])
  }

  ghost predicate DbHasJobs(db: Db) {
    CompletedKeysHaveJobs(db) && JobsBeforeCompletion(db.log) && QueueAgrees(db)
  }

  ghost predicate JobsAgreed(s: State) {
    Agreed(s) && DbHasJobs(s.db) && CallersHaveJobs(s)
  }

  lemma JobsBeforeAppend(log: seq<Entry>, e: Entry)
    ensures JobsBeforeCompletion(log + [e]) <==>
              (JobsBeforeCompletion(log) && (e.MarkedCompleted? ==> JobAdded(e.key, e.ticket) in log))
  {
    assert (log + [e])[..|log|] == log;
  }

  lemma JobsInsertKey(db: Db, key: Key, hash: Digest)
    requires DbHasJobs(db) && key !in db.keys
    ensures DbHasJobs(InsertKey(db, key, hash))
  {
    JobsBeforeAppend(db.log, Granted(db.nextId, db.now));
  }

  lemma JobsReclaimKey(db: Db, key: Key)
    requires DbHasJobs(db) && key in db.keys
    ensures DbHasJobs(ReclaimKey(db, key))
  {
    JobsBeforeAppend(db.log, Granted(db.keys[key].id, db.now));
  }

  lemma JobsCreateTicket(db: Db, key: Key, payload: Digest)
    requires DbHasJobs(db) && CompletedKeysStoreTheirTicket(db) && key in db.keys && db.keys[key].ticketId.None?
    ensures DbHasJobs(CreateTicket(db, key, payload))
  {
    JobsBeforeAppend(db.log, TicketCreated(db.keys[key].id, db.nextId + 1));
  }

  lemma JobsAddJob(db: Db, key: Key, row: RowId, ticket: TicketId)
    requires DbHasJobs(db) && Holds(db, key, row, ticket) && ticket < db.nextId
    ensures DbHasJobs(AddJob(db, key, ticket)) && JobAdded(key, ticket) in AddJob(db, key, ticket).log
  {
    var after := AddJob(db, key, ticket);
    if key !in db.queue {
      JobsBeforeAppend(db.log, JobAdded(key, ticket));
      assert forall e: Entry :: e in after.log <==> e in db.log || e == JobAdded(key, ticket);
      assert QueueAgrees(after);
    }
  }

  lemma JobsCompleteKey(db: Db, key: Key, ticket: TicketId)
    requires DbHasJobs(db) &&
               (key in db.keys ==> db.keys[key].ticketId == Some(ticket) && JobAdded(key, ticket) in db.log)
    ensures DbHasJobs(CompleteKey(db, key, ticket))
  {
    if key in db.keys { JobsBeforeAppend(db.log, MarkedCompleted(db.keys[key].id, key, ticket)); }
  }

  lemma JobsFailKey(db: Db, key: Key)
    requires DbHasJobs(db)
    ensures DbHasJobs(FailKey(db, key))
  {
    if key in db.keys { JobsBeforeAppend(db.log, MarkedFailed(db.keys[key].id)); }
  }

  lemma JobsAnswer(db: Db, row: RowId, answer: Option<TicketId>)
    requires DbHasJobs(db)
    ensures DbHasJobs(Answer(db, row, answer))
  {
    if answer.Some? { JobsBeforeAppend(db.log, Answered(row, answer.value)); }
  }

  lemma JobsNext(db: Db, c: Caller, ok: bool, enqueued: EnqueueResult)
    requires DbAgreed(db) && DbHasJobs(db) && CallerAgrees(db, c) && CallerHasJob(db, c)
    ensures DbHasJobs(NextDb(db, c, ok, enqueued))
  {
    match c
    case Reclaiming(key, _) => if key in db.keys { JobsReclaimKey(db, key); }
    case Owning(key, hash) =>
      if key in db.keys && db.keys[key].ticketId.None? { JobsCreateTicket(db, key, hash); }
    case HasTicket(key, row, ticket) => JobsAddJob(db, key, row, ticket);
    case HasJob(key, _, ticket) => if key !in db.keys || ticket in db.tickets { JobsCompleteKey(db, key, ticket); }
    case Replying(row, answer) => JobsAnswer(db, row, answer);
    case Erring(key) => JobsFailKey(db, key);
    case Losing(_, _) =>
    case Throwing =>
  }

  lemma JobsDb(s: State, step: Step)
    requires JobsAgreed(s) && StepMeets(s, step, PruneSafe)
    ensures DbHasJobs(StepDb(s, step))
  {
    match step
    case Insert(p, key, hash) => if key !in s.db.keys { JobsInsertKey(s.db, key, hash); }
    case Next(p, ok, enqueued) => if p in s.callers { JobsNext(s.db, s.callers[p], ok, enqueued); }
    case Tick(_) =>
    case Crash(_) =>
    case JobExpires(_) =>
    case Prune(_, _, _) =>
  }

  lemma NextHasJob(db: Db, c: Caller, ok: bool, enqueued: EnqueueResult)
    requires DbAgreed(db) && DbHasJobs(db) && CallerAgrees(db, c) && CallerHasJob(db, c)
    requires NextCaller(db, c, ok, enqueued).Some?
    ensures CallerHasJob(NextDb(db, c, ok, enqueued), NextCaller(db, c, ok, enqueued).value)
  {
    if c.HasTicket? { JobsAddJob(db, c.key, c.row, c.ticket); }
  }

  lemma StillHasJob(db: Db, after: Db, c: Caller)
    requires Keeps(db, after) && CallerHasJob(db, c)
    ensures CallerHasJob(after, c)
  {
  }

  lemma CallersKeepJobs(s: State, step: Step)
    requires JobsAgreed(s) && StepMeets(s, step, PruneSafe)
    ensures CallersHaveJobs(Apply(s, step))
  {
    if !step.Prune? {
      var t := Apply(s, step);
      StepKeeps(s, step);
      forall q | q in t.callers ensures CallerHasJob(t.db, t.callers[q]) {
        if q in s.callers {
          if step.Next? && step.p == q {
            NextHasJob(s.db, s.callers[q], step.ok, step.enqueued);
          } else {
            StillHasJob(s.db, t.db, s.callers[q]);
          }
        }
      }
    }
  }

  lemma JobsStep(s: State, step: Step)
    requires JobsAgreed(s) && StepMeets(s, step, PruneSafe)
    ensures JobsAgreed(Apply(s, step))
  {
    AgreedStep(s, step);
    JobsDb(s, step);
    CallersKeepJobs(s, step);
    assert Apply(s, step).db == StepDb(s, step);
  }

  lemma {:induction false} JobsRun(s: State, steps: seq<Step>)
    requires JobsAgreed(s) && RunMeets(s, steps, PruneSafe)
    ensures JobsAgreed(Run(s, steps))
  {
    if steps == [] {
    } else {
      JobsRun(s, steps[..|steps| - 1]);
      JobsStep(Run(s, steps[..|steps| - 1]), steps[|steps| - 1]);
    }
  }

  /** Over every safe run a completed key is fully wired up: its job was added
      before it was marked. */
  lemma {:induction false} CompletedMeansEnqueued(lease: nat, steps: seq<Step>)
    requires RunMeets(Init(lease), steps, PruneSafe)
    ensures Kept(Run(Init(lease), steps).db)
  {
    JobsRun(Init(lease), steps);
  }

  // ---- The condition is exact ----

  ghost predicate CompletedWithoutJob(db: Db, key: Key) {
    && key in db.keys && db.keys[key].status.COMPLETED? && db.keys[key].ticketId.Some?
    && JobAdded(key, db.keys[key].ticketId.value) !in db.log
  }

  lemma OwnerCompletesWithoutJob(s: State, q: Pid, k: Key)
    requires q in s.callers && s.callers[q] == Owning(k, Sha256(Null))
    requires k in s.db.keys && s.db.keys[k].ticketId.None? && k in s.db.queue
    requires forall t: TicketId :: JobAdded(k, t) in s.db.log ==> t < s.db.nextId
    ensures var n := Next(q, true, ADDED); CompletedWithoutJob(Apply(Apply(Apply(s, n), n), n).db, k)
  {
    var n, t := Next(q, true, ADDED), s.db.nextId + 1;
    var s1 := Apply(s, n);
    assert s1.db == CreateTicket(s.db, k, Sha256(Null)) && s1.callers[q] == HasTicket(k, s.db.keys[k].id, t);
    var s2 := Apply(s1, n);
    assert s2.callers[q] == HasJob(k, s.db.keys[k].id, t) && s2.db == s1.db;
    assert Apply(s2, n).db == CompleteKey(s1.db, k, t);
  }

  /** A job id still held for an older ticket swallows the new ticket's job, and
      the key is completed all the same. */
  lemma HeldJobSwallows(s: State, k: Key) returns (steps: seq<Step>)
    requires k !in s.db.keys && k in s.db.queue
    requires forall t: TicketId :: JobAdded(k, t) in s.db.log ==> t < s.db.nextId
    ensures NoPrunes(steps) && CompletedWithoutJob(Run(s, steps).db, k)
  {
    var q := FreshPid(s.callers.Keys);
    var i, n := Insert(q, k, Sha256(Null)), Next(q, true, ADDED);
    var s1 := Apply(s, i);
    assert s1.callers[q] == Owning(k, Sha256(Null));
    OwnerCompletesWithoutJob(s1, q, k);
    steps := [i] + [n] + [n] + [n];
    RunAppend(s, [], i);
    assert [] + [i] == [i];
    RunAppend(s, [i], n);
    RunAppend(s, [i] + [n], n);
    RunAppend(s, [i] + [n] + [n], n);
  }

  lemma HeldJobBreaks(s: State, k: Key)
    requires k !in s.db.keys && k in s.db.queue
    requires forall t: TicketId :: JobAdded(k, t) in s.db.log ==> t < s.db.nextId
    ensures CanBreak(s, Kept)
  {
    var steps := HeldJobSwallows(s, k);
    assert !CompletedKeysHaveJobs(Run(s, steps).db);
  }

  lemma UnclearJobsBreak(s: State, keys: set<Key>, tickets: set<TicketId>, events: set<EventId>)
    requires JobsAgreed(s) && Prunable(s.db, keys, tickets, events) && !JobsClear(s, keys)
    ensures CanBreak(Apply(s, Prune(keys, tickets, events)), Kept)
  {
    var after := Apply(s, Prune(keys, tickets, events));
    assert after == State(PruneRows(s.db, keys, tickets, events), s.callers);
    if k :| k in keys && k in s.db.queue {
      HeldJobBreaks(after, k);
    } else {
      var p :| p in s.callers && s.callers[p].HasTicket? && s.callers[p].key in keys;
      assert CallerAgrees(s.db, s.callers[p]);
      ComingJobBreaks(after, p);
    }
  }

  lemma ComingJobBreaks(s: State, p: Pid)
    requires p in s.callers && s.callers[p].HasTicket? && s.callers[p].key !in s.db.keys &&
               s.callers[p].ticket < s.db.nextId
    requires forall t: TicketId :: JobAdded(s.callers[p].key, t) in s.db.log ==> t < s.db.nextId
    ensures CanBreak(s, Kept)
  {
    var n := Next(p, true, ADDED);
    assert Apply(s, n).db == AddJob(s.db, s.callers[p].key, s.callers[p].ticket);
    HeldJobBreaks(Apply(s, n), s.callers[p].key);
    BreaksAfter(s, n, Kept);
  }

  lemma SafePassKeeps(s: State, keys: set<Key>, tickets: set<TicketId>, events: set<EventId>)
    requires JobsAgreed(s) && PruneSafe(s, keys, tickets)
    ensures !CanBreak(Apply(s, Prune(keys, tickets, events)), Kept)
  {
    var after := Apply(s, Prune(keys, tickets, events));
    JobsStep(s, Prune(keys, tickets, events));
    forall steps | NoPrunes(steps) ensures Kept(Run(after, steps).db) {
      NoPrunesMeets(after, steps, PruneSafe);
      JobsRun(after, steps);
    }
  }

  /** A retention pass keeps every promise, whatever follows, exactly when no
      caller and no held or coming job spans it. */
  lemma PruneSafeIff(s: State, keys: set<Key>, tickets: set<TicketId>, events: set<EventId>)
    requires Inv(s.db) && JobsAgreed(s) && Prunable(s.db, keys, tickets, events)
    ensures PruneSafe(s, keys, tickets) <==> !CanBreak(Apply(s, Prune(keys, tickets, events)), Kept)
  {
    if PruneSafe(s, keys, tickets) {
      SafePassKeeps(s, keys, tickets, events);
    } else if !JobsClear(s, keys) {
      UnclearJobsBreak(s, keys, tickets, events);
    } else {
      UnclearPassBreaks(s, keys, tickets, events);
      BreaksMore(Apply(s, Prune(keys, tickets, events)));
    }
  }

  lemma BreaksMore(s: State)
    requires CanBreak(s, Promised)
    ensures CanBreak(s, Kept)
  {
    var steps :| NoPrunes(steps) && !Promised(Run(s, steps).db);
    assert !Kept(Run(s, steps).db);
  }
}
