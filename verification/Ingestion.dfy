/** Ingestion under interference: any number of callers run the claim, create,
    enqueue and mark statements of src/idempotency/idempotency.service.ts and
    src/events/events.service.ts interleaved, and may crash between any two.
    Each step is one statement or transaction; a step that is not enabled
    changes nothing, so every sequence of steps is a run. */
module Ingestion {
  import opened Common
  import opened CanonicalHash
  import L = IdempotencyLedger

  /** payload stands for the stored submission, by its hash. */
  datatype EventRow = EventRow(key: Key, payload: Digest, receivedAt: nat)

  /** What happened, in commit order. */
  datatype Entry =
    | Granted(row: RowId, at: nat)
    | TicketCreated(row: RowId, ticket: TicketId)
    | JobAdded(key: Key, ticket: TicketId)
    | MarkedCompleted(row: RowId, key: Key, ticket: TicketId)
    | MarkedFailed(row: RowId)
    | Answered(row: RowId, ticket: TicketId)            // a response that names a ticket

  /** The shared tables, the queue and the history. */
  datatype Db = Db(
    now: nat,
    lease: nat,
    nextId: nat,                        // gen_random_uuid never repeats
    keys: L.Ledger,
    events: map<EventId, EventRow>,
    tickets: map<TicketId, EventId>,
    queue: map<Key, TicketId>,          // jobs still held under an id equal to their key
    log: seq<Entry>)

  /** Where a caller is, between two statements. */
  datatype Caller =
    | Losing(key: Key, hash: Digest)                    // the INSERT lost
    | Reclaiming(key: Key, seen: L.KeyRow)              // read a live row with the same payload
    | Owning(key: Key, hash: Digest)                    // granted NEW
    | HasTicket(key: Key, row: RowId, ticket: TicketId)
    | HasJob(key: Key, row: RowId, ticket: TicketId)
    | Replying(row: RowId, answer: Option<TicketId>)    // done; the response is not sent yet
    | Erring(key: Key)                                  // about to mark the key failed
    | Throwing                                          // about to answer with an error

  datatype State = State(db: Db, callers: map<Pid, Caller>)

  datatype EnqueueResult = ADDED | THREW_BEFORE | THREW_AFTER

  datatype Step =
    | Tick(ms: nat)
    | Insert(p: Pid, key: Key, hash: Digest)
    | Next(p: Pid, ok: bool, enqueued: EnqueueResult)   // the caller's next statement
    | Crash(p: Pid)
    | JobExpires(key: Key)
    | Prune(keys: set<Key>, tickets: set<TicketId>, events: set<EventId>)

  function Init(lease: nat): State {
    State(Db(0, lease, 0, map[], map[], map[], map[], []), map[])
  }

  // ---- Statements on the tables ----

  function InsertKey(db: Db, key: Key, hash: Digest): Db {
    db.(nextId := db.nextId + 1,
        keys := db.keys[key := L.NewRow(db.nextId, hash, db.now)],
        log := db.log + [Granted(db.nextId, db.now)])
  }

  function ReclaimKey(db: Db, key: Key): Db
    requires key in db.keys
  {
    db.(keys := db.keys[key := L.Relock(db.keys[key], db.now)],
        log := db.log + [Granted(db.keys[key].id, db.now)])
  }

  /** The transaction of createTicketIfAbsent, when the row has no ticket. */
  function CreateTicket(db: Db, key: Key, payload: Digest): Db
    requires key in db.keys
  {
    var event, ticket := db.nextId, db.nextId + 1;
    db.(nextId := db.nextId + 2,
        keys := L.AttachTicket(db.keys, key, ticket),
        events := db.events[event := EventRow(key, payload, db.now)],
        tickets := db.tickets[ticket := event],
        log := db.log + [TicketCreated(db.keys[key].id, ticket)])
  }

  /** An add under an id the queue still holds is suppressed. */
  function AddJob(db: Db, key: Key, ticket: TicketId): Db {
    if key in db.queue then db
    else db.(queue := db.queue[key := ticket], log := db.log + [JobAdded(key, ticket)])
  }

  function CompleteKey(db: Db, key: Key, ticket: TicketId): Db {
    if key !in db.keys then db
    else db.(keys := L.MarkCompleted(db.keys, key, ticket, L.Response(ticket, key)),
             log := db.log + [MarkedCompleted(db.keys[key].id, key, ticket)])
  }

  function FailKey(db: Db, key: Key): Db {
    if key !in db.keys then db
    else db.(keys := L.MarkFailed(db.keys, key), log := db.log + [MarkedFailed(db.keys[key].id)])
  }

  function Answer(db: Db, row: RowId, answer: Option<TicketId>): Db {
    if answer.None? then db else db.(log := db.log + [Answered(row, answer.value)])
  }

  /** A retention pass deletes settled keys, tickets no key names and events no
      ticket names. */
  predicate Prunable(db: Db, keys: set<Key>, tickets: set<TicketId>, events: set<EventId>) {
    && (forall k :: k in keys ==> k in db.keys && db.keys[k].status.COMPLETED?)
    && (forall k :: k in db.keys && k !in keys && db.keys[k].ticketId.Some? ==> db.keys[k].ticketId.value !in tickets)
    && (forall t :: t in db.tickets && t !in tickets ==> db.tickets[t] !in events)
  }

  function PruneRows(db: Db, keys: set<Key>, tickets: set<TicketId>, events: set<EventId>): Db {
    db.(keys := db.keys - keys, tickets := db.tickets - tickets, events := db.events - events)
  }

  // ---- Steps of a caller ----

  function ReplayedTicket(row: L.KeyRow): Option<TicketId> {
    if row.ticketId.Some? then row.ticketId
    else if row.response.Some? then Some(row.response.value.ticketId) else None
  }

  /** The statement a caller runs next: its effect on the tables. */
  function NextDb(db: Db, c: Caller, ok: bool, enqueued: EnqueueResult): Db {
    match c
    case Losing(_, _) => db
    case Reclaiming(key, _) =>
      if key in db.keys && L.Reclaimable(db.keys[key], db.now, db.lease) then ReclaimKey(db, key) else db
    case Owning(key, hash) =>
      if ok && key in db.keys && db.keys[key].ticketId.None? then CreateTicket(db, key, hash) else db
    case HasTicket(key, _, ticket) => if enqueued.THREW_BEFORE? then db else AddJob(db, key, ticket)
    case HasJob(key, _, ticket) =>
      if key in db.keys && ticket !in db.tickets then db         // the foreign key rejects the UPDATE
      else CompleteKey(db, key, ticket)
    case Replying(row, answer) => Answer(db, row, answer)
    case Erring(key) => FailKey(db, key)
    case Throwing => db
  }

  /** ... and where it is afterwards; None when it has returned. */
  function NextCaller(db: Db, c: Caller, ok: bool, enqueued: EnqueueResult): Option<Caller> {
    match c
    case Losing(key, hash) =>
      if key !in db.keys then Some(Throwing)
      else if db.keys[key].requestHash != hash then Some(Throwing)      // 409
      else if db.keys[key].status.COMPLETED? then Some(Replying(db.keys[key].id, ReplayedTicket(db.keys[key])))
      else Some(Reclaiming(key, db.keys[key]))
    case Reclaiming(key, seen) =>
      if key in db.keys && L.Reclaimable(db.keys[key], db.now, db.lease)
      then Some(Owning(key, seen.requestHash))
      else Some(Replying(seen.id, seen.ticketId))
    case Owning(key, _) =>
      if !ok || key !in db.keys then Some(Erring(key))                  // rolled back, or the row vanished
      else if db.keys[key].ticketId.None? then Some(HasTicket(key, db.keys[key].id, db.nextId + 1))
      else if db.keys[key].ticketId.value !in db.tickets then Some(Erring(key))
      else Some(HasTicket(key, db.keys[key].id, db.keys[key].ticketId.value))
    case HasTicket(key, row, ticket) => if enqueued.ADDED? then Some(HasJob(key, row, ticket)) else Some(Erring(key))
    case HasJob(key, row, ticket) =>
      if key in db.keys && ticket !in db.tickets then Some(Throwing) else Some(Replying(row, Some(ticket)))
    case Replying(_, _) => None
    case Erring(_) => Some(Throwing)
    case Throwing => None
  }

  function StepDb(s: State, step: Step): Db {
    match step
    case Tick(ms) => s.db.(now := s.db.now + ms)
    case Insert(p, key, hash) => if p !in s.callers && key !in s.db.keys then InsertKey(s.db, key, hash) else s.db
    case Next(p, ok, enqueued) => if p in s.callers then NextDb(s.db, s.callers[p], ok, enqueued) else s.db
    case Crash(_) => s.db
    case JobExpires(key) => s.db.(queue := s.db.queue - {key})
    case Prune(keys, tickets, events) =>
      if Prunable(s.db, keys, tickets, events) then PruneRows(s.db, keys, tickets, events) else s.db
  }

  function StepCallers(s: State, step: Step): map<Pid, Caller> {
    match step
    case Insert(p, key, hash) =>
      if p in s.callers then s.callers
      else s.callers[p := if key in s.db.keys then Losing(key, hash) else Owning(key, hash)]
    case Next(p, ok, enqueued) =>
      if p !in s.callers then s.callers
      else
        var c := NextCaller(s.db, s.callers[p], ok, enqueued);
        if c.Some? then s.callers[p := c.value] else s.callers - {p}
    case Crash(p) => s.callers - {p}
    case _ => s.callers
  }

  function Apply(s: State, step: Step): State {
    State(StepDb(s, step), StepCallers(s, step))
  }

  function Run(s: State, steps: seq<Step>): State {
    if steps == [] then s else Apply(Run(s, steps[..|steps| - 1]), steps[|steps| - 1])
  }

  // ---- What holds in every run ----

  ghost predicate IdsUnique(db: Db) {
    && (forall k :: k in db.keys ==> db.keys[k].id < db.nextId)
    && (forall k, k' :: k in db.keys && k' in db.keys && k != k' ==> db.keys[k].id != db.keys[k'].id)
    && (forall t :: t in db.tickets ==> t < db.nextId)
  }

  /** No ledger row and no ticket occurs in two creations. */
  predicate CreatedOnce(log: seq<Entry>) {
    log == [] ||
    var front, last := log[..|log| - 1], log[|log| - 1];
    CreatedOnce(front) &&
    (last.TicketCreated? ==> forall e :: e in front && e.TicketCreated? ==>
        e.row != last.row && e.ticket != last.ticket)
  }

  ghost predicate CreatedMeansAttached(db: Db) {
    && (forall r: RowId, t: TicketId :: TicketCreated(r, t) in db.log ==> r < db.nextId && t < db.nextId)
    && (forall k, t: TicketId :: k in db.keys && TicketCreated(db.keys[k].id, t) in db.log ==>
        db.keys[k].ticketId.Some?)
  }

  ghost predicate ReferencesIntact(db: Db) {
    && (forall k :: k in db.keys && db.keys[k].ticketId.Some? ==> db.keys[k].ticketId.value in db.tickets)
    && (forall t :: t in db.tickets ==> db.tickets[t] in db.events)
    && (forall k :: k in db.keys && db.keys[k].status.COMPLETED? ==> db.keys[k].ticketId.Some?)
  }

  predicate IsMark(e: Entry, row: RowId) {
    (e.Granted? || e.MarkedCompleted? || e.MarkedFailed?) && e.row == row
  }

  /** The latest grant, completion or failure of a ledger row. */
  function LastMark(log: seq<Entry>, row: RowId): Option<Entry> {
    if log == [] then None
    else if IsMark(log[|log| - 1], row) then Some(log[|log| - 1])
    else LastMark(log[..|log| - 1], row)
  }

  predicate MarkFitsRow(mark: Option<Entry>, row: L.KeyRow) {
    match row.status
    case PENDING => row.lockedAt.Some? && mark == Some(Granted(row.id, row.lockedAt.value))
    case FAILED => row.lockedAt.None? && mark == Some(MarkedFailed(row.id))
    case COMPLETED => row.lockedAt.None? && mark.Some? && mark.value.MarkedCompleted?
  }

  ghost predicate StatusFollowsLog(db: Db) {
    && (forall k :: k in db.keys ==> MarkFitsRow(LastMark(db.log, db.keys[k].id), db.keys[k]))
    && (forall r: RowId :: LastMark(db.log, r).Some? ==> r < db.nextId)
  }

  /** A grant needs a row that is new, failed, or granted more than a lease ago. */
  predicate GrantAllowed(before: Option<Entry>, at: nat, lease: nat) {
    before.None? || before.value.MarkedFailed? || (before.value.Granted? && before.value.at + lease < at)
  }

  predicate GrantsJustified(log: seq<Entry>, lease: nat) {
    log == [] ||
    var front, last := log[..|log| - 1], log[|log| - 1];
    GrantsJustified(front, lease) && (last.Granted? ==> GrantAllowed(LastMark(front, last.row), last.at, lease))
  }

  ghost predicate Inv(db: Db) {
    && IdsUnique(db) && CreatedOnce(db.log) && CreatedMeansAttached(db)
    && ReferencesIntact(db) && StatusFollowsLog(db) && GrantsJustified(db.log, db.lease)
  }

  lemma MarksAfter(log: seq<Entry>, e: Entry)
    ensures forall r: RowId :: LastMark(log + [e], r) == if IsMark(e, r) then Some(e) else LastMark(log, r)
    ensures forall lease: nat :: GrantsJustified(log + [e], lease) <==>
              GrantsJustified(log, lease) && (e.Granted? ==> GrantAllowed(LastMark(log, e.row), e.at, lease))
    ensures CreatedOnce(log + [e]) <==>
              (CreatedOnce(log) &&
               (e.TicketCreated? ==> forall c :: c in log && c.TicketCreated? ==>
                   c.row != e.row && c.ticket != e.ticket))
  {
    assert (log + [e])[..|log|] == log;
  }

  lemma InvInsertKey(db: Db, key: Key, hash: Digest)
    requires Inv(db) && key !in db.keys
    ensures Inv(InsertKey(db, key, hash))
  {
    var after := InsertKey(db, key, hash);
    MarksAfter(db.log, Granted(db.nextId, db.now));
    assert LastMark(db.log, db.nextId) == None;
    assert StatusFollowsLog(after);
  }

  lemma InvReclaimKey(db: Db, key: Key)
    requires Inv(db) && key in db.keys && L.Reclaimable(db.keys[key], db.now, db.lease)
    ensures Inv(ReclaimKey(db, key))
  {
    MarksAfter(db.log, Granted(db.keys[key].id, db.now));
  }

  lemma InvCreateTicket(db: Db, key: Key, payload: Digest)
    requires Inv(db) && key in db.keys && db.keys[key].ticketId.None?
    ensures Inv(CreateTicket(db, key, payload))
  {
    var after := CreateTicket(db, key, payload);
    MarksAfter(db.log, TicketCreated(db.keys[key].id, db.nextId + 1));
    assert CreatedOnce(after.log) by {
      assert forall c :: c in db.log && c.TicketCreated? ==> TicketCreated(c.row, c.ticket) in db.log;
    }
    CreatedIsAttached(db, key, payload);
  }

  lemma CreatedIsAttached(db: Db, key: Key, payload: Digest)
    requires IdsUnique(db) && CreatedMeansAttached(db) && key in db.keys
    ensures CreatedMeansAttached(CreateTicket(db, key, payload))
  {
  }

  lemma InvAddJob(db: Db, key: Key, ticket: TicketId)
    requires Inv(db)
    ensures Inv(AddJob(db, key, ticket))
  {
    MarksAfter(db.log, JobAdded(key, ticket));
  }

  lemma InvCompleteKey(db: Db, key: Key, ticket: TicketId)
    requires Inv(db) && (key in db.keys ==> ticket in db.tickets)
    ensures Inv(CompleteKey(db, key, ticket))
  {
    if key in db.keys { MarksAfter(db.log, MarkedCompleted(db.keys[key].id, key, ticket)); }
  }

  lemma InvFailKey(db: Db, key: Key)
    requires Inv(db)
    ensures Inv(FailKey(db, key))
  {
    if key in db.keys { MarksAfter(db.log, MarkedFailed(db.keys[key].id)); }
  }

  lemma InvAnswer(db: Db, row: RowId, answer: Option<TicketId>)
    requires Inv(db)
    ensures Inv(Answer(db, row, answer))
  {
    if answer.Some? { MarksAfter(db.log, Answered(row, answer.value)); }
  }

  lemma InvNext(db: Db, c: Caller, ok: bool, enqueued: EnqueueResult)
    requires Inv(db)
    ensures Inv(NextDb(db, c, ok, enqueued))
  {
    match c
    case Reclaiming(key, _) => if key in db.keys && L.Reclaimable(db.keys[key], db.now, db.lease) {
      InvReclaimKey(db, key);
    }
    case Owning(key, hash) => if key in db.keys && db.keys[key].ticketId.None? { InvCreateTicket(db, key, hash); }
    case HasTicket(key, _, ticket) => InvAddJob(db, key, ticket);
    case HasJob(key, _, ticket) => if key !in db.keys || ticket in db.tickets { InvCompleteKey(db, key, ticket); }
    case Replying(row, answer) => InvAnswer(db, row, answer);
    case Erring(key) => InvFailKey(db, key);
    case _ =>
  }

  lemma InvPruneRows(db: Db, keys: set<Key>, tickets: set<TicketId>, events: set<EventId>)
    requires Inv(db) && Prunable(db, keys, tickets, events)
    ensures Inv(PruneRows(db, keys, tickets, events))
  {
  }

  lemma InvOther(db: Db, ms: nat, key: Key)
    requires Inv(db)
    ensures Inv(db.(now := db.now + ms)) && Inv(db.(queue := db.queue - {key}))
  {
  }

  lemma InvStep(s: State, step: Step)
    requires Inv(s.db)
    ensures Inv(StepDb(s, step))
  {
    match step
    case Tick(ms) => InvOther(s.db, ms, "");
    case Insert(p, key, hash) => if key !in s.db.keys { InvInsertKey(s.db, key, hash); }
    case Next(p, ok, enqueued) => if p in s.callers { InvNext(s.db, s.callers[p], ok, enqueued); }
    case Crash(p) =>
    case JobExpires(key) => InvOther(s.db, 0, key);
    case Prune(keys, tickets, events) =>
      if Prunable(s.db, keys, tickets, events) { InvPruneRows(s.db, keys, tickets, events); }
  }

  lemma LeaseStep(s: State, step: Step)
    ensures StepDb(s, step).lease == s.db.lease
  {
  }

  lemma {:induction false} InvRun(s: State, steps: seq<Step>)
    requires Inv(s.db)
    ensures Inv(Run(s, steps).db) && Run(s, steps).db.lease == s.db.lease
  {
    if steps == [] {
    } else {
      InvRun(s, steps[..|steps| - 1]);
      InvStep(Run(s, steps[..|steps| - 1]), steps[|steps| - 1]);
      LeaseStep(Run(s, steps[..|steps| - 1]), steps[|steps| - 1]);
    }
  }

  // ---- At most one ticket per ledger row ----

  lemma {:induction false} CreatedOncePairwise(log: seq<Entry>, i: nat, j: nat)
    requires CreatedOnce(log) && i < j < |log| && log[i].TicketCreated? && log[j].TicketCreated?
    ensures log[i].row != log[j].row && log[i].ticket != log[j].ticket
  {
    var front := log[..|log| - 1];
    if j == |log| - 1 {
      assert front[i] in front;
    } else {
      CreatedOncePairwise(front, i, j);
    }
  }

  /** In every run, whatever crashes, stalls or is pruned: no ledger row gets a
      second ticket and no ticket serves two rows. */
  lemma {:induction false} OneTicketPerRow(lease: nat, steps: seq<Step>, i: nat, j: nat)
    requires var log := Run(Init(lease), steps).db.log; i < j < |log| && log[i].TicketCreated? && log[j].TicketCreated?
    ensures var log := Run(Init(lease), steps).db.log; log[i].row != log[j].row && log[i].ticket != log[j].ticket
  {
    InvRun(Init(lease), steps);
    CreatedOncePairwise(Run(Init(lease), steps).db.log, i, j);
  }

  // ---- Claim exclusivity ----

  lemma {:induction false} LastMarkIndex(log: seq<Entry>, row: RowId, i: nat) returns (m: nat)
    requires i < |log| && IsMark(log[i], row)
    ensures i <= m < |log| && IsMark(log[m], row) && LastMark(log, row) == Some(log[m])
    ensures forall l :: m < l < |log| ==> !IsMark(log[l], row)
  {
    var front := log[..|log| - 1];
    if IsMark(log[|log| - 1], row) {
      m := |log| - 1;
    } else {
      m := LastMarkIndex(front, row, i);
      assert forall l :: m < l < |front| ==> log[l] == front[l];
    }
  }

  lemma {:induction false} GrantJustifiedAt(log: seq<Entry>, lease: nat, j: nat)
    requires GrantsJustified(log, lease) && j < |log| && log[j].Granted?
    ensures GrantAllowed(LastMark(log[..j], log[j].row), log[j].at, lease)
  {
    if j == |log| - 1 {
    } else {
      GrantJustifiedAt(log[..|log| - 1], lease, j);
      assert log[..|log| - 1][..j] == log[..j];
    }
  }

  lemma {:induction false} GrantsApart(log: seq<Entry>, lease: nat, i: nat, j: nat)
    requires GrantsJustified(log, lease) && i < j < |log|
    requires log[i].Granted? && log[j].Granted? && log[i].row == log[j].row
    requires forall l :: i < l < j ==> log[l] != MarkedFailed(log[i].row)
    ensures log[i].at + lease < log[j].at
    ensures forall l :: i < l < j ==> !(log[l].MarkedCompleted? && log[l].row == log[i].row)
    decreases j
  {
    GrantJustifiedAt(log, lease, j);
    var m := LastMarkIndex(log[..j], log[i].row, i);
    assert log[..j][m] == log[m];
    assert forall l :: m < l < j ==> log[..j][l] == log[l];
    if i == m {
    } else {
      GrantsApart(log, lease, i, m);
    }
  }

  /** In every run, two grants of one ledger row with no failure marked in
      between are more than a lease apart, and no completion lies between. */
  lemma {:induction false} ClaimsAreExclusive(lease: nat, steps: seq<Step>, i: nat, j: nat)
    requires var log := Run(Init(lease), steps).db.log;
             && i < j < |log| && log[i].Granted? && log[j].Granted? && log[i].row == log[j].row
             && forall l :: i < l < j ==> log[l] != MarkedFailed(log[i].row)
    ensures var log := Run(Init(lease), steps).db.log;
            && log[i].at + lease < log[j].at
            && forall l :: i < l < j ==> !(log[l].MarkedCompleted? && log[l].row == log[i].row)
  {
    InvRun(Init(lease), steps);
    GrantsApart(Run(Init(lease), steps).db.log, lease, i, j);
  }

  // ---- No key is ever wedged ----

  /** One caller submitting with nobody in between, whose enqueue succeeds. */
  function Alone(p: Pid, key: Key, hash: Digest): seq<Step> {
    var n := Next(p, true, ADDED);
    [Insert(p, key, hash)] + [n] + [n] + [n] + [n] + [n] + [n]
  }

  lemma RunAppend(s: State, steps: seq<Step>, step: Step)
    ensures Run(s, steps + [step]) == Apply(Run(s, steps), step)
  {
    assert (steps + [step])[..|steps|] == steps;
  }

  lemma RunAlone(s: State, p: Pid, key: Key, hash: Digest)
    ensures var n := Next(p, true, ADDED);
            Run(s, Alone(p, key, hash)) ==
            Apply(Apply(Apply(Apply(Apply(Apply(Apply(s, Insert(p, key, hash)), n), n), n), n), n), n)
  {
    var i, n := Insert(p, key, hash), Next(p, true, ADDED);
    RunAppend(s, [], i);
    assert [] + [i] == [i];
    RunAppend(s, [i], n);
    RunAppend(s, [i] + [n], n);
    RunAppend(s, [i] + [n] + [n], n);
    RunAppend(s, [i] + [n] + [n] + [n], n);
    RunAppend(s, [i] + [n] + [n] + [n] + [n], n);
    RunAppend(s, [i] + [n] + [n] + [n] + [n] + [n], n);
  }

  /** The key is free, settled, failed or abandoned for longer than a lease. */
  predicate LeaseOver(db: Db, key: Key) {
    key in db.keys && db.keys[key].status.PENDING? && db.keys[key].lockedAt.Some? ==>
        db.keys[key].lockedAt.value + db.lease < db.now
  }

  /** What a run leaves in the row of an existing key. */
  predicate RowSound(db: Db, key: Key)
    requires key in db.keys
  {
    var row := db.keys[key];
    && (row.ticketId.Some? ==> row.ticketId.value in db.tickets)
    && (row.status.COMPLETED? ==> row.ticketId.Some?)
    && (row.status.PENDING? ==> row.lockedAt.Some?)
  }

  /** The key is completed with its old ticket, if it had one, and the last
      answer given names that ticket. */
  predicate Settled(before: Db, after: Db, key: Key) {
    && key in after.keys && after.keys[key].status.COMPLETED? && after.keys[key].ticketId.Some?
    && (key in before.keys ==> after.keys[key].id == before.keys[key].id)
    && (key in before.keys && before.keys[key].ticketId.Some? ==> after.keys[key].ticketId == before.keys[key].ticketId)
    && |after.log| > |before.log| &&
        after.log[|after.log| - 1] == Answered(after.keys[key].id, after.keys[key].ticketId.value)
  }

  /** From any state a run can leave behind, one resubmission of the same payload
      after the lease completes the key, keeps a ticket already attached and is
      answered with that ticket. */
  lemma {:induction false} NeverWedged(lease: nat, steps: seq<Step>, p: Pid, key: Key, hash: Digest)
    requires var s := Run(Init(lease), steps); p !in s.callers && LeaseOver(s.db, key)
    requires var s := Run(Init(lease), steps); key in s.db.keys ==> s.db.keys[key].requestHash == hash
    ensures var s := Run(Init(lease), steps); var t := Run(s, Alone(p, key, hash));
            p !in t.callers && Settled(s.db, t.db, key)
  {
    InvRun(Init(lease), steps);
    var s := Run(Init(lease), steps);
    assert key in s.db.keys ==> RowSound(s.db, key);
    SettlesAlone(s, p, key, hash);
  }

  lemma {:induction false} SettlesAlone(s: State, p: Pid, key: Key, hash: Digest)
    requires p !in s.callers && LeaseOver(s.db, key)
    requires key in s.db.keys ==> RowSound(s.db, key) && s.db.keys[key].requestHash == hash
    ensures var t := Run(s, Alone(p, key, hash)); p !in t.callers && Settled(s.db, t.db, key)
  {
    RunAlone(s, p, key, hash);
    var n := Next(p, true, ADDED);
    var s1 := Apply(s, Insert(p, key, hash));
    if key in s.db.keys {
      assert s1 == s.(callers := s.callers[p := Losing(key, hash)]);
      if s.db.keys[key].status.COMPLETED? {
        LoserReplays(s1, p, key, hash);
      } else {
        LoserReclaims(s1, p, key, hash);
        OwnerCompletes(Apply(Apply(s1, n), n), p, key, hash);
      }
    } else {
      assert s1.callers[p] == Owning(key, hash) && s1.db == InsertKey(s.db, key, hash);
      OwnerCompletes(s1, p, key, hash);
    }
  }

  lemma LoserReplays(s: State, p: Pid, key: Key, hash: Digest)
    requires p in s.callers && s.callers[p] == Losing(key, hash) && key in s.db.keys &&
               s.db.keys[key].requestHash == hash
    requires s.db.keys[key].status.COMPLETED? && s.db.keys[key].ticketId.Some?
    ensures var n := Next(p, true, ADDED); var t := Apply(Apply(s, n), n);
            p !in t.callers && t.db == Answer(s.db, s.db.keys[key].id, s.db.keys[key].ticketId)
  {
    var s1 := Apply(s, Next(p, true, ADDED));
    assert s1 == s.(callers := s.callers[p := Replying(s.db.keys[key].id, s.db.keys[key].ticketId)]);
  }

  lemma LoserReclaims(s: State, p: Pid, key: Key, hash: Digest)
    requires p in s.callers && s.callers[p] == Losing(key, hash) && key in s.db.keys &&
               s.db.keys[key].requestHash == hash
    requires !s.db.keys[key].status.COMPLETED? && L.Reclaimable(s.db.keys[key], s.db.now, s.db.lease)
    ensures var n := Next(p, true, ADDED); var t := Apply(Apply(s, n), n);
            p in t.callers && t.callers[p] == Owning(key, hash) && t.db == ReclaimKey(s.db, key)
  {
    var s1 := Apply(s, Next(p, true, ADDED));
    assert s1 == s.(callers := s.callers[p := Reclaiming(key, s.db.keys[key])]);
  }

  lemma OwnerCompletes(s: State, p: Pid, key: Key, hash: Digest)
    requires p in s.callers && s.callers[p] == Owning(key, hash) && key in s.db.keys
    requires s.db.keys[key].ticketId.Some? ==> s.db.keys[key].ticketId.value in s.db.tickets
    ensures var n := Next(p, true, ADDED); var t := Apply(Apply(Apply(Apply(s, n), n), n), n);
            p !in t.callers && Settled(s.db, t.db, key)
  {
    var n := Next(p, true, ADDED);
    var s1 := Apply(s, n);
    assert s1.callers[p].HasTicket? && s1.callers[p].ticket in s1.db.tickets;
    assert s1.db.keys[key].ticketId == Some(s1.callers[p].ticket);
    HolderCompletes(s1, p);
  }

  lemma HolderCompletes(s: State, p: Pid)
    requires p in s.callers && s.callers[p].HasTicket? && s.callers[p].ticket in s.db.tickets
    ensures var n := Next(p, true, ADDED); var t, c := Apply(Apply(Apply(s, n), n), n), s.callers[p];
            p !in t.callers &&
                t.db == Answer(CompleteKey(AddJob(s.db, c.key, c.ticket), c.key, c.ticket), c.row, Some(c.ticket))
  {
    var n, c := Next(p, true, ADDED), s.callers[p];
    var s1 := Apply(s, n);
    assert s1.callers[p] == HasJob(c.key, c.row, c.ticket) && s1.db == AddJob(s.db, c.key, c.ticket);
    var s2 := Apply(s1, n);
    assert s2.callers[p] == Replying(c.row, Some(c.ticket)) && s2.db == CompleteKey(s1.db, c.key, c.ticket);
  }

  // ---- A caller running to its end ----

  function StatementsLeft(c: Caller): nat {
    match c
    case Losing(_, _) => 6
    case Reclaiming(_, _) => 5
    case Owning(_, _) => 4
    case HasTicket(_, _, _) => 3
    case HasJob(_, _, _) => 2
    case Erring(_) => 2
    case Replying(_, _) => 1
    case Throwing => 1
  }

  /** The tables once a caller has run all its remaining statements alone. */
  function Finish(db: Db, c: Caller, ok: bool, enqueued: EnqueueResult): Db
    decreases StatementsLeft(c)
  {
    var next, after := NextCaller(db, c, ok, enqueued), NextDb(db, c, ok, enqueued);
    if next.Some? then Finish(after, next.value, ok, enqueued) else after
  }

  function Times(step: Step, n: nat): seq<Step> {
    seq(n, i => step)
  }

  /** Running alone is one of the runs: at most six statements, then the caller
      has returned. */
  lemma {:induction false} FinishIsARun(s: State, p: Pid, ok: bool, enqueued: EnqueueResult) returns (n: nat)
    requires p in s.callers
    ensures n <= StatementsLeft(s.callers[p]) <= 6
    ensures Run(s, Times(Next(p, ok, enqueued), n)).db == Finish(s.db, s.callers[p], ok, enqueued)
    ensures p !in Run(s, Times(Next(p, ok, enqueued), n)).callers
    decreases StatementsLeft(s.callers[p])
  {
    var step := Next(p, ok, enqueued);
    var after := Apply(s, step);
    assert [step][..0] == [];
    assert Run(s, [step]) == after;
    if p in after.callers {
      var m := FinishIsARun(after, p, ok, enqueued);
      n := m + 1;
      assert Times(step, n) == [step] + Times(step, m);
      RunConcat(s, [step], Times(step, m));
    } else {
      n := 1;
      assert Times(step, 1) == [step];
    }
  }

  lemma {:induction false} RunConcat(s: State, a: seq<Step>, b: seq<Step>)
    ensures Run(s, a + b) == Run(Run(s, a), b)
  {
    if b == [] {
      assert a + b == a;
    } else {
      RunConcat(s, a, b[..|b| - 1]);
      assert (a + b)[..|a + b| - 1] == a + b[..|b| - 1];
    }
  }
}
