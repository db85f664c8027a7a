/** Ingestion of one event (src/events/events.service.ts), with nobody in
    between: each statement is the one Ingestion interleaves. */
module EventsService {
  import opened Common
  import opened CanonicalHash
  import opened Ingestion
  import L = IdempotencyLedger
  import J = JobIds

  datatype IngestResult =
    | ACCEPTED(ticket: TicketId, jobId: string)
    | PROCESSING(seen: Option<TicketId>)
    | REPLAYED(stored: Option<TicketId>, storedJobId: Option<string>)
    | BAD_REQUEST
    | CONFLICT
    | ERROR

  /** What the response names as the ticket, if anything. */
  function Named(r: IngestResult): Option<TicketId> {
    match r
    case ACCEPTED(ticket, _) => Some(ticket)
    case PROCESSING(seen) => seen
    case REPLAYED(stored, _) => stored
    case _ => None
  }

  /** The job id of the stored response. */
  function ReplayedJobId(row: L.KeyRow): Option<string> {
    if row.response.Some? then Some(row.response.value.jobId) else None
  }

  /** headerKey ?? dto.idempotencyKey ?? requestHash */
  function EffectiveKey(headerKey: Option<Key>, bodyKey: Option<Key>, hashText: string): Key {
    if headerKey.Some? then headerKey.value else if bodyKey.Some? then bodyKey.value else hashText
  }

  /** What a caller whose INSERT lost comes to. */
  lemma LoserFinishes(db: Db, key: Key, hash: Digest, commits: bool, enqueued: EnqueueResult)
    requires key in db.keys
    ensures var row := db.keys[key];
            Finish(db, Losing(key, hash), commits, enqueued) ==
            if row.requestHash != hash then db
            else if row.status.COMPLETED? then Answer(db, row.id, ReplayedTicket(row))
            else if L.Reclaimable(row, db.now, db.lease)
              then Finish(ReclaimKey(db, key), Owning(key, hash), commits, enqueued)
            else Answer(db, row.id, row.ticketId)
  {
    var row := db.keys[key];
    if row.requestHash != hash {
      assert Finish(db, Throwing, commits, enqueued) == db;
    } else if row.status.COMPLETED? {
      assert Finish(db, Replying(row.id, ReplayedTicket(row)), commits, enqueued) ==
          Answer(db, row.id, ReplayedTicket(row));
    } else {
      assert Finish(db, Losing(key, hash), commits, enqueued) == Finish(db, Reclaiming(key, row), commits, enqueued);
      assert Finish(db, Replying(row.id, row.ticketId), commits, enqueued) == Answer(db, row.id, row.ticketId);
    }
  }

  /** The tables after one submission that nobody interrupts. */
  function AfterSubmission(db: Db, key: Key, hash: Digest, commits: bool, enqueued: EnqueueResult): Db {
    if key in db.keys then Finish(db, Losing(key, hash), commits, enqueued)
    else Finish(InsertKey(db, key, hash), Owning(key, hash), commits, enqueued)
  }

  predicate IsLosersAnswer(result: IngestResult) { result.CONFLICT? || result.REPLAYED? || result.PROCESSING? }

  /** The tables once the key is granted. */
  function AfterGrant(db: Db, key: Key, hash: Digest): Db {
    if key in db.keys then ReclaimKey(db, key) else InsertKey(db, key, hash)
  }

  /** A submission is processed from the grant, or answered from the row. */
  lemma SubmissionFinishes(db: Db, key: Key, hash: Digest, commits: bool, enqueued: EnqueueResult)
    ensures MayProcess(db, key, hash) ==>
              && AfterSubmission(db, key, hash, commits, enqueued)
                 == Finish(AfterGrant(db, key, hash), Owning(key, hash), commits, enqueued)
              && key in AfterGrant(db, key, hash).keys
              && (Succeeds(AfterGrant(db, key, hash), key, commits, enqueued) <==> Succeeds(db, key, commits, enqueued))
    ensures !MayProcess(db, key, hash) ==>
              forall result :: LoserFits(db, key, hash, result) && IsLosersAnswer(result) ==>
                AfterSubmission(db, key, hash, commits, enqueued) == Answer(db, db.keys[key].id, Named(result))
  {
    if key in db.keys { LoserFinishes(db, key, hash, commits, enqueued); }
  }

  /** A caller that failed marks its key and throws. */
  lemma FailingFinishes(db: Db, key: Key, commits: bool, enqueued: EnqueueResult)
    ensures Finish(db, Erring(key), commits, enqueued) == FailKey(db, key)
  {
    assert Finish(FailKey(db, key), Throwing, commits, enqueued) == FailKey(db, key);
  }

  /** What a caller with a ticket comes to. */
  lemma HolderFinishes(db: Db, key: Key, row: RowId, ticket: TicketId, ok: bool, enqueued: EnqueueResult)
    ensures Finish(db, HasTicket(key, row, ticket), ok, enqueued) ==
            if enqueued.THREW_BEFORE? then FailKey(db, key)
            else if enqueued.THREW_AFTER? then FailKey(AddJob(db, key, ticket), key)
            else if key in db.keys && ticket !in db.tickets then AddJob(db, key, ticket)
            else Answer(CompleteKey(AddJob(db, key, ticket), key, ticket), row, Some(ticket))
  {
    var added := AddJob(db, key, ticket);
    if enqueued.ADDED? {
      assert Finish(db, HasTicket(key, row, ticket), ok, enqueued) ==
          Finish(added, HasJob(key, row, ticket), ok, enqueued);
      if key in added.keys && ticket !in added.tickets {
        assert Finish(added, HasJob(key, row, ticket), ok, enqueued) == Finish(added, Throwing, ok, enqueued) == added;
      } else {
        var completed := CompleteKey(added, key, ticket);
        assert Finish(added, HasJob(key, row, ticket), ok, enqueued)
            == Finish(completed, Replying(row, Some(ticket)), ok, enqueued) == Answer(completed, row, Some(ticket));
      }
    } else {
      FailingFinishes(NextDb(db, HasTicket(key, row, ticket), ok, enqueued), key, ok, enqueued);
    }
  }

  /** The work of a granted caller goes through: its transaction commits, the
      ticket its row names exists, if any, and the enqueue returns. */
  predicate Succeeds(db: Db, key: Key, commits: bool, enqueued: EnqueueResult) {
    && commits && enqueued.ADDED?
    && (key in db.keys && db.keys[key].ticketId.Some? ==> db.keys[key].ticketId.value in db.tickets)
  }

  /** The caller is granted the key. */
  predicate MayProcess(db: Db, key: Key, hash: Digest) {
    key !in db.keys ||
    (db.keys[key].requestHash == hash && L.Reclaimable(db.keys[key], db.now, db.lease))
  }

  /** Conflict, replay and processing are answered exactly when the ledger says
      so, a replay repeats the stored response, and a granted caller is accepted
      exactly when its work goes through and gets an error otherwise. */
  predicate AnswerFits(db: Db, key: Key, hash: Digest, commits: bool, enqueued: EnqueueResult, result: IngestResult) {
    && LoserFits(db, key, hash, result)
    && (result.ACCEPTED? <==> MayProcess(db, key, hash) && Succeeds(db, key, commits, enqueued))
    && (result.ERROR? <==> MayProcess(db, key, hash) && !Succeeds(db, key, commits, enqueued))
    && (result.ACCEPTED? ==> result.jobId == key)
    && !result.BAD_REQUEST?
  }

  predicate LoserFits(db: Db, key: Key, hash: Digest, result: IngestResult) {
    && (result.CONFLICT? <==> key in db.keys && db.keys[key].requestHash != hash)
    && (result.REPLAYED? <==> key in db.keys && db.keys[key].requestHash == hash && db.keys[key].status.COMPLETED?)
    && (result.PROCESSING? <==> key in db.keys && db.keys[key].requestHash == hash && !db.keys[key].status.COMPLETED?
                                && !L.Reclaimable(db.keys[key], db.now, db.lease))
    && (result.REPLAYED? ==>
          var row := db.keys[key];
          && (row.ticketId.Some? ==> result.stored == row.ticketId)
          && (row.ticketId.None? ==>
                result.stored == if row.response.Some? then Some(row.response.value.ticketId) else None)
          && result.storedJobId == if row.response.Some? then Some(row.response.value.jobId) else None)
    && (result.PROCESSING? ==> result == PROCESSING(db.keys[key].ticketId))
  }

  /** The last thing that happened is an answer naming this ticket. */
  predicate EndsWithAnswer(log: seq<Entry>, ticket: TicketId) {
    |log| > 0 && log[|log| - 1].Answered? && log[|log| - 1].ticket == ticket
  }

  predicate CompletedWith(rows: L.Ledger, key: Key, ticket: TicketId) {
    && key in rows && rows[key].status.COMPLETED? && rows[key].ticketId == Some(ticket)
    && rows[key].response == Some(L.Response(ticket, key)) && rows[key].lockedAt.None?
  }

  predicate FailedFor(rows: L.Ledger, key: Key) {
    key in rows && rows[key].status.FAILED? && rows[key].lockedAt.None?
  }

  class Service {
    const idempotency: L.IdempotencyService
    var now: nat
    var nextId: nat
    var events: map<EventId, EventRow>
    var tickets: map<TicketId, EventId>
    var queue: map<Key, TicketId>
    ghost var log: seq<Entry>

    ghost function Tables(): Db
      reads this, idempotency
    {
      Db(now, idempotency.leaseMs, nextId, idempotency.rows, events, tickets, queue, log)
    }

    constructor (leaseMs: nat)
      ensures fresh(idempotency) && Tables() == Init(leaseMs).db
    {
      now, nextId, events, tickets, queue, log := 0, 0, map[], map[], map[], [];
      idempotency := new L.IdempotencyService(leaseMs);
    }

    /** The transaction that creates the event and the ticket once per row; None
        stands for a throw that rolls it back. */
    method CreateTicketIfAbsent(key: Key, payload: Digest, commits: bool) returns (ticket: Option<TicketId>)
      modifies this, idempotency
      ensures Tables() == NextDb(old(Tables()), Owning(key, payload), commits, ADDED)
      ensures ticket.None? ==> NextCaller(old(Tables()), Owning(key, payload), commits, ADDED) == Some(Erring(key))
      ensures ticket.Some? ==> key in old(idempotency.rows)
      ensures ticket.Some? ==> NextCaller(old(Tables()), Owning(key, payload), commits, ADDED)
                               == Some(HasTicket(key, old(idempotency.rows)[key].id, ticket.value))
    {
      var row := idempotency.LockForUpdate(key);
      if row.None? { return None; }                         // the row vanished
      if row.value.ticketId.Some? {
        var existing := row.value.ticketId.value;
        if existing !in tickets || !commits { return None; }
        return Some(existing);
      }
      if !commits { return None; }
      var event, id := nextId, nextId + 1;
      nextId := nextId + 2;
      events := events[event := EventRow(key, payload, now)];
      tickets := tickets[id := event];
      log := log + [TicketCreated(row.value.id, id)];
      idempotency.Attach(key, id);
      ticket := Some(id);
    }

    method Enqueue(key: Key, ticket: TicketId, result: EnqueueResult) returns (jobId: Option<string>)
      modifies this
      ensures Tables() == if result.THREW_BEFORE? then old(Tables()) else AddJob(old(Tables()), key, ticket)
      ensures jobId == if result.ADDED? then Some(key) else None
    {
      if result.THREW_BEFORE? { return None; }
      if key !in queue {
        queue := queue[key := ticket];
        log := log + [JobAdded(key, ticket)];
      }
      jobId := if result.ADDED? then Some(key) else None;
    }

    method MarkFailed(key: Key)
      modifies this, idempotency
      ensures Tables() == FailKey(old(Tables()), key)
    {
      if key in idempotency.rows { log := log + [MarkedFailed(idempotency.rows[key].id)]; }
      idempotency.Fail(key);
    }

    /** False when the foreign key rejects the update. */
    method MarkCompleted(key: Key, ticket: TicketId) returns (done: bool)
      modifies this, idempotency
      ensures done <==> !(key in old(idempotency.rows) && ticket !in old(tickets))
      ensures Tables() == if done then CompleteKey(old(Tables()), key, ticket) else old(Tables())
    {
      done := !(key in idempotency.rows && ticket !in tickets);
      if done {
        if key in idempotency.rows { log := log + [MarkedCompleted(idempotency.rows[key].id, key, ticket)]; }
        idempotency.Complete(key, ticket, L.Response(ticket, key));
      }
    }

    /** A caller that was granted the key: it ends accepted, with the ticket the
        completed key then names, or marks the key failed and throws. */
    method ProcessNew(key: Key, payload: Digest, commits: bool, enqueued: EnqueueResult) returns (result: IngestResult)
      modifies this, idempotency
      ensures Tables() == Finish(old(Tables()), Owning(key, payload), commits, enqueued)
      ensures result.ACCEPTED? <==> key in old(idempotency.rows) && Succeeds(old(Tables()), key, commits, enqueued)
      ensures !result.ACCEPTED? ==> result == ERROR
      ensures !result.ACCEPTED? && key in old(idempotency.rows) ==> FailedFor(idempotency.rows, key)
      ensures result.ACCEPTED? ==> result.jobId == key && EndsWithAnswer(log, result.ticket)
      ensures result.ACCEPTED? ==> CompletedWith(idempotency.rows, key, result.ticket)
    {
      ghost var db0 := Tables();
      var ticket := CreateTicketIfAbsent(key, payload, commits);
      ghost var db1 := Tables();
      if ticket.None? {
        MarkFailed(key);
        FailingFinishes(db1, key, commits, enqueued);
        return ERROR;
      }
      ghost var row := db0.keys[key].id;
      HolderFinishes(db1, key, row, ticket.value, commits, enqueued);
      var jobId := Enqueue(key, ticket.value, enqueued);
      ghost var db2 := Tables();
      if jobId.None? {
        MarkFailed(key);
        FailingFinishes(db2, key, commits, enqueued);
        return ERROR;
      }
      var done := MarkCompleted(key, ticket.value);
      if !done {
        return ERROR;
      }
      Say(row, ticket);
      result := ACCEPTED(ticket.value, jobId.value);
    }

    /** One submission, start to end. A key that cannot be a job id is refused
        before anything is written; a known key with another payload is a
        conflict; a settled key is replayed with its ticket; a key in its lease
        is left alone; anything else is processed. */
    method Ingest(dto: EventDto, headerKey: Option<Key>, bodyKey: Option<Key>, hashText: string,
                  commits: bool, enqueued: EnqueueResult) returns (result: IngestResult)
      modifies this, idempotency
      ensures var key, hash := EffectiveKey(headerKey, bodyKey, hashText), HashPayload(Content(dto));
              if !J.UsableAsJobId(key) then result == BAD_REQUEST && Tables() == old(Tables())
              else Tables() == AfterSubmission(old(Tables()), key, hash, commits, enqueued)
      ensures var key, hash := EffectiveKey(headerKey, bodyKey, hashText), HashPayload(Content(dto));
              J.UsableAsJobId(key) ==> AnswerFits(old(Tables()), key, hash, commits, enqueued, result)
      ensures Named(result).Some? ==> EndsWithAnswer(log, Named(result).value)
      ensures result.ACCEPTED? ==> CompletedWith(idempotency.rows, result.jobId, result.ticket)
    {
      var requestHash := HashPayload(Content(dto));
      var key := EffectiveKey(headerKey, bodyKey, hashText);
      if !J.UsableAsJobId(key) { return BAD_REQUEST; }
      result := ClaimAndProcess(key, requestHash, commits, enqueued);
    }

    /** The claim and the four ways it can go. */
    method ClaimAndProcess(key: Key, requestHash: Digest, commits: bool, enqueued: EnqueueResult)
      returns (result: IngestResult)
      modifies this, idempotency
      ensures Tables() == AfterSubmission(old(Tables()), key, requestHash, commits, enqueued)
      ensures AnswerFits(old(Tables()), key, requestHash, commits, enqueued, result)
      ensures Named(result).Some? ==> EndsWithAnswer(log, Named(result).value)
      ensures result.ACCEPTED? ==> CompletedWith(idempotency.rows, key, result.ticket)
    {
      ghost var db := Tables();
      SubmissionFinishes(db, key, requestHash, commits, enqueued);
      var inserts := key !in idempotency.rows;
      var claim := idempotency.Claim(key, requestHash, nextId, now);
      if claim.NEW? {
        RecordGrant(key, inserts);
        ghost var granted := Tables();
        assert granted == AfterGrant(db, key, requestHash);
        result := ProcessNew(key, requestHash, commits, enqueued);
      } else {
        assert Tables() == db;
        result := AnswerLoser(claim, key, requestHash);
      }
    }

    /** The answer to a caller that was not granted the key. */
    method AnswerLoser(claim: L.ClaimResult, key: Key, requestHash: Digest) returns (result: IngestResult)
      requires !claim.NEW? && key in idempotency.rows && claim.record == idempotency.rows[key]
      requires claim.CONFLICT? <==> claim.record.requestHash != requestHash
      requires claim.REPLAY? <==> claim.record.requestHash == requestHash && claim.record.status.COMPLETED?
      requires claim.IN_FLIGHT? ==> !L.Reclaimable(claim.record, now, idempotency.leaseMs)
      modifies this`log
      ensures LoserFits(old(Tables()), key, requestHash, result) && !MayProcess(old(Tables()), key, requestHash)
      ensures IsLosersAnswer(result)
      ensures Tables() == Answer(old(Tables()), claim.record.id, Named(result))
      ensures Named(result).Some? ==> EndsWithAnswer(log, Named(result).value)
    {
      match claim
      case CONFLICT(_) =>
        result := CONFLICT;
      case REPLAY(record) =>
        result := REPLAYED(ReplayedTicket(record), ReplayedJobId(record));
        Say(record.id, ReplayedTicket(record));
      case IN_FLIGHT(record) =>
        result := PROCESSING(record.ticketId);
        Say(record.id, record.ticketId);
    }

    /** The database drew the row's id if the claim inserted it. */
    method RecordGrant(key: Key, inserted: bool)
      requires key in idempotency.rows
      modifies this`log, this`nextId
      ensures log == old(log) + [Granted(idempotency.rows[key].id, now)]
      ensures nextId == old(nextId) + if inserted then 1 else 0
    {
      log := log + [Granted(idempotency.rows[key].id, now)];
      if inserted { nextId := nextId + 1; }
    }

    /** The answer that leaves the service. */
    ghost method Say(row: RowId, answer: Option<TicketId>)
      modifies this`log
      ensures Tables() == Answer(old(Tables()), row, answer)
      ensures answer.Some? ==> EndsWithAnswer(log, answer.value)
    {
      if answer.Some? { log := log + [Answered(row, answer.value)]; }
    }
  }
}
