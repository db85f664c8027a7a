/** What callers are told agrees with the tables, as long as no caller that holds
    a ticket spans a retention pass over its key; and exactly then. */
module IngestionAgreement {
  import opened Common
  import opened CanonicalHash
  import L = IdempotencyLedger
  import opened Ingestion

  // ---- Which retention passes are clear of callers ----

  /** A pass deletes no key a caller holds a ticket for, unless the ticket goes
      too, so that the foreign key stops that caller's UPDATE. */
  ghost predicate CallersClear(s: State, keys: set<Key>, tickets: set<TicketId>) {
    forall p :: p in s.callers && (s.callers[p].HasTicket? || s.callers[p].HasJob?) && s.callers[p].key in keys
      ==> s.callers[p].ticket in tickets || s.callers[p].ticket !in s.db.tickets
  }

  /** If the step is a retention pass, it meets the condition. */
  ghost predicate StepMeets(s: State, step: Step, condition: (State, set<Key>, set<TicketId>) -> bool) {
    step.Prune? && Prunable(s.db, step.keys, step.tickets, step.events) ==> condition(s, step.keys, step.tickets)
  }

  ghost predicate RunMeets(s: State, steps: seq<Step>, condition: (State, set<Key>, set<TicketId>) -> bool) {
    steps == [] ||
    var front := steps[..|steps| - 1];
    RunMeets(s, front, condition) && StepMeets(Run(s, front), steps[|steps| - 1], condition)
  }

  ghost predicate StepClear(s: State, step: Step) { StepMeets(s, step, CallersClear) }

  ghost predicate ClearRun(s: State, steps: seq<Step>) { RunMeets(s, steps, CallersClear) }

  // ---- What is promised ----

  /** A ledger row names only the ticket created for it, whose event carries
      the row's key. */
  ghost predicate RowsNameTheirTicket(db: Db) {
    forall k :: k in db.keys && db.keys[k].ticketId.Some? ==>
      var t := db.keys[k].ticketId.value;
      && TicketCreated(db.keys[k].id, t) in db.log
      && t in db.tickets && db.tickets[t] in db.events && db.events[db.tickets[t]].key == k
  }

  /** A completed key names a ticket and stores it with a job id equal to the
      key. */
  ghost predicate CompletedKeysStoreTheirTicket(db: Db) {
    forall k :: k in db.keys && db.keys[k].status.COMPLETED? ==>
      db.keys[k].ticketId.Some? && db.keys[k].response == Some(L.Response(db.keys[k].ticketId.value, k))
  }

  /** Every answer names the ticket created for its ledger row. */
  ghost predicate AnswersNameCreatedTickets(db: Db) {
    forall r: RowId, t: TicketId :: Answered(r, t) in db.log ==> TicketCreated(r, t) in db.log
  }

  ghost predicate Promised(db: Db) {
    RowsNameTheirTicket(db) && CompletedKeysStoreTheirTicket(db) && AnswersNameCreatedTickets(db)
  }

  // ---- Why it holds ----

  ghost predicate TicketsAreOld(db: Db) {
    && (forall r: RowId, t: TicketId :: TicketCreated(r, t) in db.log ==> t < db.nextId)
    && (forall t :: t in db.tickets ==> t < db.nextId)
    && (forall e :: e in db.events ==> e < db.nextId)
  }

  ghost predicate Holds(db: Db, key: Key, row: RowId, ticket: TicketId) {
    key in db.keys && db.keys[key].id == row && db.keys[key].ticketId == Some(ticket)
  }

  ghost predicate CallerAgrees(db: Db, c: Caller) {
    match c
    case Reclaiming(_, seen) => seen.ticketId.Some? ==> TicketCreated(seen.id, seen.ticketId.value) in db.log
    case HasTicket(key, row, ticket) => TicketCreated(row, ticket) in db.log &&
        (Holds(db, key, row, ticket) || ticket !in db.tickets)
    case HasJob(key, row, ticket) => TicketCreated(row, ticket) in db.log &&
        (Holds(db, key, row, ticket) || ticket !in db.tickets)
    case Replying(row, answer) => answer.Some? ==> TicketCreated(row, answer.value) in db.log
    case _ => true
  }

  ghost predicate CallersAgree(s: State) {
    forall p :: p in s.callers ==> CallerAgrees(s.db, s.callers[p])
  }

  /** The facts about the tables alone. */
  ghost predicate DbAgreed(db: Db) {
    Promised(db) && TicketsAreOld(db)
  }

  ghost predicate Agreed(s: State) {
    DbAgreed(s.db) && CallersAgree(s)
  }

  lemma CreatedTicketIsNamed(db: Db, key: Key, payload: Digest)
    requires RowsNameTheirTicket(db) && TicketsAreOld(db) && key in db.keys
    ensures RowsNameTheirTicket(CreateTicket(db, key, payload))
  {
  }

  lemma AgreedCreateTicket(db: Db, key: Key, payload: Digest)
    requires DbAgreed(db) && key in db.keys && db.keys[key].ticketId.None?
    ensures DbAgreed(CreateTicket(db, key, payload))
  {
    CreatedTicketIsNamed(db, key, payload);
    assert TicketsAreOld(CreateTicket(db, key, payload));
  }

  lemma AgreedCompleteKey(db: Db, key: Key, ticket: TicketId)
    requires DbAgreed(db) && (key in db.keys ==> db.keys[key].ticketId == Some(ticket))
    ensures DbAgreed(CompleteKey(db, key, ticket))
  {
  }

  lemma AgreedAnswer(db: Db, row: RowId, answer: Option<TicketId>)
    requires DbAgreed(db) && (answer.Some? ==> TicketCreated(row, answer.value) in db.log)
    ensures DbAgreed(Answer(db, row, answer))
  {
  }

  lemma AgreedNext(db: Db, c: Caller, ok: bool, enqueued: EnqueueResult)
    requires DbAgreed(db) && CallerAgrees(db, c)
    ensures DbAgreed(NextDb(db, c, ok, enqueued))
  {
    match c
    case Owning(key, hash) =>
      if key in db.keys && db.keys[key].ticketId.None? { AgreedCreateTicket(db, key, hash); }
    case HasJob(key, _, ticket) => if key !in db.keys || ticket in db.tickets { AgreedCompleteKey(db, key, ticket); }
    case Replying(row, answer) => AgreedAnswer(db, row, answer);
    case Losing(_, _) =>
    case Reclaiming(_, _) =>
    case HasTicket(_, _, _) =>
    case Erring(_) =>
    case Throwing =>
  }

  lemma AgreedDb(s: State, step: Step)
    requires Agreed(s)
    ensures DbAgreed(StepDb(s, step))
  {
    match step
    case Next(p, ok, enqueued) => if p in s.callers { AgreedNext(s.db, s.callers[p], ok, enqueued); }
    case Tick(_) =>
    case Insert(_, _, _) =>
    case Crash(_) =>
    case JobExpires(_) =>
    case Prune(_, _, _) =>
  }

  /** What one caller's statement leaves true for every other caller. */
  ghost predicate Keeps(db: Db, after: Db) {
    && (forall e :: e in db.log ==> e in after.log)
    && (forall k :: k in db.keys ==> k in after.keys && after.keys[k].id == db.keys[k].id)
    && (forall k :: k in db.keys ==> after.keys[k].requestHash == db.keys[k].requestHash)
    && (forall k :: k in db.keys && db.keys[k].ticketId.Some? ==> after.keys[k].ticketId == db.keys[k].ticketId)
    && (forall t: TicketId :: t < db.nextId && t !in db.tickets ==> t !in after.tickets)
  }

  lemma InsertKeeps(db: Db, key: Key, hash: Digest)
    requires key !in db.keys
    ensures Keeps(db, InsertKey(db, key, hash))
  {
  }

  lemma NextKeeps(db: Db, c: Caller, ok: bool, enqueued: EnqueueResult)
    requires CallerAgrees(db, c)
    ensures Keeps(db, NextDb(db, c, ok, enqueued))
  {
  }

  lemma StillAgrees(db: Db, after: Db, c: Caller)
    requires TicketsAreOld(db) && Keeps(db, after) && CallerAgrees(db, c)
    ensures CallerAgrees(after, c)
  {
  }

  lemma NextAgrees(db: Db, c: Caller, ok: bool, enqueued: EnqueueResult)
    requires DbAgreed(db) && CallerAgrees(db, c) && NextCaller(db, c, ok, enqueued).Some?
    ensures CallerAgrees(NextDb(db, c, ok, enqueued), NextCaller(db, c, ok, enqueued).value)
  {
  }

  lemma PruneAgrees(s: State, keys: set<Key>, tickets: set<TicketId>, events: set<EventId>)
    requires CallersAgree(s) && Prunable(s.db, keys, tickets, events) && CallersClear(s, keys, tickets)
    ensures CallersAgree(State(PruneRows(s.db, keys, tickets, events), s.callers))
  {
  }

  /** A step that is no pass keeps what the other callers rely on. */
  lemma StepKeeps(s: State, step: Step)
    requires Agreed(s) && !step.Prune?
    ensures Keeps(s.db, StepDb(s, step))
  {
    match step
    case Insert(p, key, hash) => if key !in s.db.keys { InsertKeeps(s.db, key, hash); }
    case Next(p, ok, enqueued) => if p in s.callers { NextKeeps(s.db, s.callers[p], ok, enqueued); }
    case Tick(_) =>
    case Crash(_) =>
    case JobExpires(_) =>
  }

  lemma CallersStep(s: State, step: Step)
    requires Agreed(s) && StepClear(s, step)
    ensures CallersAgree(Apply(s, step))
  {
    if step.Prune? {
      if Prunable(s.db, step.keys, step.tickets, step.events) { PruneAgrees(s, step.keys, step.tickets, step.events); }
    } else {
      var t := Apply(s, step);
      StepKeeps(s, step);
      forall q | q in t.callers ensures CallerAgrees(t.db, t.callers[q]) {
        if q in s.callers {
          if step.Next? && step.p == q {
            NextAgrees(s.db, s.callers[q], step.ok, step.enqueued);
          } else {
            StillAgrees(s.db, t.db, s.callers[q]);
          }
        }
      }
    }
  }

  lemma AgreedStep(s: State, step: Step)
    requires Agreed(s) && StepClear(s, step)
    ensures Agreed(Apply(s, step))
  {
    AgreedDb(s, step);
    CallersStep(s, step);
    assert Apply(s, step).db == StepDb(s, step);
  }

  lemma {:induction false} AgreedRun(s: State, steps: seq<Step>)
    requires Agreed(s) && ClearRun(s, steps)
    ensures Agreed(Run(s, steps))
  {
    if steps == [] {
    } else {
      AgreedRun(s, steps[..|steps| - 1]);
      AgreedStep(Run(s, steps[..|steps| - 1]), steps[|steps| - 1]);
    }
  }

  // ---- The theorems ----

  /** Over every clear run: rows keep the one ticket created for them, completed
      keys store it, and answers name it. */
  lemma {:induction false} ResponsesAgree(lease: nat, steps: seq<Step>)
    requires ClearRun(Init(lease), steps)
    ensures Promised(Run(Init(lease), steps).db)
  {
    AgreedRun(Init(lease), steps);
  }

  lemma {:induction false} CreatedOnceMember(log: seq<Entry>, row: RowId, t: TicketId, u: TicketId)
    requires CreatedOnce(log) && TicketCreated(row, t) in log && TicketCreated(row, u) in log
    ensures t == u
  {
    var front := log[..|log| - 1];
    assert forall e :: e in log ==> e in front || e == log[|log| - 1];
    if TicketCreated(row, t) in front && TicketCreated(row, u) in front {
      CreatedOnceMember(front, row, t, u);
    }
  }

  /** ... so any two answers given for one ledger row name the same ticket. */
  lemma {:induction false} AnswersAgree(lease: nat, steps: seq<Step>, row: RowId, t: TicketId, u: TicketId)
    requires ClearRun(Init(lease), steps)
    requires Answered(row, t) in Run(Init(lease), steps).db.log && Answered(row, u) in Run(Init(lease), steps).db.log
    ensures t == u
  {
    AgreedRun(Init(lease), steps);
    InvRun(Init(lease), steps);
    CreatedOnceMember(Run(Init(lease), steps).db.log, row, t, u);
  }

  lemma StepGrowsLog(s: State, step: Step)
    ensures s.db.log <= StepDb(s, step).log
  {
  }

  lemma {:induction false} LogGrows(s: State, steps: seq<Step>, e: Entry)
    requires e in s.db.log
    ensures e in Run(s, steps).db.log
  {
    if steps == [] {
    } else {
      LogGrows(s, steps[..|steps| - 1], e);
      StepGrowsLog(Run(s, steps[..|steps| - 1]), steps[|steps| - 1]);
    }
  }

  /** The ticket of a ledger row is written once: it never changes as long as
      the row lives. */
  lemma {:induction false} TicketIdIsWriteOnce(lease: nat, steps: seq<Step>, more: seq<Step>, k: Key, k': Key)
    requires ClearRun(Init(lease), steps) && ClearRun(Init(lease), steps + more)
    requires var s, t := Run(Init(lease), steps).db, Run(Init(lease), steps + more).db;
             k in s.keys && k' in t.keys && t.keys[k'].id == s.keys[k].id && s.keys[k].ticketId.Some?
    ensures Run(Init(lease), steps + more).db.keys[k'].ticketId == Run(Init(lease), steps).db.keys[k].ticketId
  {
    var s, t := Run(Init(lease), steps), Run(Init(lease), steps + more);
    AgreedRun(Init(lease), steps);
    AgreedRun(Init(lease), steps + more);
    InvRun(Init(lease), steps + more);
    RunConcat(Init(lease), steps, more);
    var row, u := s.db.keys[k].id, s.db.keys[k].ticketId.value;
    LogGrows(s, more, TicketCreated(row, u));
    assert TicketCreated(t.db.keys[k'].id, u) in t.db.log;
    assert t.db.keys[k'].ticketId.Some?;
    CreatedOnceMember(t.db.log, row, u, t.db.keys[k'].ticketId.value);
  }

  // ---- What can still happen ----

  ghost predicate NoPrunes(steps: seq<Step>) {
    forall i :: 0 <= i < |steps| ==> !steps[i].Prune?
  }

  /** Some run without further passes breaks the promise. */
  ghost predicate CanBreak(s: State, promise: Db -> bool) {
    exists steps :: NoPrunes(steps) && !promise(Run(s, steps).db)
  }

  lemma {:induction false} NoPrunesMeets(s: State, steps: seq<Step>,
                                         condition: (State, set<Key>, set<TicketId>) -> bool)
    requires NoPrunes(steps)
    ensures RunMeets(s, steps, condition)
  {
    if steps == [] {
    } else {
      NoPrunesMeets(s, steps[..|steps| - 1], condition);
    }
  }

  lemma {:induction false} FreshPid(callers: set<Pid>) returns (q: Pid)
    ensures forall p :: p in callers ==> p < q
  {
    if callers == {} {
      q := 0;
    } else {
      var p :| p in callers;
      var r := FreshPid(callers - {p});
      q := if r > p then r else p + 1;
      assert forall c :: c in callers ==> c == p || c in callers - {p};
    }
  }

  lemma BreaksAfter(s: State, step: Step, promise: Db -> bool)
    requires !step.Prune? && CanBreak(Apply(s, step), promise)
    ensures CanBreak(s, promise)
  {
    var steps :| NoPrunes(steps) && !promise(Run(Apply(s, step), steps).db);
    RunConcat(s, [step], steps);
    assert [step][..0] == [];
    assert Run(s, [step]) == Apply(s, step);
    assert NoPrunes([step] + steps);
  }

  lemma BreaksNow(s: State, promise: Db -> bool)
    requires !promise(s.db)
    ensures CanBreak(s, promise)
  {
    assert Run(s, []) == s && NoPrunes([]);
  }

  // ---- The condition is exact ----

  /** The key names a ticket other than the one created for its row. */
  ghost predicate Overwritten(db: Db, key: Key) {
    && key in db.keys && db.keys[key].ticketId.Some?
    && TicketCreated(db.keys[key].id, db.keys[key].ticketId.value) !in db.log
    && exists own: TicketId :: TicketCreated(db.keys[key].id, own) in db.log
  }

  /** A caller about to mark a deleted key completed can write its ticket over
      the ticket of the row that takes the key's place. */
  lemma LateCompletionOverwrites(s: State, p: Pid) returns (steps: seq<Step>)
    requires forall r: RowId, t: TicketId :: TicketCreated(r, t) in s.db.log ==> r < s.db.nextId
    requires p in s.callers && s.callers[p].HasJob?
    requires s.callers[p].key !in s.db.keys && s.callers[p].ticket in s.db.tickets && s.callers[p].ticket < s.db.nextId
    ensures NoPrunes(steps) && Overwritten(Run(s, steps).db, s.callers[p].key)
  {
    var k, t, m := s.callers[p].key, s.callers[p].ticket, Next(p, true, ADDED);
    var q := FreshPid(s.callers.Keys);
    AnotherClaims(s, p, q);
    var s2 := Run(s, ClaimAnew(q, k));
    assert Apply(s2, m).db == CompleteKey(s2.db, k, t);
    assert TicketCreated(s.db.nextId, s.db.nextId + 2) in Apply(s2, m).db.log;
    steps := ClaimAnew(q, k) + [m];
    RunAppend(s, ClaimAnew(q, k), m);
  }

  /** Another caller claims the key and creates its ticket. */
  function ClaimAnew(q: Pid, k: Key): seq<Step> {
    [Insert(q, k, Sha256(Null))] + [Next(q, true, ADDED)]
  }

  lemma AnotherClaims(s: State, p: Pid, q: Pid)
    requires p in s.callers && s.callers[p].HasJob? && s.callers[p].key !in s.db.keys && q !in s.callers
    ensures var t := Run(s, ClaimAnew(q, s.callers[p].key));
            && p in t.callers && t.callers[p] == s.callers[p]
            && t.db == CreateTicket(InsertKey(s.db, s.callers[p].key, Sha256(Null)), s.callers[p].key, Sha256(Null))
  {
    var k := s.callers[p].key;
    var i, n := Insert(q, k, Sha256(Null)), Next(q, true, ADDED);
    var s1 := Apply(s, i);
    assert s1.callers[q] == Owning(k, Sha256(Null)) && s1.callers[p] == s.callers[p];
    RunAppend(s, [], i);
    assert [] + [i] == [i];
    RunAppend(s, [i], n);
  }

  lemma OverwritingBreaks(s: State, p: Pid)
    requires TicketsAreOld(s.db)
    requires forall r: RowId, t: TicketId :: TicketCreated(r, t) in s.db.log ==> r < s.db.nextId
    requires p in s.callers && (s.callers[p].HasTicket? || s.callers[p].HasJob?)
    requires s.callers[p].key !in s.db.keys && s.callers[p].ticket in s.db.tickets
    ensures CanBreak(s, Promised)
    decreases s.callers[p].HasTicket?
  {
    if s.callers[p].HasTicket? {
      var n := Next(p, true, ADDED);
      assert Apply(s, n).db == AddJob(s.db, s.callers[p].key, s.callers[p].ticket);
      OverwritingBreaks(Apply(s, n), p);
      BreaksAfter(s, n, Promised);
    } else {
      var steps := LateCompletionOverwrites(s, p);
      assert !RowsNameTheirTicket(Run(s, steps).db);
    }
  }

  /** A retention pass leaves every key with its own ticket and every answer
      true, whatever follows, exactly when it is clear of callers. */
  lemma CallersClearIff(s: State, keys: set<Key>, tickets: set<TicketId>, events: set<EventId>)
    requires Inv(s.db) && Agreed(s) && Prunable(s.db, keys, tickets, events)
    ensures CallersClear(s, keys, tickets) <==> !CanBreak(Apply(s, Prune(keys, tickets, events)), Promised)
  {
    var after := Apply(s, Prune(keys, tickets, events));
    if CallersClear(s, keys, tickets) {
      AgreedStep(s, Prune(keys, tickets, events));
      forall steps | NoPrunes(steps) ensures Promised(Run(after, steps).db) {
        NoPrunesMeets(after, steps, CallersClear);
        AgreedRun(after, steps);
      }
    } else {
      UnclearPassBreaks(s, keys, tickets, events);
    }
  }

  lemma UnclearPassBreaks(s: State, keys: set<Key>, tickets: set<TicketId>, events: set<EventId>)
    requires Inv(s.db) && Agreed(s) && Prunable(s.db, keys, tickets, events) && !CallersClear(s, keys, tickets)
    ensures CanBreak(Apply(s, Prune(keys, tickets, events)), Promised)
  {
    var after := Apply(s, Prune(keys, tickets, events));
    assert after == State(PruneRows(s.db, keys, tickets, events), s.callers);
    var p :| p in s.callers && (s.callers[p].HasTicket? || s.callers[p].HasJob?) && s.callers[p].key in keys
             && s.callers[p].ticket !in tickets && s.callers[p].ticket in s.db.tickets;
    OverwritingBreaks(after, p);
  }
}
