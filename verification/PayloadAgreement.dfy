/** A ledger row's ticket was created from the payload whose hash the row stores,
    as long as no caller granted or reclaiming a key spans a pass over it; and
    exactly then: the reclaiming UPDATE does not check the hash again. */
module PayloadAgreement {
  import opened Common
  import opened CanonicalHash
  import opened Ingestion
  import opened IngestionAgreement

  ghost predicate GrantsClear(s: State, keys: set<Key>) {
    forall p :: p in s.callers && (s.callers[p].Reclaiming? || s.callers[p].Owning?) ==> s.callers[p].key !in keys
  }

  ghost predicate PruneSafe(s: State, keys: set<Key>, tickets: set<TicketId>) {
    CallersClear(s, keys, tickets) && GrantsClear(s, keys)
  }

  ghost predicate TicketsCarryTheirPayload(db: Db) {
    forall k :: k in db.keys && db.keys[k].ticketId.Some? ==>
      var t := db.keys[k].ticketId.value;
      t in db.tickets && db.tickets[t] in db.events ==> db.events[db.tickets[t]].payload == db.keys[k].requestHash
  }

  ghost predicate Faithful(db: Db) {
    Promised(db) && TicketsCarryTheirPayload(db)
  }

  /** A caller on its way to create a ticket has the payload the row records. */
  ghost predicate CallerMatches(db: Db, c: Caller) {
    match c
    case Reclaiming(key, seen) => key in db.keys && db.keys[key].requestHash == seen.requestHash
    case Owning(key, hash) => key in db.keys && db.keys[key].requestHash == hash
    case _ => true
  }

  ghost predicate CallersMatch(s: State) {
    forall p :: p in s.callers ==> CallerMatches(s.db, s.callers[p])
  }

  ghost predicate PayloadsAgreed(s: State) {
    Agreed(s) && TicketsCarryTheirPayload(s.db) && CallersMatch(s)
  }

  lemma PayloadsNext(db: Db, c: Caller, ok: bool, enqueued: EnqueueResult)
    requires DbAgreed(db) && TicketsCarryTheirPayload(db) && CallerAgrees(db, c) && CallerMatches(db, c)
    ensures TicketsCarryTheirPayload(NextDb(db, c, ok, enqueued))
  {
  }

  lemma PayloadsDb(s: State, step: Step)
    requires PayloadsAgreed(s)
    ensures TicketsCarryTheirPayload(StepDb(s, step))
  {
    match step
    case Next(p, ok, enqueued) => if p in s.callers { PayloadsNext(s.db, s.callers[p], ok, enqueued); }
    case Insert(_, _, _) =>
    case Tick(_) =>
    case Crash(_) =>
    case JobExpires(_) =>
    case Prune(_, _, _) =>
  }

  lemma NextMatches(db: Db, c: Caller, ok: bool, enqueued: EnqueueResult)
    requires CallerMatches(db, c) && NextCaller(db, c, ok, enqueued).Some?
    ensures CallerMatches(NextDb(db, c, ok, enqueued), NextCaller(db, c, ok, enqueued).value)
  {
  }

  lemma StillMatches(db: Db, after: Db, c: Caller)
    requires Keeps(db, after) && CallerMatches(db, c)
    ensures CallerMatches(after, c)
  {
  }

  lemma CallersKeepMatching(s: State, step: Step)
    requires PayloadsAgreed(s) && StepMeets(s, step, PruneSafe)
    ensures CallersMatch(Apply(s, step))
  {
    if !step.Prune? {
      var t := Apply(s, step);
      StepKeeps(s, step);
      forall q | q in t.callers ensures CallerMatches(t.db, t.callers[q]) {
        if q in s.callers {
          if step.Next? && step.p == q {
            NextMatches(s.db, s.callers[q], step.ok, step.enqueued);
          } else {
            StillMatches(s.db, t.db, s.callers[q]);
          }
        }
      }
    }
  }

  lemma PayloadsStep(s: State, step: Step)
    requires PayloadsAgreed(s) && StepMeets(s, step, PruneSafe)
    ensures PayloadsAgreed(Apply(s, step))
  {
    AgreedStep(s, step);
    PayloadsDb(s, step);
    CallersKeepMatching(s, step);
    assert Apply(s, step).db == StepDb(s, step);
  }

  lemma {:induction false} PayloadsRun(s: State, steps: seq<Step>)
    requires PayloadsAgreed(s) && RunMeets(s, steps, PruneSafe)
    ensures PayloadsAgreed(Run(s, steps))
  {
    if steps == [] {
    } else {
      PayloadsRun(s, steps[..|steps| - 1]);
      PayloadsStep(Run(s, steps[..|steps| - 1]), steps[|steps| - 1]);
    }
  }

  /** Over every safe run the ticket a key names came from the payload the key
      was claimed with. */
  lemma {:induction false} TicketsMatchTheirKeys(lease: nat, steps: seq<Step>)
    requires RunMeets(Init(lease), steps, PruneSafe)
    ensures Faithful(Run(Init(lease), steps).db)
  {
    PayloadsRun(Init(lease), steps);
  }

  // ---- The condition is exact ----

  function Other(hash: Digest): Digest {
    if hash == Sha256(Null) then Sha256(Arr([])) else Sha256(Null)
  }

  /** A caller still granted a key that was deleted creates its ticket under
      the row of whoever claims the key next, whatever that one's payload. */
  lemma LateOwnerMismatches(s: State, p: Pid)
    requires p in s.callers && s.callers[p].Owning? && s.callers[p].key in s.db.keys
    requires s.db.keys[s.callers[p].key].ticketId.None? && s.db.keys[s.callers[p].key].requestHash != s.callers[p].hash
    ensures CanBreak(s, Faithful)
  {
    var k, n := s.callers[p].key, Next(p, true, ADDED);
    assert Apply(s, n).db == CreateTicket(s.db, k, s.callers[p].hash);
    var db := Apply(s, n).db;
    assert db.keys[k].ticketId == Some(s.db.nextId + 1) && db.keys[k].requestHash != s.callers[p].hash;
    assert db.tickets[s.db.nextId + 1] == s.db.nextId && db.events[s.db.nextId].payload == s.callers[p].hash;
    assert !TicketsCarryTheirPayload(db);
    BreaksNow(Apply(s, n), Faithful);
    BreaksAfter(s, n, Faithful);
  }

  lemma LateGrantMismatches(s: State, p: Pid)
    requires p in s.callers && (s.callers[p].Reclaiming? || s.callers[p].Owning?) && s.callers[p].key !in s.db.keys
    ensures CanBreak(s, Faithful)
  {
    var k := s.callers[p].key;
    var hash := if s.callers[p].Owning? then s.callers[p].hash else s.callers[p].seen.requestHash;
    var q := FreshPid(s.callers.Keys);
    var i, tick, n := Insert(q, k, Other(hash)), Tick(s.db.lease + 1), Next(p, true, ADDED);
    var s1 := Apply(s, i);
    assert s1.callers[p] == s.callers[p] && s1.db == InsertKey(s.db, k, Other(hash));
    if s.callers[p].Owning? {
      LateOwnerMismatches(s1, p);
    } else {
      var s2 := Apply(s1, tick);
      var s3 := Apply(s2, n);
      assert s3.callers[p] == Owning(k, hash) && s3.db == ReclaimKey(s2.db, k);
      LateOwnerMismatches(s3, p);
      BreaksAfter(s2, n, Faithful);
      BreaksAfter(s1, tick, Faithful);
    }
    BreaksAfter(s, i, Faithful);
  }

  lemma UnclearGrantsBreak(s: State, keys: set<Key>, tickets: set<TicketId>, events: set<EventId>)
    requires Prunable(s.db, keys, tickets, events) && !GrantsClear(s, keys)
    ensures CanBreak(Apply(s, Prune(keys, tickets, events)), Faithful)
  {
    var after := Apply(s, Prune(keys, tickets, events));
    assert after == State(PruneRows(s.db, keys, tickets, events), s.callers);
    var p :| p in s.callers && (s.callers[p].Reclaiming? || s.callers[p].Owning?) && s.callers[p].key in keys;
    LateGrantMismatches(after, p);
  }

  lemma SafePassKeeps(s: State, keys: set<Key>, tickets: set<TicketId>, events: set<EventId>)
    requires PayloadsAgreed(s) && PruneSafe(s, keys, tickets)
    ensures !CanBreak(Apply(s, Prune(keys, tickets, events)), Faithful)
  {
    var after := Apply(s, Prune(keys, tickets, events));
    PayloadsStep(s, Prune(keys, tickets, events));
    forall steps | NoPrunes(steps) ensures Faithful(Run(after, steps).db) {
      NoPrunesMeets(after, steps, PruneSafe);
      PayloadsRun(after, steps);
    }
  }

  /** A retention pass leaves every key with a ticket of its own payload,
      whatever follows, exactly when no caller past its hash check spans it. */
  lemma PruneSafeIff(s: State, keys: set<Key>, tickets: set<TicketId>, events: set<EventId>)
    requires Inv(s.db) && PayloadsAgreed(s) && Prunable(s.db, keys, tickets, events)
    ensures PruneSafe(s, keys, tickets) <==> !CanBreak(Apply(s, Prune(keys, tickets, events)), Faithful)
  {
    if PruneSafe(s, keys, tickets) {
      SafePassKeeps(s, keys, tickets, events);
    } else if !GrantsClear(s, keys) {
      UnclearGrantsBreak(s, keys, tickets, events);
    } else {
      UnclearPassBreaks(s, keys, tickets, events);
      BreaksMore(Apply(s, Prune(keys, tickets, events)));
    }
  }

  lemma BreaksMore(s: State)
    requires CanBreak(s, Promised)
    ensures CanBreak(s, Faithful)
  {
    var steps :| NoPrunes(steps) && !Promised(Run(s, steps).db);
    assert !Faithful(Run(s, steps).db);
  }
}
