/** The retention sweep (src/retention/retention.sweeper.ts): five deletes,
    children first, in one transaction. */
module Retention {
  import opened Common
  import L = IdempotencyLedger
  import I = Ingestion
  import P = TicketPipeline
  import R = OutboxRelay
  import D = DeadLetters

  datatype TicketRow = TicketRow(event: EventId, status: P.Status, updatedAt: nat)

  datatype Tables = Tables(
    outbox: map<R.Id, R.Row>,
    deadLetters: map<nat, D.DeadLetter>,
    keys: L.Ledger,
    tickets: map<TicketId, TicketRow>,
    events: map<EventId, I.EventRow>)

  // ---- The WHERE clauses ----

  predicate OutboxExpired(row: R.Row, cutoff: int) { !row.status.PENDING? && row.createdAt < cutoff }

  predicate DeadLetterExpired(row: D.DeadLetter, cutoff: int) { row.status.REPLAYED? && row.createdAt < cutoff }

  predicate KeyExpired(row: L.KeyRow, cutoff: int) { row.status.COMPLETED? && row.createdAt < cutoff }

  predicate TicketExpired(id: TicketId, row: TicketRow, keys: L.Ledger, cutoff: int) {
    && (row.status.ENRICHED? || row.status.FAILED?) && row.updatedAt < cutoff
    && forall k :: k in keys ==> keys[k].ticketId != Some(id)
  }

  predicate EventExpired(id: EventId, row: I.EventRow, tickets: map<TicketId, TicketRow>, cutoff: int) {
    row.receivedAt < cutoff && forall t :: t in tickets ==> tickets[t].event != id
  }

  // ---- The pass ----

  function SweptKeys(keys: L.Ledger, cutoff: int): L.Ledger {
    map k | k in keys && !KeyExpired(keys[k], cutoff) :: keys[k]
  }

  function SweptTickets(tickets: map<TicketId, TicketRow>, keys: L.Ledger, cutoff: int): map<TicketId, TicketRow> {
    map t | t in tickets && !TicketExpired(t, tickets[t], keys, cutoff) :: tickets[t]
  }

  function SweptEvents(events: map<EventId, I.EventRow>, tickets: map<TicketId, TicketRow>,
      cutoff: int): map<EventId, I.EventRow> {
    map e | e in events && !EventExpired(e, events[e], tickets, cutoff) :: events[e]
  }

  function Sweep(t: Tables, cutoff: int): Tables {
    var keys := SweptKeys(t.keys, cutoff);
    var tickets := SweptTickets(t.tickets, keys, cutoff);
    Tables(map id | id in t.outbox && !OutboxExpired(t.outbox[id], cutoff) :: t.outbox[id],
           map id | id in t.deadLetters && !DeadLetterExpired(t.deadLetters[id], cutoff) :: t.deadLetters[id],
           keys, tickets, SweptEvents(t.events, tickets, cutoff))
  }

  // ---- What a pass takes ----

  /** A row goes exactly when it is settled, older than the cutoff and named by
      no row that stays; every other row stays as it is. */
  ghost predicate TakesExpired(before: Tables, after: Tables, cutoff: int) {
    && RowsTaken(before, after, cutoff)
    && (forall id :: id in before.tickets && id !in after.tickets <==>
          && id in before.tickets && (before.tickets[id].status.ENRICHED? || before.tickets[id].status.FAILED?)
          && before.tickets[id].updatedAt < cutoff
          && forall k :: k in after.keys ==> after.keys[k].ticketId != Some(id))
    && (forall e :: e in before.events && e !in after.events <==>
          && e in before.events && before.events[e].receivedAt < cutoff
          && forall id :: id in after.tickets ==> after.tickets[id].event != e)
    && (forall id :: id in after.tickets ==> id in before.tickets && after.tickets[id] == before.tickets[id])
    && (forall e :: e in after.events ==> e in before.events && after.events[e] == before.events[e])
  }

  /** The tables nothing refers to from outside. */
  ghost predicate RowsTaken(before: Tables, after: Tables, cutoff: int) {
    && (forall id :: id in before.outbox && id !in after.outbox <==>
          && id in before.outbox && (before.outbox[id].status.SENT? || before.outbox[id].status.FAILED?)
          && before.outbox[id].createdAt < cutoff)
    && (forall id :: id in before.deadLetters && id !in after.deadLetters <==>
          && id in before.deadLetters && before.deadLetters[id].status.REPLAYED?
          && before.deadLetters[id].createdAt < cutoff)
    && (forall k :: k in before.keys && k !in after.keys <==>
          k in before.keys && before.keys[k].status.COMPLETED? && before.keys[k].createdAt < cutoff)
    && (forall id :: id in after.outbox ==> id in before.outbox && after.outbox[id] == before.outbox[id])
    && (forall id :: id in after.deadLetters ==>
          id in before.deadLetters && after.deadLetters[id] == before.deadLetters[id])
    && (forall k :: k in after.keys ==> k in before.keys && after.keys[k] == before.keys[k])
  }

  lemma SweepTakesExpired(t: Tables, cutoff: int)
    ensures TakesExpired(t, Sweep(t, cutoff), cutoff)
  {
    assert RowsTaken(t, Sweep(t, cutoff), cutoff);
  }

  /** Nothing younger than the cutoff goes, whatever its state. */
  lemma NothingYoungGoes(t: Tables, cutoff: int)
    ensures var s := Sweep(t, cutoff);
            && (forall id :: id in t.outbox && t.outbox[id].createdAt >= cutoff ==> id in s.outbox)
            && (forall id :: id in t.deadLetters && t.deadLetters[id].createdAt >= cutoff ==> id in s.deadLetters)
            && (forall k :: k in t.keys && t.keys[k].createdAt >= cutoff ==> k in s.keys)
            && (forall id :: id in t.tickets && t.tickets[id].updatedAt >= cutoff ==> id in s.tickets)
            && (forall e :: e in t.events && t.events[e].receivedAt >= cutoff ==> e in s.events)
  {
    SweepTakesExpired(t, cutoff);
  }

  // ---- What a pass leaves ----

  /** Every foreign key points at a row. */
  ghost predicate ReferencesIntact(t: Tables) {
    && (forall k :: k in t.keys && t.keys[k].ticketId.Some? ==> t.keys[k].ticketId.value in t.tickets)
    && (forall id :: id in t.tickets ==> t.tickets[id].event in t.events)
  }

  /** A pass breaks no reference, so neither ON DELETE SET NULL nor ON DELETE
      RESTRICT ever fires. */
  lemma SweepKeepsReferences(t: Tables, cutoff: int)
    requires ReferencesIntact(t)
    ensures ReferencesIntact(Sweep(t, cutoff))
  {
    var s := Sweep(t, cutoff);
    forall k | k in s.keys && s.keys[k].ticketId.Some? ensures s.keys[k].ticketId.value in s.tickets {
      assert s.keys[k] == t.keys[k];
    }
  }

  /** Live work survives at any age, and so does everything it refers to. */
  lemma LiveWorkSurvives(t: Tables, cutoff: int)
    requires ReferencesIntact(t)
    ensures var s := Sweep(t, cutoff);
            && (forall id :: id in t.outbox && t.outbox[id].status.PENDING? ==> id in s.outbox)
            && (forall id :: id in t.deadLetters && t.deadLetters[id].status.PENDING? ==> id in s.deadLetters)
            && (forall k :: k in t.keys && !t.keys[k].status.COMPLETED? ==>
                  && k in s.keys
                  && (t.keys[k].ticketId.Some? ==> t.keys[k].ticketId.value in s.tickets
                                                   && t.tickets[t.keys[k].ticketId.value].event in s.events))
            && (forall id :: id in t.tickets && (t.tickets[id].status.PENDING? || t.tickets[id].status.DEGRADED?) ==>
                  id in s.tickets && t.tickets[id].event in s.events)
  {
    SweepKeepsReferences(t, cutoff);
    var s := Sweep(t, cutoff);
    assert forall k :: k in s.keys ==> s.keys[k] == t.keys[k];
    assert forall id :: id in s.tickets ==> s.tickets[id] == t.tickets[id];
  }

  lemma EarlierKeyPass(keys: L.Ledger, earlier: int, cutoff: int)
    requires earlier <= cutoff
    ensures SweptKeys(SweptKeys(keys, earlier), cutoff) == SweptKeys(keys, cutoff)
  {
  }

  lemma EarlierTicketPass(tickets: map<TicketId, TicketRow>, keys: L.Ledger, earlier: int, cutoff: int)
    requires earlier <= cutoff
    ensures SweptTickets(SweptTickets(tickets, SweptKeys(keys, earlier), earlier), SweptKeys(keys, cutoff), cutoff)
            == SweptTickets(tickets, SweptKeys(keys, cutoff), cutoff)
  {
    var few, all := SweptKeys(keys, cutoff), SweptKeys(keys, earlier);
    forall t | t in tickets && TicketExpired(t, tickets[t], all, earlier)
      ensures TicketExpired(t, tickets[t], few, cutoff)
    {
      forall k | k in few ensures few[k].ticketId != Some(t) { assert k in all; }
    }
  }

  lemma EarlierEventPass(events: map<EventId, I.EventRow>, early: map<TicketId, TicketRow>,
                         late: map<TicketId, TicketRow>, earlier: int, cutoff: int)
    requires earlier <= cutoff && forall t :: t in late ==> t in early && late[t] == early[t]
    ensures SweptEvents(SweptEvents(events, early, earlier), late, cutoff) == SweptEvents(events, late, cutoff)
  {
    forall e | e in events && EventExpired(e, events[e], early, earlier)
      ensures EventExpired(e, events[e], late, cutoff)
    {
      forall t | t in late ensures late[t].event != e { assert t in early; }
    }
  }

  /** An earlier pass never changes what a later one leaves: whatever order the
      passes run in, rows go exactly when the latest cutoff says so. With equal
      cutoffs, a second pass deletes nothing. */
  lemma SweepsCompose(t: Tables, earlier: int, cutoff: int)
    requires earlier <= cutoff
    ensures Sweep(Sweep(t, earlier), cutoff) == Sweep(t, cutoff)
  {
    var first, direct := Sweep(t, earlier), Sweep(t, cutoff);
    EarlierKeyPass(t.keys, earlier, cutoff);
    EarlierTicketPass(t.tickets, t.keys, earlier, cutoff);
    assert Sweep(first, cutoff).tickets == direct.tickets;
    EarlierEventPass(t.events, first.tickets, direct.tickets, earlier, cutoff);
  }

  /** One pass already reaches its fixpoint. */
  lemma SweepIsFixpoint(t: Tables, cutoff: int)
    ensures Sweep(Sweep(t, cutoff), cutoff) == Sweep(t, cutoff)
  {
    SweepsCompose(t, cutoff, cutoff);
  }

  // ---- The sweeper ----

  lemma SmallerMap<K, V>(a: map<K, V>, b: map<K, V>)
    requires a.Keys <= b.Keys
    ensures |a| <= |b|
  {
    SubsetSize(a.Keys, b.Keys);
    assert |a| == |a.Keys| && |b| == |b.Keys|;
  }

  lemma SweepShrinks(t: Tables, cutoff: int)
    ensures NoneNegative(RowsGone(t, Sweep(t, cutoff)))
  {
    var s := Sweep(t, cutoff);
    SmallerMap(s.outbox, t.outbox);
    SmallerMap(s.deadLetters, t.deadLetters);
    SmallerMap(s.keys, t.keys);
    SmallerMap(s.tickets, t.tickets);
    SmallerMap(s.events, t.events);
  }

  datatype Pruned = Pruned(outbox: int, deadLetters: int, keys: int, tickets: int, events: int)

  predicate NoneNegative(p: Pruned) {
    p.outbox >= 0 && p.deadLetters >= 0 && p.keys >= 0 && p.tickets >= 0 && p.events >= 0
  }

  /** How many rows of each table went. */
  function RowsGone(before: Tables, after: Tables): Pruned {
    Pruned(|before.outbox| - |after.outbox|, |before.deadLetters| - |after.deadLetters|, |before.keys| - |after.keys|,
           |before.tickets| - |after.tickets|, |before.events| - |after.events|)
  }

  class RetentionSweeper {
    var tables: Tables
    var stopped: bool
    var running: bool

    constructor (t: Tables)
      ensures tables == t && !stopped && !running
    {
      tables := t;
      stopped, running := false, false;
    }

    /** The five deletes in source order. */
    method DeleteExpired(cutoff: int)
      modifies this`tables
      ensures tables == Sweep(old(tables), cutoff)
      ensures TakesExpired(old(tables), tables, cutoff)
    {
      SweepTakesExpired(tables, cutoff);
      tables := tables.(outbox :=
        map id | id in tables.outbox && !OutboxExpired(tables.outbox[id], cutoff) :: tables.outbox[id]);
      tables := tables.(deadLetters :=
        map id | id in tables.deadLetters &&
            !DeadLetterExpired(tables.deadLetters[id], cutoff) :: tables.deadLetters[id]);
      tables := tables.(keys :=
        map k | k in tables.keys && !KeyExpired(tables.keys[k], cutoff) :: tables.keys[k]);
      tables := tables.(tickets :=
        map t | t in tables.tickets && !TicketExpired(t, tables.tickets[t], tables.keys, cutoff) :: tables.tickets[t]);
      tables := tables.(events :=
        map e | e in tables.events && !EventExpired(e, tables.events[e], tables.tickets, cutoff) :: tables.events[e]);
    }

    /** The transaction: all five deletes or, when it fails, none. */
    method Transaction(cutoff: int, commits: bool) returns (pruned: Option<Pruned>)
      modifies this`tables
      ensures tables == if commits then Sweep(old(tables), cutoff) else old(tables)
      ensures commits ==> TakesExpired(old(tables), tables, cutoff)
      ensures pruned == if commits then Some(RowsGone(old(tables), tables)) else None
      ensures pruned.Some? ==> NoneNegative(pruned.value)
    {
      var before := tables;
      DeleteExpired(cutoff);
      if commits {
        pruned := Some(RowsGone(before, tables));
        SweepShrinks(before, cutoff);
      } else {
        tables := before;
        pruned := None;
      }
    }

    /** One pass, unless one is running or the process is shutting down. */
    method RunSweep(now: nat, maxAgeMs: nat, commits: bool) returns (pruned: Option<Pruned>)
      modifies this`running, this`tables
      ensures running == old(running)
      ensures pruned.Some? <==> !stopped && !old(running) && commits
      ensures pruned.None? ==> tables == old(tables)
      ensures pruned.Some? ==> tables == Sweep(old(tables), now - maxAgeMs)
      ensures pruned.Some? ==> TakesExpired(old(tables), tables, now - maxAgeMs)
      ensures pruned.Some? ==> pruned.value == RowsGone(old(tables), tables) && NoneNegative(pruned.value)
    {
      if stopped || running { return None; }
      running := true;
      pruned := Transaction(now - maxAgeMs, commits);
      running := false;
    }
  }
}
