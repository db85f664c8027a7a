/** The enrichment pipeline under interference (src/pipeline/ticket.processor.ts,
    src/outbox/outbox.service.ts): any number of workers load a ticket, classify
    it and commit a guarded update together with its notification. A run may
    start for any ticket at any time, so first jobs, retries, upgrades, replays,
    reconciles and stalled jobs run twice are all covered; workers may crash or
    stall with an arbitrarily stale prior status. */
module TicketPipeline {
  import opened Common
  import opened JobIds

  /** FAILED is declared by the schema and never assigned. */
  datatype Status = PENDING | DEGRADED | ENRICHED | FAILED

  datatype Source = AI | FALLBACK

  datatype Classification = Classification(category: string, priority: string, summary: string, confidence: real)

  datatype Outcome = Outcome(status: Status, source: Source, result: Classification)

  /** What the enricher returns: an AI result, or a rule-based fallback. */
  predicate FromEnricher(o: Outcome) {
    (o.status.ENRICHED? && o.source.AI?) || (o.status.DEGRADED? && o.source.FALLBACK?)
  }

  datatype Ticket = Ticket(status: Status, source: Option<Source>, result: Option<Classification>, attempts: nat,
      updatedAt: nat)

  function NewTicket(now: nat): Ticket { Ticket(PENDING, None, None, 0, now) }

  datatype Kind = TRIAGED | UPGRADED

  /** One notification: the outbox row with this effect's dedup key. */
  datatype Effect = Effect(ticket: TicketId, kind: Kind)

  datatype Payload = Payload(source: Source, result: Classification)

  function EventType(kind: Kind): string {
    if kind.TRIAGED? then "ticket.triaged" else "ticket.enrichment_upgraded"
  }

  function DedupKeyOf(e: Effect, uuid: TicketId -> string): string {
    BuildDedupKey("ticket", uuid(e.ticket), EventType(e.kind), "v1")
  }

  /** A dedup key names the ticket, the event type and the version. */
  lemma DedupKeyReads(e: Effect, uuid: TicketId -> string)
    requires ':' !in uuid(e.ticket)
    ensures Split(DedupKeyOf(e, uuid)) ==
            ["ticket", uuid(e.ticket), if e.kind.TRIAGED? then "ticket.triaged" else "ticket.enrichment_upgraded", "v1"]
  {
    DedupKeyParts("ticket", uuid(e.ticket), EventType(e.kind), "v1");
  }

  /** Absorbing by dedup key is absorbing by effect. */
  lemma EffectsHaveTheirOwnKeys(a: Effect, b: Effect, uuid: TicketId -> string)
    requires ':' !in uuid(a.ticket) && ':' !in uuid(b.ticket)
    requires uuid(a.ticket) == uuid(b.ticket) ==> a.ticket == b.ticket
    ensures DedupKeyOf(a, uuid) == DedupKeyOf(b, uuid) <==> a == b
  {
    assert |EventType(TRIAGED)| == 14 && |EventType(UPGRADED)| == 26;
    DedupKeysInjective("ticket", uuid(a.ticket), EventType(a.kind), "v1", "ticket", uuid(b.ticket),
        EventType(b.kind), "v1");
  }

  // ---- The write-and-emit transaction ----

  /** The UPDATE's WHERE: a fallback never overwrites an AI result. */
  predicate UpdateApplies(t: Ticket, o: Outcome) {
    o.status.ENRICHED? || !t.status.ENRICHED?
  }

  function Updated(t: Ticket, o: Outcome, now: nat): Ticket {
    Ticket(o.status, Some(o.source), Some(o.result), t.attempts + 1, now)
  }

  /** The notification a committed write owes, by the status read beforehand. */
  function Owed(prior: Status, written: Status): Option<Kind> {
    if prior.PENDING? then Some(TRIAGED)
    else if prior.DEGRADED? && written.ENRICHED? then Some(UPGRADED)
    else None
  }

  datatype Worker = Worker(ticket: TicketId, prior: Status)

  /** A committed update: who read what, and everything it stored. */
  datatype Write = Write(ticket: TicketId, prior: Status, status: Status, source: Source, result: Classification,
                         at: nat)

  function Written(w: Worker, o: Outcome, now: nat): Write {
    Write(w.ticket, w.prior, o.status, o.source, o.result, now)
  }

  datatype State = State(
    tickets: map<TicketId, Ticket>,
    outbox: map<Effect, Payload>,
    workers: map<Pid, Worker>,
    created: set<TicketId>,       // ids ever used
    writes: seq<Write>,           // committed updates, in order
    emitted: seq<Effect>)         // outbox rows ever inserted, in order

  datatype Step =
    | Create(ticket: TicketId, now: nat)
    | Load(p: Pid, ticket: TicketId)
    | Commit(p: Pid, outcome: Outcome, now: nat)
    | Crash(p: Pid)
    | Prune(effects: set<Effect>, tickets: set<TicketId>)

  const INIT := State(map[], map[], map[], {}, [], [])

  predicate WriteLands(s: State, w: Worker, o: Outcome) {
    w.ticket in s.tickets && UpdateApplies(s.tickets[w.ticket], o)
  }

  /** INSERT ... ON CONFLICT (dedup_key) DO NOTHING */
  function Emit(s: State, e: Effect, payload: Payload): State {
    if e in s.outbox then s else s.(outbox := s.outbox[e := payload], emitted := s.emitted + [e])
  }

  function PersistAndEmit(s: State, w: Worker, o: Outcome, now: nat): State {
    if !WriteLands(s, w, o) then s
    else
      var written := s.(tickets := s.tickets[w.ticket := Updated(s.tickets[w.ticket], o, now)],
                        writes := s.writes + [Written(w, o, now)]);
      var owed := Owed(w.prior, o.status);
      if owed.None? then written else Emit(written, Effect(w.ticket, owed.value), Payload(o.source, o.result))
  }

  /** A retention pass deletes notifications and enriched tickets. */
  predicate Prunable(s: State, effects: set<Effect>, tickets: set<TicketId>) {
    && (forall e :: e in effects ==> e in s.outbox)
    && (forall t :: t in tickets ==> t in s.tickets && s.tickets[t].status.ENRICHED?)
  }

  function Apply(s: State, step: Step): State {
    match step
    case Create(t, now) =>
      if t in s.created then s else s.(tickets := s.tickets[t := NewTicket(now)], created := s.created + {t})
    case Load(p, t) =>
      if p in s.workers || t !in s.tickets then s
      else s.(workers := s.workers[p := Worker(t, s.tickets[t].status)])
    case Commit(p, o, now) =>
      if p !in s.workers || !FromEnricher(o) then s
      else PersistAndEmit(s.(workers := s.workers - {p}), s.workers[p], o, now)
    case Crash(p) => s.(workers := s.workers - {p})
    case Prune(effects, tickets) =>
      if Prunable(s, effects, tickets) then s.(outbox := s.outbox - effects, tickets := s.tickets - tickets) else s
  }

  function Run(s: State, steps: seq<Step>): State {
    if steps == [] then s else Apply(Run(s, steps[..|steps| - 1]), steps[|steps| - 1])
  }

  // ---- The history of one ticket ----

  /** The status the writes so far leave a ticket in. */
  function StatusAfter(writes: seq<Write>, t: TicketId): Status {
    if writes == [] then PENDING
    else if writes[|writes| - 1].ticket == t then writes[|writes| - 1].status
    else StatusAfter(writes[..|writes| - 1], t)
  }

  function WriteCount(writes: seq<Write>, t: TicketId): nat {
    if writes == [] then 0
    else WriteCount(writes[..|writes| - 1], t) + if writes[|writes| - 1].ticket == t then 1 else 0
  }

  /** The writer had read this status at some moment up to now. */
  ghost predicate WasRead(writes: seq<Write>, t: TicketId, prior: Status) {
    exists n :: 0 <= n <= |writes| && StatusAfter(writes[..n], t) == prior
  }

  /** Each write follows the rules at the moment it commits. */
  ghost predicate HistoryLegal(writes: seq<Write>) {
    writes == [] ||
    var front, last := writes[..|writes| - 1], writes[|writes| - 1];
    && HistoryLegal(front)
    && (last.status.ENRICHED? || (last.status.DEGRADED? && !StatusAfter(front, last.ticket).ENRICHED?))
    && WasRead(front, last.ticket, last.prior)
  }

  ghost predicate Owes(writes: seq<Write>, e: Effect) {
    exists i :: 0 <= i < |writes| && writes[i].ticket == e.ticket &&
        Owed(writes[i].prior, writes[i].status) == Some(e.kind)
  }

  // ---- Invariants of every run ----

  predicate SourceFits(t: Ticket) {
    match t.status
    case PENDING => t.source.None?
    case DEGRADED => t.source == Some(FALLBACK)
    case ENRICHED => t.source == Some(AI)
    case FAILED => false
  }

  ghost predicate TicketsFollowWrites(s: State) {
    && HistoryLegal(s.writes)
    && (forall t :: t in s.tickets ==>
          && t in s.created && SourceFits(s.tickets[t])
          && s.tickets[t].status == StatusAfter(s.writes, t) && s.tickets[t].attempts == WriteCount(s.writes, t))
    && (forall i :: 0 <= i < |s.writes| ==> s.writes[i].ticket in s.created)
  }

  ghost predicate WorkersReadHistory(s: State) {
    forall p :: p in s.workers ==>
        s.workers[p].ticket in s.created && WasRead(s.writes, s.workers[p].ticket, s.workers[p].prior)
  }

  /** A notification was inserted exactly for what some write owed. */
  ghost predicate EmittedIsOwed(s: State) {
    && (forall e :: e in s.emitted <==> Owes(s.writes, e))
    && (forall e :: e in s.outbox ==> e in s.emitted)
  }

  ghost predicate Inv(s: State) {
    TicketsFollowWrites(s) && WorkersReadHistory(s) && EmittedIsOwed(s)
  }

  lemma AppendWrite(writes: seq<Write>, w: Write)
    ensures forall t: TicketId ::
              StatusAfter(writes + [w], t) == if t == w.ticket then w.status else StatusAfter(writes, t)
    ensures forall t: TicketId :: WriteCount(writes + [w], t) == WriteCount(writes, t) + if t == w.ticket then 1 else 0
    ensures HistoryLegal(writes + [w]) <==>
              (HistoryLegal(writes) && WasRead(writes, w.ticket, w.prior) &&
               (w.status.ENRICHED? || (w.status.DEGRADED? && !StatusAfter(writes, w.ticket).ENRICHED?)))
    ensures forall e :: Owes(writes + [w], e) <==>
              Owes(writes, e) || (e.ticket == w.ticket && Owed(w.prior, w.status) == Some(e.kind))
  {
    var longer := writes + [w];
    assert longer[..|writes|] == writes && longer[|writes|] == w;
    forall e
      ensures Owes(longer, e) <==> Owes(writes, e) || (e.ticket == w.ticket && Owed(w.prior, w.status) == Some(e.kind))
    {
      if Owes(writes, e) {
        var i :| 0 <= i < |writes| && writes[i].ticket == e.ticket &&
            Owed(writes[i].prior, writes[i].status) == Some(e.kind);
        assert longer[i] == writes[i];
      }
    }
  }

  lemma StillRead(writes: seq<Write>, w: Write, t: TicketId, prior: Status)
    requires WasRead(writes, t, prior)
    ensures WasRead(writes + [w], t, prior)
  {
    var n :| 0 <= n <= |writes| && StatusAfter(writes[..n], t) == prior;
    assert (writes + [w])[..n] == writes[..n];
  }

  lemma ReadsNow(writes: seq<Write>, t: TicketId)
    ensures WasRead(writes, t, StatusAfter(writes, t))
  {
    assert writes[..|writes|] == writes;
  }

  lemma PersistFollowsWrites(s: State, w: Worker, o: Outcome, now: nat)
    requires TicketsFollowWrites(s) && FromEnricher(o) && WasRead(s.writes, w.ticket, w.prior)
    ensures TicketsFollowWrites(PersistAndEmit(s, w, o, now))
  {
    if WriteLands(s, w, o) {
      var after := PersistAndEmit(s, w, o, now);
      AppendWrite(s.writes, Written(w, o, now));
      assert after.tickets == s.tickets[w.ticket := Updated(s.tickets[w.ticket], o, now)];
      assert after.writes == s.writes + [Written(w, o, now)];
    }
  }

  lemma PersistKeepsReaders(s: State, w: Worker, o: Outcome, now: nat)
    requires WorkersReadHistory(s)
    ensures WorkersReadHistory(PersistAndEmit(s, w, o, now))
  {
    var write := Written(w, o, now);
    forall p | p in s.workers ensures WasRead(s.writes + [write], s.workers[p].ticket, s.workers[p].prior) {
      StillRead(s.writes, write, s.workers[p].ticket, s.workers[p].prior);
    }
  }

  lemma PersistEmitsOwed(s: State, w: Worker, o: Outcome, now: nat)
    requires EmittedIsOwed(s)
    ensures EmittedIsOwed(PersistAndEmit(s, w, o, now))
  {
    AppendWrite(s.writes, Written(w, o, now));
  }

  lemma InvPersist(s: State, w: Worker, o: Outcome, now: nat)
    requires Inv(s) && FromEnricher(o) && WasRead(s.writes, w.ticket, w.prior)
    ensures Inv(PersistAndEmit(s, w, o, now))
  {
    PersistFollowsWrites(s, w, o, now);
    PersistKeepsReaders(s, w, o, now);
    PersistEmitsOwed(s, w, o, now);
  }

  lemma InvStep(s: State, step: Step)
    requires Inv(s)
    ensures Inv(Apply(s, step))
  {
    match step
    case Create(t, now) =>
      if t !in s.created { NothingWritten(s.writes, t); }
    case Load(p, t) => if t in s.tickets { ReadsNow(s.writes, t); }
    case Commit(p, o, now) =>
      if p in s.workers && FromEnricher(o) { InvPersist(s.(workers := s.workers - {p}), s.workers[p], o, now); }
    case Crash(p) =>
    case Prune(effects, tickets) =>
  }

  lemma NothingWritten(writes: seq<Write>, t: TicketId)
    requires forall i :: 0 <= i < |writes| ==> writes[i].ticket != t
    ensures StatusAfter(writes, t) == PENDING && WriteCount(writes, t) == 0
  {
  }

  lemma {:induction false} InvRun(steps: seq<Step>)
    ensures Inv(Run(INIT, steps))
  {
    if steps == [] {
    } else {
      InvRun(steps[..|steps| - 1]);
      InvStep(Run(INIT, steps[..|steps| - 1]), steps[|steps| - 1]);
    }
  }

  // ---- The worker ----

  /** The outbox once a landed write has announced what it owes. */
  function Announced(outbox: map<Effect, Payload>, id: TicketId, prior: Status, o: Outcome): map<Effect, Payload> {
    var e := Effect(id, if prior.PENDING? then TRIAGED else UPGRADED);
    if !(prior.PENDING? || (prior.DEGRADED? && o.status.ENRICHED?)) || e in outbox then outbox
    else outbox[e := Payload(o.source, o.result)]
  }

  class TicketProcessor {
    var tickets: map<TicketId, Ticket>
    var outbox: map<Effect, Payload>
    const upgradeMaxAttempts: nat

    ghost function Tables(): State
      reads this
    {
      State(tickets, outbox, map[], {}, [], [])
    }

    constructor (upgradeMaxAttempts: nat)
      ensures tickets == map[] && outbox == map[] && this.upgradeMaxAttempts == upgradeMaxAttempts
    {
      tickets, outbox := map[], map[];
      this.upgradeMaxAttempts := upgradeMaxAttempts;
    }

    /** The transaction: the guarded UPDATE, and the notification it owes. The
        update lands on a known ticket unless a fallback meets an AI result; then
        the whole outcome is stored, one attempt is counted and no other ticket
        changes. The triage is announced by a writer that read PENDING, the
        upgrade by one that read DEGRADED and brings an AI result, each with this
        outcome unless its row exists. */
    method Persist(id: TicketId, prior: Status, outcome: Outcome, now: nat)
      modifies this
      ensures tickets == PersistAndEmit(old(Tables()), Worker(id, prior), outcome, now).tickets
      ensures outbox == PersistAndEmit(old(Tables()), Worker(id, prior), outcome, now).outbox
      ensures (id in old(tickets) && (outcome.status.ENRICHED? || !old(tickets)[id].status.ENRICHED?)) ==>
                && id in tickets && tickets == old(tickets)[id := tickets[id]]
                && tickets[id].status == outcome.status && tickets[id].source == Some(outcome.source)
                && tickets[id].result == Some(outcome.result) && tickets[id].updatedAt == now
                && tickets[id].attempts == old(tickets)[id].attempts + 1
                && outbox == Announced(old(outbox), id, prior, outcome)
      ensures !(id in old(tickets) && (outcome.status.ENRICHED? || !old(tickets)[id].status.ENRICHED?)) ==>
                tickets == old(tickets) && outbox == old(outbox)
    {
      if id !in tickets { return; }
      if !outcome.status.ENRICHED? && tickets[id].status.ENRICHED? { return; }
      var t := tickets[id];
      tickets := tickets[id := Ticket(outcome.status, Some(outcome.source), Some(outcome.result), t.attempts + 1, now)];
      if prior.PENDING? {
        EmitOnce(Effect(id, TRIAGED), Payload(outcome.source, outcome.result));
      } else if prior.DEGRADED? && outcome.status.ENRICHED? {
        EmitOnce(Effect(id, UPGRADED), Payload(outcome.source, outcome.result));
      }
    }

    method EmitOnce(e: Effect, payload: Payload)
      modifies this`outbox
      ensures outbox == if e in old(outbox) then old(outbox) else old(outbox)[e := payload]
    {
      if e !in outbox { outbox := outbox[e := payload]; }
    }

    /** One job, start to end, with nobody in between. A missing ticket throws;
        otherwise a fallback outcome schedules the next upgrade attempt while any
        is left, whether or not its write landed. */
    method Process(id: TicketId, upgradeAttempt: nat, outcome: Outcome, now: nat)
        returns (found: bool, upgrade: Option<nat>)
      modifies this
      ensures found <==> id in old(tickets)
      ensures !found ==> tickets == old(tickets) && outbox == old(outbox) && upgrade == None
      ensures found ==> var after := PersistAndEmit(old(Tables()), Worker(id, old(tickets)[id].status), outcome, now);
                        tickets == after.tickets && outbox == after.outbox
      ensures found && (outcome.status.ENRICHED? || !old(tickets)[id].status.ENRICHED?) ==>
                && id in tickets && tickets[id].status == outcome.status && tickets[id].source == Some(outcome.source)
                && tickets[id].result == Some(outcome.result)
                && outbox == Announced(old(outbox), id, old(tickets)[id].status, outcome)
      ensures found && outcome.status.DEGRADED? && old(tickets)[id].status.ENRICHED? ==>
                tickets == old(tickets) && outbox == old(outbox)
      ensures found ==> (upgrade.Some? <==> outcome.status.DEGRADED? && upgradeAttempt < upgradeMaxAttempts)
      ensures upgrade.Some? ==> upgrade.value == upgradeAttempt + 1
    {
      found, upgrade := id in tickets, None;
      if !found { return; }
      var prior := tickets[id].status;
      Persist(id, prior, outcome, now);
      if outcome.status.DEGRADED? {
        var attempt := upgradeAttempt + 1;
        if attempt <= upgradeMaxAttempts { upgrade := Some(attempt); }
      }
    }
  }
}
