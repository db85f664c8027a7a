/** The whole engine: ingestion, pipeline, relays and retention over the same
    tables, refining the sequential specification. */
module Engine {
  import opened Common
  import opened Specification
  import I = Ingestion
  import A = IngestionAgreement
  import P = TicketPipeline
  import N = TicketAnnouncements
  import R = OutboxRelay
  import T = Retention
  import L = IdempotencyLedger

  // ---- The engine ----

  /** The ticket row is split by the columns each part writes: its event in ing,
      its enrichment in pipe; the outbox row likewise: its payload in pipe, its
      delivery in relay. */
  datatype State = State(ing: I.State, pipe: P.State, relay: R.State)

  datatype Step =
    | Tick(ms: nat)
    | Ingest(statement: I.Step)
    | Work(action: P.Step)
    | Relay(move: R.Step)
    | Sweep(cutoff: int)

  function Init(lease: nat, cfg: R.Config): State {
    State(I.Init(lease), P.INIT, R.Init(cfg))
  }

  predicate CreatesTicket(s: I.State, step: I.Step) {
    && step.Next? && step.p in s.callers && s.callers[step.p].Owning? && step.ok
    && s.callers[step.p].key in s.db.keys && s.db.keys[s.callers[step.p].key].ticketId.None?
  }

  function WithTicket(s: I.State, step: I.Step, pipe: P.State): P.State {
    if CreatesTicket(s, step) then P.Apply(pipe, P.Create(s.db.nextId + 1, s.db.now)) else pipe
  }

  /** The step commits an update. */
  predicate Lands(s: P.State, step: P.Step) {
    && step.Commit? && step.p in s.workers && P.FromEnricher(step.outcome)
    && P.WriteLands(s, s.workers[step.p], step.outcome)
  }

  /** The notification a committing run inserts, if it does. */
  function Inserted(s: P.State, step: P.Step): Option<P.Effect> {
    if Lands(s, step) then
      var w := s.workers[step.p];
      var owed := P.Owed(w.prior, step.outcome.status);
      if owed.Some? && P.Effect(w.ticket, owed.value) !in s.outbox then Some(P.Effect(w.ticket, owed.value)) else None
    else None
  }

  function TablesOf(e: State): T.Tables {
    T.Tables(e.relay.rows, map[], e.ing.db.keys,
             map t | t in e.ing.db.tickets && t in e.pipe.tickets
               :: T.TicketRow(e.ing.db.tickets[t], e.pipe.tickets[t].status, e.pipe.tickets[t].updatedAt),
             e.ing.db.events)
  }

  datatype Deleted = Deleted(keys: set<Key>, tickets: set<TicketId>, events: set<EventId>, effects: set<P.Effect>)

  /** The rows a sweep at this cutoff deletes. */
  function DeletedBy(e: State, cutoff: int): Deleted {
    var before := TablesOf(e);
    var after := T.Sweep(before, cutoff);
    Deleted(before.keys.Keys - after.keys.Keys, before.tickets.Keys - after.tickets.Keys,
            before.events.Keys - after.events.Keys, before.outbox.Keys - after.outbox.Keys)
  }

  ghost function WithRow(s: P.State, step: P.Step, relay: R.State): R.State {
    if Inserted(s, step).Some? then R.Apply(relay, R.Insert(Inserted(s, step).value)) else relay
  }

  ghost function WithoutRows(e: State, d: Deleted): State {
    State(I.Apply(e.ing, I.Prune(d.keys, d.tickets, d.events)),
          P.Apply(e.pipe, P.Prune(d.effects, d.tickets)),
          R.Apply(e.relay, R.Prune(d.effects)))
  }

  /** A worker's own step, at the database's time. */
  predicate Works(e: State, s: P.Step) {
    !s.Create? && !s.Prune? && (s.Commit? ==> s.now == e.ing.db.now)
  }

  predicate Relays(s: R.Step) { !s.Tick? && !s.Insert? && !s.Prune? }

  ghost function Apply(e: State, step: Step): State {
    match step
    case Tick(ms) => e.(ing := I.Apply(e.ing, I.Tick(ms)), relay := R.Apply(e.relay, R.Tick(ms)))
    case Ingest(s) =>
      if s.Tick? || s.Prune? then e
      else e.(ing := I.Apply(e.ing, s), pipe := WithTicket(e.ing, s, e.pipe))
    case Work(s) =>
      if Works(e, s) then e.(pipe := P.Apply(e.pipe, s), relay := WithRow(e.pipe, s, e.relay)) else e
    case Relay(s) => if Relays(s) then e.(relay := R.Apply(e.relay, s)) else e
    case Sweep(cutoff) => WithoutRows(e, DeletedBy(e, cutoff))
  }

  ghost function Run(e: State, steps: seq<Step>): State {
    if steps == [] then e else Apply(Run(e, steps[..|steps| - 1]), steps[|steps| - 1])
  }

  /** No caller with a ticket and no worker that could repeat an announcement
      spans the sweep. */
  ghost predicate StepSafe(e: State, step: Step) {
    step.Sweep? ==>
      var d := DeletedBy(e, step.cutoff);
      A.CallersClear(e.ing, d.keys, d.tickets) && N.PruneSafe(e.pipe, d.effects, d.tickets)
  }

  ghost predicate SafeRun(e: State, steps: seq<Step>) {
    steps == [] ||
    (SafeRun(e, steps[..|steps| - 1]) && StepSafe(Run(e, steps[..|steps| - 1]), steps[|steps| - 1]))
  }

  // ---- The abstraction ----

  ghost function Abs(e: State): Spec {
    Spec(TicketIds(e.ing.db.keys), Levels(e.pipe.tickets), Degraded(e.pipe.writes),
         multiset(e.pipe.emitted), set x | x in e.relay.delivered)
  }

  function TicketIds(keys: L.Ledger): map<Key, Option<TicketId>> { map k | k in keys :: keys[k].ticketId }

  function Levels(tickets: map<TicketId, P.Ticket>): map<TicketId, P.Status> {
    map t | t in tickets :: tickets[t].status
  }

  function Degraded(writes: seq<P.Write>): set<TicketId> {
    set i | 0 <= i < |writes| && writes[i].status.DEGRADED? :: writes[i].ticket
  }

  function InsertedKinds(s: P.State, a: P.Step): set<P.Kind> {
    if Inserted(s, a).Some? then {Inserted(s, a).value.kind} else {}
  }

  /** The notification a dispatch hands to its target, if it arrives. */
  function Arriving(s: R.State, m: R.Step): Option<P.Effect> {
    if m.Dispatch? && m.p in s.relays && |s.relays[m.p].results| < |s.relays[m.p].claimed| &&
        (m.result.OK? || m.arrived)
    then Some(s.relays[m.p].claimed[|s.relays[m.p].results|]) else None
  }

  function IngestMirror(s: I.State, step: I.Step): SpecStep {
    if CreatesTicket(s, step) then Open(s.callers[step.p].key, s.db.nextId + 1)
    else if step.Insert? && step.p !in s.callers && step.key !in s.db.keys then Register(step.key)
    else Stutter
  }

  function WorkMirror(s: P.State, a: P.Step): SpecStep {
    if Lands(s, a) && (s.tickets[s.workers[a.p].ticket].status != a.outcome.status || Inserted(s, a).Some?)
    then Climb(s.workers[a.p].ticket, a.outcome.status, InsertedKinds(s, a)) else Stutter
  }

  function RelayMirror(s: R.State, m: R.Step): SpecStep {
    if Arriving(s, m).Some? && Arriving(s, m).value !in s.delivered then Deliver(Arriving(s, m).value) else Stutter
  }

  /** The specification step each engine step is. A lost insert, a reclaim, a
      retry, a mark, a skipped write, a repeated result, an absorbed
      notification, a redelivery, a commit and a rollback are all stutters. */
  ghost function Mirror(e: State, step: Step): SpecStep {
    match step
    case Tick(_) => Stutter
    case Ingest(s) => IngestMirror(e.ing, s)
    case Work(a) => if Works(e, a) then WorkMirror(e.pipe, a) else Stutter
    case Relay(m) => RelayMirror(e.relay, m)
    case Sweep(cutoff) => Forget(DeletedBy(e, cutoff).keys, DeletedBy(e, cutoff).tickets)
  }

  // ---- Invariants ----

  ghost predicate TicketsLinked(ing: I.State, pipe: P.State) {
    && ing.db.tickets.Keys == pipe.tickets.Keys
    && (forall t :: t in pipe.created ==> t < ing.db.nextId)
  }

  ghost predicate OutboxLinked(pipe: P.State, relay: R.State) {
    && relay.rows.Keys == pipe.outbox.Keys
    && (forall x :: x in relay.used <==> x in pipe.emitted)
  }

  ghost predicate Linked(e: State) {
    TicketsLinked(e.ing, e.pipe) && OutboxLinked(e.pipe, e.relay) && e.relay.now == e.ing.db.now
  }

  ghost predicate IngestInv(s: I.State) { I.Inv(s.db) && A.Agreed(s) }

  ghost predicate PipeInv(s: P.State) { P.Inv(s) && N.Absorbed(s) }

  ghost predicate Inv(e: State) {
    IngestInv(e.ing) && PipeInv(e.pipe) && R.Inv(e.relay) && Linked(e)
  }

  lemma InitInv(lease: nat, cfg: R.Config)
    requires R.ValidConfig(cfg)
    ensures Inv(Init(lease, cfg))
  {
  }

  lemma IngestStep(s: I.State, step: I.Step)
    requires IngestInv(s) && A.StepClear(s, step)
    ensures IngestInv(I.Apply(s, step))
  {
    I.InvStep(s, step);
    A.AgreedStep(s, step);
  }

  lemma PipeStep(s: P.State, step: P.Step)
    requires PipeInv(s) && N.StepSafe(s, step)
    ensures PipeInv(P.Apply(s, step))
  {
    P.InvStep(s, step);
    N.AbsorbedStep(s, step);
  }

  // ---- Ingestion ----

  lemma IngestLinks(ing: I.State, pipe: P.State, s: I.Step)
    requires TicketsLinked(ing, pipe) && !s.Tick? && !s.Prune?
    ensures TicketsLinked(I.Apply(ing, s), WithTicket(ing, s, pipe))
    ensures I.Apply(ing, s).db.now == ing.db.now
    ensures WithTicket(ing, s, pipe).outbox == pipe.outbox && WithTicket(ing, s, pipe).emitted == pipe.emitted
  {
    if s.Next? && s.p in ing.callers { NextLinks(ing, pipe, s); }
  }

  lemma NextLinks(ing: I.State, pipe: P.State, s: I.Step)
    requires TicketsLinked(ing, pipe) && s.Next? && s.p in ing.callers
    ensures TicketsLinked(I.Apply(ing, s), WithTicket(ing, s, pipe))
    ensures I.Apply(ing, s).db.now == ing.db.now
  {
    var c, db := ing.callers[s.p], I.NextDb(ing.db, ing.callers[s.p], s.ok, s.enqueued);
    assert CreatesTicket(ing, s) ==> db == I.CreateTicket(ing.db, c.key, c.hash);
    assert !CreatesTicket(ing, s) ==> db.tickets == ing.db.tickets && db.nextId == ing.db.nextId;
  }

  lemma IngestKeeps(e: State, s: I.Step)
    requires Inv(e) && !s.Tick? && !s.Prune?
    ensures Inv(Apply(e, Ingest(s)))
  {
    var after := Apply(e, Ingest(s));
    assert after == e.(ing := I.Apply(e.ing, s), pipe := WithTicket(e.ing, s, e.pipe));
    IngestStep(e.ing, s);
    PipeStep(e.pipe, P.Create(e.ing.db.nextId + 1, e.ing.db.now));
    assert Linked(after) by { IngestLinks(e.ing, e.pipe, s); }
  }

  /** Only createTicketIfAbsent changes which ticket a known key names. */
  lemma OtherStatementsKeepTickets(s: I.State, step: I.Step)
    requires A.CallersAgree(s) && step.Next? && !CreatesTicket(s, step)
    ensures TicketIds(I.StepDb(s, step).keys) == TicketIds(s.db.keys)
  {
    if step.p in s.callers { assert A.CallerAgrees(s.db, s.callers[step.p]); }
  }

  lemma UnusedId(ing: I.State, pipe: P.State, t: TicketId)
    requires TicketsLinked(ing, pipe) && P.EmittedIsOwed(pipe) && P.TicketsFollowWrites(pipe) && t >= ing.db.nextId
    ensures t !in Levels(pipe.tickets) && t !in Degraded(pipe.writes)
    ensures forall kind :: P.Effect(t, kind) !in multiset(pipe.emitted)
  {
    assert forall i :: 0 <= i < |pipe.writes| ==> pipe.writes[i].ticket in pipe.created;
    assert forall kind :: !P.Owes(pipe.writes, P.Effect(t, kind));
  }

  lemma CreationOpens(ing: I.State, pipe: P.State, s: I.Step)
    requires TicketsLinked(ing, pipe) && P.EmittedIsOwed(pipe) && P.TicketsFollowWrites(pipe) && CreatesTicket(ing, s)
    ensures var key, t := ing.callers[s.p].key, ing.db.nextId + 1;
            && key in ing.db.keys && ing.db.keys[key].ticketId.None?
            && TicketIds(I.Apply(ing, s).db.keys) == TicketIds(ing.db.keys)[key := Some(t)]
            && Levels(WithTicket(ing, s, pipe).tickets) == Levels(pipe.tickets)[t := P.PENDING]
            && WithTicket(ing, s, pipe).writes == pipe.writes && WithTicket(ing, s, pipe).emitted == pipe.emitted
  {
    UnusedId(ing, pipe, ing.db.nextId + 1);
    var c := ing.callers[s.p];
    assert I.StepDb(ing, s) == I.CreateTicket(ing.db, c.key, c.hash);
  }

  lemma OthersRefine(e: State, s: I.Step)
    requires A.CallersAgree(e.ing) && !s.Tick? && !s.Prune? && !CreatesTicket(e.ing, s)
    ensures SpecAllows(Abs(e), IngestMirror(e.ing, s), Abs(Apply(e, Ingest(s))))
  {
    if s.Next? {
      OtherStatementsKeepTickets(e.ing, s);
    } else if s.Insert? && s.p !in e.ing.callers && s.key !in e.ing.db.keys {
      assert TicketIds(I.StepDb(e.ing, s).keys) == TicketIds(e.ing.db.keys)[s.key := None];
    }
  }

  lemma CreationRefines(e: State, s: I.Step)
    requires TicketsLinked(e.ing, e.pipe) && P.EmittedIsOwed(e.pipe) && P.TicketsFollowWrites(e.pipe)
    requires CreatesTicket(e.ing, s)
    ensures SpecAllows(Abs(e), IngestMirror(e.ing, s), Abs(Apply(e, Ingest(s))))
  {
    CreationShows(e, s);
    UnusedId(e.ing, e.pipe, e.ing.db.nextId + 1);
  }

  lemma CreationShows(e: State, s: I.Step)
    requires TicketsLinked(e.ing, e.pipe) && P.EmittedIsOwed(e.pipe) && P.TicketsFollowWrites(e.pipe)
    requires CreatesTicket(e.ing, s)
    ensures var a, key, t := Abs(e), e.ing.callers[s.p].key, e.ing.db.nextId + 1;
            && key in a.rows && a.rows[key].None?
            && Abs(Apply(e, Ingest(s))) == a.(rows := a.rows[key := Some(t)], levels := a.levels[t := P.PENDING])
  {
    CreationOpens(e.ing, e.pipe, s);
    assert Apply(e, Ingest(s)) == e.(ing := I.Apply(e.ing, s), pipe := WithTicket(e.ing, s, e.pipe));
  }

  /** A caller's statement registers a key, opens its one ticket or changes
      nothing that matters. */
  lemma IngestRefines(e: State, s: I.Step)
    requires TicketsLinked(e.ing, e.pipe) && A.CallersAgree(e.ing)
    requires P.EmittedIsOwed(e.pipe) && P.TicketsFollowWrites(e.pipe)
    requires !s.Tick? && !s.Prune?
    ensures SpecAllows(Abs(e), IngestMirror(e.ing, s), Abs(Apply(e, Ingest(s))))
  {
    if CreatesTicket(e.ing, s) {
      CreationRefines(e, s);
    } else {
      OthersRefine(e, s);
    }
  }

  // ---- The pipeline ----

  /** A worker inserts only notifications never inserted before. */
  lemma InsertedIsNew(s: P.State, a: P.Step)
    requires P.EmittedIsOwed(s) && N.Absorbed(s) && Inserted(s, a).Some?
    ensures Inserted(s, a).value !in s.emitted
  {
    var w := s.workers[a.p];
    assert N.MayAnnounce(w, Inserted(s, a).value);
  }

  lemma WorkLinks(pipe: P.State, relay: R.State, a: P.Step)
    requires OutboxLinked(pipe, relay) && !a.Create? && !a.Prune?
    requires Inserted(pipe, a).Some? ==> Inserted(pipe, a).value !in pipe.emitted
    ensures OutboxLinked(P.Apply(pipe, a), WithRow(pipe, a, relay)) && WithRow(pipe, a, relay).now == relay.now
    ensures P.Apply(pipe, a).tickets.Keys == pipe.tickets.Keys && P.Apply(pipe, a).created == pipe.created
    ensures WithRow(pipe, a, relay).delivered == relay.delivered
  {
  }

  lemma WorkKeeps(e: State, a: P.Step)
    requires Inv(e) && Works(e, a)
    ensures Inv(Apply(e, Work(a)))
  {
    var after := Apply(e, Work(a));
    assert after == e.(pipe := P.Apply(e.pipe, a), relay := WithRow(e.pipe, a, e.relay));
    PipeStep(e.pipe, a);
    if Inserted(e.pipe, a).Some? {
      InsertedIsNew(e.pipe, a);
      R.InvStep(e.relay, R.Insert(Inserted(e.pipe, a).value));
    }
    assert Linked(after) by { WorkLinks(e.pipe, e.relay, a); }
  }

  lemma DegradedWasWritten(writes: seq<P.Write>, t: TicketId)
    requires P.StatusAfter(writes, t).DEGRADED?
    ensures t in Degraded(writes)
  {
    var i := N.WriteBehind(writes, t);
  }

  lemma UpgradedWasDegraded(writes: seq<P.Write>, t: TicketId)
    requires P.HistoryLegal(writes) && P.Owes(writes, P.Effect(t, P.UPGRADED))
    ensures t in Degraded(writes) && P.StatusAfter(writes, t).ENRICHED?
  {
    N.UpgradedNeedsBoth(writes, t);
    var i, j :| 0 <= i < j < |writes| && writes[i].ticket == t == writes[j].ticket
                && writes[i].status.DEGRADED? && writes[j].status.ENRICHED?;
  }

  lemma ReadWasWritten(writes: seq<P.Write>, t: TicketId)
    requires P.WasRead(writes, t, P.DEGRADED)
    ensures t in Degraded(writes)
  {
    var n :| 0 <= n <= |writes| && P.StatusAfter(writes[..n], t) == P.DEGRADED;
    var i := N.WriteBehind(writes[..n], t);
    assert writes[..n][i] == writes[i];
  }

  /** What a write announces, by the status the ticket really had: if it shows
      at all, it is a climb the specification allows. */
  lemma KindsFit(s: P.State, a: P.Step)
    requires PipeInv(s) && Lands(s, a)
    ensures var t := s.workers[a.p].ticket; var from := s.tickets[t].status;
            if from == a.outcome.status && Inserted(s, a).None? then WorkMirror(s, a) == Stutter
            else ClimbAllowed(from, a.outcome.status, InsertedKinds(s, a), t in Degraded(s.writes))
  {
    var w := s.workers[a.p];
    N.ReadIsBelow(s.writes, w.ticket, w.prior);
    N.TriagedIsOwed(s.writes, w.ticket);
    if w.prior.DEGRADED? { ReadWasWritten(s.writes, w.ticket); }
    if P.Owes(s.writes, P.Effect(w.ticket, P.UPGRADED)) { UpgradedWasDegraded(s.writes, w.ticket); }
    if Inserted(s, a).Some? { InsertedIsNew(s, a); }
    if w.prior.PENDING? && P.Effect(w.ticket, P.TRIAGED) in s.emitted {
      assert N.MayAnnounce(w, P.Effect(w.ticket, P.TRIAGED));
    }
    if w.prior.DEGRADED? && P.Effect(w.ticket, P.UPGRADED) in s.emitted {
      assert N.MayAnnounce(w, P.Effect(w.ticket, P.UPGRADED));
    }
  }

  lemma WriteAppends(s: P.State, a: P.Step)
    requires Lands(s, a)
    ensures var after, t := P.Apply(s, a), s.workers[a.p].ticket;
            && multiset(after.emitted) == multiset(s.emitted) + EffectsOf(t, InsertedKinds(s, a))
            && Levels(after.tickets) == Levels(s.tickets)[t := a.outcome.status]
            && after.writes == s.writes + [P.Written(s.workers[a.p], a.outcome, a.now)]
  {
    CountEffects(s.workers[a.p].ticket, InsertedKinds(s, a));
  }

  lemma DegradedAppend(writes: seq<P.Write>, w: P.Write)
    ensures Degraded(writes + [w]) == if w.status.DEGRADED? then Degraded(writes) + {w.ticket} else Degraded(writes)
  {
    var longer := writes + [w];
    forall t | t in Degraded(writes) ensures t in Degraded(longer) {
      var i :| 0 <= i < |writes| && writes[i].status.DEGRADED? && writes[i].ticket == t;
      assert longer[i] == writes[i];
    }
    assert longer[|writes|] == w;
  }

  lemma WriteClimbs(e: State, a: P.Step)
    requires PipeInv(e.pipe) && Works(e, a) && Lands(e.pipe, a)
    ensures SpecAllows(Abs(e), WorkMirror(e.pipe, a), Abs(Apply(e, Work(a))))
  {
    var w := e.pipe.workers[a.p];
    KindsFit(e.pipe, a);
    WriteShows(e, a);
    if WorkMirror(e.pipe, a).Climb? {
      if Inserted(e.pipe, a).Some? { InsertedIsNew(e.pipe, a); }
    } else {
      if a.outcome.status.DEGRADED? { DegradedWasWritten(e.pipe.writes, w.ticket); }
      RepeatChangesNothing(Abs(e), w.ticket, a.outcome.status);
    }
  }

  lemma RepeatChangesNothing(a: Spec, t: TicketId, level: P.Status)
    requires t in a.levels && a.levels[t] == level && (level.DEGRADED? ==> t in a.degraded)
    ensures Climbed(a, t, level, {}) == a
  {
    CountEffects(t, {});
    assert EffectsOf(t, {}) == multiset{};
  }

  lemma WriteShows(e: State, a: P.Step)
    requires Works(e, a) && Lands(e.pipe, a)
    ensures var t := e.pipe.workers[a.p].ticket;
            Abs(Apply(e, Work(a))) == Climbed(Abs(e), t, a.outcome.status, InsertedKinds(e.pipe, a))
  {
    var w := e.pipe.workers[a.p];
    WriteAppends(e.pipe, a);
    DegradedAppend(e.pipe.writes, P.Written(w, a.outcome, a.now));
    WriteTouchesNothingElse(e, a);
  }

  lemma WriteTouchesNothingElse(e: State, a: P.Step)
    requires Works(e, a)
    ensures var after := Apply(e, Work(a));
            after.ing == e.ing && after.pipe == P.Apply(e.pipe, a) && after.relay.delivered == e.relay.delivered
  {
  }

  /** A worker's statement moves its ticket up, with the notification that goes
      with it, or changes nothing: stale and repeated runs are stutters. */
  lemma {:induction false} WorkRefines(e: State, a: P.Step)
    requires PipeInv(e.pipe) && Works(e, a)
    ensures SpecAllows(Abs(e), WorkMirror(e.pipe, a), Abs(Apply(e, Work(a))))
  {
    if Lands(e.pipe, a) {
      WriteClimbs(e, a);
    } else {
      WriteTouchesNothingElse(e, a);
      IdleWorkChangesNothing(e.pipe, a);
    }
  }

  lemma IdleWorkChangesNothing(s: P.State, a: P.Step)
    requires !a.Create? && !a.Prune? && !Lands(s, a)
    ensures P.Apply(s, a).tickets == s.tickets && P.Apply(s, a).writes == s.writes && P.Apply(s, a).emitted == s.emitted
  {
  }

  // ---- The relays ----

  lemma RelayLinks(pipe: P.State, relay: R.State, m: R.Step)
    requires OutboxLinked(pipe, relay) && R.Inv(relay) && Relays(m)
    ensures OutboxLinked(pipe, R.Apply(relay, m)) && R.Apply(relay, m).now == relay.now
  {
    if m.Commit? && R.CanCommit(relay, m.p) {
      var tx := relay.relays[m.p];
      R.DrainedAt(relay.cfg, relay.rows, tx.now, tx.claimed, tx.results);
    }
  }

  lemma RelayKeeps(e: State, m: R.Step)
    requires Inv(e) && Relays(m)
    ensures Inv(Apply(e, Relay(m)))
  {
    assert Apply(e, Relay(m)) == e.(relay := R.Apply(e.relay, m));
    RelayLinks(e.pipe, e.relay, m);
    R.InvStep(e.relay, m);
  }

  lemma ArrivingIsHeld(s: R.State, m: R.Step)
    requires R.TxsSound(s)
    ensures Arriving(s, m).Some? ==> Arriving(s, m).value in s.rows
    ensures R.Apply(s, m).delivered ==
            s.delivered + if Arriving(s, m).Some? then multiset{Arriving(s, m).value} else multiset{}
  {
    if Arriving(s, m).Some? { assert Arriving(s, m).value in s.relays[m.p].claimed; }
  }

  /** A dispatch that arrives delivers an announced notification; a redelivery,
      a commit and a rollback are stutters. */
  lemma RelayRefines(e: State, m: R.Step)
    requires OutboxLinked(e.pipe, e.relay) && P.EmittedIsOwed(e.pipe) && R.TxsSound(e.relay)
    ensures SpecAllows(Abs(e), RelayMirror(e.relay, m), Abs(Apply(e, Relay(m))))
  {
    var after := Apply(e, Relay(m));
    if Relays(m) {
      ArrivingIsHeld(e.relay, m);
      assert after.ing == e.ing && after.pipe == e.pipe && after.relay == R.Apply(e.relay, m);
    } else {
      assert after == e;
    }
  }

  // ---- Time ----

  lemma TickKeeps(e: State, ms: nat)
    requires Inv(e)
    ensures Inv(Apply(e, Tick(ms))) && Abs(Apply(e, Tick(ms))) == Abs(e)
  {
    IngestStep(e.ing, I.Tick(ms));
    R.InvStep(e.relay, R.Tick(ms));
  }

  // ---- Retention ----

  ghost predicate Deletable(e: State, d: Deleted) {
    && I.Prunable(e.ing.db, d.keys, d.tickets, d.events)
    && P.Prunable(e.pipe, d.effects, d.tickets)
    && R.Prunable(e.relay, d.effects)
  }

  /** Every delete of a pass is one the other parts can bear. */
  lemma SweepIsEnabled(e: State, cutoff: int)
    requires Linked(e) && P.TicketsFollowWrites(e.pipe)
    ensures Deletable(e, DeletedBy(e, cutoff))
  {
    var t, d := TablesOf(e), DeletedBy(e, cutoff);
    assert t.tickets.Keys == e.pipe.tickets.Keys;
    IngestDeletable(e, cutoff);
    assert forall id :: id in d.tickets ==> T.TicketExpired(id, t.tickets[id], T.Sweep(t, cutoff).keys, cutoff);
  }

  lemma IngestDeletable(e: State, cutoff: int)
    requires TicketsLinked(e.ing, e.pipe)
    ensures var d := DeletedBy(e, cutoff); I.Prunable(e.ing.db, d.keys, d.tickets, d.events)
  {
    var t, d := TablesOf(e), DeletedBy(e, cutoff);
    var s := T.Sweep(t, cutoff);
    forall k | k in e.ing.db.keys && k !in d.keys && e.ing.db.keys[k].ticketId.Some?
      ensures e.ing.db.keys[k].ticketId.value !in d.tickets
    {
      assert k in s.keys && s.keys[k] == t.keys[k];
    }
    forall id | id in e.ing.db.tickets && id !in d.tickets ensures e.ing.db.tickets[id] !in d.events {
      assert id in t.tickets && id in s.tickets && s.tickets[id] == t.tickets[id];
    }
  }

  lemma SweepLinks(e: State, d: Deleted)
    requires Linked(e) && Deletable(e, d)
    ensures Linked(WithoutRows(e, d))
  {
  }

  lemma SweepKeeps(e: State, cutoff: int)
    requires Inv(e) && StepSafe(e, Sweep(cutoff))
    ensures Inv(Apply(e, Sweep(cutoff)))
  {
    var d := DeletedBy(e, cutoff);
    SweepIsEnabled(e, cutoff);
    assert Linked(WithoutRows(e, d)) by { SweepLinks(e, d); }
    IngestStep(e.ing, I.Prune(d.keys, d.tickets, d.events));
    PipeStep(e.pipe, P.Prune(d.effects, d.tickets));
    R.InvStep(e.relay, R.Prune(d.effects));
  }

  lemma PruneForgets(e: State, d: Deleted)
    requires Deletable(e, d)
    ensures SpecAllows(Abs(e), Forget(d.keys, d.tickets), Abs(WithoutRows(e, d)))
  {
    assert TicketIds(e.ing.db.keys - d.keys) == TicketIds(e.ing.db.keys) - d.keys;
    assert Levels(e.pipe.tickets - d.tickets) == Levels(e.pipe.tickets) - d.tickets;
  }

  /** A pass only forgets: whole keys, and tickets no remaining key names. */
  lemma SweepForgets(e: State, cutoff: int)
    requires Linked(e) && P.TicketsFollowWrites(e.pipe)
    ensures SpecAllows(Abs(e), Mirror(e, Sweep(cutoff)), Abs(Apply(e, Sweep(cutoff))))
  {
    SweepIsEnabled(e, cutoff);
    PruneForgets(e, DeletedBy(e, cutoff));
  }

  // ---- Refinement ----

  lemma KeyOfTicket(db: I.Db, k: Key)
    requires A.RowsNameTheirTicket(db) && k in db.keys && db.keys[k].ticketId.Some?
    ensures var t := db.keys[k].ticketId.value;
            t in db.tickets && db.tickets[t] in db.events && db.events[db.tickets[t]].key == k
  {
  }

  lemma RowsAreSound(e: State)
    requires IngestInv(e.ing) && TicketsLinked(e.ing, e.pipe)
    ensures RowsSound(Abs(e))
  {
    var a := Abs(e);
    forall k, k' | k in a.rows && k' in a.rows && k != k' && a.rows[k].Some? ensures a.rows[k] != a.rows[k'] {
      KeyOfTicket(e.ing.db, k);
      if a.rows[k'].Some? { KeyOfTicket(e.ing.db, k'); }
    }
  }

  /** The engine's invariant is the specification's, in its terms. */
  lemma AbsIsSound(e: State)
    requires Inv(e)
    ensures SpecInv(Abs(e))
  {
    RowsAreSound(e);
    var a := Abs(e);
    OnceEach(e.pipe.emitted);
    forall t | P.Effect(t, P.UPGRADED) in a.announced ensures t in a.degraded {
      UpgradedWasDegraded(e.pipe.writes, t);
    }
    forall t | t in a.levels
      ensures P.Effect(t, P.TRIAGED) in a.announced <==> !a.levels[t].PENDING?
      ensures P.Effect(t, P.UPGRADED) in a.announced ==> a.levels[t].ENRICHED?
      ensures a.levels[t].DEGRADED? ==> t in a.degraded
    {
      LevelsFit(e.pipe, t);
    }
  }

  lemma LevelsFit(s: P.State, t: TicketId)
    requires P.Inv(s) && t in s.tickets
    ensures P.Effect(t, P.TRIAGED) in s.emitted <==> !s.tickets[t].status.PENDING?
    ensures P.Effect(t, P.UPGRADED) in s.emitted ==> s.tickets[t].status.ENRICHED?
    ensures s.tickets[t].status.DEGRADED? ==> t in Degraded(s.writes)
  {
    N.TriagedIsOwed(s.writes, t);
    if P.Owes(s.writes, P.Effect(t, P.UPGRADED)) { UpgradedWasDegraded(s.writes, t); }
    if s.tickets[t].status.DEGRADED? { DegradedWasWritten(s.writes, t); }
  }

  lemma {:induction false} OnceEach(emitted: seq<P.Effect>)
    requires N.EmittedOnce(emitted)
    ensures forall e :: multiset(emitted)[e] <= 1
  {
    if emitted == [] {
    } else {
      var n := |emitted| - 1;
      OnceEach(emitted[..n]);
      assert emitted == emitted[..n] + [emitted[n]];
      assert emitted[n] !in emitted[..n];
    }
  }

  lemma StepKeepsInv(e: State, step: Step)
    requires Inv(e) && StepSafe(e, step)
    ensures Inv(Apply(e, step))
  {
    match step
    case Tick(ms) => TickKeeps(e, ms);
    case Ingest(s) => if !s.Tick? && !s.Prune? { IngestKeeps(e, s); }
    case Work(a) => if Works(e, a) { WorkKeeps(e, a); }
    case Relay(m) => if Relays(m) { RelayKeeps(e, m); }
    case Sweep(cutoff) => SweepKeeps(e, cutoff);
  }

  /** Every step of the engine is the specification step Mirror names. */
  lemma {:induction false} StepRefines(e: State, step: Step)
    requires Inv(e) && StepSafe(e, step)
    ensures Inv(Apply(e, step))
    ensures SpecAllows(Abs(e), Mirror(e, step), Abs(Apply(e, step)))
  {
    assert Inv(Apply(e, step)) by { StepKeepsInv(e, step); }
    StepMirrors(e, step);
  }

  lemma {:induction false} StepMirrors(e: State, step: Step)
    requires Inv(e)
    ensures SpecAllows(Abs(e), Mirror(e, step), Abs(Apply(e, step)))
  {
    match step
    case Tick(ms) => TickKeeps(e, ms);
    case Ingest(s) => if !s.Tick? && !s.Prune? { IngestRefines(e, s); }
    case Work(a) => if Works(e, a) { WorkRefines(e, a); }
    case Relay(m) => RelayRefines(e, m);
    case Sweep(cutoff) => SweepForgets(e, cutoff);
  }

  lemma {:induction false} LastStepRefines(e: State, steps: seq<Step>)
    requires steps != [] && SafeRun(e, steps) && Inv(Run(e, steps[..|steps| - 1]))
    ensures Inv(Run(e, steps))
    ensures var before := Run(e, steps[..|steps| - 1]);
            SpecAllows(Abs(before), Mirror(before, steps[|steps| - 1]), Abs(Run(e, steps)))
  {
    StepRefines(Run(e, steps[..|steps| - 1]), steps[|steps| - 1]);
  }

  lemma {:induction false} InvRun(e: State, steps: seq<Step>)
    requires Inv(e) && SafeRun(e, steps)
    ensures Inv(Run(e, steps))
  {
    if steps == [] {
    } else {
      InvRun(e, steps[..|steps| - 1]);
      LastStepRefines(e, steps);
    }
  }

  lemma {:induction false} SafePrefix(e: State, steps: seq<Step>, n: nat)
    requires SafeRun(e, steps) && n <= |steps|
    ensures SafeRun(e, steps[..n])
  {
    if n == |steps| {
      assert steps[..n] == steps;
    } else {
      SafePrefix(e, steps[..|steps| - 1], n);
      assert steps[..|steps| - 1][..n] == steps[..n];
    }
  }

  lemma {:induction false} StepOfRunRefines(e: State, steps: seq<Step>, i: nat)
    requires Inv(e) && SafeRun(e, steps) && i < |steps|
    ensures var before := Run(e, steps[..i]);
            SpecAllows(Abs(before), Mirror(before, steps[i]), Abs(Run(e, steps[..i + 1])))
  {
    var longer := steps[..i + 1];
    SafePrefix(e, steps, i);
    SafePrefix(e, steps, i + 1);
    assert longer[..|longer| - 1] == steps[..i];
    InvRun(e, steps[..i]);
    LastStepRefines(e, longer);
  }

  /** Over every safe run, with any number of callers, workers and relays
      interleaved and crashing anywhere, the engine runs the specification: it
      starts where the specification does, and its every step is the
      specification step that Mirror names. */
  lemma {:induction false} EngineRefinesSpec(lease: nat, cfg: R.Config, steps: seq<Step>, i: nat)
    requires R.ValidConfig(cfg) && SafeRun(Init(lease, cfg), steps) && i < |steps|
    ensures Abs(Init(lease, cfg)) == EMPTY
    ensures var before := Run(Init(lease, cfg), steps[..i]);
            SpecAllows(Abs(before), Mirror(before, steps[i]), Abs(Run(Init(lease, cfg), steps[..i + 1])))
  {
    InitInv(lease, cfg);
    StepOfRunRefines(Init(lease, cfg), steps, i);
  }

  /** So at every moment of a run each key names at most one ticket of its own,
      each notification was announced once and exactly when its ticket's level
      calls for it, and only announced ones were delivered. */
  lemma {:induction false} EngineIsSafe(lease: nat, cfg: R.Config, steps: seq<Step>)
    requires R.ValidConfig(cfg) && SafeRun(Init(lease, cfg), steps)
    ensures SpecInv(Abs(Run(Init(lease, cfg), steps)))
  {
    InitInv(lease, cfg);
    InvRun(Init(lease, cfg), steps);
    AbsIsSound(Run(Init(lease, cfg), steps));
  }

  // ---- With retention off ----

  ghost predicate NoSweeps(steps: seq<Step>) {
    forall i :: 0 <= i < |steps| ==> !steps[i].Sweep?
  }

  lemma {:induction false} NoSweepsIsSafe(e: State, steps: seq<Step>)
    requires NoSweeps(steps)
    ensures SafeRun(e, steps)
  {
    if steps == [] {
    } else {
      NoSweepsIsSafe(e, steps[..|steps| - 1]);
      assert !steps[|steps| - 1].Sweep?;
    }
  }

  lemma StepGrows(a: Spec, e: State, step: Step)
    requires Inv(e) && !step.Sweep? && Grows(a, Abs(e))
    ensures Inv(Apply(e, step)) && Grows(a, Abs(Apply(e, step)))
  {
    assert StepSafe(e, step);
    StepRefines(e, step);
    assert SpecInv(Abs(e)) by { AbsIsSound(e); }
    OnlySweepsForget(e, step);
    GrowsOn(a, Abs(e), Mirror(e, step), Abs(Apply(e, step)));
  }

  lemma OnlySweepsForget(e: State, step: Step)
    ensures Mirror(e, step).Forget? <==> step.Sweep?
  {
  }

  /** Between any two moments of a run without sweeps no key or ticket is lost,
      a key keeps its ticket, a ticket's level does not fall, and nothing
      announced or delivered is taken back. */
  lemma {:induction false} EngineGrows(e: State, steps: seq<Step>)
    requires Inv(e) && NoSweeps(steps)
    ensures Inv(Run(e, steps)) && Grows(Abs(e), Abs(Run(e, steps)))
  {
    if steps == [] {
    } else {
      EngineGrows(e, steps[..|steps| - 1]);
      assert !steps[|steps| - 1].Sweep?;
      StepGrows(Abs(e), Run(e, steps[..|steps| - 1]), steps[|steps| - 1]);
    }
  }

  lemma StepKeepsEmitted(e: State, step: Step)
    requires !step.Sweep? && forall x :: x in e.pipe.emitted ==> x in e.pipe.outbox
    ensures forall x :: x in Apply(e, step).pipe.emitted ==> x in Apply(e, step).pipe.outbox
  {
  }

  lemma {:induction false} EmittedIsKept(e: State, steps: seq<Step>)
    requires NoSweeps(steps) && forall x :: x in e.pipe.emitted ==> x in e.pipe.outbox
    ensures forall x :: x in Run(e, steps).pipe.emitted ==> x in Run(e, steps).pipe.outbox
  {
    if steps == [] {
    } else {
      EmittedIsKept(e, steps[..|steps| - 1]);
      StepKeepsEmitted(Run(e, steps[..|steps| - 1]), steps[|steps| - 1]);
    }
  }

  /** In a run without sweeps every delivered notification belongs to a
      committed outbox row, and every announced one has its row still. */
  lemma {:induction false} DeliveredIsCommitted(lease: nat, cfg: R.Config, steps: seq<Step>, x: P.Effect)
    requires R.ValidConfig(cfg) && NoSweeps(steps)
    ensures var e := Run(Init(lease, cfg), steps); x in e.pipe.emitted <==> x in e.pipe.outbox
    ensures var e := Run(Init(lease, cfg), steps); x in e.pipe.emitted <==> x in e.relay.rows
    ensures var e := Run(Init(lease, cfg), steps); x in e.relay.delivered ==> x in e.pipe.emitted
  {
    InitInv(lease, cfg);
    NoSweepsIsSafe(Init(lease, cfg), steps);
    InvRun(Init(lease, cfg), steps);
    EmittedIsKept(Init(lease, cfg), steps);
  }
}
