/** What tickets and notifications hold: in every run a ticket's row is what its
    last committed write stored, and a notification carries the result of a
    write that owed it (src/pipeline/ticket.processor.ts). */
module TicketContents {
  import opened Common
  import opened TicketPipeline

  function LastWrite(writes: seq<Write>, t: TicketId): Option<Write> {
    if writes == [] then None
    else if writes[|writes| - 1].ticket == t then Some(writes[|writes| - 1])
    else LastWrite(writes[..|writes| - 1], t)
  }

  /** The row holds everything the write stored, or nothing yet. */
  predicate RowHolds(row: Ticket, last: Option<Write>) {
    match last
    case None => row.status.PENDING? && row.source.None? && row.result.None? && row.attempts == 0
    case Some(w) =>
      && row.status == w.status && row.source == Some(w.source) && row.result == Some(w.result)
      && row.updatedAt == w.at && row.attempts >= 1 && FromEnricher(Outcome(w.status, w.source, w.result))
  }

  ghost predicate RowsHold(s: State) {
    && (forall t :: t in s.tickets ==> t in s.created && RowHolds(s.tickets[t], LastWrite(s.writes, t)))
    && (forall t :: t !in s.created ==> LastWrite(s.writes, t).None?)
  }

  /** The write owed this notification, with this payload. */
  predicate OwedWith(w: Write, e: Effect, payload: Payload) {
    && w.ticket == e.ticket && payload == Payload(w.source, w.result)
    && (if e.kind.TRIAGED? then w.prior.PENDING? else w.prior.DEGRADED? && w.status.ENRICHED?)
  }

  ghost predicate RowOwed(writes: seq<Write>, e: Effect, payload: Payload) {
    exists i :: 0 <= i < |writes| && OwedWith(writes[i], e, payload)
  }

  ghost predicate PayloadsOwed(s: State) {
    forall e :: e in s.outbox ==> RowOwed(s.writes, e, s.outbox[e])
  }

  ghost predicate WorkersKnown(s: State) {
    forall p :: p in s.workers ==> s.workers[p].ticket in s.created
  }

  ghost predicate Contents(s: State) {
    RowsHold(s) && PayloadsOwed(s) && WorkersKnown(s)
  }

  lemma LastAppend(writes: seq<Write>, w: Write)
    ensures forall t: TicketId :: LastWrite(writes + [w], t) == if t == w.ticket then Some(w) else LastWrite(writes, t)
  {
    assert (writes + [w])[..|writes|] == writes;
  }

  lemma StillOwed(writes: seq<Write>, w: Write, e: Effect, payload: Payload)
    ensures RowOwed(writes, e, payload) || OwedWith(w, e, payload) ==> RowOwed(writes + [w], e, payload)
  {
    var longer := writes + [w];
    if RowOwed(writes, e, payload) {
      var i :| 0 <= i < |writes| && OwedWith(writes[i], e, payload);
      assert longer[i] == writes[i];
    }
    assert longer[|writes|] == w;
  }

  lemma ContentsPersist(s: State, w: Worker, o: Outcome, now: nat)
    requires Contents(s) && FromEnricher(o) && w.ticket in s.created
    ensures Contents(PersistAndEmit(s, w, o, now))
  {
    RowsPersist(s, w, o, now);
    PayloadsPersist(s, w, o, now);
  }

  lemma RowsPersist(s: State, w: Worker, o: Outcome, now: nat)
    requires RowsHold(s) && FromEnricher(o) && w.ticket in s.created
    ensures RowsHold(PersistAndEmit(s, w, o, now))
  {
    LastAppend(s.writes, Written(w, o, now));
  }

  lemma PayloadsPersist(s: State, w: Worker, o: Outcome, now: nat)
    requires PayloadsOwed(s)
    ensures PayloadsOwed(PersistAndEmit(s, w, o, now))
  {
    var after := PersistAndEmit(s, w, o, now);
    if WriteLands(s, w, o) {
      forall e | e in after.outbox ensures RowOwed(after.writes, e, after.outbox[e]) {
        StillOwed(s.writes, Written(w, o, now), e, after.outbox[e]);
      }
    }
  }

  lemma ContentsStep(s: State, step: Step)
    requires Contents(s)
    ensures Contents(Apply(s, step))
  {
    match step
    case Commit(p, o, now) =>
      if p in s.workers && FromEnricher(o) {
        ContentsPersist(s.(workers := s.workers - {p}), s.workers[p], o, now);
      }
    case Create(_, _) =>
    case Load(_, _) =>
    case Crash(_) =>
    case Prune(_, _) =>
  }

  lemma {:induction false} ContentsRun(steps: seq<Step>)
    ensures Contents(Run(INIT, steps))
  {
    if steps == [] {
    } else {
      ContentsRun(steps[..|steps| - 1]);
      ContentsStep(Run(INIT, steps[..|steps| - 1]), steps[|steps| - 1]);
    }
  }

  /** In every run: a ticket holds the status, source, classification and time of
      its last committed write, and none of them while it is PENDING. */
  lemma {:induction false} TicketHoldsItsLastWrite(steps: seq<Step>, t: TicketId)
    requires t in Run(INIT, steps).tickets
    ensures var s := Run(INIT, steps); RowHolds(s.tickets[t], LastWrite(s.writes, t))
    ensures var row := Run(INIT, steps).tickets[t]; row.status.PENDING? <==> row.result.None?
    ensures var row := Run(INIT, steps).tickets[t]; row.status.PENDING? <==> row.source.None?
  {
    ContentsRun(steps);
    assert RowHolds(Run(INIT, steps).tickets[t], LastWrite(Run(INIT, steps).writes, t));
  }

  /** In every run: a notification in the outbox carries the source and the
      classification of a committed write that owed it. */
  lemma {:induction false} NotificationCarriesItsWrite(steps: seq<Step>, e: Effect)
    requires e in Run(INIT, steps).outbox
    ensures var s := Run(INIT, steps); exists i :: 0 <= i < |s.writes| && OwedWith(s.writes[i], e, s.outbox[e])
  {
    ContentsRun(steps);
    assert RowOwed(Run(INIT, steps).writes, e, Run(INIT, steps).outbox[e]);
  }
}
