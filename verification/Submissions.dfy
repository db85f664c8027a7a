/** What a second submission under a known key is told, in terms of the content
    that was stored under it. */
module Submissions {
  import opened Common
  import opened CanonicalHash
  import opened Ingestion
  import A = IngestionAgreement
  import P = PayloadAgreement
  import E = EventsService

  /** The hash of the event stored for the key's ticket. */
  function StoredPayload(db: Db, key: Key): Option<Digest> {
    if key in db.keys && db.keys[key].ticketId.Some? && db.keys[key].ticketId.value in db.tickets
       && db.tickets[db.keys[key].ticketId.value] in db.events
    then Some(db.events[db.tickets[db.keys[key].ticketId.value]].payload) else None
  }

  /** Over every run whose sweeps no grant spans: a key with a ticket has its
      event, and a submission under the key is a conflict exactly when its
      content differs from the event's. */
  lemma {:induction false} ConflictIffContentDiffers(lease: nat, steps: seq<Step>, key: Key, dto: EventDto,
                                                     stored: EventDto, ok: bool, enqueued: EnqueueResult,
                                                     result: E.IngestResult)
    requires A.RunMeets(Init(lease), steps, P.PruneSafe)
    requires dto.metadata.Some? ==> WellFormed(dto.metadata.value)
    requires stored.metadata.Some? ==> WellFormed(stored.metadata.value)
    requires var db := Run(Init(lease), steps).db;
             && key in db.keys && db.keys[key].ticketId.Some?
             && (StoredPayload(db, key).Some? ==> StoredPayload(db, key).value == HashPayload(Content(stored)))
             && E.AnswerFits(db, key, HashPayload(Content(dto)), ok, enqueued, result)
    ensures StoredPayload(Run(Init(lease), steps).db, key).Some?
    ensures result.CONFLICT? <==> !SameSubmission(dto, stored)
  {
    P.TicketsMatchTheirKeys(lease, steps);
    SameHashIff(dto, stored);
  }

  /** Over every clear run: a replay names the one ticket created for the key's
      row, which exists, and a job id equal to the key. */
  lemma {:induction false} ReplayIsWiredUp(lease: nat, steps: seq<Step>, key: Key, hash: Digest,
                                           ok: bool, enqueued: EnqueueResult, result: E.IngestResult)
    requires A.ClearRun(Init(lease), steps)
    requires E.AnswerFits(Run(Init(lease), steps).db, key, hash, ok, enqueued, result) && result.REPLAYED?
    ensures var db := Run(Init(lease), steps).db;
            && result.stored.Some? && result.storedJobId == Some(key) && result.stored.value in db.tickets
            && TicketCreated(db.keys[key].id, result.stored.value) in db.log
  {
    A.ResponsesAgree(lease, steps);
  }

  // ---- The key of a submission ----

  /** A key in the header wins over one in the body, and either over the hash. */
  lemma HeaderThenBodyThenHash(header: Option<Key>, body: Option<Key>, text: string)
    ensures forall h: Key :: E.EffectiveKey(Some(h), body, text) == h
    ensures forall b: Key :: E.EffectiveKey(None, Some(b), text) == b
    ensures E.EffectiveKey(None, None, text) == text
    ensures E.EffectiveKey(header, body, text) == text ==>
              header == Some(text) || (header.None? && body == Some(text)) || (header.None? && body.None?)
  {
  }

  /** Without a key of their own, two submissions share one exactly when they are
      the same submission. */
  lemma KeyedByContent(d: EventDto, e: EventDto, hex: Digest -> string)
    requires d.metadata.Some? ==> WellFormed(d.metadata.value)
    requires e.metadata.Some? ==> WellFormed(e.metadata.value)
    requires forall x, y :: hex(x) == hex(y) ==> x == y
    ensures var a, b := hex(HashPayload(Content(d))), hex(HashPayload(Content(e)));
            E.EffectiveKey(None, None, a) == E.EffectiveKey(None, None, b) <==> SameSubmission(d, e)
  {
    SameHashIff(d, e);
  }
}
