/** The idempotency ledger (src/idempotency/idempotency.service.ts). Each
    function is one SQL statement; the class runs them as the service does. */
module IdempotencyLedger {
  import opened Common
  import opened CanonicalHash

  datatype KeyStatus = PENDING | COMPLETED | FAILED

  datatype Response = Response(ticketId: TicketId, jobId: string)

  datatype KeyRow = KeyRow(id: RowId, requestHash: Digest, status: KeyStatus, ticketId: Option<TicketId>,
                           response: Option<Response>, lockedAt: Option<nat>, createdAt: nat)

  /** idempotency_keys, by its UNIQUE column. */
  type Ledger = map<Key, KeyRow>

  function NewRow(id: RowId, hash: Digest, now: nat): KeyRow {
    KeyRow(id, hash, PENDING, None, None, Some(now), now)
  }

  predicate Reclaimable(row: KeyRow, now: nat, lease: nat) {
    || row.status.FAILED?
    || (row.status.PENDING? && (row.lockedAt.None? || row.lockedAt.value < now - lease))
  }

  function Relock(row: KeyRow, now: nat): KeyRow {
    row.(status := PENDING, lockedAt := Some(now))
  }

  /** UPDATE statements touch no row when the key is absent. */
  function AttachTicket(rows: Ledger, key: Key, ticket: TicketId): Ledger {
    if key in rows then rows[key := rows[key].(ticketId := Some(ticket))] else rows
  }

  function MarkCompleted(rows: Ledger, key: Key, ticket: TicketId, response: Response): Ledger {
    if key in rows
    then rows[key := rows[key].(status := COMPLETED, ticketId := Some(ticket),
                                response := Some(response), lockedAt := None)]
    else rows
  }

  function MarkFailed(rows: Ledger, key: Key): Ledger {
    if key in rows then rows[key := rows[key].(status := FAILED, lockedAt := None)] else rows
  }

  datatype ClaimResult =
    | NEW
    | REPLAY(record: KeyRow)
    | IN_FLIGHT(record: KeyRow)
    | CONFLICT(record: KeyRow)

  class IdempotencyService {
    var rows: Ledger
    const leaseMs: nat

    constructor (leaseMs: nat)
      ensures rows == map[] && this.leaseMs == leaseMs
    {
      rows := map[];
      this.leaseMs := leaseMs;
    }

    /** A claim with no other caller in between. The key is granted when it is
        unknown, or known with the same payload and failed or abandoned; only a
        grant changes the ledger, and it keeps the row's identity and ticket. */
    method Claim(key: Key, hash: Digest, id: RowId, now: nat) returns (result: ClaimResult)
      modifies this
      ensures result.NEW? <==> key !in old(rows) ||
                               (old(rows)[key].requestHash == hash && Reclaimable(old(rows)[key], now, leaseMs))
      ensures result.NEW? <==> key !in old(rows) ||
                               (var row := old(rows)[key];
                                row.requestHash == hash && (row.status.FAILED? ||
                                  (row.status.PENDING? && (row.lockedAt.None? || row.lockedAt.value + leaseMs < now))))
      ensures !result.NEW? ==> rows == old(rows) && key in rows && result.record == rows[key]
      ensures result.CONFLICT? <==> key in old(rows) && old(rows)[key].requestHash != hash
      ensures result.REPLAY? <==>
                key in old(rows) && old(rows)[key].requestHash == hash && old(rows)[key].status.COMPLETED?
      ensures result.NEW? ==> key in rows && rows == old(rows)[key := rows[key]]
                              && rows[key].status.PENDING? && rows[key].lockedAt == Some(now)
                              && rows[key].requestHash == hash
      ensures result.NEW? && key in old(rows) ==>
                rows[key] == old(rows)[key].(status := rows[key].status, lockedAt := rows[key].lockedAt)
      ensures result.NEW? && key !in old(rows) ==>
                rows[key] == NewRow(id, hash, now) == KeyRow(id, hash, PENDING, None, None, Some(now), now)
    {
      // INSERT ... ON CONFLICT DO NOTHING
      if key !in rows {
        rows := rows[key := NewRow(id, hash, now)];
        return NEW;
      }
      var existing := rows[key];
      if existing.requestHash != hash {
        return CONFLICT(existing);
      }
      if existing.status.COMPLETED? {
        return REPLAY(existing);
      }
      // UPDATE ... WHERE failed, or pending past its lease
      if Reclaimable(rows[key], now, leaseMs) {
        rows := rows[key := Relock(rows[key], now)];
        return NEW;
      }
      return IN_FLIGHT(existing);
    }

    /** None stands for the error thrown when the row has vanished. */
    method LockForUpdate(key: Key) returns (row: Option<KeyRow>)
      ensures row == if key in rows then Some(rows[key]) else None
    {
      row := if key in rows then Some(rows[key]) else None;
    }

    method Attach(key: Key, ticket: TicketId)
      modifies this
      ensures rows == AttachTicket(old(rows), key, ticket)
      ensures key !in old(rows) ==> rows == old(rows)
      ensures key in old(rows) ==> rows == old(rows)[key := old(rows)[key].(ticketId := Some(ticket))]
    {
      if key in rows { rows := rows[key := rows[key].(ticketId := Some(ticket))]; }
    }

    method Complete(key: Key, ticket: TicketId, response: Response)
      modifies this
      ensures rows == MarkCompleted(old(rows), key, ticket, response)
      ensures key !in old(rows) ==> rows == old(rows)
      ensures key in old(rows) ==>
                && key in rows && rows == old(rows)[key := rows[key]]
                && rows[key] == old(rows)[key].(status := COMPLETED, ticketId := Some(ticket),
                                                response := Some(response), lockedAt := None)
    {
      if key in rows {
        rows := rows[key := rows[key].(status := COMPLETED, ticketId := Some(ticket),
                                       response := Some(response), lockedAt := None)];
      }
    }

    method Fail(key: Key)
      modifies this
      ensures rows == MarkFailed(old(rows), key)
      ensures key !in old(rows) ==> rows == old(rows)
      ensures key in old(rows) ==> rows == old(rows)[key := old(rows)[key].(status := FAILED, lockedAt := None)]
    {
      if key in rows { rows := rows[key := rows[key].(status := FAILED, lockedAt := None)]; }
    }
  }
}
