// The journal as the source writes it: an object whose transactions update the table,
// the indexes and the log, and put everything back when a constraint fails.
module PaymentJournalClass {
  import opened Prelude
  import opened JournalSpec

  class PaymentJournal {
    var order: seq<string>
    var rows: map<string, Row>
    var byKey: map<(string, string), string>
    var bySignature: map<string, string>
    var events: seq<Event>

    ghost function State(): Journal
      reads this
    {
      Journal(order, rows, byKey, bySignature, events)
    }

    constructor ()
      ensures State() == EMPTY
    {
      order, rows, byKey, bySignature, events := [], map[], map[], map[], [];
    }

    // Adds one event inside the caller's transaction; a repeated event id is refused.
    method AppendEvent(event: Event) returns (stored: bool)
      modifies this`events
      ensures stored == (event !in old(events))
      ensures events == if stored then old(events) + [event] else old(events)
    {
      stored := event !in events;
      if stored { events := events + [event]; }
    }

    // BEGIN IMMEDIATE, the UPDATE with its event, then COMMIT or ROLLBACK.
    method UpdateRow(op: string, row: Row, event: Event) returns (stored: bool)
      requires op in rows
      modifies this
      ensures stored == (event !in old(events))
      ensures State() == if stored then WriteRow(old(State()), op, row, event) else old(State())
    {
      hide Reindexed;
      var savedRows, savedIndex := rows, bySignature;
      bySignature := Reindexed(bySignature, op, rows[op].evidence.signature, row.evidence.signature);
      rows := rows[op := row];
      stored := AppendEvent(event);
      if !stored { rows, bySignature := savedRows, savedIndex; }
    }

    method Transition(op: string, from: Status, to: Status, update: Update, now: int)
      returns (r: Result<Row, JournalError>)
      modifies this
      ensures r == JournalSpec.Transition(old(State()), op, from, to, update, now).0
      ensures State() == JournalSpec.Transition(old(State()), op, from, to, update, now).1
    {
      hide Moved, DetailsOf, WriteRow, SignatureFree;
      if op !in rows || rows[op].status != from { return Err(Conflict); }
      var row := Moved(rows[op], to, update, now);
      var stored := SignatureFree(Journal(order, rows, byKey, bySignature, events), op, row.evidence.signature);
      if stored { stored := UpdateRow(op, row, Event(op, Entered(to), DetailsOf(update), now)); }
      r := if stored then Ok(row) else Err(StorageFailure);
    }

    method Reserve(b: Binding, maxTotal: int, maxRequests: int, now: int)
      returns (r: Result<Reservation, JournalError>)
      modifies this
      ensures (r, State()) == JournalSpec.Reserve(old(State()), b, maxTotal, maxRequests, now)
    {
      var existing := ByPrincipalKey(Journal(order, rows, byKey, bySignature, events),
                                     b.principalId, b.idempotencyKey);
      if existing.Some? { return ClassifyExisting(existing.value, b); }
      if !SafePositive(b.amount) { return Err(Conflict); }
      if !SafePositive(maxTotal) || !SafePositive(maxRequests) { return Err(Conflict); }
      // BEGIN IMMEDIATE
      var savedOrder, savedRows, savedKeys := order, rows, byKey;
      var count, total := OpenCount(order, rows), OpenTotal(order, rows);
      if count >= maxRequests || total + b.amount > maxTotal { return Err(BudgetExceeded); }
      if b.operationId in rows { return Err(StorageFailure); }
      var row := Row(b, Reserved, NO_EVIDENCE, now, now);
      order := order + [b.operationId];
      rows := rows[b.operationId := row];
      byKey := byKey[(b.principalId, b.idempotencyKey) := b.operationId];
      var details := ReserveDetails(b.amount, b.challengeSha256, b.policySha256);
      var stored := AppendEvent(Event(b.operationId, Entered(Reserved), details, now));
      if !stored {
        order, rows, byKey := savedOrder, savedRows, savedKeys;
        return Err(StorageFailure);
      }
      return Ok(Fresh(row));
    }

    method MarkSubmitted(op: string, now: int) returns (r: Result<Row, JournalError>)
      modifies this
      ensures (r, State()) == JournalSpec.MarkSubmitted(old(State()), op, now)
    {
      r := Transition(op, Reserved, Submitted, NoUpdate, now);
    }

    method MarkSettled(op: string, update: Update, now: int) returns (r: Result<Row, JournalError>)
      requires update.SettleWith?
      modifies this
      ensures (r, State()) == JournalSpec.MarkSettled(old(State()), op, update, now)
    {
      r := Transition(op, Submitted, SettledVerified, update, now);
    }

    method MarkUnknown(op: string, code: string, partial: Option<PartialEvidence>, now: int)
      returns (r: Result<Row, JournalError>)
      modifies this
      ensures (r, State()) == JournalSpec.MarkUnknown(old(State()), op, code, partial, now)
    {
      r := Transition(op, Submitted, Unknown, UnknownWith(SafeErrorCode(code), partial), now);
    }

    method Abort(op: string, code: string, now: int) returns (r: Result<Row, JournalError>)
      modifies this
      ensures (r, State()) == JournalSpec.Abort(old(State()), op, code, now)
    {
      r := Transition(op, Reserved, Aborted, AbortWith(SafeErrorCode(code)), now);
    }

    method ReconcileUnknown(op: string, update: Update, now: int) returns (r: Result<Row, JournalError>)
      requires update.ReconcileWith?
      modifies this
      ensures (r, State()) == JournalSpec.ReconcileUnknown(old(State()), op, update, now)
    {
      r := Transition(op, Unknown, ReconciledVerified, update, now);
    }

    // The body of the recovery loop: one row, one transaction.
    method RecoverOne(op: string, now: int) returns (recovered: bool)
      modifies this
      ensures State() == RecoverRow(old(State()), op, now)
      ensures |events| == |old(events)| + if recovered then 1 else 0
    {
      if op !in rows || !Unfinished(rows[op]) { return false; }
      var current := rows[op];
      var row := current.(status := Unknown,
                          evidence := current.evidence.(errorCode := Some("PROCESS_RECOVERY_UNKNOWN")),
                          updatedAt := now);
      recovered := UpdateRow(op, row, Event(op, RecoveredUnknown, RecoverDetails(current.status), now));
    }

    method RecoverUnfinished(now: int) returns (recovered: nat)
      modifies this
      ensures State() == JournalSpec.RecoverUnfinished(old(State()), now)
      ensures recovered == |events| - |old(events)|
    {
      var selected := UnfinishedOperations(order, rows);
      recovered := 0;
      for i := 0 to |selected|
        invariant State() == RecoverRows(old(State()), selected[..i], now)
        invariant recovered == |events| - |old(events)|
      {
        assert selected[..i + 1][..i] == selected[..i];
        var done := RecoverOne(selected[i], now);
        if done { recovered := recovered + 1; }
      }
      assert selected[..|selected|] == selected;
    }
  }
}
