// What every journal call keeps, and what holds after any run of calls.
module JournalLaws {
  import opened Prelude
  import opened JournalSpec

  // ------------------------------------------------------------ the invariant

  // How far along its life a row is; every transition raises it.
  function Rank(s: Status): nat {
    match s
    case Reserved => 0
    case Submitted => 1
    case Unknown => 2
    case SettledVerified => 3
    case ReconciledVerified => 3
    case Aborted => 3
  }

  function KindStatus(k: Kind): Status {
    match k
    case Entered(s) => s
    case RecoveredUnknown => Unknown
  }

  function KindRank(k: Kind): nat { Rank(KindStatus(k)) }

  // The table as a reader of the log would rebuild it.
  datatype Replayed = Replayed(status: Status, amount: int)

  function ApplyEvent(m: map<string, Replayed>, e: Event): map<string, Replayed> {
    if e.kind == Entered(Reserved) && e.details.ReserveDetails?
    then m[e.operationId := Replayed(Reserved, e.details.amount)]
    else if e.operationId in m
    then m[e.operationId := m[e.operationId].(status := KindStatus(e.kind))]
    else m
  }

  function ReplayLog(events: seq<Event>): map<string, Replayed> {
    if events == [] then map[]
    else ApplyEvent(ReplayLog(events[..|events| - 1]), events[|events| - 1])
  }

  // The budget in use as the log tells it: reservations less releases.
  function ReplayTotal(events: seq<Event>): int {
    if events == [] then 0
    else
      var before, last := events[..|events| - 1], events[|events| - 1];
      ReplayTotal(before)
      + (if last.kind == Entered(Reserved) && last.details.ReserveDetails? then last.details.amount
         else if last.kind == Entered(Aborted) && last.operationId in ReplayLog(before)
         then -ReplayLog(before)[last.operationId].amount
         else 0)
  }

  ghost predicate TableIndexed(j: Journal) {
    && Distinct(j.order)
    && (forall op :: op in j.order <==> op in j.rows)
    && (forall op :: op in j.rows ==> j.rows[op].binding.operationId == op && j.rows[op].binding.amount > 0)
    && (forall op :: op in j.rows ==>
          var b := j.rows[op].binding;
          (b.principalId, b.idempotencyKey) in j.byKey && j.byKey[(b.principalId, b.idempotencyKey)] == op)
    && (forall pk :: pk in j.byKey ==>
          j.byKey[pk] in j.rows
          && pk == (j.rows[j.byKey[pk]].binding.principalId, j.rows[j.byKey[pk]].binding.idempotencyKey))
  }

  ghost predicate SignaturesIndexed(j: Journal) {
    && (forall op :: op in j.rows && j.rows[op].evidence.signature.Some? ==>
          var s := j.rows[op].evidence.signature.value;
          s in j.bySignature && j.bySignature[s] == op)
    && (forall s :: s in j.bySignature ==>
          j.bySignature[s] in j.rows && j.rows[j.bySignature[s]].evidence.signature == Some(s))
  }

  // Along the log, every later event of an operation is of a higher rank, and none is
  // ahead of the row it belongs to.
  ghost predicate EventsRise(j: Journal) {
    && (forall i :: 0 <= i < |j.events| ==>
          j.events[i].operationId in j.rows
          && KindRank(j.events[i].kind) <= Rank(j.rows[j.events[i].operationId].status))
    && (forall i, k :: 0 <= i < k < |j.events| && j.events[i].operationId == j.events[k].operationId ==>
          KindRank(j.events[i].kind) < KindRank(j.events[k].kind))
  }

  ghost predicate LogMatchesTable(j: Journal) {
    && ReplayLog(j.events).Keys == j.rows.Keys
    && (forall op :: op in j.rows ==>
          ReplayLog(j.events)[op] == Replayed(j.rows[op].status, j.rows[op].binding.amount))
    && ReplayTotal(j.events) == OpenTotal(j.order, j.rows)
  }

  ghost predicate Valid(j: Journal) {
    TableIndexed(j) && SignaturesIndexed(j) && EventsRise(j) && LogMatchesTable(j)
  }

  // ------------------------------------------------------- what a write changes

  // A later journal: rows are added and move up, the log only grows.
  ghost predicate Evolves(j: Journal, k: Journal) {
    && (forall op :: op in j.rows ==>
          op in k.rows && k.rows[op].binding == j.rows[op].binding
          && k.rows[op].createdAt == j.rows[op].createdAt
          && Rank(j.rows[op].status) <= Rank(k.rows[op].status)
          && (Rank(j.rows[op].status) == Rank(k.rows[op].status) ==> k.rows[op] == j.rows[op])
          && (k.rows[op].status == Aborted ==> j.rows[op].status in {Reserved, Aborted}))
    && j.order <= k.order
    && j.events <= k.events
  }

  ghost predicate OnlyRow(j: Journal, k: Journal, op: string) {
    forall o :: o != op ==> (o in j.rows <==> o in k.rows) && (o in j.rows ==> k.rows[o] == j.rows[o])
  }

  // One call: everything is kept, and no more of the budget is in use.
  ghost predicate Kept(j: Journal, k: Journal) {
    && Valid(k)
    && Evolves(j, k)
    && OpenTotal(k.order, k.rows) <= OpenTotal(j.order, j.rows)
    && OpenCount(k.order, k.rows) <= OpenCount(j.order, j.rows)
  }

  lemma EvolvesTransitive(a: Journal, b: Journal, c: Journal)
    requires Evolves(a, b) && Evolves(b, c)
    ensures Evolves(a, c)
  {
  }

  lemma Unchanged(j: Journal, op: string)
    requires Valid(j)
    ensures Kept(j, j) && OnlyRow(j, j, op)
  {
    hide Valid;
  }

  lemma SignatureStaysFree(j: Journal, op: string)
    requires Valid(j) && op in j.rows
    ensures SignatureFree(j, op, j.rows[op].evidence.signature)
  {
    hide TableIndexed, EventsRise, LogMatchesTable;
  }

  lemma {:induction false} OpenTotalUpdate(order: seq<string>, rows: map<string, Row>, op: string, row: Row)
    requires Distinct(order) && op in order && op in rows
    requires row.status == Aborted || rows[op].status != Aborted
    ensures OpenTotal(order, rows[op := row])
         == OpenTotal(order, rows) - OpenAmount(rows, op) + OpenAmount(rows[op := row], op)
    ensures OpenCount(order, rows[op := row]) <= OpenCount(order, rows)
  {
    if order[0] == op {
      OpenUntouched(order[1..], rows, op, row);
    } else {
      OpenTotalUpdate(order[1..], rows, op, row);
    }
  }

  lemma {:induction false} OpenUntouched(order: seq<string>, rows: map<string, Row>, op: string, row: Row)
    requires op !in order
    ensures OpenTotal(order, rows[op := row]) == OpenTotal(order, rows)
    ensures OpenCount(order, rows[op := row]) == OpenCount(order, rows)
  {
    if order != [] {
      OpenUntouched(order[1..], rows, op, row);
    }
  }

  lemma {:induction false} OpenAppend(order: seq<string>, rows: map<string, Row>, op: string)
    ensures OpenTotal(order + [op], rows) == OpenTotal(order, rows) + OpenAmount(rows, op)
    ensures OpenCount(order + [op], rows)
         == OpenCount(order, rows) + if op in rows && rows[op].status != Aborted then 1 else 0
  {
    if order == [] {
      assert [op][1..] == [];
    } else {
      assert (order + [op])[1..] == order[1..] + [op];
      OpenAppend(order[1..], rows, op);
    }
  }

  // ------------------------------------------------------------ one row written

  // A row is written when it rises to the rank of its event and keeps its binding.
  ghost predicate RisingWrite(j: Journal, op: string, row: Row, event: Event) {
    && op in j.rows
    && row.binding == j.rows[op].binding && row.createdAt == j.rows[op].createdAt
    && Rank(j.rows[op].status) < Rank(row.status)
    && event.operationId == op && KindStatus(event.kind) == row.status
    && (event.kind == Entered(Aborted) <==> row.status == Aborted)
    && (row.status == Aborted ==> j.rows[op].status == Reserved)
  }

  lemma WriteKeepsTable(j: Journal, op: string, row: Row, event: Event)
    requires TableIndexed(j) && RisingWrite(j, op, row, event)
    ensures TableIndexed(WriteRow(j, op, row, event))
  {
  }

  lemma WriteKeepsSignatures(j: Journal, op: string, row: Row, event: Event)
    requires SignaturesIndexed(j) && op in j.rows && SignatureFree(j, op, row.evidence.signature)
    ensures SignaturesIndexed(WriteRow(j, op, row, event))
  {
    var k := WriteRow(j, op, row, event);
    forall o | o in k.rows && k.rows[o].evidence.signature.Some?
      ensures var s := k.rows[o].evidence.signature.value; s in k.bySignature && k.bySignature[s] == o
    {
      assert o == op || k.rows[o] == j.rows[o];
    }
    forall s | s in k.bySignature
      ensures k.bySignature[s] in k.rows && k.rows[k.bySignature[s]].evidence.signature == Some(s)
    {
      assert row.evidence.signature == Some(s) || (s in j.bySignature && k.bySignature[s] == j.bySignature[s]);
    }
  }

  lemma WriteKeepsRise(j: Journal, op: string, row: Row, event: Event)
    requires EventsRise(j) && RisingWrite(j, op, row, event)
    ensures EventsRise(WriteRow(j, op, row, event))
  {
    var k := WriteRow(j, op, row, event);
    var n := |j.events|;
    forall i | 0 <= i < |k.events|
      ensures k.events[i].operationId in k.rows
           && KindRank(k.events[i].kind) <= Rank(k.rows[k.events[i].operationId].status)
    {
      if i < n { assert k.events[i] == j.events[i]; }
    }
    forall a, b | 0 <= a < b < |k.events| && k.events[a].operationId == k.events[b].operationId
      ensures KindRank(k.events[a].kind) < KindRank(k.events[b].kind)
    {
      assert k.events[a] == j.events[a];
      if b < n { assert k.events[b] == j.events[b]; }
    }
  }

  lemma WriteKeepsLog(j: Journal, op: string, row: Row, event: Event)
    requires TableIndexed(j) && LogMatchesTable(j) && RisingWrite(j, op, row, event)
    ensures LogMatchesTable(WriteRow(j, op, row, event))
  {
    var k := WriteRow(j, op, row, event);
    assert k.events[..|k.events| - 1] == j.events;
    OpenTotalUpdate(j.order, j.rows, op, row);
    assert ReplayLog(k.events) == ApplyEvent(ReplayLog(j.events), event);
    assert event.kind != Entered(Reserved);
  }

  lemma WriteFreesNothing(j: Journal, op: string, row: Row, event: Event)
    requires TableIndexed(j) && RisingWrite(j, op, row, event)
    ensures var k := WriteRow(j, op, row, event);
      && OpenTotal(k.order, k.rows) <= OpenTotal(j.order, j.rows)
      && OpenCount(k.order, k.rows) <= OpenCount(j.order, j.rows)
  {
    assert op in j.order;
    OpenTotalUpdate(j.order, j.rows, op, row);
  }

  lemma WriteEvolves(j: Journal, op: string, row: Row, event: Event)
    requires RisingWrite(j, op, row, event)
    ensures Evolves(j, WriteRow(j, op, row, event)) && OnlyRow(j, WriteRow(j, op, row, event), op)
  {
  }

  lemma WriteIsValid(j: Journal, op: string, row: Row, event: Event)
    requires Valid(j) && RisingWrite(j, op, row, event) && SignatureFree(j, op, row.evidence.signature)
    ensures Kept(j, WriteRow(j, op, row, event)) && OnlyRow(j, WriteRow(j, op, row, event), op)
  {
    hide TableIndexed, SignaturesIndexed, EventsRise, LogMatchesTable, Evolves, OnlyRow, WriteRow;
    WriteKeepsTable(j, op, row, event);
    WriteKeepsSignatures(j, op, row, event);
    WriteKeepsRise(j, op, row, event);
    WriteKeepsLog(j, op, row, event);
    WriteEvolves(j, op, row, event);
    WriteFreesNothing(j, op, row, event);
  }

  // The event id a rising write appends is always new: the primary key never refuses it.
  lemma RisingEventIsNew(j: Journal, op: string, row: Row, event: Event)
    requires Valid(j) && RisingWrite(j, op, row, event)
    ensures event !in j.events
  {
    hide TableIndexed, SignaturesIndexed, LogMatchesTable;
  }

  // ------------------------------------------------------------- journal calls

  // A legal edge of the row's life cycle.
  predicate Edge(from: Status, to: Status) {
    match from
    case Reserved => to == Submitted || to == Aborted
    case Submitted => to == SettledVerified || to == Unknown
    case Unknown => to == ReconciledVerified
    case _ => false
  }

  // A transition succeeds exactly when the row is in the expected state and its
  // signature is free; then it writes that row alone, and otherwise nothing.
  lemma TransitionIsValid(j: Journal, op: string, from: Status, to: Status, u: Update, now: int)
    requires Valid(j) && Edge(from, to)
    ensures var (r, k) := Transition(j, op, from, to, u, now);
      && Kept(j, k) && OnlyRow(j, k, op)
      && (r.Ok? <==> op in j.rows && j.rows[op].status == from
                     && SignatureFree(j, op, Assign(j.rows[op].evidence, u).signature))
      && (r.Err? ==> k == j)
      && (r.Ok? ==> op in k.rows && k.rows[op] == r.value && r.value.status == to
                    && r.value.evidence == Assign(j.rows[op].evidence, u)
                    && r.value.binding == j.rows[op].binding)
  {
    hide Valid, Kept, OnlyRow, Assign, SignatureFree, DetailsOf, Reindexed;
    Unchanged(j, op);
    if op in j.rows && j.rows[op].status == from {
      var row := j.rows[op].(status := to, evidence := Assign(j.rows[op].evidence, u), updatedAt := now);
      var event := Event(op, Entered(to), DetailsOf(u), now);
      RisingEventIsNew(j, op, row, event);
      if SignatureFree(j, op, row.evidence.signature) {
        WriteIsValid(j, op, row, event);
      }
    }
  }

  lemma RecoverRowIsValid(j: Journal, op: string, now: int)
    requires Valid(j)
    ensures var k := RecoverRow(j, op, now);
      && Kept(j, k) && OnlyRow(j, k, op) && k.rows.Keys == j.rows.Keys
      && (op in j.rows && Unfinished(j.rows[op]) ==> k.rows[op].status == Unknown)
      && (op in j.rows && !Unfinished(j.rows[op]) ==> k == j)
  {
    hide Valid, Kept, OnlyRow, Reindexed;
    Unchanged(j, op);
    if op in j.rows && Unfinished(j.rows[op]) {
      SignatureStaysFree(j, op);
      var was := j.rows[op];
      var row := was.(status := Unknown,
                      evidence := was.evidence.(errorCode := Some("PROCESS_RECOVERY_UNKNOWN")),
                      updatedAt := now);
      var event := Event(op, RecoveredUnknown, RecoverDetails(was.status), now);
      RisingEventIsNew(j, op, row, event);
      WriteIsValid(j, op, row, event);
    }
  }

  lemma InsertKeepsTable(j: Journal, b: Binding, now: int)
    requires TableIndexed(j) && b.amount > 0 && b.operationId !in j.rows
    requires (b.principalId, b.idempotencyKey) !in j.byKey
    ensures TableIndexed(InsertRow(j, b, now))
  {
    var k := InsertRow(j, b, now);
    assert b.operationId !in j.order;
    assert forall op :: op in k.order <==> op in j.order || op == b.operationId;
  }

  lemma InsertKeepsRise(j: Journal, b: Binding, now: int)
    requires EventsRise(j) && b.operationId !in j.rows
    ensures EventsRise(InsertRow(j, b, now))
  {
    var k := InsertRow(j, b, now);
    assert forall i :: 0 <= i < |j.events| ==> k.events[i] == j.events[i];
  }

  lemma InsertKeepsLog(j: Journal, b: Binding, now: int)
    requires TableIndexed(j) && LogMatchesTable(j) && b.operationId !in j.rows
    ensures var k := InsertRow(j, b, now);
      && LogMatchesTable(k)
      && OpenTotal(k.order, k.rows) == OpenTotal(j.order, j.rows) + b.amount
      && OpenCount(k.order, k.rows) == OpenCount(j.order, j.rows) + 1
  {
    var k := InsertRow(j, b, now);
    var op := b.operationId;
    assert op !in j.order;
    OpenUntouched(j.order, j.rows, op, k.rows[op]);
    OpenAppend(j.order, k.rows, op);
    assert k.events[..|k.events| - 1] == j.events;
    assert ReplayLog(k.events) == ApplyEvent(ReplayLog(j.events), k.events[|j.events|]);
  }

  lemma InsertKeepsSignatures(j: Journal, b: Binding, now: int)
    requires SignaturesIndexed(j) && b.operationId !in j.rows
    ensures SignaturesIndexed(InsertRow(j, b, now))
  {
  }

  lemma InsertEvolves(j: Journal, b: Binding, now: int)
    requires b.operationId !in j.rows
    ensures Evolves(j, InsertRow(j, b, now)) && OnlyRow(j, InsertRow(j, b, now), b.operationId)
  {
  }

  lemma InsertIsValid(j: Journal, b: Binding, now: int)
    requires Valid(j) && b.amount > 0 && b.operationId !in j.rows
    requires (b.principalId, b.idempotencyKey) !in j.byKey
    ensures var k := InsertRow(j, b, now);
      && Valid(k) && Evolves(j, k) && OnlyRow(j, k, b.operationId)
      && OpenTotal(k.order, k.rows) == OpenTotal(j.order, j.rows) + b.amount
      && OpenCount(k.order, k.rows) == OpenCount(j.order, j.rows) + 1
  {
    hide TableIndexed, SignaturesIndexed, EventsRise, LogMatchesTable, Evolves, OnlyRow, InsertRow;
    InsertKeepsTable(j, b, now);
    InsertKeepsSignatures(j, b, now);
    InsertKeepsRise(j, b, now);
    InsertKeepsLog(j, b, now);
    InsertEvolves(j, b, now);
  }

  // Under an unused key, a stored row of the same operation is under another key; with
  // no stored row the reservation event is new.
  lemma UnusedKey(j: Journal, b: Binding, now: int)
    requires Valid(j) && ByPrincipalKey(j, b.principalId, b.idempotencyKey).None?
    ensures (b.principalId, b.idempotencyKey) !in j.byKey
    ensures b.operationId !in j.rows ==>
              Event(b.operationId, Entered(Reserved),
                    ReserveDetails(b.amount, b.challengeSha256, b.policySha256), now) !in j.events
  {
    hide SignaturesIndexed, LogMatchesTable;
  }

  ghost predicate ReserveOutcome(j: Journal, b: Binding, maxTotal: int, maxRequests: int, now: int,
                                 r: Result<Reservation, JournalError>, k: Journal)
  {
    && (!(r.Ok? && r.value.Fresh?) ==> k == j)
    && (r.Ok? && r.value.Fresh? ==>
          && r.value.row == Row(b, Reserved, NO_EVIDENCE, now, now)
          && b.operationId !in j.rows
          && b.operationId in k.rows && k.rows[b.operationId] == r.value.row
          && (b.principalId, b.idempotencyKey) !in j.byKey
          && OpenTotal(k.order, k.rows) == OpenTotal(j.order, j.rows) + b.amount <= maxTotal
          && OpenCount(k.order, k.rows) == OpenCount(j.order, j.rows) + 1 <= maxRequests)
    && (r == Err(StorageFailure) ==> b.operationId in j.rows)
    && (r.Ok? && r.value.Replay? ==>
          && r.value.row.status in {SettledVerified, ReconciledVerified}
          && ByPrincipalKey(j, b.principalId, b.idempotencyKey) == Some(r.value.row))
  }

  // A reservation either inserts one row inside the budget, or changes nothing; a
  // refusal by the storage means the operation id itself is taken under another key.
  lemma ReserveIsValid(j: Journal, b: Binding, maxTotal: int, maxRequests: int, now: int)
    requires Valid(j)
    ensures var (r, k) := Reserve(j, b, maxTotal, maxRequests, now);
      Valid(k) && Evolves(j, k) && OnlyRow(j, k, b.operationId)
      && ReserveOutcome(j, b, maxTotal, maxRequests, now, r, k)
  {
    hide Valid, Evolves, OnlyRow, OpenTotal, OpenCount;
    Unchanged(j, b.operationId);
    if ByPrincipalKey(j, b.principalId, b.idempotencyKey).None? {
      UnusedKey(j, b, now);
      if b.operationId !in j.rows && b.amount > 0 {
        InsertIsValid(j, b, now);
      }
    }
  }

  lemma {:induction false} RecoverRowsValid(j: Journal, ops: seq<string>, now: int)
    requires Valid(j)
    ensures Kept(j, RecoverRows(j, ops, now)) && RecoverRows(j, ops, now).rows.Keys == j.rows.Keys
    ensures forall op :: op in j.rows && (op in ops || !Unfinished(j.rows[op])) ==>
                           !Unfinished(RecoverRows(j, ops, now).rows[op])
  {
    hide Valid, Evolves, OpenTotal, OpenCount, RecoverRow;
    if ops == [] {
      Unchanged(j, "");
    } else {
      var front, last := ops[..|ops| - 1], ops[|ops| - 1];
      var mid := RecoverRows(j, front, now);
      RecoverRowsValid(j, front, now);
      RecoverRowIsValid(mid, last, now);
      var k := RecoverRow(mid, last, now);
      EvolvesTransitive(j, mid, k);
      forall op | op in j.rows && (op in ops || !Unfinished(j.rows[op])) ensures !Unfinished(k.rows[op]) {
        assert op in ops ==> op in front || op == last;
        if op != last { assert k.rows[op] == mid.rows[op]; }
      }
    }
  }

  lemma {:induction false} UnfinishedAreSelected(order: seq<string>, rows: map<string, Row>)
    ensures forall op :: op in order && op in rows && Unfinished(rows[op]) ==>
                           op in UnfinishedOperations(order, rows)
  {
    if order != [] {
      UnfinishedAreSelected(order[1..], rows);
      assert forall op :: op in order <==> op == order[0] || op in order[1..];
    }
  }

  // After recovery no row is left reserved or submitted.
  lemma RecoveryFinishesEveryRow(j: Journal, now: int)
    requires Valid(j)
    ensures var k := RecoverUnfinished(j, now);
      Kept(j, k) && k.rows.Keys == j.rows.Keys && forall op :: op in k.rows ==> !Unfinished(k.rows[op])
  {
    RecoverRowsValid(j, UnfinishedOperations(j.order, j.rows), now);
    UnfinishedAreSelected(j.order, j.rows);
    assert forall op :: op in j.rows ==> op in j.order;
  }
}
