// Whole runs of the journal: any sequence of calls, from the empty journal.
module JournalRuns {
  import opened Prelude
  import opened JournalSpec
  import opened JournalLaws

  datatype Call =
    | DoReserve(binding: Binding, maxTotal: int, maxRequests: int, now: int)
    | DoMarkSubmitted(op: string, now: int)
    | DoMarkSettled(op: string, update: Update, now: int)
    | DoMarkUnknown(op: string, code: string, partial: Option<PartialEvidence>, now: int)
    | DoAbort(op: string, code: string, now: int)
    | DoReconcile(op: string, update: Update, now: int)
    | DoRecover(now: int)

  function Apply(j: Journal, c: Call): Journal {
    match c
    case DoReserve(b, maxTotal, maxRequests, now) => Reserve(j, b, maxTotal, maxRequests, now).1
    case DoMarkSubmitted(op, now) => MarkSubmitted(j, op, now).1
    case DoMarkSettled(op, u, now) => if u.SettleWith? then MarkSettled(j, op, u, now).1 else j
    case DoMarkUnknown(op, code, partial, now) => MarkUnknown(j, op, code, partial, now).1
    case DoAbort(op, code, now) => Abort(j, op, code, now).1
    case DoReconcile(op, u, now) => if u.ReconcileWith? then ReconcileUnknown(j, op, u, now).1 else j
    case DoRecover(now) => RecoverUnfinished(j, now)
  }

  function RunFrom(j: Journal, calls: seq<Call>): Journal
    decreases |calls|
  {
    if calls == [] then j else RunFrom(Apply(j, calls[0]), calls[1..])
  }

  lemma ApplyIsValid(j: Journal, c: Call)
    requires Valid(j)
    ensures Valid(Apply(j, c)) && Evolves(j, Apply(j, c))
  {
    hide Valid, Evolves, Transition, JournalSpec.Reserve, OnlyRow, ReserveOutcome, RecoverUnfinished, OpenTotal,
         OpenCount;
    Unchanged(j, "");
    match c {
      case DoReserve(b, maxTotal, maxRequests, now) => ReserveIsValid(j, b, maxTotal, maxRequests, now);
      case DoMarkSubmitted(op, now) => TransitionIsValid(j, op, Reserved, Submitted, NoUpdate, now);
      case DoMarkSettled(op, u, now) => TransitionIsValid(j, op, Submitted, SettledVerified, u, now);
      case DoMarkUnknown(op, code, partial, now) =>
        TransitionIsValid(j, op, Submitted, Unknown, UnknownWith(SafeErrorCode(code), partial), now);
      case DoAbort(op, code, now) =>
        TransitionIsValid(j, op, Reserved, Aborted, AbortWith(SafeErrorCode(code)), now);
      case DoReconcile(op, u, now) => TransitionIsValid(j, op, Unknown, ReconciledVerified, u, now);
      case DoRecover(now) => RecoveryFinishesEveryRow(j, now);
    }
  }

  lemma {:induction false} RunIsValid(j: Journal, calls: seq<Call>)
    requires Valid(j)
    ensures Valid(RunFrom(j, calls)) && Evolves(j, RunFrom(j, calls))
    decreases |calls|
  {
    hide Valid, Apply;
    if calls != [] {
      ApplyIsValid(j, calls[0]);
      RunIsValid(Apply(j, calls[0]), calls[1..]);
      EvolvesTransitive(j, Apply(j, calls[0]), RunFrom(j, calls));
    }
  }

  lemma EmptyIsValid()
    ensures Valid(EMPTY)
  {
  }

  // After every run, reading the log from the start rebuilds the status and amount of
  // every row, no others, and the budget in use.
  lemma LogRebuildsTable(calls: seq<Call>)
    ensures var j := RunFrom(EMPTY, calls);
      && ReplayLog(j.events) == (map op | op in j.rows :: Replayed(j.rows[op].status, j.rows[op].binding.amount))
      && ReplayTotal(j.events) == OpenTotal(j.order, j.rows)
  {
    EmptyIsValid();
    RunIsValid(EMPTY, calls);
  }

  function CountEvents(events: seq<Event>, op: string): nat {
    if events == [] then 0
    else CountEvents(events[..|events| - 1], op)
         + if events[|events| - 1].operationId == op then 1 else 0
  }

  lemma {:induction false} RisingEventsAreFew(events: seq<Event>, op: string, top: int)
    requires forall i, k :: 0 <= i < k < |events| && events[i].operationId == op == events[k].operationId ==>
               KindRank(events[i].kind) < KindRank(events[k].kind)
    requires forall i :: 0 <= i < |events| && events[i].operationId == op ==> KindRank(events[i].kind) <= top
    requires top >= -1
    ensures CountEvents(events, op) <= top + 1
  {
    if events != [] {
      var front, last := events[..|events| - 1], events[|events| - 1];
      assert forall i :: 0 <= i < |front| ==> front[i] == events[i];
      RisingEventsAreFew(front, op, if last.operationId == op then KindRank(last.kind) - 1 else top);
    }
  }

  // After every run, an operation has at most four events, at most one of each type,
  // and each later one is of a higher rank.
  lemma EventsOfOneOperation(calls: seq<Call>, op: string)
    ensures var events := RunFrom(EMPTY, calls).events;
      && CountEvents(events, op) <= 4
      && (forall i, k :: 0 <= i < k < |events| && events[i].operationId == op == events[k].operationId ==>
            events[i].kind != events[k].kind && KindRank(events[i].kind) < KindRank(events[k].kind))
  {
    hide RunFrom, TableIndexed, SignaturesIndexed, LogMatchesTable, Evolves, CountEvents;
    EmptyIsValid();
    RunIsValid(EMPTY, calls);
    RisingEventsAreFew(RunFrom(EMPTY, calls).events, op, 3);
  }

  // Two rows never share a (principal, key) pair or a transaction signature.
  lemma KeysAndSignaturesAreUnique(calls: seq<Call>, a: string, b: string)
    requires var j := RunFrom(EMPTY, calls); a in j.rows && b in j.rows && a != b
    ensures var j := RunFrom(EMPTY, calls);
      && (j.rows[a].binding.principalId, j.rows[a].binding.idempotencyKey)
           != (j.rows[b].binding.principalId, j.rows[b].binding.idempotencyKey)
      && (j.rows[a].evidence.signature.Some? ==>
            j.rows[a].evidence.signature != j.rows[b].evidence.signature)
  {
    EmptyIsValid();
    RunIsValid(EMPTY, calls);
  }

  // With fixed caps the rows that are not aborted stay inside both of them.
  lemma {:induction false} BudgetHolds(j: Journal, calls: seq<Call>, maxTotal: int, maxRequests: int)
    requires Valid(j) && OpenTotal(j.order, j.rows) <= maxTotal && OpenCount(j.order, j.rows) <= maxRequests
    requires forall c :: c in calls && c.DoReserve? ==> c.maxTotal == maxTotal && c.maxRequests == maxRequests
    ensures var k := RunFrom(j, calls);
      OpenTotal(k.order, k.rows) <= maxTotal && OpenCount(k.order, k.rows) <= maxRequests
    decreases |calls|
  {
    hide Valid, Evolves, Apply;
    if calls != [] {
      ApplyIsValid(j, calls[0]);
      ApplyKeepsBudget(j, calls[0], maxTotal, maxRequests);
      BudgetHolds(Apply(j, calls[0]), calls[1..], maxTotal, maxRequests);
    }
  }

  lemma ApplyKeepsBudget(j: Journal, c: Call, maxTotal: int, maxRequests: int)
    requires Valid(j) && OpenTotal(j.order, j.rows) <= maxTotal && OpenCount(j.order, j.rows) <= maxRequests
    requires c.DoReserve? ==> c.maxTotal == maxTotal && c.maxRequests == maxRequests
    ensures var k := Apply(j, c);
      OpenTotal(k.order, k.rows) <= maxTotal && OpenCount(k.order, k.rows) <= maxRequests
  {
    hide Valid, Evolves, Transition, JournalSpec.Reserve, OnlyRow, RecoverUnfinished, OpenTotal, OpenCount;
    match c {
      case DoReserve(b, _, _, now) => ReserveIsValid(j, b, maxTotal, maxRequests, now);
      case DoMarkSubmitted(op, now) => TransitionIsValid(j, op, Reserved, Submitted, NoUpdate, now);
      case DoMarkSettled(op, u, now) => TransitionIsValid(j, op, Submitted, SettledVerified, u, now);
      case DoMarkUnknown(op, code, partial, now) =>
        TransitionIsValid(j, op, Submitted, Unknown, UnknownWith(SafeErrorCode(code), partial), now);
      case DoAbort(op, code, now) =>
        TransitionIsValid(j, op, Reserved, Aborted, AbortWith(SafeErrorCode(code)), now);
      case DoReconcile(op, u, now) => TransitionIsValid(j, op, Unknown, ReconciledVerified, u, now);
      case DoRecover(now) => RecoveryFinishesEveryRow(j, now);
    }
  }
}
