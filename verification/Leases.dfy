/** Leases over whole histories of the store: any number of workers, any clock
    readings, any interleaving of the store's atomic calls. */
module Leases {
  import opened Basics
  import opened DurableStore

  datatype Call =
    | Create(run: Run, op: Operation, event: Option<Event>)
    | Claim(worker: string, limit: int, lease: nat, ids: seq<string>)
    | Complete(worker: string, id: string, event: Option<Event>)
    | Retry(worker: string, id: string, lastError: string, availableAt: nat)
    | Fail(worker: string, id: string, lastError: string, run: Run, event: Option<Event>)
    | Append(item: Event)
    | Upsert(run: Run, event: Option<Event>)

  /** A call and the time the store reads during it. */
  datatype Timed = At(now: nat, call: Call)

  function OrUnchanged(db: Db, r: Result<Db, Error>): Db {
    match r
    case Success(db') => db'
    case Failure(_) => db
  }

  function After(db: Db, t: Timed): Db {
    match t.call
    case Create(run, op, e) => OrUnchanged(db, Created(db, run, op, e, t.now))
    case Claim(worker, _, lease, ids) => Claimed(db, IdSet(ids), worker, lease, t.now)
    case Complete(worker, id, e) => OrUnchanged(db, Acked(db, worker, id, e, t.now))
    case Retry(worker, id, lastError, availableAt) => OrUnchanged(db, Retried(db, worker, id, lastError, availableAt, t.now))
    case Fail(worker, id, lastError, run, e) => OrUnchanged(db, GivenUp(db, worker, id, lastError, run, e, t.now))
    case Append(e) => OrUnchanged(db, Ingested(db, e, t.now))
    case Upsert(run, e) => Mirrored(db, run, e, t.now)
  }

  /** A claim hands out what ClaimOperations hands out. */
  ghost predicate Permitted(db: Db, t: Timed) {
    t.call.Claim? ==> FirstReady(db, t.call.limit, t.now, t.call.ids)
  }

  ghost predicate Happened(db: Db, ts: seq<Timed>)
    decreases |ts|
  {
    ts == [] || (Permitted(db, ts[0]) && Happened(After(db, ts[0]), ts[1..]))
  }

  function AfterAll(db: Db, ts: seq<Timed>): Db
    decreases |ts|
  {
    if ts == [] then db else AfterAll(After(db, ts[0]), ts[1..])
  }

  predicate Claims(t: Timed, id: string) {
    t.call.Claim? && id in t.call.ids
  }

  predicate Terminal(op: Operation) {
    op.state == Completed || op.state == Failed
  }

  // ---- one call and one operation -------------------------------------------------------

  lemma AppendLeavesOperations(db: Db, e: Option<Event>, now: nat)
    ensures Appended(db, e, now).operations == db.operations && Appended(db, e, now).runs == db.runs
  {
  }

  /** A call changes an operation only by claiming it or as its holder. */
  lemma OperationAfter(db: Db, t: Timed, id: string)
    requires id in db.operations && Permitted(db, t)
    ensures id in After(db, t).operations
    ensures var op, op' := db.operations[id], After(db, t).operations[id];
            if Claims(t, id) then
              Ready(op, t.now) && op' == Taken(op, t.call.worker, t.call.lease, t.now)
            else if t.call.Complete? && t.call.id == id && Holds(db, t.call.worker, id) then
              op' == Released(op, Completed, "", t.now)
            else if t.call.Retry? && t.call.id == id && Holds(db, t.call.worker, id) then
              op' == Released(op, Pending, t.call.lastError, t.now).(availableAt := t.call.availableAt)
            else if t.call.Fail? && t.call.id == id && Holds(db, t.call.worker, id) && t.call.run.id in db.runs then
              op' == Released(op, Failed, t.call.lastError, t.now)
            else op' == op
  {
    hide Appended, Taken, Ready, Released;
    match t.call {
      case Create(run, op, e) =>
        if run.id !in db.runs && op.id !in db.operations {
          CreatedLeaves(db, run, op, e, t.now);
        }
      case Claim(_, _, _, _) =>
      case Complete(worker, k, e) =>
        AppendLeavesOperations(db.(operations := if k in db.operations then db.operations[k := Released(db.operations[k], Completed, "", t.now)] else db.operations), e, t.now);
      case Retry(_, _, _, _) =>
      case Fail(worker, k, lastError, run, e) =>
        AppendLeavesOperations(db.(runs := db.runs[run.id := run],
          operations := if k in db.operations then db.operations[k := Released(db.operations[k], Failed, lastError, t.now)] else db.operations), e, t.now);
      case Append(e) => AppendLeavesOperations(db, Some(e), t.now);
      case Upsert(run, e) => AppendLeavesOperations(db.(runs := db.runs[run.id := run]), e, t.now);
    }
  }

  lemma CreatedLeaves(db: Db, run: Run, op: Operation, e: Option<Event>, now: nat)
    requires run.id !in db.runs && op.id !in db.operations
    ensures Created(db, run, op, e, now).Success?
    ensures forall id | id in db.operations ::
              id in Created(db, run, op, e, now).value.operations && Created(db, run, op, e, now).value.operations[id] == db.operations[id]
  {
  }

  // ---- exclusion in time ------------------------------------------------------------------

  /** The operation is over, or leased at least until u. */
  predicate LeasedUntil(db: Db, id: string, u: nat) {
    id in db.operations && (Terminal(db.operations[id]) || (db.operations[id].state == Processing && db.operations[id].leaseUntil >= u))
  }

  lemma {:induction false} LeaseLasts(db: Db, id: string, u: nat, ts: seq<Timed>, t: Timed)
    requires LeasedUntil(db, id, u) && Happened(db, ts)
    requires forall k | 0 <= k < |ts| :: !(ts[k].call.Retry? && ts[k].call.id == id)
    requires Permitted(AfterAll(db, ts), t) && Claims(t, id)
    ensures t.now >= u
    decreases |ts|
  {
    hide After, Permitted;
    if ts == [] {
      OperationAfter(db, t, id);
    } else {
      OperationAfter(db, ts[0], id);
      LeaseLasts(After(db, ts[0]), id, u, ts[1..], t);
    }
  }

  /** Two claims of one operation with no retry of it between them are at least the
      first one's lease apart, whoever makes them and whatever else happens. */
  lemma ClaimsAreALeaseApart(db: Db, first: Timed, between: seq<Timed>, second: Timed, id: string)
    requires id in db.operations && Claims(first, id) && Claims(second, id)
    requires Permitted(db, first) && Happened(After(db, first), between)
    requires Permitted(AfterAll(After(db, first), between), second)
    requires forall k | 0 <= k < |between| :: !(between[k].call.Retry? && between[k].call.id == id)
    ensures second.now >= first.now + first.call.lease
  {
    hide After, Permitted;
    OperationAfter(db, first, id);
    LeaseLasts(After(db, first), id, first.now + first.call.lease, between, second);
  }

  // ---- stale owners ---------------------------------------------------------------------------

  lemma {:induction false} NotHeldStays(db: Db, worker: string, id: string, ts: seq<Timed>)
    requires id in db.operations && !Holds(db, worker, id) && Happened(db, ts)
    requires forall k | 0 <= k < |ts| :: !(Claims(ts[k], id) && ts[k].call.worker == worker)
    ensures id in AfterAll(db, ts).operations && !Holds(AfterAll(db, ts), worker, id)
    decreases |ts|
  {
    hide After, Permitted;
    if ts != [] {
      OperationAfter(db, ts[0], id);
      NotHeldStays(After(db, ts[0]), worker, id, ts[1..]);
    }
  }

  /** A worker whose operation another worker claimed gets ErrLeaseLost from every
      call about it and changes nothing, until it claims it again itself. */
  lemma StaleWorkerIsPowerless(db: Db, taken: Timed, since: seq<Timed>, stale: string, id: string, t: Timed)
    requires id in db.operations && Claims(taken, id) && taken.call.worker != stale
    requires Permitted(db, taken) && Happened(After(db, taken), since)
    requires forall k | 0 <= k < |since| :: !(Claims(since[k], id) && since[k].call.worker == stale)
    requires t.call.Complete? || t.call.Retry? || t.call.Fail?
    requires t.call.worker == stale && t.call.id == id
    ensures var now := AfterAll(After(db, taken), since);
            && After(now, t) == now
            && (t.call.Complete? ==> Acked(now, stale, id, t.call.event, t.now) == Failure(LeaseLost))
            && (t.call.Retry? ==> Retried(now, stale, id, t.call.lastError, t.call.availableAt, t.now) == Failure(LeaseLost))
            && (t.call.Fail? ==> GivenUp(now, stale, id, t.call.lastError, t.call.run, t.call.event, t.now) == Failure(LeaseLost))
  {
    hide Permitted, Created, Claimed, Ingested, Mirrored, Appended;
    OperationAfter(db, taken, id);
    NotHeldStays(After(db, taken), stale, id, since);
  }

  /** Completed and failed are final: nothing changes such an operation, and no
      claim hands it out. */
  lemma {:induction false} TerminalIsFinal(db: Db, id: string, ts: seq<Timed>)
    requires id in db.operations && Terminal(db.operations[id]) && Happened(db, ts)
    ensures id in AfterAll(db, ts).operations && AfterAll(db, ts).operations[id] == db.operations[id]
    ensures forall k | 0 <= k < |ts| :: !Claims(ts[k], id)
    decreases |ts|
  {
    hide After, Permitted;
    if ts != [] {
      OperationAfter(db, ts[0], id);
      TerminalIsFinal(After(db, ts[0]), id, ts[1..]);
      forall k | 0 <= k < |ts| ensures !Claims(ts[k], id) {
        assert k > 0 ==> ts[k] == ts[1..][k - 1];
      }
    }
  }

  /** Any other operation is ready from a time on that its own fields tell, and a
      claim with room for all that is ready then takes it. */
  lemma NonTerminalIsClaimable(db: Db, id: string, now: nat, limit: int, ids: seq<string>)
    requires id in db.operations && (db.operations[id].state == Pending || db.operations[id].state == Processing)
    ensures now >= db.operations[id].availableAt && now >= db.operations[id].leaseUntil ==> id in ReadyIds(db, now)
    ensures id in ReadyIds(db, now) && FirstReady(db, limit, now, ids) && (if limit <= 0 then 1 else limit) >= |ReadyIds(db, now)| ==> id in ids
  {
    if id in ReadyIds(db, now) && FirstReady(db, limit, now, ids) && Limit(limit) >= |ReadyIds(db, now)| {
      FirstReadyDiffer(db, limit, now, ids);
      DistinctCount(ids);
      SubsetOfSameSize(IdSet(ids), ReadyIds(db, now));
    }
  }

  lemma SubsetOfSameSize(a: set<string>, b: set<string>)
    requires a <= b && |a| == |b|
    ensures a == b
  {
    var rest := b - a;
    assert b == a + rest;
    assert |b| == |a| + |rest|;
  }
}
