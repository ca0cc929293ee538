/** `internal/coreapi/outbox.go` and the cluster it acts on
    (`internal/launcher/fake.go`): launching runs through the leased outbox. */
module Outbox {
  import opened Basics
  import opened DurableStore
  import opened Leases
  import opened Journals

  const SECOND := 1_000_000_000
  const OUTBOX_LEASE := 30 * SECOND
  const MAX_LAUNCH_ATTEMPTS := 12
  const LAUNCH_RUN := "launch_run"

  // ---- the launcher ---------------------------------------------------------------------

  datatype LaunchError = Forbidden | Invalid | BadRequest | Unauthorized | Different | Other(message: string)

  /** permanentLaunchError. */
  predicate Permanent(e: LaunchError) {
    e == Forbidden || e == Invalid || e == BadRequest || e == Unauthorized
  }

  /** The AgentRuns by namespace and name, each with its specification. */
  datatype Cluster = Cluster(namespaces: set<string>, runs: map<(string, string), string>)

  /** The errors the cluster answers with, if any. */
  datatype Faults = Faults(namespace: Option<LaunchError>, create: Option<LaunchError>)

  class Fake {
    var namespaces: set<string>
    var runs: map<(string, string), string>
    var faults: Faults

    function Contents(): Cluster
      reads this
    {
      Cluster(namespaces, runs)
    }

    constructor ()
      ensures Contents() == Cluster({}, map[]) && faults == Faults(None, None)
    {
      namespaces, runs, faults := {}, map[], Faults(None, None);
    }

    method EnsureNamespace(ns: string) returns (err: Option<LaunchError>)
      modifies `namespaces
      ensures err == faults.namespace
      ensures Contents() == if err.Some? then old(Contents()) else WithNamespace(old(Contents()), ns)
    {
      if faults.namespace.Some? {
        return faults.namespace;
      }
      namespaces := namespaces + {ns};
      err := None;
    }

    /** Idempotent: an AgentRun that is already there with the same specification is
        a success. */
    method CreateRun(ns: string, name: string, spec: string) returns (err: Option<LaunchError>)
      modifies `runs
      ensures (Contents(), err) == RunCreated(old(Contents()), ns, name, spec, faults.create)
    {
      if faults.create.Some? {
        return faults.create;
      }
      if (ns, name) in runs {
        if runs[(ns, name)] == spec {
          return None;
        }
        return Some(Different);
      }
      runs := runs[(ns, name) := spec];
      err := None;
    }
  }

  function WithNamespace(c: Cluster, ns: string): Cluster {
    c.(namespaces := c.namespaces + {ns})
  }

  function RunCreated(c: Cluster, ns: string, name: string, spec: string, fault: Option<LaunchError>): (Cluster, Option<LaunchError>) {
    if fault.Some? then (c, fault)
    else if (ns, name) in c.runs then (c, if c.runs[(ns, name)] == spec then None else Some(Different))
    else (c.(runs := c.runs[(ns, name) := spec]), None)
  }

  // ---- one operation -----------------------------------------------------------------------

  datatype Outcome = Launched | Rejected(cause: LaunchError) | Unknown | Undecodable

  /** The external effect of an operation. */
  function Effect(c: Cluster, op: Operation, faults: Faults): (Cluster, Outcome) {
    if op.kind != LAUNCH_RUN then (c, Unknown)
    else if op.payload.Garbled? then (c, Undecodable)
    else if faults.namespace.Some? then (c, Rejected(faults.namespace.value))
    else
      var (c', err) := RunCreated(WithNamespace(c, op.payload.namespace), op.payload.namespace, op.payload.name, op.payload.spec, faults.create);
      (c', if err.Some? then Rejected(err.value) else Launched)
  }

  /** The message of a cause; its wording is abstract. */
  function Message(o: Outcome): string {
    match o
    case Launched => ""
    case Rejected(Other(m)) => m
    case Rejected(_) => "ensure AgentRun"
    case Unknown => "unknown operation kind"
    case Undecodable => "decode launch payload"
  }

  function Pow2(n: nat): nat {
    if n == 0 then 1 else 2 * Pow2(n - 1)
  }

  /** The back-off after an attempt. */
  function Delay(attempts: nat): nat {
    if attempts == 0 then SECOND / 2 else Pow2(Min(attempts - 1, 6)) * SECOND
  }

  function AcceptedEvent(op: Operation, now: nat): Event {
    Event(0, op.runID, "outbox", op.id, "run.launch_accepted", "", now)
  }

  function FailedEvent(op: Operation, now: nat): Event {
    Event(0, op.runID, "outbox", op.id + "/failed", "run.launch_failed", "", now)
  }

  function FailedRun(run: Run, o: Outcome, now: nat): Run {
    run.(phase := "Failed", conditions := run.conditions + [Condition("LaunchReady", "False", "LaunchFailed", Message(o), now)])
  }

  /** The store call that settles an operation; None when its run is unknown. */
  function Settlement(db: Db, worker: string, op: Operation, o: Outcome, now: nat): Option<Timed> {
    if o.Launched? then Some(At(now, Complete(worker, op.id, Some(AcceptedEvent(op, now)))))
    else if o.Rejected? && !Permanent(o.cause) && op.attempts < MAX_LAUNCH_ATTEMPTS then
      Some(At(now, Retry(worker, op.id, Message(o), now + Delay(op.attempts))))
    else if op.runID !in db.runs then None
    else Some(At(now, Fail(worker, op.id, Message(o), FailedRun(db.runs[op.runID], o, now), Some(FailedEvent(op, now)))))
  }

  function Settled(db: Db, worker: string, op: Operation, o: Outcome, now: nat): Db {
    var t := Settlement(db, worker, op, o, now);
    if t.Some? then After(db, t.value) else db
  }

  /** Operations dispatched one after the other. */
  function DispatchedAll(db: Db, c: Cluster, worker: string, ops: seq<Operation>, faults: Faults, now: nat): (Db, Cluster) {
    if ops == [] then (db, c)
    else
      var n := |ops| - 1;
      var (db1, c1) := DispatchedAll(db, c, worker, ops[..n], faults, now);
      var (c2, o) := Effect(c1, ops[n], faults);
      (Settled(db1, worker, ops[n], o, now), c2)
  }

  /** The copies of the claimed operations the worker gets. */
  function TakenAll(db: Db, ids: seq<string>, worker: string, now: nat): (ops: seq<Operation>)
    requires forall i | 0 <= i < |ids| :: ids[i] in db.operations
    ensures |ops| == |ids| && forall i | 0 <= i < |ids| :: ops[i] == Taken(db.operations[ids[i]], worker, OUTBOX_LEASE, now)
  {
    seq(|ids|, i requires 0 <= i < |ids| => Taken(db.operations[ids[i]], worker, OUTBOX_LEASE, now))
  }

  // ---- what a dispatch leaves, field by field -------------------------------------------------

  /** The journal has this event of the outbox: it was there, or comes last. */
  ghost predicate Told(db: Db, db': Db, runID: string, key: string, kind: string, now: nat) {
    NotedOnce(db.events, db.nextEventID, db'.events, db'.nextEventID, Some(Event(0, runID, "outbox", key, kind, "", now)), now)
  }

  /** The seconds to wait after an attempt: 1, 2, 4, 8, 16, 32, and 64 from then on. */
  function BackOff(attempts: nat): nat {
    if attempts == 0 then 500_000_000
    else [1, 2, 4, 8, 16, 32, 64][Min(attempts, 7) - 1] * 1_000_000_000
  }

  predicate NeverWorks(cause: LaunchError) {
    cause in {Forbidden, Invalid, BadRequest, Unauthorized}
  }

  /** The launch worked: the operation is completed and let go, and the run's journal
      says that the launch was accepted. */
  ghost predicate Accepted(db: Db, db': Db, op: Operation, now: nat) {
    && db'.runs == db.runs && op.id in db.operations
    && LetGo(db, db', op.id, Completed, "", db.operations[op.id].availableAt, now)
    && Told(db, db', op.runID, op.id, "run.launch_accepted", now)
  }

  /** It is put off: the operation waits for its back-off and is nobody's. */
  ghost predicate PutOff(db: Db, db': Db, op: Operation, now: nat) {
    && db'.runs == db.runs && db'.events == db.events && db'.nextEventID == db.nextEventID
    && op.id in db'.operations && LetGo(db, db', op.id, Pending, db'.operations[op.id].lastError, now + BackOff(op.attempts), now)
  }

  /** It is given up: the run has failed and says so, the operation has failed, and
      the run's journal says that the launch failed. */
  ghost predicate Refused(db: Db, db': Db, op: Operation, now: nat) {
    && op.runID in db.runs && op.id in db.operations && op.id in db'.operations
    && var message := db'.operations[op.id].lastError;
       var run := db.runs[op.runID];
       && db'.runs == db.runs[op.runID := run.(phase := "Failed", conditions := run.conditions + [Condition("LaunchReady", "False", "LaunchFailed", message, now)])]
       && LetGo(db, db', op.id, Failed, message, db.operations[op.id].availableAt, now)
       && Told(db, db', op.runID, op.id + "/failed", "run.launch_failed", now)
  }

  /** What a launch meets, if anything: a fault, or an AgentRun of that name with
      another specification. */
  function Obstacle(c: Cluster, op: Operation, faults: Faults): Option<LaunchError>
    requires op.payload.AgentRun?
  {
    var key := (op.payload.namespace, op.payload.name);
    if faults.namespace.Some? then faults.namespace
    else if faults.create.Some? then faults.create
    else if key in c.runs && c.runs[key] != op.payload.spec then Some(Different)
    else None
  }

  /** The cluster and the store after the dispatch of an operation. */
  ghost predicate Dispatched(db: Db, c: Cluster, faults: Faults, worker: string, op: Operation, now: nat, db': Db, c': Cluster) {
    var launch := op.kind == "launch_run" && op.payload.AgentRun?;
    var obstacle := if launch then Obstacle(c, op, faults) else None;
    // the cluster
    && (!launch ==> c' == c)
    && (launch ==>
          && c'.namespaces == (if faults.namespace.Some? then c.namespaces else c.namespaces + {op.payload.namespace})
          && c'.runs == if obstacle.Some? then c.runs else c.runs[(op.payload.namespace, op.payload.name) := op.payload.spec])
    // the store
    && (if !HeldBy(db, worker, op.id) then db' == db
        else if launch && obstacle.None? then Accepted(db, db', op, now)
        else if launch && !NeverWorks(obstacle.value) && op.attempts < 12 then PutOff(db, db', op, now)
        else if op.runID !in db.runs then db' == db
        else db.runs[op.runID].id == op.runID ==> Refused(db, db', op, now))
  }

  lemma BackOffIs(attempts: nat)
    ensures Delay(attempts) == BackOff(attempts)
  {
    assert Pow2(0) == 1 && Pow2(1) == 2 && Pow2(2) == 4 && Pow2(3) == 8;
    assert Pow2(4) == 16 && Pow2(5) == 32 && Pow2(6) == 64;
  }

  lemma AcceptedEnds(db: Db, worker: string, op: Operation, now: nat)
    requires HeldBy(db, worker, op.id)
    ensures Accepted(db, Settled(db, worker, op, Launched, now), op, now)
  {
    hide NotedOnce, Appended;
    AppendedNotes(db.(operations := db.operations[op.id := Released(db.operations[op.id], Completed, "", now)]), Some(AcceptedEvent(op, now)), now);
  }

  lemma PutOffEnds(db: Db, worker: string, op: Operation, cause: LaunchError, now: nat)
    requires HeldBy(db, worker, op.id) && !NeverWorks(cause) && op.attempts < 12
    ensures PutOff(db, Settled(db, worker, op, Rejected(cause), now), op, now)
  {
    hide Delay, BackOff, Message;
    BackOffIs(op.attempts);
  }

  lemma RefusedEnds(db: Db, worker: string, op: Operation, o: Outcome, now: nat)
    requires HeldBy(db, worker, op.id) && !o.Launched? && (o.Rejected? ==> NeverWorks(o.cause) || op.attempts >= 12)
    ensures var db' := Settled(db, worker, op, o, now);
            if op.runID !in db.runs then db' == db else db.runs[op.runID].id == op.runID ==> Refused(db, db', op, now)
  {
    hide Delay, NotedOnce, Appended, Message;
    if op.runID in db.runs {
      var run := FailedRun(db.runs[op.runID], o, now);
      var fail := db.(runs := db.runs[run.id := run],
                      operations := db.operations[op.id := Released(db.operations[op.id], Failed, Message(o), now)]);
      AppendedNotes(fail, Some(FailedEvent(op, now)), now);
    }
  }

  lemma NothingEnds(db: Db, worker: string, op: Operation, o: Outcome, now: nat)
    requires !HeldBy(db, worker, op.id)
    ensures Settled(db, worker, op, o, now) == db
  {
    hide Delay, Message;
  }

  lemma EffectEnds(c: Cluster, op: Operation, faults: Faults)
    ensures var (c', o) := Effect(c, op, faults);
            var launch := op.kind == "launch_run" && op.payload.AgentRun?;
            var obstacle := if launch then Obstacle(c, op, faults) else None;
            && (!launch ==> c' == c && (o.Unknown? || o.Undecodable?))
            && (launch ==>
                  && o == (if obstacle.Some? then Rejected(obstacle.value) else Launched)
                  && c'.namespaces == (if faults.namespace.Some? then c.namespaces else c.namespaces + {op.payload.namespace})
                  && c'.runs == if obstacle.Some? then c.runs else c.runs[(op.payload.namespace, op.payload.name) := op.payload.spec])
  {
  }

  lemma DispatchEnds(db: Db, c: Cluster, faults: Faults, worker: string, op: Operation, now: nat)
    ensures var (c', o) := Effect(c, op, faults);
            Dispatched(db, c, faults, worker, op, now, Settled(db, worker, op, o, now), c')
    ensures Effect(c, op, faults).1.Launched? <==> op.kind == "launch_run" && op.payload.AgentRun? && Obstacle(c, op, faults).None?
  {
    hide Effect, Settled, Accepted, PutOff, Refused, Obstacle;
    EffectEnds(c, op, faults);
    var o := Effect(c, op, faults).1;
    if !HeldBy(db, worker, op.id) {
      NothingEnds(db, worker, op, o, now);
    } else if o.Launched? {
      AcceptedEnds(db, worker, op, now);
    } else if o.Rejected? && !NeverWorks(o.cause) && op.attempts < 12 {
      PutOffEnds(db, worker, op, o.cause, now);
    } else {
      RefusedEnds(db, worker, op, o, now);
    }
  }

  // ---- all that was claimed --------------------------------------------------------------------

  /** The worker holds these operations, each once, and their runs are on record. */
  ghost predicate InHand(db: Db, worker: string, ops: seq<Operation>) {
    && (forall i | 0 <= i < |ops| :: HeldBy(db, worker, ops[i].id) && ops[i].runID in db.runs && db.runs[ops[i].runID].id == ops[i].runID)
    && (forall i, j | 0 <= i < j < |ops| :: ops[i].id != ops[j].id)
  }

  function AsksFor(op: Operation): (string, string)
    requires op.payload.AgentRun?
  {
    (op.payload.namespace, op.payload.name)
  }

  /** Nothing is in the way of any of these launches: not the cluster, and not
      another one of them. */
  predicate AllClear(c: Cluster, ops: seq<Operation>) {
    && (forall i | 0 <= i < |ops| :: ops[i].kind == "launch_run" && ops[i].payload.AgentRun?)
    && (forall i | 0 <= i < |ops| :: AsksFor(ops[i]) in c.runs ==> c.runs[AsksFor(ops[i])] == ops[i].payload.spec)
    && (forall i, j | 0 <= i < j < |ops| :: AsksFor(ops[i]) == AsksFor(ops[j]) ==> ops[i].payload.spec == ops[j].payload.spec)
  }

  /** No operation is held any longer; and when nothing is in the way and no call
      fails, every one is completed and its AgentRun there as asked for. */
  ghost predicate AllSettled(db': Db, c: Cluster, c': Cluster, ops: seq<Operation>, faults: Faults) {
    && (forall i | 0 <= i < |ops| :: ops[i].id in db'.operations && db'.operations[ops[i].id].state in {Completed, Pending, Failed})
    && (faults == Faults(None, None) && AllClear(c, ops) ==>
          forall i | 0 <= i < |ops| ::
            && db'.operations[ops[i].id].state == Completed
            && AsksFor(ops[i]) in c'.runs && c'.runs[AsksFor(ops[i])] == ops[i].payload.spec)
  }

  /** What one dispatch leaves to the operations after it. */
  lemma OneMore(db: Db, c: Cluster, faults: Faults, worker: string, op: Operation, now: nat, db': Db, c': Cluster)
    requires Dispatched(db, c, faults, worker, op, now, db', c')
    requires HeldBy(db, worker, op.id) && op.runID in db.runs && db.runs[op.runID].id == op.runID
    ensures op.id in db'.operations && db'.operations[op.id].state in {Completed, Pending, Failed}
    ensures forall id | id in db.operations && id != op.id :: id in db'.operations && db'.operations[id] == db.operations[id]
    ensures forall r | r in db.runs :: r in db'.runs && db'.runs[r].id == db.runs[r].id
    ensures forall k | k in c.runs :: k in c'.runs && ((op.payload.AgentRun? && k == AsksFor(op)) || c'.runs[k] == c.runs[k])
    ensures faults == Faults(None, None) && op.kind == "launch_run" && op.payload.AgentRun? && (AsksFor(op) in c.runs ==> c.runs[AsksFor(op)] == op.payload.spec) ==>
              db'.operations[op.id].state == Completed && c'.runs == c.runs[AsksFor(op) := op.payload.spec]
  {
    hide NotedOnce;
  }

  /** The operation ends Completed exactly if its dispatch reports no error. */
  lemma CompletedWhenFine(db: Db, c: Cluster, faults: Faults, worker: string, op: Operation, now: nat, db': Db, c': Cluster, fine: bool)
    requires Dispatched(db, c, faults, worker, op, now, db', c')
    requires HeldBy(db, worker, op.id) && op.runID in db.runs && db.runs[op.runID].id == op.runID
    requires fine <==> op.kind == "launch_run" && op.payload.AgentRun? && Obstacle(c, op, faults).None?
    ensures op.id in db'.operations && (db'.operations[op.id].state == Completed <==> fine)
  {
    hide NotedOnce, Obstacle;
  }

  /** Other operations are as they were, and the records are still there. */
  ghost predicate OthersStay(db: Db, db': Db, ops: seq<Operation>) {
    && (forall id | id in db.operations && (forall i | 0 <= i < |ops| :: ops[i].id != id) ::
          id in db'.operations && db'.operations[id] == db.operations[id])
    && (forall r | r in db.runs :: r in db'.runs && db'.runs[r].id == db.runs[r].id)
  }

  /** Every AgentRun was there or is one of those that were asked for. */
  ghost predicate OnlyAsked(c: Cluster, c': Cluster, ops: seq<Operation>)
    requires forall i | 0 <= i < |ops| :: ops[i].payload.AgentRun?
  {
    forall k | k in c'.runs ::
      (k in c.runs && c'.runs[k] == c.runs[k]) || exists i | 0 <= i < |ops| :: k == AsksFor(ops[i]) && c'.runs[k] == ops[i].payload.spec
  }

  predicate LetGoAll(db: Db, ops: seq<Operation>) {
    forall i | 0 <= i < |ops| :: ops[i].id in db.operations && db.operations[ops[i].id].state in {Completed, Pending, Failed}
  }

  predicate Through(db: Db, c: Cluster, ops: seq<Operation>)
    requires forall i | 0 <= i < |ops| :: ops[i].payload.AgentRun?
  {
    forall i | 0 <= i < |ops| ::
      && ops[i].id in db.operations && db.operations[ops[i].id].state == Completed
      && AsksFor(ops[i]) in c.runs && c.runs[AsksFor(ops[i])] == ops[i].payload.spec
  }

  /** The last of these operations after all the others. */
  lemma LastDispatch(db: Db, c: Cluster, worker: string, ops: seq<Operation>, faults: Faults, now: nat)
    requires ops != []
    ensures var n := |ops| - 1;
            var (db1, c1) := DispatchedAll(db, c, worker, ops[..n], faults, now);
            var (db2, c2) := DispatchedAll(db, c, worker, ops, faults, now);
            Dispatched(db1, c1, faults, worker, ops[n], now, db2, c2)
  {
    hide Dispatched, Effect, Settled;
    var n := |ops| - 1;
    var (db1, c1) := DispatchedAll(db, c, worker, ops[..n], faults, now);
    DispatchEnds(db1, c1, faults, worker, ops[n], now);
  }

  predicate AllCompleted(db: Db, ops: seq<Operation>) {
    forall i | 0 <= i < |ops| :: ops[i].id in db.operations && db.operations[ops[i].id].state == Completed
  }

  /** What the dispatches report up to one more operation. */
  lemma ReportStep(db: Db, db1: Db, c1: Cluster, worker: string, ops: seq<Operation>, i: nat, faults: Faults, now: nat,
                   db2: Db, c2: Cluster, ok: bool, fine: bool)
    requires i < |ops| && InHand(db, worker, ops) && OthersStay(db, db1, ops[..i]) && (ok <==> AllCompleted(db1, ops[..i]))
    requires LetGoAll(db1, ops[..i])
    requires Dispatched(db1, c1, faults, worker, ops[i], now, db2, c2)
    requires fine <==> HeldBy(db1, worker, ops[i].id) && ops[i].kind == "launch_run" && ops[i].payload.AgentRun? && Obstacle(c1, ops[i], faults).None?
    ensures ok && fine <==> AllCompleted(db2, ops[..i + 1])
  {
    hide Dispatched, HeldBy, Obstacle;
    var upTo := ops[..i + 1];
    assert upTo[..|upTo| - 1] == ops[..i] && upTo[i] == ops[i];
    StillInHand(db, db1, worker, upTo);
    OneMore(db1, c1, faults, worker, ops[i], now, db2, c2);
    CompletedWhenFine(db1, c1, faults, worker, ops[i], now, db2, c2, fine);
    forall k | 0 <= k < i ensures upTo[k].id in db1.operations && db2.operations[upTo[k].id] == db1.operations[upTo[k].id] {
      assert ops[..i][k] == upTo[k] == ops[k];
    }
    if AllCompleted(db2, upTo) {
      forall k | 0 <= k < i ensures ops[..i][k].id in db1.operations && db1.operations[ops[..i][k].id].state == Completed {
        assert upTo[k] == ops[..i][k];
      }
    }
    if ok && fine {
      forall k | 0 <= k < |upTo| ensures upTo[k].id in db2.operations && db2.operations[upTo[k].id].state == Completed {
        if k < i {
          assert ops[..i][k] == upTo[k];
        }
      }
    }
  }

  lemma NothingReported(db: Db, none: seq<Operation>)
    requires none == []
    ensures AllCompleted(db, none)
  {
  }

  lemma FirstInHand(db: Db, worker: string, ops: seq<Operation>, i: nat)
    requires i <= |ops| && InHand(db, worker, ops)
    ensures InHand(db, worker, ops[..i])
  {
  }

  lemma LetGoStep(db: Db, db1: Db, c1: Cluster, worker: string, ops: seq<Operation>, faults: Faults, now: nat, db2: Db, c2: Cluster)
    requires ops != [] && InHand(db, worker, ops) && OthersStay(db, db1, ops[..|ops| - 1]) && LetGoAll(db1, ops[..|ops| - 1])
    requires Dispatched(db1, c1, faults, worker, ops[|ops| - 1], now, db2, c2)
    ensures OthersStay(db, db2, ops) && LetGoAll(db2, ops)
  {
    hide Dispatched, HeldBy;
    StillInHand(db, db1, worker, ops);
    OneMore(db1, c1, faults, worker, ops[|ops| - 1], now, db2, c2);
    LetGoOne(db, db1, ops, db2);
  }

  lemma LetGoOne(db: Db, db1: Db, ops: seq<Operation>, db2: Db)
    requires ops != [] && OthersStay(db, db1, ops[..|ops| - 1]) && LetGoAll(db1, ops[..|ops| - 1])
    requires forall i | 0 <= i < |ops| - 1 :: ops[i].id != ops[|ops| - 1].id
    requires ops[|ops| - 1].id in db2.operations && db2.operations[ops[|ops| - 1].id].state in {Completed, Pending, Failed}
    requires forall id | id in db1.operations && id != ops[|ops| - 1].id :: id in db2.operations && db2.operations[id] == db1.operations[id]
    requires forall r | r in db1.runs :: r in db2.runs && db2.runs[r].id == db1.runs[r].id
    ensures OthersStay(db, db2, ops) && LetGoAll(db2, ops)
  {
    var n := |ops| - 1;
    forall i | 0 <= i < n
      ensures ops[i].id in db2.operations && db2.operations[ops[i].id].state in {Completed, Pending, Failed}
    {
      assert ops[..n][i] == ops[i];
    }
  }

  lemma {:induction false} AllAreLetGo(db: Db, c: Cluster, worker: string, ops: seq<Operation>, faults: Faults, now: nat)
    requires InHand(db, worker, ops)
    ensures var db' := DispatchedAll(db, c, worker, ops, faults, now).0; OthersStay(db, db', ops) && LetGoAll(db', ops)
    decreases |ops|
  {
    if ops != [] {
      hide Dispatched, DispatchedAll, OthersStay, LetGoAll, HeldBy;
      var first := ops[..|ops| - 1];
      AllAreLetGo(db, c, worker, first, faults, now);
      var (db1, c1) := DispatchedAll(db, c, worker, first, faults, now);
      var (db2, c2) := DispatchedAll(db, c, worker, ops, faults, now);
      LastDispatch(db, c, worker, ops, faults, now);
      LetGoStep(db, db1, c1, worker, ops, faults, now, db2, c2);
    }
  }

  lemma ThroughStep(db1: Db, c: Cluster, c1: Cluster, worker: string, ops: seq<Operation>, now: nat, db2: Db, c2: Cluster)
    requires ops != [] && AllClear(c, ops) && OnlyAsked(c, c1, ops[..|ops| - 1]) && Through(db1, c1, ops[..|ops| - 1])
    requires forall i | 0 <= i < |ops| - 1 :: ops[i].id != ops[|ops| - 1].id
    requires var last := ops[|ops| - 1];
             HeldBy(db1, worker, last.id) && last.runID in db1.runs && db1.runs[last.runID].id == last.runID
    requires Dispatched(db1, c1, Faults(None, None), worker, ops[|ops| - 1], now, db2, c2)
    ensures OnlyAsked(c, c2, ops) && Through(db2, c2, ops)
  {
    hide Dispatched, HeldBy;
    var n := |ops| - 1;
    StillClear(c, c1, ops);
    OneMore(db1, c1, Faults(None, None), worker, ops[n], now, db2, c2);
    assert forall i | 0 <= i < n :: ops[..n][i] == ops[i];
    forall k | k in c2.runs && !(k in c.runs && c2.runs[k] == c.runs[k])
      ensures exists i | 0 <= i < |ops| :: k == AsksFor(ops[i]) && c2.runs[k] == ops[i].payload.spec
    {
      if k == AsksFor(ops[n]) {
        assert c2.runs[k] == ops[n].payload.spec;
      } else {
        var i :| 0 <= i < n && k == AsksFor(ops[..n][i]) && c1.runs[k] == ops[..n][i].payload.spec;
        assert k == AsksFor(ops[i]);
      }
    }
    forall i | 0 <= i < n
      ensures ops[i].id in db2.operations && db2.operations[ops[i].id].state == Completed
      ensures AsksFor(ops[i]) in c2.runs && c2.runs[AsksFor(ops[i])] == ops[i].payload.spec
    {
      assert ops[..n][i].id in db1.operations;
    }
  }

  lemma {:induction false} AllGetThrough(db: Db, c: Cluster, worker: string, ops: seq<Operation>, now: nat)
    requires InHand(db, worker, ops) && AllClear(c, ops)
    ensures var (db', c') := DispatchedAll(db, c, worker, ops, Faults(None, None), now);
            OnlyAsked(c, c', ops) && Through(db', c', ops)
    decreases |ops|
  {
    if ops != [] {
      hide Dispatched, DispatchedAll, OthersStay, OnlyAsked, Through, HeldBy, AsksFor;
      var first, none := ops[..|ops| - 1], Faults(None, None);
      AllGetThrough(db, c, worker, first, now);
      AllAreLetGo(db, c, worker, first, none, now);
      var (db1, c1) := DispatchedAll(db, c, worker, first, none, now);
      var (db2, c2) := DispatchedAll(db, c, worker, ops, none, now);
      StillInHand(db, db1, worker, ops);
      LastDispatch(db, c, worker, ops, none, now);
      ThroughStep(db1, c, c1, worker, ops, now, db2, c2);
    }
  }

  lemma StillInHand(db: Db, db1: Db, worker: string, ops: seq<Operation>)
    requires ops != [] && InHand(db, worker, ops) && OthersStay(db, db1, ops[..|ops| - 1])
    ensures var last := ops[|ops| - 1];
            HeldBy(db1, worker, last.id) && last.runID in db1.runs && db1.runs[last.runID].id == last.runID
  {
  }

  lemma StillClear(c: Cluster, c1: Cluster, ops: seq<Operation>)
    requires ops != [] && AllClear(c, ops) && OnlyAsked(c, c1, ops[..|ops| - 1])
    ensures var last := ops[|ops| - 1]; AsksFor(last) in c1.runs ==> c1.runs[AsksFor(last)] == last.payload.spec
  {
  }

  lemma AllGetSettled(db: Db, c: Cluster, worker: string, ops: seq<Operation>, faults: Faults, now: nat)
    requires InHand(db, worker, ops)
    ensures var (db', c') := DispatchedAll(db, c, worker, ops, faults, now); AllSettled(db', c, c', ops, faults) && OthersStay(db, db', ops)
  {
    hide DispatchedAll, OthersStay, OnlyAsked, InHand;
    AllAreLetGo(db, c, worker, ops, faults, now);
    if faults == Faults(None, None) && AllClear(c, ops) {
      AllGetThrough(db, c, worker, ops, now);
    }
  }

  /** Every operation's run is on record. */
  ghost predicate RecordsOk(db: Db) {
    forall id | id in db.operations :: db.operations[id].runID in db.runs && db.runs[db.operations[id].runID].id == db.operations[id].runID
  }

  lemma ClaimedInHand(db: Db, limit: int, worker: string, now: nat, ids: seq<string>)
    requires Valid(db) && RecordsOk(db) && FirstReady(db, limit, now, ids)
    ensures InHand(Claimed(db, IdSet(ids), worker, OUTBOX_LEASE, now), worker, TakenAll(db, ids, worker, now))
  {
    hide JournalOk, Earlier;
    FirstReadyDiffer(db, limit, now, ids);
    var ops := TakenAll(db, ids, worker, now);
    forall i | 0 <= i < |ops| ensures ops[i].id == ids[i] && ids[i] in IdSet(ids) {
    }
  }

  /** What CreateRun commits: the record, the order to launch it, ready at once, and
      the first event. */
  ghost predicate Committed(db: Db, db': Db, run: Run, spec: string, now: nat) {
    && db'.runs == db.runs[run.id := run]
    && ("launch/" + run.id) in db'.operations
    && db'.operations == db.operations[("launch/" + run.id) := db'.operations["launch/" + run.id]]
    && NotedOnce(db.events, db.nextEventID, db'.events, db'.nextEventID,
                 Some(Event(0, run.id, "control-plane", "submitted", "run.submitted", "", now)), now)
    && var op := db'.operations["launch/" + run.id];
       && op.id == "launch/" + run.id && op.runID == run.id && op.kind == "launch_run" && op.payload == AgentRun(run.namespace, run.id, spec)
       && op.state == Pending && op.attempts == 0 && op.availableAt == now && op.createdAt == now && op.leaseOwner == "" && op.leaseUntil == 0
  }

  lemma SubmissionCommits(db: Db, run: Run, spec: string, now: nat)
    requires run.id !in db.runs && LaunchId(run.id) !in db.operations
    ensures Committed(db, After(db, Submission(run, spec, now)), run, spec, now)
  {
    hide NotedOnce, Appended;
    var t := Submission(run, spec, now).call;
    AppendedNotes(db.(runs := db.runs[run.id := run], operations := db.operations[t.op.id := StoredOf(t.op, now)]), t.event, now);
  }

  // ---- the service ----------------------------------------------------------------------------

  class Service {
    const store: Memory
    const launcher: Fake

    constructor (store: Memory, launcher: Fake)
      ensures this.store == store && this.launcher == launcher
    {
      this.store, this.launcher := store, launcher;
    }

    /** failOperation. */
    method FailOperation(worker: string, op: Operation, o: Outcome, now: nat) returns (ok: bool)
      requires !o.Launched? && (o.Rejected? ==> Permanent(o.cause) || op.attempts >= MAX_LAUNCH_ATTEMPTS)
      modifies store
      ensures store.Contents() == Settled(old(store.Contents()), worker, op, o, now) && !ok
    {
      hide GivenUp;
      var found := store.GetRun(op.runID);
      if found.Failure? {
        return false;
      }
      var run := found.value.(phase := "Failed");
      run := run.(conditions := run.conditions + [Condition("LaunchReady", "False", "LaunchFailed", Message(o), now)]);
      var event := Event(0, op.runID, "outbox", op.id + "/failed", "run.launch_failed", "", now);
      var r := store.FailOperation(worker, op.id, Message(o), run, Some(event), now);
      ok := false;
    }

    /** retryOrFail. */
    method RetryOrFail(worker: string, op: Operation, cause: LaunchError, now: nat) returns (ok: bool)
      modifies store
      ensures store.Contents() == Settled(old(store.Contents()), worker, op, Rejected(cause), now) && !ok
    {
      hide Retried, Delay;
      if Permanent(cause) || op.attempts >= MAX_LAUNCH_ATTEMPTS {
        ok := FailOperation(worker, op, Rejected(cause), now);
        return;
      }
      var r := store.RetryOperation(worker, op.id, Message(Rejected(cause)), now + Delay(op.attempts), now);
      ok := false;
    }

    /** dispatchOperation: the effect, then its settlement. */
    method DispatchOperation(worker: string, op: Operation, now: nat) returns (ok: bool)
      requires {store} !! {launcher}
      modifies store, launcher
      ensures launcher.faults == old(launcher.faults)
      ensures var (c, o) := Effect(old(launcher.Contents()), op, launcher.faults);
              launcher.Contents() == c && store.Contents() == Settled(old(store.Contents()), worker, op, o, now)
      ensures Dispatched(old(store.Contents()), old(launcher.Contents()), launcher.faults, worker, op, now, store.Contents(), launcher.Contents())
      ensures ok <==> HeldBy(old(store.Contents()), worker, op.id) && op.kind == "launch_run" && op.payload.AgentRun?
                      && Obstacle(old(launcher.Contents()), op, launcher.faults).None?
    {
      hide Acked, Dispatched;
      DispatchEnds(store.Contents(), launcher.Contents(), launcher.faults, worker, op, now);
      if op.kind != LAUNCH_RUN {
        ok := FailOperation(worker, op, Unknown, now);
        return;
      }
      if op.payload.Garbled? {
        ok := FailOperation(worker, op, Undecodable, now);
        return;
      }
      var p := op.payload;
      var err := launcher.EnsureNamespace(p.namespace);
      if err.Some? {
        ok := RetryOrFail(worker, op, err.value, now);
        return;
      }
      err := launcher.CreateRun(p.namespace, p.name, p.spec);
      if err.Some? {
        ok := RetryOrFail(worker, op, err.value, now);
        return;
      }
      var event := Event(0, op.runID, "outbox", op.id, "run.launch_accepted", "", now);
      var r := store.CompleteOperation(worker, op.id, Some(event), now);
      ok := r.Success?;
    }

    /** DispatchPending: it claims the first ready operations and dispatches each. */
    method DispatchPending(worker: string, limit: int, now: nat) returns (n: nat, ok: bool, ghost ids: seq<string>)
      requires {store} !! {launcher} && Valid(store.Contents())
      modifies store, launcher
      ensures FirstReady(old(store.Contents()), limit, now, ids) && n == |ids|
      ensures var db := old(store.Contents());
              var ops := TakenAll(db, ids, worker, now);
              (store.Contents(), launcher.Contents())
              == DispatchedAll(Claimed(db, IdSet(ids), worker, OUTBOX_LEASE, now), old(launcher.Contents()), worker, ops, launcher.faults, now)
      ensures launcher.faults == old(launcher.faults)
      ensures RecordsOk(old(store.Contents())) ==>
                AllSettled(store.Contents(), old(launcher.Contents()), launcher.Contents(),
                           TakenAll(old(store.Contents()), ids, worker, now), launcher.faults)
      ensures RecordsOk(old(store.Contents())) ==>
                (ok <==> AllCompleted(store.Contents(), TakenAll(old(store.Contents()), ids, worker, now)))
    {
      hide OthersStay, LetGoAll, AllCompleted, HeldBy, Obstacle, Claimed, Settled, Effect, Taken, Valid, Earlier, RecordsOk, AllSettled, InHand, Dispatched, Handed;
      ghost var db := store.Contents();
      ghost var c := launcher.Contents();
      var ops;
      ops, ids := store.ClaimOperations(worker, limit, OUTBOX_LEASE, now);
      assert ops == TakenAll(db, ids, worker, now);
      ghost var claimed := store.Contents();
      if RecordsOk(db) {
        ClaimedInHand(db, limit, worker, now, ids);
      }
      NothingReported(claimed, ops[..0]);
      ok := true;
      for i := 0 to |ops|
        invariant launcher.faults == old(launcher.faults)
        invariant (store.Contents(), launcher.Contents()) == DispatchedAll(claimed, c, worker, ops[..i], launcher.faults, now)
        invariant RecordsOk(db) ==> (ok <==> AllCompleted(store.Contents(), ops[..i]))
      {
        assert ops[..i + 1][..i] == ops[..i];
        ghost var db1, c1 := store.Contents(), launcher.Contents();
        var fine := DispatchOperation(worker, ops[i], now);
        if RecordsOk(db) {
          FirstInHand(claimed, worker, ops, i);
          AllAreLetGo(claimed, c, worker, ops[..i], launcher.faults, now);
          ReportStep(claimed, db1, c1, worker, ops, i, launcher.faults, now, store.Contents(), launcher.Contents(), ok, fine);
        }
        ok := ok && fine;
      }
      assert ops[..|ops|] == ops;
      n := |ops|;
      if RecordsOk(db) {
        AllGetSettled(claimed, c, worker, ops, launcher.faults, now);
      }
    }

    /** CreateRun from the built AgentRun on: the record, the launch operation and
        the first event in one commit, then, if so configured, one dispatch whose
        result does not matter. */
    method CreateRun(run: Run, spec: string, inlineDispatch: bool, now: nat) returns (r: Result<(), Error>, ghost ids: seq<string>)
      requires {store} !! {launcher} && Valid(store.Contents())
      modifies store, launcher
      ensures r.Success? <==> run.id !in old(store.runs) && LaunchId(run.id) !in old(store.operations)
      ensures r.Failure? ==> store.Contents() == old(store.Contents()) && launcher.Contents() == old(launcher.Contents())
      ensures r.Success? ==> Committed(old(store.Contents()), After(old(store.Contents()), Submission(run, spec, now)), run, spec, now)
      ensures r.Success? ==>
                var db := After(old(store.Contents()), Submission(run, spec, now));
                if !inlineDispatch then store.Contents() == db && launcher.Contents() == old(launcher.Contents())
                else
                  && FirstReady(db, 1, now, ids)
                  && var ops := TakenAll(db, ids, "inline-" + run.id, now);
                     (store.Contents(), launcher.Contents())
                     == DispatchedAll(Claimed(db, IdSet(ids), "inline-" + run.id, OUTBOX_LEASE, now), old(launcher.Contents()),
                                      "inline-" + run.id, ops, launcher.faults, now)
    {
      hide Valid, Appended, Claimed, FirstReady, DispatchedAll, Taken, Committed, NotedOnce, RecordsOk, AllSettled;
      var op := Operation(LaunchId(run.id), run.id, LAUNCH_RUN, Payload.AgentRun(run.namespace, run.id, spec), Pending, 0, now, "", 0, "", now, 0);
      var event := Event(0, run.id, "control-plane", "submitted", "run.submitted", "", now);
      JournalsAfter(store.Contents(), Submission(run, spec, now));
      if run.id !in store.runs && LaunchId(run.id) !in store.operations {
        SubmissionCommits(store.Contents(), run, spec, now);
      }
      r := store.CreateRunWithOperation(run, op, Some(event), now);
      ids := [];
      if r.Success? && inlineDispatch {
        var _, _, claimed := DispatchPending("inline-" + run.id, 1, now);
        ids := claimed;
      }
    }
  }

  function LaunchId(runID: string): string {
    "launch/" + runID
  }

  /** What CreateRun commits. */
  function Submission(run: Run, spec: string, now: nat): Timed {
    At(now, Create(run,
                   Operation(LaunchId(run.id), run.id, LAUNCH_RUN, AgentRun(run.namespace, run.id, spec), Pending, 0, now, "", 0, "", now, 0),
                   Some(Event(0, run.id, "control-plane", "submitted", "run.submitted", "", now))))
  }
}
