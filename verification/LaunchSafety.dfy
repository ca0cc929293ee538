/** The launch effect over every run of any number of workers that may die at any
    point: at most one AgentRun per committed run, with the committed spec. */
module LaunchSafety {
  import opened Basics
  import opened DurableStore
  import opened Leases
  import opened Journals
  import opened Outbox

  /** An operation a worker has in hand, and how its effect went once it was tried. */
  datatype Task = Task(op: Operation, outcome: Option<Outcome>)

  /** The store, the cluster, and what the live workers remember. */
  datatype Sys = Sys(db: Db, cluster: Cluster, tasks: map<(string, string), Task>)

  datatype Act =
    | Submit(run: Run, spec: string)
    | Take(worker: string, limit: int, ids: seq<string>)
    | Execute(worker: string, id: string, faults: Faults, replyLost: bool)
    | Settle(worker: string, id: string)
    | Die(worker: string)
    | Ingest(item: Event)
    | Mirror(run: Run, event: Event)

  datatype Timely = On(now: nat, act: Act)

  /** Workers act on what they hold; gateway and cluster events name themselves;
      a mirrored run is one that was submitted. Runs are not deleted. */
  ghost predicate Allowed(s: Sys, t: Timely) {
    match t.act
    case Take(worker, limit, ids) => FirstReady(s.db, limit, t.now, ids)
    case Execute(worker, id, _, _) => (worker, id) in s.tasks
    case Settle(worker, id) => (worker, id) in s.tasks && s.tasks[(worker, id)].outcome.Some?
    case Ingest(e) => e.source == "gateway"
    case Mirror(run, e) => run.id in s.db.runs && e.source == "kubernetes" && e.runID == run.id
    case _ => true
  }

  /** The store call an act makes. */
  function CallOf(s: Sys, t: Timely): Option<Timed> {
    match t.act
    case Submit(run, spec) => Some(Submission(run, spec, t.now))
    case Take(worker, limit, ids) => Some(At(t.now, Claim(worker, limit, OUTBOX_LEASE, ids)))
    case Settle(worker, id) =>
      if (worker, id) in s.tasks && s.tasks[(worker, id)].outcome.Some? then
        Settlement(s.db, worker, s.tasks[(worker, id)].op, s.tasks[(worker, id)].outcome.value, t.now)
      else None
    case Ingest(e) => Some(At(t.now, Append(e)))
    case Mirror(run, e) => Some(At(t.now, Upsert(run, Some(e))))
    case _ => None
  }

  /** What the worker believes after executing: an applied effect whose reply is
      lost looks like an error. */
  function Believed(o: Outcome, replyLost: bool): Outcome {
    if replyLost && o.Launched? then Rejected(Other("reply lost")) else o
  }

  function TasksAfter(s: Sys, t: Timely): map<(string, string), Task> {
    match t.act
    case Take(worker, _, ids) =>
      map k | k in s.tasks.Keys + (set id | id in ids && id in s.db.operations :: (worker, id)) ::
        if k.0 == worker && k.1 in ids && k.1 in s.db.operations then Task(Taken(s.db.operations[k.1], worker, OUTBOX_LEASE, t.now), None)
        else s.tasks[k]
    case Execute(worker, id, faults, replyLost) =>
      if (worker, id) in s.tasks then
        var task := s.tasks[(worker, id)];
        s.tasks[(worker, id) := task.(outcome := Some(Believed(Effect(s.cluster, task.op, faults).1, replyLost)))]
      else s.tasks
    case Settle(worker, id) => s.tasks - {(worker, id)}
    case Die(worker) => map k | k in s.tasks && k.0 != worker :: s.tasks[k]
    case _ => s.tasks
  }

  function Next(s: Sys, t: Timely): Sys {
    var call := CallOf(s, t);
    Sys(if call.Some? then After(s.db, call.value) else s.db,
        if t.act.Execute? && (t.act.worker, t.act.id) in s.tasks
        then Effect(s.cluster, s.tasks[(t.act.worker, t.act.id)].op, t.act.faults).0 else s.cluster,
        TasksAfter(s, t))
  }

  // ---- the invariant --------------------------------------------------------------------------

  /** Every operation launches the run it belongs to. */
  predicate Launches(op: Operation) {
    op.id == LaunchId(op.runID) && op.kind == LAUNCH_RUN && op.payload.AgentRun? && op.payload.name == op.runID
    && op.state != Unstated
  }

  /** The same order to launch. */
  predicate SameOrder(a: Operation, b: Operation) {
    a.id == b.id && a.runID == b.runID && a.kind == b.kind && a.payload == b.payload
  }

  /** The AgentRun an operation asks for exists as asked. */
  predicate Present(c: Cluster, op: Operation) {
    op.payload.AgentRun? && (op.payload.namespace, op.payload.name) in c.runs
    && c.runs[(op.payload.namespace, op.payload.name)] == op.payload.spec
  }

  ghost predicate OrdersOk(db: Db) {
    forall id | id in db.operations :: db.operations[id].id == id && Launches(db.operations[id]) && db.operations[id].runID in db.runs
  }

  ghost predicate TasksOk(s: Sys) {
    forall k | k in s.tasks ::
      && k.1 in s.db.operations && SameOrder(s.tasks[k].op, s.db.operations[k.1])
      && (s.tasks[k].outcome == Some(Launched) ==> Present(s.cluster, s.tasks[k].op))
  }

  /** An AgentRun is there only as a committed operation asked for it. */
  ghost predicate ClusterOk(s: Sys) {
    forall k | k in s.cluster.runs ::
      && LaunchId(k.1) in s.db.operations
      && s.db.operations[LaunchId(k.1)].payload == AgentRun(k.0, k.1, s.cluster.runs[k])
  }

  ghost predicate CompletedOk(s: Sys) {
    forall id | id in s.db.operations && s.db.operations[id].state == Completed :: Present(s.cluster, s.db.operations[id])
  }

  ghost predicate Sound(s: Sys) {
    OrdersOk(s.db) && TasksOk(s) && ClusterOk(s) && CompletedOk(s)
  }

  // ---- the store's side of a step

  /** Operations stay, with their orders; only Settle of a launched task completes one. */
  lemma OrdersAfter(s: Sys, t: Timely)
    requires Sound(s) && Allowed(s, t)
    ensures var db' := Next(s, t).db;
            && (forall r | r in s.db.runs :: r in db'.runs)
            && (forall id | id in s.db.operations ::
                  && id in db'.operations && SameOrder(db'.operations[id], s.db.operations[id])
                  && db'.operations[id].state != Unstated
                  && (db'.operations[id].state == Completed ==>
                        || s.db.operations[id].state == Completed
                        || (t.act.Settle? && t.act.id == id && s.tasks[(t.act.worker, id)].outcome == Some(Launched))))
  {
    hide After, FirstReady, Delay, Message, Holds;
    var call := CallOf(s, t);
    if call.Some? {
      RunsAfter(s.db, call.value);
      forall id | id in s.db.operations
        ensures id in Next(s, t).db.operations && SameOrder(Next(s, t).db.operations[id], s.db.operations[id])
        ensures Next(s, t).db.operations[id].state != Unstated
        ensures Next(s, t).db.operations[id].state == Completed ==>
                  || s.db.operations[id].state == Completed
                  || (t.act.Settle? && t.act.id == id && s.tasks[(t.act.worker, id)].outcome == Some(Launched))
      {
        OperationAfter(s.db, call.value, id);
      }
    }
  }

  lemma RunsAfter(db: Db, t: Timed)
    ensures forall r | r in db.runs :: r in After(db, t).runs
  {
    hide Journaled;
  }

  /** Only a submission adds an operation, and it launches the submitted run. */
  lemma NewOperation(db: Db, t: Timed, id: string)
    requires id in After(db, t).operations && id !in db.operations
    ensures t.call.Create? && id == t.call.op.id && t.call.run.id in After(db, t).runs
    ensures After(db, t).operations[id] == StoredOf(t.call.op, t.now)
  {
    hide Journaled, Earlier;
  }

  lemma OrdersStayOk(s: Sys, t: Timely)
    requires Sound(s) && Allowed(s, t)
    ensures OrdersOk(Next(s, t).db)
  {
    hide After, FirstReady, Delay, Message, Holds, TasksOk, ClusterOk, CompletedOk;
    OrdersAfter(s, t);
    var db' := Next(s, t).db;
    forall id | id in db'.operations
      ensures db'.operations[id].id == id && Launches(db'.operations[id]) && db'.operations[id].runID in db'.runs
    {
      if id !in s.db.operations {
        NewOperation(s.db, CallOf(s, t).value, id);
      }
    }
  }

  /** Executing an order in a sound cluster makes its AgentRun, finds it, or fails
      and leaves the AgentRuns as they were; it never meets a different one. */
  lemma EffectIsIdempotent(s: Sys, op: Operation, faults: Faults)
    requires Sound(s) && op.id in s.db.operations && SameOrder(op, s.db.operations[op.id])
    ensures var (c, o) := Effect(s.cluster, op, faults);
            && (o == Launched ==> Present(c, op))
            && (c.runs == s.cluster.runs || (Present(c, op) && c.runs == s.cluster.runs[(op.payload.namespace, op.payload.name) := op.payload.spec]))
            && (o == Rejected(Different) ==> faults.namespace == Some(Different) || faults.create == Some(Different))
            && !o.Unknown? && !o.Undecodable?
  {
    hide TasksOk, CompletedOk;
    var p := s.db.operations[op.id].payload;
    assert LaunchId(p.name) == op.id;
  }

  lemma ClusterStaysOk(s: Sys, t: Timely)
    requires Sound(s) && Allowed(s, t)
    ensures ClusterOk(Next(s, t))
    ensures forall k | k in s.cluster.runs :: k in Next(s, t).cluster.runs && Next(s, t).cluster.runs[k] == s.cluster.runs[k]
  {
    hide After, FirstReady, Effect, Settlement, CompletedOk;
    OrdersAfter(s, t);
    if t.act.Execute? {
      var task := s.tasks[(t.act.worker, t.act.id)];
      EffectIsIdempotent(s, task.op, t.act.faults);
      ExecutedIsNew(s, task.op, t.act.faults);
    }
  }

  /** Where there was an AgentRun the effect leaves it. */
  lemma ExecutedIsNew(s: Sys, op: Operation, faults: Faults)
    ensures forall k | k in s.cluster.runs ::
              k in Effect(s.cluster, op, faults).0.runs && Effect(s.cluster, op, faults).0.runs[k] == s.cluster.runs[k]
  {
  }

  lemma CompletedStaysOk(s: Sys, t: Timely)
    requires Sound(s) && Allowed(s, t)
    ensures CompletedOk(Next(s, t))
  {
    hide After, FirstReady, Effect, Holds, ClusterOk, Delay, Message;
    OrdersAfter(s, t);
    ClusterStaysOk(s, t);
    var s' := Next(s, t);
    forall id | id in s'.db.operations && s'.db.operations[id].state == Completed
      ensures Present(s'.cluster, s'.db.operations[id])
    {
      if id !in s.db.operations {
        NewOperation(s.db, CallOf(s, t).value, id);
      }
    }
  }

  /** Every task in hand after a step was in hand before, or was just taken. */
  lemma TaskFrom(s: Sys, t: Timely, k: (string, string))
    requires k in Next(s, t).tasks
    ensures var task := Next(s, t).tasks[k];
            || (t.act.Take? && k.1 in s.db.operations && task == Task(Taken(s.db.operations[k.1], k.0, OUTBOX_LEASE, t.now), None))
            || (k in s.tasks && task == s.tasks[k])
            || (t.act.Execute? && k == (t.act.worker, t.act.id) && k in s.tasks && task.op == s.tasks[k].op
                && task.outcome == Some(Believed(Effect(s.cluster, s.tasks[k].op, t.act.faults).1, t.act.replyLost)))
  {
    hide CallOf, After, Effect, Taken, Believed;
  }

  lemma TakenIsSameOrder(op: Operation, worker: string, now: nat)
    ensures SameOrder(Taken(op, worker, OUTBOX_LEASE, now), op)
  {
  }

  lemma TasksStayOk(s: Sys, t: Timely)
    requires Sound(s) && Allowed(s, t)
    ensures TasksOk(Next(s, t))
  {
    hide TasksAfter, CallOf, After, FirstReady, Effect, ClusterOk, CompletedOk, Taken, Launches, Allowed;
    OrdersAfter(s, t);
    ClusterStaysOk(s, t);
    var s' := Next(s, t);
    forall k | k in s'.tasks
      ensures k.1 in s'.db.operations && SameOrder(s'.tasks[k].op, s'.db.operations[k.1])
      ensures s'.tasks[k].outcome == Some(Launched) ==> Present(s'.cluster, s'.tasks[k].op)
    {
      TaskFrom(s, t, k);
      if k.1 in s.db.operations {
        TakenIsSameOrder(s.db.operations[k.1], k.0, t.now);
      }
      if t.act.Execute? && k in s.tasks {
        EffectIsIdempotent(s, s.tasks[k].op, t.act.faults);
      }
    }
  }

  lemma SoundStep(s: Sys, t: Timely)
    requires Sound(s) && Allowed(s, t)
    ensures Sound(Next(s, t))
  {
    hide Next, OrdersOk, TasksOk, ClusterOk, CompletedOk;
    OrdersStayOk(s, t);
    TasksStayOk(s, t);
    ClusterStaysOk(s, t);
    CompletedStaysOk(s, t);
  }

  // ---- runs ------------------------------------------------------------------------------------

  ghost predicate Behavior(s: Sys, ts: seq<Timely>)
    decreases |ts|
  {
    ts == [] || (Allowed(s, ts[0]) && Behavior(Next(s, ts[0]), ts[1..]))
  }

  function End(s: Sys, ts: seq<Timely>): Sys
    decreases |ts|
  {
    if ts == [] then s else End(Next(s, ts[0]), ts[1..])
  }

  lemma {:induction false} SoundBehavior(s: Sys, ts: seq<Timely>)
    requires Sound(s) && Behavior(s, ts)
    ensures Sound(End(s, ts))
    decreases |ts|
  {
    hide Sound, Next, Allowed;
    if ts != [] {
      SoundStep(s, ts[0]);
      SoundBehavior(Next(s, ts[0]), ts[1..]);
    }
  }

  const EMPTY := Sys(Db(map[], map[], map[], 0), Cluster({}, map[]), map[])

  /** From an empty control plane, over any crashes, replays, lost replies and any
      number of workers: an AgentRun exists only for a run committed before, once
      and with the committed specification; and a completed launch has one. */
  lemma LaunchedOnceAsCommitted(ts: seq<Timely>)
    requires Behavior(EMPTY, ts)
    ensures var s := End(EMPTY, ts);
            && (forall k | k in s.cluster.runs ::
                  && k.1 in s.db.runs && LaunchId(k.1) in s.db.operations
                  && s.db.operations[LaunchId(k.1)].payload == AgentRun(k.0, k.1, s.cluster.runs[k]))
            && (forall k, k' | k in s.cluster.runs && k' in s.cluster.runs && k.1 == k'.1 :: k == k')
            && (forall id | id in s.db.operations && s.db.operations[id].state == Completed :: Present(s.cluster, s.db.operations[id]))
  {
    hide Next, Allowed;
    SoundBehavior(EMPTY, ts);
    var s := End(EMPTY, ts);
    forall k | k in s.cluster.runs
      ensures k.1 in s.db.runs && LaunchId(k.1) in s.db.operations
      ensures s.db.operations[LaunchId(k.1)].payload == AgentRun(k.0, k.1, s.cluster.runs[k])
    {
      var op := s.db.operations[LaunchId(k.1)];
      assert op.runID == k.1;
    }
  }
}
