/** How launches end, over every run of the system. */
module LaunchProgress {
  import opened Basics
  import opened DurableStore
  import opened Leases
  import opened Outbox
  import opened LaunchSafety

  /** Every record is kept under its own id. */
  ghost predicate OwnRecords(db: Db) {
    forall r | r in db.runs :: db.runs[r].id == r
  }

  lemma RecordsAfter(db: Db, t: Timed)
    requires OwnRecords(db)
    ensures OwnRecords(After(db, t))
  {
    hide Journaled, Released, Holds;
  }

  lemma {:induction false} RecordsOver(s: Sys, ts: seq<Timely>)
    requires OwnRecords(s.db) && Behavior(s, ts)
    ensures OwnRecords(End(s, ts).db)
    decreases |ts|
  {
    hide OwnRecords, Allowed, CallOf, After;
    if ts != [] {
      if CallOf(s, ts[0]).Some? {
        RecordsAfter(s.db, CallOf(s, ts[0]).value);
      }
      RecordsOver(Next(s, ts[0]), ts[1..]);
    }
  }

  /** What a worker has in hand is an order of the store, under its own id. */
  lemma TaskIsOrder(s: Sys, worker: string, id: string)
    requires Sound(s) && (worker, id) in s.tasks
    ensures var op := s.tasks[(worker, id)].op;
            op.id == id && id in s.db.operations && op.runID == s.db.operations[id].runID && op.runID in s.db.runs
            && op.kind == "launch_run" && op.payload.AgentRun?
  {
    hide ClusterOk, CompletedOk;
  }

  lemma OwnRecord(db: Db, r: string)
    requires OwnRecords(db) && r in db.runs
    ensures db.runs[r].id == r
  {
  }

  /** Over every run of the system, for a worker that still holds what it settles: a
      launch that worked is completed and journaled as accepted; one that may work
      later waits for its back-off; any other has failed, with its run, and says so. */
  lemma SettledAsItWent(ts: seq<Timely>, now: nat, worker: string, id: string)
    requires Behavior(EMPTY, ts)
    ensures var s := End(EMPTY, ts);
            var t := On(now, Settle(worker, id));
            Allowed(s, t) ==>
              var task := s.tasks[(worker, id)];
              var db' := Next(s, t).db;
              if !HeldBy(s.db, worker, id) then db' == s.db
              else if task.outcome.value.Launched? then Accepted(s.db, db', task.op, now)
              else if task.outcome.value.Rejected? && !NeverWorks(task.outcome.value.cause) && task.op.attempts < 12 then
                PutOff(s.db, db', task.op, now)
              else Refused(s.db, db', task.op, now)
  {
    hide Next, Allowed, LaunchSafety.Sound, OwnRecords, Behavior, End, Accepted, PutOff, Refused, HeldBy;
    EmptyIsSound();
    SoundBehavior(EMPTY, ts);
    RecordsOver(EMPTY, ts);
    SettleStep(End(EMPTY, ts), now, worker, id);
  }

  lemma EmptyIsSound()
    ensures Sound(EMPTY) && OwnRecords(EMPTY.db)
  {
  }

  lemma SettleStep(s: Sys, now: nat, worker: string, id: string)
    requires Sound(s) && OwnRecords(s.db)
    ensures var t := On(now, Settle(worker, id));
            Allowed(s, t) ==>
              var task := s.tasks[(worker, id)];
              var db' := Next(s, t).db;
              if !HeldBy(s.db, worker, id) then db' == s.db
              else if task.outcome.value.Launched? then Accepted(s.db, db', task.op, now)
              else if task.outcome.value.Rejected? && !NeverWorks(task.outcome.value.cause) && task.op.attempts < 12 then
                PutOff(s.db, db', task.op, now)
              else Refused(s.db, db', task.op, now)
  {
    hide Sound, OwnRecords, Accepted, PutOff, Refused, Settlement, After, HeldBy;
    if Allowed(s, On(now, Settle(worker, id))) {
      var task := s.tasks[(worker, id)];
      var op, o := task.op, task.outcome.value;
      TaskIsOrder(s, worker, id);
      OwnRecord(s.db, op.runID);
      assert Next(s, On(now, Settle(worker, id))).db == Settled(s.db, worker, op, o, now);
      if !HeldBy(s.db, worker, id) {
        NothingEnds(s.db, worker, op, o, now);
      } else if o.Launched? {
        AcceptedEnds(s.db, worker, op, now);
      } else if o.Rejected? && !NeverWorks(o.cause) && op.attempts < 12 {
        PutOffEnds(s.db, worker, op, o.cause, now);
      } else {
        RefusedEnds(s.db, worker, op, o, now);
      }
    }
  }

  lemma TakeStep(s: Sys, now: nat, worker: string, limit: int, ids: seq<string>, id: string)
    requires Sound(s) && Allowed(s, On(now, Take(worker, limit, ids))) && id in ids
    ensures var s1 := Next(s, On(now, Take(worker, limit, ids)));
            && Sound(s1) && s1.cluster == s.cluster && HeldBy(s1.db, worker, id)
            && (worker, id) in s1.tasks && s1.tasks[(worker, id)].outcome.None?
            && LeasedUntil(s1.db, id, now + 30_000_000_000)
  {
    SoundStep(s, On(now, Take(worker, limit, ids)));
    hide Sound, Earlier;
  }

  /** A step other than the settlement of the operation leaves its lease; a claim of it
      comes only when the lease is over. */
  lemma LeaseStep(s: Sys, t: Timely, id: string, u: nat)
    requires LeasedUntil(s.db, id, u) && Allowed(s, t) && !(t.act.Settle? && t.act.id == id)
    requires Sound(s)
    ensures t.act.Take? && id in t.act.ids ==> t.now >= u
    ensures !(t.act.Take? && id in t.act.ids) ==> LeasedUntil(Next(s, t).db, id, u)
  {
    hide After, TasksAfter, ClusterOk, CompletedOk, Earlier;
    if CallOf(s, t).Some? {
      if t.act.Settle? {
        TaskIsOrder(s, t.act.worker, t.act.id);
      }
      OperationAfter(s.db, CallOf(s, t).value, id);
    }
  }

  /** While a worker has an operation in hand, nobody takes it for thirty seconds,
      whatever else the system does. */
  lemma {:induction false} TakenForThirtySeconds(s: Sys, between: seq<Timely>, u: nat, now: nat, worker: string, limit: int, ids: seq<string>, id: string)
    requires Sound(s) && LeasedUntil(s.db, id, u) && Behavior(s, between)
    requires forall k | 0 <= k < |between| :: !(between[k].act.Settle? && between[k].act.id == id) && !(between[k].act.Take? && id in between[k].act.ids)
    requires Allowed(End(s, between), On(now, Take(worker, limit, ids))) && id in ids
    ensures now >= u
    decreases |between|
  {
    hide Next, Allowed, Sound, LeasedUntil;
    if between == [] {
      LeaseStep(s, On(now, Take(worker, limit, ids)), id, u);
    } else {
      LeaseStep(s, between[0], id, u);
      SoundStep(s, between[0]);
      TakenForThirtySeconds(Next(s, between[0]), between[1..], u, now, worker, limit, ids, id);
    }
  }

  /** Two takes of one operation without its settlement between them are thirty
      seconds apart, over every run of the system. */
  lemma TakesAreThirtySecondsApart(ts: seq<Timely>, first: Timely, between: seq<Timely>, second: Timely, id: string)
    requires first.act.Take? && id in first.act.ids && second.act.Take? && id in second.act.ids
    requires Behavior(EMPTY, ts) && Allowed(End(EMPTY, ts), first) && Behavior(Next(End(EMPTY, ts), first), between)
    requires Allowed(End(Next(End(EMPTY, ts), first), between), second)
    requires forall k | 0 <= k < |between| :: !(between[k].act.Settle? && between[k].act.id == id) && !(between[k].act.Take? && id in between[k].act.ids)
    ensures second.now >= first.now + 30_000_000_000
  {
    hide Next, Allowed, Sound, LeasedUntil;
    EmptyIsSound();
    SoundBehavior(EMPTY, ts);
    TakeStep(End(EMPTY, ts), first.now, first.act.worker, first.act.limit, first.act.ids, id);
    TakenForThirtySeconds(Next(End(EMPTY, ts), first), between, first.now + 30_000_000_000, second.now,
                          second.act.worker, second.act.limit, second.act.ids, id);
  }

  lemma ExecuteStep(s: Sys, now: nat, worker: string, id: string)
    requires Sound(s) && (worker, id) in s.tasks
    ensures var s1 := Next(s, On(now, Execute(worker, id, Faults(None, None), false)));
            && Sound(s1) && s1.db == s.db && (worker, id) in s1.tasks && s1.tasks[(worker, id)].op == s.tasks[(worker, id)].op
            && s1.tasks[(worker, id)].outcome == Some(Launched)
            && Present(s1.cluster, s.tasks[(worker, id)].op)
  {
    var t := On(now, Execute(worker, id, Faults(None, None), false));
    var op := s.tasks[(worker, id)].op;
    SoundStep(s, t);
    TaskIsOrder(s, worker, id);
    TaskOrder(s, worker, id);
    EffectIsIdempotent(s, op, Faults(None, None));
    EffectEnds(s.cluster, op, Faults(None, None));
    hide Sound, Effect;
  }

  lemma TaskOrder(s: Sys, worker: string, id: string)
    requires Sound(s) && (worker, id) in s.tasks
    ensures id in s.db.operations && SameOrder(s.tasks[(worker, id)].op, s.db.operations[id])
  {
    hide ClusterOk, CompletedOk, OrdersOk;
  }

  /** From every state the system can get to: a launch that a worker claims, carries
      out without a fault and settles is completed, and its AgentRun is there with
      the committed specification. */
  lemma LaunchGetsThrough(ts: seq<Timely>, now: nat, worker: string, limit: int, ids: seq<string>, id: string)
    requires Behavior(EMPTY, ts) && Allowed(End(EMPTY, ts), On(now, Take(worker, limit, ids))) && id in ids
    ensures var s := End(EMPTY, ts);
            var steps := [On(now, Take(worker, limit, ids)), On(now, Execute(worker, id, Faults(None, None), false)), On(now, Settle(worker, id))];
            && Behavior(s, steps)
            && var s' := End(s, steps);
               id in s'.db.operations && s'.db.operations[id].state == Completed && Present(s'.cluster, s'.db.operations[id])
  {
    hide Next, Allowed, LaunchSafety.Sound, OwnRecords, Accepted, HeldBy, Present;
    EmptyIsSound();
    SoundBehavior(EMPTY, ts);
    var s := End(EMPTY, ts);
    var t0, t1, t2 := On(now, Take(worker, limit, ids)), On(now, Execute(worker, id, Faults(None, None), false)), On(now, Settle(worker, id));
    TakeStep(s, now, worker, limit, ids, id);
    var s1 := Next(s, t0);
    ExecuteStep(s1, now, worker, id);
    var s2 := Next(s1, t1);
    MayGoOn(s1, s2, now, worker, id);
    RecordsOver(EMPTY, ts);
    RecordsStep(s, t0);
    SettleStep(s2, now, worker, id);
    SoundStep(s2, t2);
    var s3 := Next(s2, t2);
    CompletedIsPresent(s2, s3, worker, id, now);
    assert [t0, t1, t2][1..] == [t1, t2] && [t1, t2][1..] == [t2] && [t2][1..] == [];
    assert Behavior(s3, []) && End(s3, []) == s3;
    assert Behavior(s2, [t2]) && End(s2, [t2]) == s3;
    assert Behavior(s1, [t1, t2]) && End(s1, [t1, t2]) == s3;
  }

  lemma MayGoOn(s1: Sys, s2: Sys, now: nat, worker: string, id: string)
    requires (worker, id) in s1.tasks && (worker, id) in s2.tasks && s2.tasks[(worker, id)].outcome.Some?
    ensures Allowed(s1, On(now, Execute(worker, id, Faults(None, None), false))) && Allowed(s2, On(now, Settle(worker, id)))
  {
  }

  lemma RecordsStep(s: Sys, t: Timely)
    requires OwnRecords(s.db)
    ensures OwnRecords(Next(s, t).db)
  {
    hide OwnRecords, CallOf, After;
    if CallOf(s, t).Some? {
      RecordsAfter(s.db, CallOf(s, t).value);
    }
  }

  lemma CompletedIsPresent(s2: Sys, s3: Sys, worker: string, id: string, now: nat)
    requires Sound(s2) && Sound(s3) && (worker, id) in s2.tasks && Accepted(s2.db, s3.db, s2.tasks[(worker, id)].op, now)
    ensures id in s3.db.operations && s3.db.operations[id].state == Completed && Present(s3.cluster, s3.db.operations[id])
  {
    TaskIsOrder(s2, worker, id);
    hide OrdersOk, TasksOk, ClusterOk, NotedOnce;
  }
}
