/** The journal tells how each launch ended, once. */
module LaunchEvents {
  import opened Basics
  import opened DurableStore
  import opened Leases
  import opened Journals
  import opened Outbox
  import opened LaunchSafety

  /** The outbox has journaled this for the run. */
  predicate Noted(db: Db, r: string, sourceID: string) {
    exists i | 0 <= i < |Journal(db, r)| :: Journal(db, r)[i].source == "outbox" && Journal(db, r)[i].sourceID == sourceID
  }

  function FailedId(id: string): string {
    id + "/failed"
  }

  /** The journals of unknown runs are empty; an operation's end is noted exactly
      when it came, and the outbox notes nothing else. */
  ghost predicate EndsAreNoted(db: Db) {
    && (forall r | r !in db.runs :: Journal(db, r) == [])
    && (forall id | id in db.operations ::
          var op := db.operations[id];
          && (Noted(db, op.runID, id) <==> op.state == Completed)
          && (Noted(db, op.runID, FailedId(id)) <==> op.state == Failed))
    && (forall r, i | 0 <= i < |Journal(db, r)| && Journal(db, r)[i].source == "outbox" ::
          Journal(db, r)[i].sourceID == LaunchId(r) || Journal(db, r)[i].sourceID == FailedId(LaunchId(r)))
  }

  // ---- what a call journals ----------------------------------------------------------------

  /** The event a call appends when it succeeds. */
  function Appends(db: Db, t: Timed): Option<Event> {
    match t.call
    case Create(run, op, e) => if run.id !in db.runs && op.id !in db.operations then e else None
    case Complete(worker, id, e) => if Holds(db, worker, id) then e else None
    case Fail(worker, id, _, run, e) => if Holds(db, worker, id) && run.id in db.runs then e else None
    case Append(e) => if e.runID in db.runs then Some(e) else None
    case Upsert(_, e) => e
    case _ => None
  }

  lemma JournalAfter(db: Db, t: Timed, r: string)
    ensures var e := Appends(db, t);
            Journal(After(db, t), r) == if e.None? then Journal(db, r) else Journal(Appended(db, e, t.now), r)
  {
    hide Appended, Journal, Released, IdSet;
    var db' := After(db, t);
    match t.call {
      case Create(run, op, e) =>
        JournalApart(db, db.runs[run.id := run], db.operations[op.id := StoredOf(op, t.now)], e, t.now, r);
      case Claim(_, _, _, _) => JournalApart(db, db.runs, db'.operations, None, t.now, r);
      case Complete(worker, id, e) =>
        if Holds(db, worker, id) {
          JournalApart(db, db.runs, db.operations[id := Released(db.operations[id], Completed, "", t.now)], e, t.now, r);
        }
      case Retry(_, _, _, _) => JournalApart(db, db.runs, db'.operations, None, t.now, r);
      case Fail(worker, id, lastError, run, e) =>
        if Holds(db, worker, id) && run.id in db.runs {
          JournalApart(db, db.runs[run.id := run], db.operations[id := Released(db.operations[id], Failed, lastError, t.now)], e, t.now, r);
        }
      case Append(e) =>
      case Upsert(run, e) => JournalApart(db, db.runs[run.id := run], db.operations, e, t.now, r);
    }
  }

  /** Journals do not depend on records and operations. */
  lemma JournalApart(db: Db, runs: map<string, Run>, operations: map<string, Operation>, e: Option<Event>, now: nat, r: string)
    ensures var db1 := db.(runs := runs, operations := operations);
            && Journal(db1, r) == Journal(db, r)
            && Journal(Appended(db1, e, now), r) == (if e.None? then Journal(db, r) else Journal(Appended(db, e, now), r))
  {
    hide Journaled;
  }

  lemma AppendedTo(db: Db, e: Event, now: nat, r: string)
    ensures var j, j' := Journal(db, r), Journal(Appended(db, Some(e), now), r);
            || (j' == j && (r != e.runID || Journaled(j, e)))
            || (r == e.runID && !Journaled(j, e) && |j'| == |j| + 1 && j'[..|j|] == j && SameKey(j'[|j|], e))
  {
    hide Journaled;
  }

  /** A run's outbox notes grow by an outbox event of that run and nothing else. */
  lemma NotedAfter(db: Db, t: Timed, r: string, sourceID: string)
    ensures var e := Appends(db, t);
            Noted(After(db, t), r, sourceID) <==>
              Noted(db, r, sourceID) || (e.Some? && e.value.runID == r && e.value.source == "outbox" && e.value.sourceID == sourceID)
  {
    hide After, Appended;
    JournalAfter(db, t, r);
    var e := Appends(db, t);
    if e.Some? {
      AppendedTo(db, e.value, t.now, r);
      var j, j' := Journal(db, r), Journal(Appended(db, e, t.now), r);
      if j' != j {
        assert forall i | 0 <= i < |j| :: j'[i] == j[i];
      }
    }
  }

  /** What a step of the system journals for the outbox. */
  lemma AppendsOf(s: Sys, t: Timely)
    requires LaunchSafety.Sound(s) && Allowed(s, t) && CallOf(s, t).Some?
    ensures var e := Appends(s.db, CallOf(s, t).value);
            e.Some? && e.value.source == "outbox" ==>
              && t.act.Settle? && t.act.id in s.db.operations && Holds(s.db, t.act.worker, t.act.id)
              && e.value.runID == s.db.operations[t.act.id].runID
              && e.value.sourceID == if CallOf(s, t).value.call.Complete? then t.act.id else FailedId(t.act.id)
    ensures var e := Appends(s.db, CallOf(s, t).value);
            e.Some? ==> e.value.runID in Next(s, t).db.runs
  {
    hide After, FirstReady, Delay, Message, ClusterOk, CompletedOk;
    RunsAfter(s.db, CallOf(s, t).value);
    SubmittedRun(s.db, CallOf(s, t).value);
  }

  lemma SubmittedRun(db: Db, t: Timed)
    ensures t.call.Create? && Appends(db, t).Some? ==> t.call.run.id in After(db, t).runs
  {
    hide Journaled;
  }

  /** This step settles the operation while its worker holds it, and says so. */
  predicate Ends(s: Sys, t: Timely, id: string) {
    && t.act.Settle? && t.act.id == id && Holds(s.db, t.act.worker, id)
    && CallOf(s, t).Some? && Appends(s.db, CallOf(s, t).value).Some?
  }

  /** Settling is the only way an operation ends, and it is noted. */
  lemma EndsAfter(s: Sys, t: Timely, id: string)
    requires LaunchSafety.Sound(s) && Allowed(s, t) && CallOf(s, t).Some?
    requires id in s.db.operations && id in Next(s, t).db.operations
    ensures var call := CallOf(s, t).value;
            var op, op' := s.db.operations[id], Next(s, t).db.operations[id];
            && op'.runID == op.runID
            && (op'.state == Completed <==> op.state == Completed || (Ends(s, t, id) && call.call.Complete?))
            && (op'.state == Failed <==> op.state == Failed || (Ends(s, t, id) && call.call.Fail?))
            && (Ends(s, t, id) ==> Appends(s.db, call).value.source == "outbox")
            && (t.act.Settle? && Appends(s.db, call).Some? ==> call.call.Complete? || call.call.Fail?)
  {
    hide After, FirstReady, Delay, Message, ClusterOk, CompletedOk, Taken;
    OperationAfter(s.db, CallOf(s, t).value, id);
    TakenState(s.db.operations[id]);
  }

  lemma TakenState(op: Operation)
    ensures forall worker, lease: nat, now: nat :: Taken(op, worker, lease, now).state == Processing && Taken(op, worker, lease, now).runID == op.runID
  {
  }

  // ---- every step keeps it -------------------------------------------------------------------

  lemma IdsApart(id: string, id': string)
    ensures FailedId(id) != id
    ensures id != id' ==> FailedId(id) != FailedId(id')
  {
    var n, n' := |FailedId(id)|, |FailedId(id')|;
    assert FailedId(id)[..n - 7] == id && FailedId(id')[..n' - 7] == id';
  }

  /** An operation that was there: its notes follow its state. */
  lemma OldOperationNoted(s: Sys, t: Timely, id: string)
    requires LaunchSafety.Sound(s) && EndsAreNoted(s.db) && Allowed(s, t) && CallOf(s, t).Some?
    requires id in s.db.operations && id in Next(s, t).db.operations
    ensures var db' := Next(s, t).db;
            var op' := db'.operations[id];
            && (Noted(db', op'.runID, id) <==> op'.state == Completed)
            && (Noted(db', op'.runID, FailedId(id)) <==> op'.state == Failed)
  {
    hide After, Appends, CallOf, Noted, Allowed, TasksOk, ClusterOk, CompletedOk, FailedId, Holds;
    var call := CallOf(s, t).value;
    var op := s.db.operations[id];
    EndsAfter(s, t, id);
    AppendsOf(s, t);
    NotedAfter(s.db, call, op.runID, id);
    NotedAfter(s.db, call, op.runID, FailedId(id));
    IdsApart(id, id);
    if t.act.Settle? && t.act.id in s.db.operations {
      SettledRun(s.db, t.act.id, id);
    }
  }

  /** Operations of one run are one operation. */
  lemma SettledRun(db: Db, a: string, b: string)
    requires OrdersOk(db) && a in db.operations && b in db.operations
    ensures db.operations[a].runID == db.operations[b].runID ==> a == b
  {
  }

  lemma NewOperationNoted(s: Sys, t: Timely, id: string)
    requires LaunchSafety.Sound(s) && EndsAreNoted(s.db) && Allowed(s, t) && CallOf(s, t).Some?
    requires id !in s.db.operations && id in Next(s, t).db.operations
    ensures var db' := Next(s, t).db;
            var op' := db'.operations[id];
            op'.state == Pending && !Noted(db', op'.runID, id) && !Noted(db', op'.runID, FailedId(id))
  {
    hide After, Noted, TasksOk, ClusterOk, CompletedOk, FailedId, Holds, FirstReady, Delay, Message;
    var call := CallOf(s, t).value;
    NewOperation(s.db, call, id);
    var r := Next(s, t).db.operations[id].runID;
    SubmissionIsNew(s.db, call);
    NotedAfter(s.db, call, r, id);
    NotedAfter(s.db, call, r, FailedId(id));
    NothingNoted(s.db, r, id);
    NothingNoted(s.db, r, FailedId(id));
  }

  lemma NothingNoted(db: Db, r: string, sourceID: string)
    requires Journal(db, r) == []
    ensures !Noted(db, r, sourceID)
  {
  }

  /** A call that adds an operation adds its run too. */
  lemma SubmissionIsNew(db: Db, t: Timed)
    requires t.call.Create? && t.call.op.id !in db.operations && t.call.op.id in After(db, t).operations
    ensures t.call.run.id !in db.runs && Appends(db, t) == t.call.event
  {
    hide Journaled;
  }

  lemma SourcesStay(s: Sys, t: Timely, r: string, i: nat)
    requires LaunchSafety.Sound(s) && EndsAreNoted(s.db) && Allowed(s, t) && CallOf(s, t).Some?
    requires i < |Journal(Next(s, t).db, r)| && Journal(Next(s, t).db, r)[i].source == "outbox"
    ensures Journal(Next(s, t).db, r)[i].sourceID == LaunchId(r) || Journal(Next(s, t).db, r)[i].sourceID == FailedId(LaunchId(r))
  {
    hide After, Appends, CallOf, Allowed, TasksOk, ClusterOk, CompletedOk, FailedId, Holds, Noted, Journaled, Appended;
    var call := CallOf(s, t).value;
    JournalAfter(s.db, call, r);
    var e := Appends(s.db, call);
    if e.Some? {
      AppendedTo(s.db, e.value, call.now, r);
      AppendsOf(s, t);
      var j, j' := Journal(s.db, r), Journal(Next(s, t).db, r);
      assert i < |j| ==> j'[i] == j[i] by {
        if j' != j {
          assert j'[..|j|] == j;
        }
      }
    }
  }

  lemma UnknownStaysEmpty(s: Sys, t: Timely, r: string)
    requires LaunchSafety.Sound(s) && EndsAreNoted(s.db) && Allowed(s, t) && CallOf(s, t).Some?
    requires r !in Next(s, t).db.runs
    ensures Journal(Next(s, t).db, r) == []
  {
    hide After, Appends, CallOf, Allowed, TasksOk, ClusterOk, CompletedOk, Noted, Journaled, Appended, Holds;
    var call := CallOf(s, t).value;
    RunsAfter(s.db, call);
    JournalAfter(s.db, call, r);
    AppendsOf(s, t);
    var e := Appends(s.db, call);
    if e.Some? {
      AppendedTo(s.db, e.value, call.now, r);
    }
  }

  lemma NotedStep(s: Sys, t: Timely)
    requires LaunchSafety.Sound(s) && EndsAreNoted(s.db) && Allowed(s, t)
    ensures EndsAreNoted(Next(s, t).db)
  {
    hide LaunchSafety.Sound, Allowed, CallOf, After, Noted, FailedId, Journal;
    if CallOf(s, t).Some? {
      var db' := Next(s, t).db;
      forall r | r !in db'.runs ensures Journal(db', r) == [] {
        UnknownStaysEmpty(s, t, r);
      }
      forall id | id in db'.operations
        ensures Noted(db', db'.operations[id].runID, id) <==> db'.operations[id].state == Completed
        ensures Noted(db', db'.operations[id].runID, FailedId(id)) <==> db'.operations[id].state == Failed
      {
        if id in s.db.operations {
          OldOperationNoted(s, t, id);
        } else {
          NewOperationNoted(s, t, id);
        }
      }
      forall r, i | 0 <= i < |Journal(db', r)| && Journal(db', r)[i].source == "outbox"
        ensures Journal(db', r)[i].sourceID == LaunchId(r) || Journal(db', r)[i].sourceID == FailedId(LaunchId(r))
      {
        SourcesStay(s, t, r, i);
      }
    }
  }

  lemma {:induction false} NotedBehavior(s: Sys, ts: seq<Timely>)
    requires LaunchSafety.Sound(s) && EndsAreNoted(s.db) && Valid(s.db) && Behavior(s, ts)
    ensures LaunchSafety.Sound(End(s, ts)) && EndsAreNoted(End(s, ts).db) && Valid(End(s, ts).db)
    decreases |ts|
  {
    hide LaunchSafety.Sound, EndsAreNoted, Valid, Allowed, CallOf, After;
    if ts != [] {
      SoundStep(s, ts[0]);
      NotedStep(s, ts[0]);
      if CallOf(s, ts[0]).Some? {
        JournalsAfter(s.db, CallOf(s, ts[0]).value);
      }
      NotedBehavior(Next(s, ts[0]), ts[1..]);
    }
  }

  /** Over every run of the system: a launch that is completed or failed has exactly
      one event of the outbox in its run's journal, and that tells which; a launch
      that is neither has none. */
  lemma OneTerminalEvent(ts: seq<Timely>, id: string)
    requires Behavior(EMPTY, ts) && id in End(EMPTY, ts).db.operations
    ensures var db := End(EMPTY, ts).db;
            var op := db.operations[id];
            var j := Journal(db, op.runID);
            if Terminal(op) then
              exists i | 0 <= i < |j| ::
                && j[i].source == "outbox" && j[i].sourceID == (if op.state == Completed then id else FailedId(id))
                && forall k | 0 <= k < |j| && k != i :: j[k].source != "outbox"
            else forall k | 0 <= k < |j| :: j[k].source != "outbox"
  {
    hide Next, Allowed, FailedId, Behavior, End;
    EmptyIsSound();
    NotedBehavior(EMPTY, ts);
    EndOf(End(EMPTY, ts), id);
  }

  lemma EmptyIsSound()
    ensures LaunchSafety.Sound(EMPTY) && EndsAreNoted(EMPTY.db) && Valid(EMPTY.db)
  {
  }

  lemma KeyOnce(j: seq<Event>, last: nat, i: nat)
    requires JournalOk(j, last) && i < |j|
    ensures forall k | 0 <= k < |j| && k != i && j[k].source == j[i].source :: j[k].sourceID != j[i].sourceID
  {
  }

  lemma EndOf(s: Sys, id: string)
    requires LaunchSafety.Sound(s) && EndsAreNoted(s.db) && Valid(s.db) && id in s.db.operations
    ensures var op := s.db.operations[id];
            var j := Journal(s.db, op.runID);
            if Terminal(op) then
              exists i | 0 <= i < |j| ::
                && j[i].source == "outbox" && j[i].sourceID == (if op.state == Completed then id else FailedId(id))
                && forall k | 0 <= k < |j| && k != i :: j[k].source != "outbox"
            else forall k | 0 <= k < |j| :: j[k].source != "outbox"
  {
    hide Valid, TasksOk, ClusterOk, CompletedOk, FailedId, JournalOk;
    var op := s.db.operations[id];
    var j := Journal(s.db, op.runID);
    var end := if op.state == Completed then id else FailedId(id);
    JournalIsOk(s.db, op.runID);
    forall k | 0 <= k < |j| && j[k].source == "outbox"
      ensures Terminal(op) && j[k].sourceID == end
    {
      assert j[k].sourceID == id || j[k].sourceID == FailedId(id);
      IdsApart(id, id);
      assert Noted(s.db, op.runID, j[k].sourceID);
    }
    if Terminal(op) {
      assert Noted(s.db, op.runID, end);
      var i :| 0 <= i < |j| && j[i].source == "outbox" && j[i].sourceID == end;
      KeyOnce(j, s.db.nextEventID, i);
    }
  }

  // ---- a launch that never succeeds ---------------------------------------------------------

  /** Back-off scheduled by the first n attempts. */
  function TotalDelay(n: nat): nat {
    if n == 0 then 0 else TotalDelay(n - 1) + Delay(n)
  }

  lemma DelaysOf(n: nat)
    ensures n <= 11 ==> TotalDelay(n) <= 383 * SECOND
    ensures TotalDelay(0) == 0 && TotalDelay(11) == 383 * SECOND
  {
    assert Pow2(6) == 64;
    assert TotalDelay(6) == 63 * SECOND && TotalDelay(9) == 255 * SECOND && TotalDelay(11) == 383 * SECOND;
    if n <= 11 {
      DelaysGrow(n, 11);
    }
  }

  lemma {:induction false} DelaysGrow(n: nat, m: nat)
    requires n <= m
    ensures TotalDelay(n) <= TotalDelay(m)
  {
    hide Delay;
    if n < m {
      DelaysGrow(n, m - 1);
    }
  }

  /** The store has the record of this run. */
  predicate Registered(db: Db, r: string) {
    r in db.runs && db.runs[r].id == r
  }

  lemma RegisteredAfter(db: Db, t: Timed, r: string)
    ensures Registered(db, r) ==> Registered(After(db, t), r)
  {
    hide Journaled, Released, Holds;
  }

  predicate Settles(t: Timed, id: string) {
    (t.call.Complete? || t.call.Retry? || t.call.Fail?) && t.call.id == id
  }

  /** Calls that neither claim the operation nor settle it as its holder. */
  predicate Aside(db: Db, id: string, ts: seq<Timed>) {
    forall k | 0 <= k < |ts| :: !Claims(ts[k], id) && !(Settles(ts[k], id) && Holds(db, ts[k].call.worker, id))
  }

  lemma {:induction false} AsideLeaves(db: Db, id: string, ts: seq<Timed>, r: string)
    requires Happened(db, ts) && Aside(db, id, ts) && id in db.operations
    ensures id in AfterAll(db, ts).operations && AfterAll(db, ts).operations[id] == db.operations[id]
    ensures Registered(db, r) ==> Registered(AfterAll(db, ts), r)
    decreases |ts|
  {
    hide After, Permitted, Registered;
    if ts != [] {
      OperationAfter(db, ts[0], id);
      RegisteredAfter(db, ts[0], r);
      AsideLeaves(After(db, ts[0]), id, ts[1..], r);
    }
  }

  /** One attempt that its worker lives through: calls about other things, the claim,
      more such calls while it is on, and the settlement of its error. */
  datatype Round = Round(before: seq<Timed>, claim: Timed, during: seq<Timed>, cause: LaunchError, settledAt: nat)

  ghost function Taking(db: Db, r: Round): Db {
    After(AfterAll(db, r.before), r.claim)
  }

  ghost function Settling(db: Db, r: Round): Db {
    AfterAll(Taking(db, r), r.during)
  }

  ghost predicate Attempted(db: Db, id: string, r: Round) {
    && Happened(db, r.before) && Aside(db, id, r.before)
    && Permitted(AfterAll(db, r.before), r.claim) && Claims(r.claim, id)
    && Happened(Taking(db, r), r.during) && Aside(Taking(db, r), id, r.during)
    && id in Taking(db, r).operations
    && Settlement(Settling(db, r), r.claim.call.worker, Taking(db, r).operations[id], Rejected(r.cause), r.settledAt).Some?
  }

  ghost function AfterRound(db: Db, id: string, r: Round): Db
    requires Attempted(db, id, r)
  {
    After(Settling(db, r), Settlement(Settling(db, r), r.claim.call.worker, Taking(db, r).operations[id], Rejected(r.cause), r.settledAt).value)
  }

  /** The launch waits for its next attempt, if it has one. */
  predicate Waiting(db: Db, id: string) {
    && id in db.operations && db.operations[id].id == id && Registered(db, db.operations[id].runID)
    && db.operations[id].state == Pending && db.operations[id].attempts < MAX_LAUNCH_ATTEMPTS
  }

  predicate LastTry(cause: LaunchError, attempts: nat) {
    Permanent(cause) || attempts >= MAX_LAUNCH_ATTEMPTS
  }

  lemma RoundTaken(db: Db, id: string, r: Round)
    requires Waiting(db, id) && Attempted(db, id, r)
    ensures var op := db.operations[id];
            && r.claim.now >= op.availableAt && Holds(Settling(db, r), r.claim.call.worker, id)
            && Settling(db, r).operations[id] == Taking(db, r).operations[id]
            && Taking(db, r).operations[id] == Taken(op, r.claim.call.worker, r.claim.call.lease, r.claim.now)
            && Registered(Settling(db, r), op.runID)
  {
    hide After, Permitted, Registered;
    var op := db.operations[id];
    AsideLeaves(db, id, r.before, op.runID);
    OperationAfter(AfterAll(db, r.before), r.claim, id);
    RegisteredAfter(AfterAll(db, r.before), r.claim, op.runID);
    AsideLeaves(Taking(db, r), id, r.during, op.runID);
  }

  lemma RoundEffect(db: Db, id: string, r: Round)
    requires Waiting(db, id) && Attempted(db, id, r)
    ensures id in AfterRound(db, id, r).operations
    ensures var db' := AfterRound(db, id, r);
            var op, op' := db.operations[id], db'.operations[id];
            && r.claim.now >= op.availableAt && op'.attempts == op.attempts + 1
            && (if LastTry(r.cause, op'.attempts) then op'.state == Failed
                else Waiting(db', id) && op'.availableAt == r.settledAt + Delay(op'.attempts))
  {
    hide After, AfterAll, Happened, Delay, Message, Aside;
    var op := db.operations[id];
    RoundTaken(db, id, r);
    var db2 := Settling(db, r);
    var call := Settlement(db2, r.claim.call.worker, Taking(db, r).operations[id], Rejected(r.cause), r.settledAt).value;
    OperationAfter(db2, call, id);
    RegisteredAfter(db2, call, op.runID);
  }

  /** There is no attempt at a failed launch. */
  lemma FailedIsOver(db: Db, id: string, r: Round)
    requires id in db.operations && db.operations[id].state == Failed
    ensures !Attempted(db, id, r)
  {
    hide After, Permitted, Registered;
    if Attempted(db, id, r) {
      AsideLeaves(db, id, r.before, "");
      OperationAfter(AfterAll(db, r.before), r.claim, id);
    }
  }

  /** The attempts follow one another in a history of the store. */
  ghost predicate Failing(db: Db, id: string, rounds: seq<Round>)
    decreases |rounds|
  {
    rounds == [] || (Attempted(db, id, rounds[0]) && Failing(AfterRound(db, id, rounds[0]), id, rounds[1..]))
  }

  ghost function AfterRounds(db: Db, id: string, rounds: seq<Round>): Db
    requires Failing(db, id, rounds)
    decreases |rounds|
  {
    if rounds == [] then db else AfterRounds(AfterRound(db, id, rounds[0]), id, rounds[1..])
  }

  /** How long the launch is put off by its attempts, all in all: from each
      settlement until it may be claimed again. */
  ghost function PutOff(db: Db, id: string, rounds: seq<Round>): int
    requires Failing(db, id, rounds)
    decreases |rounds|
  {
    if rounds == [] then 0
    else
      var db' := AfterRound(db, id, rounds[0]);
      (if id in db'.operations && db'.operations[id].state == Pending then db'.operations[id].availableAt - rounds[0].settledAt else 0)
      + PutOff(db', id, rounds[1..])
  }

  /** No attempt starts before the back-off of the one before is over. */
  predicate Spaced(rounds: seq<Round>, first: nat) {
    forall k | 0 <= k < |rounds| - 1 :: rounds[k + 1].claim.now >= rounds[k].settledAt + Delay(first + k + 1)
  }

  lemma {:induction false} AttemptsAreSpaced(db: Db, id: string, rounds: seq<Round>)
    requires Waiting(db, id) && Failing(db, id, rounds)
    ensures Spaced(rounds, db.operations[id].attempts)
    decreases |rounds|
  {
    hide Attempted, AfterRound, Delay, Permanent, Registered;
    if |rounds| > 1 {
      var r, rest, first := rounds[0], rounds[1..], db.operations[id].attempts;
      RoundEffect(db, id, r);
      var db' := AfterRound(db, id, r);
      if db'.operations[id].state == Failed {
        FailedIsOver(db', id, rest[0]);
      } else {
        RoundEffect(db', id, rest[0]);
        AttemptsAreSpaced(db', id, rest);
        forall k | 0 <= k < |rounds| - 1
          ensures rounds[k + 1].claim.now >= rounds[k].settledAt + Delay(first + k + 1)
        {
          assert k > 0 ==> rounds[k] == rest[k - 1] && rounds[k + 1] == rest[k];
        }
      }
    }
  }

  /** How it stands after these attempts, and how long they put the launch off. */
  lemma {:induction false} FailingComesTo(db: Db, id: string, rounds: seq<Round>)
    requires Waiting(db, id) && Failing(db, id, rounds)
    ensures id in AfterRounds(db, id, rounds).operations
    ensures var first, op, n := db.operations[id].attempts, AfterRounds(db, id, rounds).operations[id], |rounds|;
            && op.attempts == first + n <= MAX_LAUNCH_ATTEMPTS
            && (if n > 0 && LastTry(rounds[n - 1].cause, op.attempts) then
                  op.state == Failed && PutOff(db, id, rounds) == TotalDelay(op.attempts - 1) - TotalDelay(first)
                else
                  op.state == Pending && op.attempts < MAX_LAUNCH_ATTEMPTS
                  && PutOff(db, id, rounds) == TotalDelay(op.attempts) - TotalDelay(first))
    decreases |rounds|
  {
    hide Attempted, AfterRound, Delay, Permanent, Registered;
    if rounds != [] {
      var r, first := rounds[0], db.operations[id].attempts;
      RoundEffect(db, id, r);
      var db' := AfterRound(db, id, r);
      if db'.operations[id].state == Pending {
        FailingComesTo(db', id, rounds[1..]);
      } else if |rounds| > 1 {
        FailedIsOver(db', id, rounds[1]);
      }
    }
  }

  /** In any history of the store in which the launch never succeeds and its workers
      live through its attempts, whatever else happens before and during them: it is
      failed by its twelfth attempt, sooner exactly on an error that cannot go away;
      no attempt starts before the back-off of the one before is over; and it is put
      off by 383 seconds in all at most, by just that if it takes all twelve. */
  lemma NeverSucceedingIsFailed(db: Db, id: string, rounds: seq<Round>)
    requires Waiting(db, id) && Failing(db, id, rounds) && rounds != []
    ensures id in AfterRounds(db, id, rounds).operations
    ensures var first, op := db.operations[id].attempts, AfterRounds(db, id, rounds).operations[id];
            && op.attempts == first + |rounds| <= MAX_LAUNCH_ATTEMPTS
            && op.state == (if LastTry(rounds[|rounds| - 1].cause, op.attempts) then Failed else Pending)
            && Spaced(rounds, first) && PutOff(db, id, rounds) <= 383 * SECOND
            && (|rounds| == MAX_LAUNCH_ATTEMPTS ==> PutOff(db, id, rounds) == 383 * SECOND)
  {
    hide Failing, AfterRounds, PutOff, Permanent, Registered, Spaced, TotalDelay, Delay, Attempted;
    AttemptsAreSpaced(db, id, rounds);
    FailingComesTo(db, id, rounds);
    var op := AfterRounds(db, id, rounds).operations[id];
    DelaysOf(if op.state == Failed then op.attempts - 1 else op.attempts);
  }
}
