/** `internal/store/memory_durable.go`: the run records, the leased outbox and
    the event journal, updated under one lock. */
module DurableStore {
  import opened Basics

  // ---- data -------------------------------------------------------------------------

  datatype Condition = Condition(kind: string, status: string, reason: string, message: string, at: nat)

  /** `submission` stands for the immutable fields of the request. */
  datatype Run = Run(id: string, namespace: string, submission: string, phase: string, conditions: seq<Condition>)

  /** What an operation is to do: a marshalled AgentRun, or bytes that do not decode. */
  datatype Payload = Garbled | AgentRun(namespace: string, name: string, spec: string)

  datatype State = Unstated | Pending | Processing | Completed | Failed

  /** Times are nanoseconds; 0 is Go's zero time. */
  datatype Operation = Operation(id: string, runID: string, kind: string, payload: Payload, state: State, attempts: nat,
                                 availableAt: nat, leaseOwner: string, leaseUntil: nat, lastError: string,
                                 createdAt: nat, updatedAt: nat)

  datatype Event = Event(id: nat, runID: string, source: string, sourceID: string, kind: string, payload: string, createdAt: nat)

  datatype Db = Db(runs: map<string, Run>, operations: map<string, Operation>, events: map<string, seq<Event>>, nextEventID: nat)

  datatype Error = Exists | NotFound | LeaseLost

  // ---- the journal -------------------------------------------------------------------

  function Journal(db: Db, runID: string): seq<Event> {
    if runID in db.events then db.events[runID] else []
  }

  predicate SameKey(a: Event, b: Event) {
    a.source == b.source && a.sourceID == b.sourceID
  }

  predicate Journaled(journal: seq<Event>, e: Event) {
    exists i | 0 <= i < |journal| :: SameKey(journal[i], e)
  }

  /** appendEventLocked. */
  function Appended(db: Db, e: Option<Event>, now: nat): Db {
    if e.None? || Journaled(Journal(db, e.value.runID), e.value) then db
    else
      var stored := e.value.(id := db.nextEventID + 1, createdAt := if e.value.createdAt == 0 then now else e.value.createdAt);
      db.(nextEventID := db.nextEventID + 1,
          events := db.events[stored.runID := Journal(db, stored.runID) + [stored]])
  }

  /** Ids increase along a journal and were all given out; keys do not repeat. */
  ghost predicate JournalOk(journal: seq<Event>, last: nat) {
    && (forall i | 0 <= i < |journal| :: 0 < journal[i].id <= last)
    && (forall i, j | 0 <= i < j < |journal| :: journal[i].id < journal[j].id && !SameKey(journal[i], journal[j]))
  }

  ghost predicate Valid(db: Db) {
    && (forall r | r in db.events :: JournalOk(db.events[r], db.nextEventID))
    && (forall r, i | r in db.events && 0 <= i < |db.events[r]| :: db.events[r][i].runID == r)
    && (forall id | id in db.operations :: db.operations[id].id == id)
  }

  lemma JournalExtended(journal: seq<Event>, last: nat, e: Event)
    requires JournalOk(journal, last) && !Journaled(journal, e) && e.id == last + 1
    ensures JournalOk(journal + [e], last + 1)
  {
    forall i | 0 <= i < |journal| ensures !SameKey(journal[i], e) {
    }
  }

  /** What an append adds to one journal. */
  lemma AppendedJournal(db: Db, e: Event, now: nat)
    ensures var j, j' := Journal(db, e.runID), Journal(Appended(db, Some(e), now), e.runID);
            && j <= j' && Journaled(j', e)
            && (Journaled(j, e) ==> Appended(db, Some(e), now) == db)
            && (!Journaled(j, e) ==> |j'| == |j| + 1 && j'[|j|] == e.(id := db.nextEventID + 1, createdAt := j'[|j|].createdAt))
  {
    var j, j' := Journal(db, e.runID), Journal(Appended(db, Some(e), now), e.runID);
    if !Journaled(j, e) {
      assert SameKey(j'[|j|], e);
    }
  }

  /** An append keeps every journal in order and without repeats, adds at the end
      of one of them only, and touches nothing else. */
  lemma AppendKeepsJournals(db: Db, e: Option<Event>, now: nat)
    requires Valid(db)
    ensures var db' := Appended(db, e, now);
            && Valid(db') && db'.runs == db.runs && db'.operations == db.operations && db.nextEventID <= db'.nextEventID
            && (forall r :: Journal(db, r) <= Journal(db', r))
            && (forall r | e.None? || r != e.value.runID :: Journal(db', r) == Journal(db, r))
  {
    hide Journaled, SameKey, JournalOk, Valid;
    if e.Some? && !Journaled(Journal(db, e.value.runID), e.value) {
      var db' := Appended(db, e, now);
      var r := e.value.runID;
      var j, j' := Journal(db, r), Journal(db', r);
      var stored := j'[|j|];
      assert j' == j + [stored];
      JournalIsOk(db, r);
      SameKeyJournaled(j, e.value, stored);
      JournalExtended(j, db.nextEventID, stored);
      AppendKeepsOthers(db, db', r, j');
    }
  }

  lemma JournalIsOk(db: Db, r: string)
    requires Valid(db)
    ensures JournalOk(Journal(db, r), db.nextEventID)
    ensures forall i | 0 <= i < |Journal(db, r)| :: Journal(db, r)[i].runID == r
  {
    hide SameKey;
  }

  lemma SameKeyJournaled(journal: seq<Event>, e: Event, e': Event)
    requires e.source == e'.source && e.sourceID == e'.sourceID
    ensures Journaled(journal, e) == Journaled(journal, e')
  {
    if Journaled(journal, e) {
      var i :| 0 <= i < |journal| && SameKey(journal[i], e);
      assert SameKey(journal[i], e');
    }
    if Journaled(journal, e') {
      var i :| 0 <= i < |journal| && SameKey(journal[i], e');
      assert SameKey(journal[i], e);
    }
  }

  lemma AppendKeepsOthers(db: Db, db': Db, r: string, journal: seq<Event>)
    requires Valid(db) && db' == db.(nextEventID := db.nextEventID + 1, events := db.events[r := journal])
    requires JournalOk(journal, db'.nextEventID) && forall i | 0 <= i < |journal| :: journal[i].runID == r
    ensures Valid(db')
  {
    hide SameKey;
  }

  /** ListRunEvents' events: those after the cursor, at most so many. */
  function Page(journal: seq<Event>, after: int, limit: nat): seq<Event>
    decreases |journal|
  {
    if journal == [] || limit == 0 then []
    else if journal[0].id <= after then Page(journal[1..], after, limit)
    else [journal[0]] + Page(journal[1..], after, limit - 1)
  }

  function PageLimit(limit: int): nat {
    if limit <= 0 || limit > 1000 then 200 else limit
  }

  /** The events beyond the cursor, from the first of them on, without a gap: as many
      as asked for, 200 when that is no sensible number, or all there are. */
  ghost predicate IsPage(journal: seq<Event>, after: int, limit: int, page: seq<Event>) {
    exists from | 0 <= from <= |journal| :: PageAt(journal, after, limit, from, page)
  }

  predicate PageAt(journal: seq<Event>, after: int, limit: int, from: nat, page: seq<Event>)
    requires from <= |journal|
  {
    && (forall i | 0 <= i < from :: journal[i].id <= after) && (forall i | from <= i < |journal| :: journal[i].id > after)
    && page == journal[from..Min(|journal|, from + if limit <= 0 || limit > 1000 then 200 else limit)]
  }

  /** Once the cursor is passed, a page is what comes next. */
  lemma {:induction false} PageTakes(journal: seq<Event>, after: int, limit: nat)
    requires forall i | 0 <= i < |journal| :: journal[i].id > after
    ensures Page(journal, after, limit) == journal[..Min(|journal|, limit)]
    decreases |journal|
  {
    if journal != [] && limit > 0 {
      PageTakes(journal[1..], after, limit - 1);
    }
  }

  lemma {:induction false} PageStarts(journal: seq<Event>, after: int, limit: nat, last: nat) returns (from: nat)
    requires JournalOk(journal, last)
    ensures from <= |journal|
    ensures (forall i | 0 <= i < from :: journal[i].id <= after) && (forall i | from <= i < |journal| :: journal[i].id > after)
    ensures Page(journal, after, limit) == journal[from..Min(|journal|, from + limit)]
    decreases |journal|
  {
    hide SameKey;
    if journal == [] || limit == 0 || journal[0].id > after {
      from := 0;
      while from < |journal| && journal[from].id <= after
        invariant from <= |journal| && forall i | 0 <= i < from :: journal[i].id <= after
      {
        from := from + 1;
      }
      if limit > 0 {
        PageTakes(journal, after, limit);
      }
    } else {
      var rest := journal[1..];
      var f := PageStarts(rest, after, limit, last);
      from := f + 1;
      forall i | 0 <= i < from ensures journal[i].id <= after {
        assert i > 0 ==> journal[i] == rest[i - 1];
      }
      forall i | from <= i < |journal| ensures journal[i].id > after {
        assert journal[i] == rest[i - 1];
      }
    }
  }

  lemma PageIsPage(journal: seq<Event>, after: int, limit: int, last: nat)
    requires JournalOk(journal, last)
    ensures IsPage(journal, after, limit, Page(journal, after, PageLimit(limit)))
  {
    hide JournalOk;
    var from := PageStarts(journal, after, PageLimit(limit), last);
    assert PageAt(journal, after, limit, from, Page(journal, after, PageLimit(limit)));
  }

  // ---- the outbox ------------------------------------------------------------------------

  /** ClaimOperations may hand it out now. */
  predicate Ready(op: Operation, now: nat) {
    (op.state == Pending && op.availableAt <= now) || (op.state == Processing && op.leaseUntil <= now)
  }

  function ReadyIds(db: Db, now: nat): set<string> {
    set id | id in db.operations && Ready(db.operations[id], now)
  }

  /** The order of claims: creation time, then id. */
  predicate Earlier(a: Operation, b: Operation) {
    a.createdAt < b.createdAt || (a.createdAt == b.createdAt && Less(a.id, b.id))
  }

  /** An operation as a claim leaves it. */
  function Taken(op: Operation, worker: string, lease: nat, now: nat): Operation {
    op.(state := Processing, leaseOwner := worker, leaseUntil := now + lease, attempts := op.attempts + 1, updatedAt := now)
  }

  function IdSet(ids: seq<string>): set<string> {
    set id | id in ids
  }

  function IdsOf(ops: seq<Operation>): (ids: seq<string>)
    ensures |ids| == |ops| && forall i | 0 <= i < |ops| :: ids[i] == ops[i].id
  {
    seq(|ops|, i requires 0 <= i < |ops| => ops[i].id)
  }

  function Limit(limit: int): nat {
    if limit <= 0 then 1 else limit
  }

  /** The operations of a claim: all ready, in claim order, as many as asked for or
      there are, and none left out that comes before one taken. */
  ghost predicate FirstReady(db: Db, limit: int, now: nat, ids: seq<string>) {
    && (forall i | 0 <= i < |ids| :: ids[i] in ReadyIds(db, now))
    && (forall i, j | 0 <= i < j < |ids| :: Earlier(db.operations[ids[i]], db.operations[ids[j]]))
    && |ids| == Min(Limit(limit), |ReadyIds(db, now)|)
    && (forall id, i | id in ReadyIds(db, now) && id !in ids && 0 <= i < |ids| ::
          Earlier(db.operations[ids[i]], db.operations[id]))
  }

  /** The store after a claim: the claimed operations are taken, everything else is
      as it was. */
  function Claimed(db: Db, ids: set<string>, worker: string, lease: nat, now: nat): Db {
    db.(operations := map id | id in db.operations ::
      if id in ids then Taken(db.operations[id], worker, lease, now) else db.operations[id])
  }

  /** The worker holds the operation as far as the store knows. */
  predicate Holds(db: Db, worker: string, id: string) {
    id in db.operations && db.operations[id].state == Processing && db.operations[id].leaseOwner == worker
  }

  function Put(db: Db, op: Operation): Db {
    db.(operations := db.operations[op.id := op])
  }

  function Released(op: Operation, state: State, lastError: string, now: nat): Operation {
    op.(state := state, leaseOwner := "", leaseUntil := 0, lastError := lastError, updatedAt := now)
  }

  /** CompleteOperation. */
  function Acked(db: Db, worker: string, id: string, e: Option<Event>, now: nat): Result<Db, Error> {
    if !Holds(db, worker, id) then Failure(LeaseLost)
    else Success(Appended(db.(operations := db.operations[id := Released(db.operations[id], Completed, "", now)]), e, now))
  }

  /** RetryOperation. */
  function Retried(db: Db, worker: string, id: string, lastError: string, availableAt: nat, now: nat): Result<Db, Error> {
    if !Holds(db, worker, id) then Failure(LeaseLost)
    else Success(db.(operations := db.operations[id := Released(db.operations[id], Pending, lastError, now).(availableAt := availableAt)]))
  }

  /** FailOperation. */
  function GivenUp(db: Db, worker: string, id: string, lastError: string, run: Run, e: Option<Event>, now: nat): Result<Db, Error> {
    if !Holds(db, worker, id) then Failure(LeaseLost)
    else if run.id !in db.runs then Failure(NotFound)
    else Success(Appended(db.(runs := db.runs[run.id := run],
                              operations := db.operations[id := Released(db.operations[id], Failed, lastError, now)]), e, now))
  }

  /** CreateRunWithOperation. */
  function Created(db: Db, run: Run, op: Operation, e: Option<Event>, now: nat): Result<Db, Error> {
    if run.id in db.runs || op.id in db.operations then Failure(Exists)
    else
      var op1 := if op.state == Unstated then op.(state := Pending) else op;
      var op2 := if op1.availableAt == 0 then op1.(availableAt := now) else op1;
      var op3 := if op2.createdAt == 0 then op2.(createdAt := op2.availableAt) else op2;
      var stored := op3.(updatedAt := op3.createdAt);
      Success(Appended(db.(runs := db.runs[run.id := run], operations := db.operations[op.id := stored]), e, now))
  }

  /** AppendRunEvent. */
  function Ingested(db: Db, e: Event, now: nat): Result<Db, Error> {
    if e.runID !in db.runs then Failure(NotFound) else Success(Appended(db, Some(e), now))
  }

  /** UpsertRunWithEvent. */
  function Mirrored(db: Db, run: Run, e: Option<Event>, now: nat): Db {
    Appended(db.(runs := db.runs[run.id := run]), e, now)
  }

  // ---- sorting the ready operations ------------------------------------------------------

  ghost predicate Ordered(s: seq<Operation>) {
    forall i, j | 0 <= i < j < |s| :: Earlier(s[i], s[j])
  }

  function Insert(x: Operation, s: seq<Operation>): (r: seq<Operation>)
    ensures |r| == |s| + 1
    ensures forall y :: y in r <==> y == x || y in s
  {
    if s == [] || Earlier(x, s[0]) then [x] + s else [s[0]] + Insert(x, s[1..])
  }

  function Sorted(s: seq<Operation>): (r: seq<Operation>)
    ensures |r| == |s|
    ensures forall y :: y in r <==> y in s
  {
    if s == [] then [] else Insert(s[0], Sorted(s[1..]))
  }

  lemma EarlierIsTotal(a: Operation, b: Operation)
    requires a.id != b.id
    ensures Earlier(a, b) || Earlier(b, a)
    ensures !(Earlier(a, b) && Earlier(b, a))
  {
    LessIsTotal(a.id, b.id);
  }

  lemma EarlierIsTransitive(a: Operation, b: Operation, c: Operation)
    requires Earlier(a, b) && Earlier(b, c)
    ensures Earlier(a, c)
  {
    if a.createdAt == b.createdAt == c.createdAt {
      LessIsTransitive(a.id, b.id, c.id);
    }
  }

  lemma {:induction false} InsertOrdered(x: Operation, s: seq<Operation>)
    requires Ordered(s) && forall y | y in s :: y.id != x.id
    ensures Ordered(Insert(x, s))
  {
    hide Earlier;
    if s != [] {
      EarlierIsTotal(x, s[0]);
      if Earlier(x, s[0]) {
        forall j | 0 < j < |s| ensures Earlier(x, s[j]) {
          EarlierIsTransitive(x, s[0], s[j]);
        }
      } else {
        InsertOrdered(x, s[1..]);
        var r := Insert(x, s[1..]);
        forall j | 0 <= j < |r| ensures Earlier(s[0], r[j]) {
          assert r[j] in r;
        }
      }
    }
  }

  lemma {:induction false} SortedIsOrdered(s: seq<Operation>)
    requires forall i, j | 0 <= i < j < |s| :: s[i].id != s[j].id
    ensures Ordered(Sorted(s))
  {
    hide Earlier;
    if s != [] {
      SortedIsOrdered(s[1..]);
      InsertOrdered(s[0], Sorted(s[1..]));
    }
  }

  lemma {:induction false} DistinctCount(ids: seq<string>)
    requires forall i, j | 0 <= i < j < |ids| :: ids[i] != ids[j]
    ensures |IdSet(ids)| == |ids|
  {
    if ids != [] {
      var n := |ids| - 1;
      DistinctCount(ids[..n]);
      assert ids == ids[..n] + [ids[n]];
      assert IdSet(ids) == IdSet(ids[..n]) + {ids[n]};
    }
  }

  /** All the ready operations, sorted: a prefix of them is what a claim takes. */
  lemma SortedPrefixIsFirst(db: Db, limit: int, now: nat, all: seq<Operation>, n: nat)
    requires Valid(db) && Ordered(all) && n == Min(Limit(limit), |all|)
    requires forall op | op in all :: op.id in ReadyIds(db, now) && op == db.operations[op.id]
    requires forall id | id in ReadyIds(db, now) :: db.operations[id] in all
    ensures FirstReady(db, limit, now, IdsOf(all[..n]))
  {
    hide Earlier, Less, Ready;
    var ids, every := IdsOf(all[..n]), IdsOf(all);
    forall i | 0 <= i < |all| ensures every[i] in ReadyIds(db, now) && db.operations[every[i]] == all[i] {
      assert all[i] in all;
    }
    forall i, j | 0 <= i < j < |all| ensures every[i] != every[j] {
      if every[i] == every[j] {
        EarlierIsStrict(all[i]);
      }
    }
    DistinctCount(every);
    assert IdSet(every) == ReadyIds(db, now) by {
      forall id | id in ReadyIds(db, now) ensures id in every {
        var k :| 0 <= k < |all| && all[k] == db.operations[id];
        assert every[k] == id;
      }
    }
    forall k | 0 <= k < n ensures all[k].id in ids {
      assert ids[k] == all[k].id;
    }
    forall id, i | id in ReadyIds(db, now) && id !in ids && 0 <= i < |ids|
      ensures Earlier(db.operations[ids[i]], db.operations[id])
    {
      var k :| 0 <= k < |all| && all[k] == db.operations[id];
    }
  }

  lemma EarlierIsStrict(a: Operation)
    ensures !Earlier(a, a)
  {
    LessIsTotal(a.id, a.id);
  }

  // ---- what the calls leave, field by field ----------------------------------------------------

  /** An event is added at the end of its run's journal, under the next id, unless an
      event of its source and source id is there; nothing else is journaled. */
  ghost predicate NotedOnce(before: map<string, seq<Event>>, last: nat, after: map<string, seq<Event>>, last': nat, e: Option<Event>, now: nat) {
    if e.None? then after == before && last' == last
    else
      var journal := if e.value.runID in before then before[e.value.runID] else [];
      if exists i | 0 <= i < |journal| :: journal[i].source == e.value.source && journal[i].sourceID == e.value.sourceID
      then after == before && last' == last
      else
        var at := if e.value.createdAt == 0 then now else e.value.createdAt;
        last' == last + 1 && after == before[e.value.runID := journal + [e.value.(id := last + 1, createdAt := at)]]
  }

  /** The operation is this worker's. */
  predicate HeldBy(db: Db, worker: string, id: string) {
    id in db.operations && db.operations[id].state == Processing && db.operations[id].leaseOwner == worker
  }

  /** The operation is in this state and nobody's, and no other operation changed. */
  predicate LetGo(db: Db, db': Db, id: string, state: State, lastError: string, availableAt: nat, now: nat) {
    && id in db.operations && id in db'.operations && db'.operations == db.operations[id := db'.operations[id]]
    && db'.operations[id] == db.operations[id].(state := state, leaseOwner := "", leaseUntil := 0, lastError := lastError,
                                                availableAt := availableAt, updatedAt := now)
  }

  /** It waits and its time has come, or its worker's time is over. */
  predicate MayBeClaimed(op: Operation, now: nat) {
    (op.state == Pending && op.availableAt <= now) || (op.state == Processing && op.leaseUntil <= now)
  }

  /** Older operations come first; ids decide between equally old ones. */
  predicate ComesFirst(a: Operation, b: Operation) {
    a.createdAt < b.createdAt || (a.createdAt == b.createdAt && Less(a.id, b.id))
  }

  lemma AppendedNotes(db: Db, e: Option<Event>, now: nat)
    ensures NotedOnce(db.events, db.nextEventID, Appended(db, e, now).events, Appended(db, e, now).nextEventID, e, now)
    ensures Appended(db, e, now).runs == db.runs && Appended(db, e, now).operations == db.operations
  {
    if e.Some? {
      var j := Journal(db, e.value.runID);
      assert Journaled(j, e.value) <==> exists i | 0 <= i < |j| :: j[i].source == e.value.source && j[i].sourceID == e.value.sourceID;
    }
  }

  // ---- the store ------------------------------------------------------------------------------

  class Memory {
    var runs: map<string, Run>
    var operations: map<string, Operation>
    var events: map<string, seq<Event>>
    var nextEventID: nat

    function Contents(): Db
      reads this
    {
      Db(runs, operations, events, nextEventID)
    }

    constructor ()
      ensures Contents() == Db(map[], map[], map[], 0) && Valid(Contents())
    {
      runs, operations, events, nextEventID := map[], map[], map[], 0;
    }

    /** appendEventLocked. */
    method AppendEventLocked(event: Option<Event>, now: nat) returns (added: bool)
      modifies this
      ensures Contents() == Appended(old(Contents()), event, now)
      ensures NotedOnce(old(events), old(nextEventID), events, nextEventID, event, now) && runs == old(runs) && operations == old(operations)
      ensures added == (event.Some? && !Journaled(Journal(old(Contents()), event.value.runID), event.value))
    {
      AppendedNotes(Contents(), event, now);
      if event.None? {
        return false;
      }
      var e := event.value;
      var prior := if e.runID in events then events[e.runID] else [];
      for i := 0 to |prior|
        invariant !Journaled(prior[..i], e)
      {
        if prior[i].source == e.source && prior[i].sourceID == e.sourceID {
          assert SameKey(prior[i], e);
          return false;
        }
        assert forall k | 0 <= k < |prior[..i + 1]| :: prior[..i + 1][k] == prior[k] && (k < i ==> prior[..i][k] == prior[k]);
      }
      assert prior[..|prior|] == prior;
      nextEventID := nextEventID + 1;
      var stored := e.(id := nextEventID);
      if stored.createdAt == 0 {
        stored := stored.(createdAt := now);
      }
      events := events[e.runID := prior + [stored]];
      added := true;
    }

    method CreateRunWithOperation(run: Run, op: Operation, event: Option<Event>, now: nat) returns (r: Result<(), Error>)
      modifies this
      ensures match Created(old(Contents()), run, op, event, now)
              case Failure(e) => r == Failure(e) && Contents() == old(Contents())
              case Success(db) => r == Success(()) && Contents() == db
      ensures if run.id in old(runs) || op.id in old(operations) then r == Failure(Exists) && Contents() == old(Contents())
              else
                && r == Success(()) && runs == old(runs)[run.id := run] && NotedOnce(old(events), old(nextEventID), events, nextEventID, event, now)
                && op.id in operations && operations == old(operations)[op.id := operations[op.id]]
                && var at := if op.availableAt == 0 then now else op.availableAt;
                   var created := if op.createdAt == 0 then at else op.createdAt;
                   operations[op.id] == op.(state := if op.state == Unstated then Pending else op.state,
                                            availableAt := at, createdAt := created, updatedAt := created)
    {
      hide NotedOnce;
      if run.id in runs {
        return Failure(Exists);
      }
      if op.id in operations {
        return Failure(Exists);
      }
      runs := runs[run.id := run];
      var stored := op;
      if stored.state == Unstated {
        stored := stored.(state := Pending);
      }
      if stored.availableAt == 0 {
        stored := stored.(availableAt := now);
      }
      if stored.createdAt == 0 {
        stored := stored.(createdAt := stored.availableAt);
      }
      stored := stored.(updatedAt := stored.createdAt);
      operations := operations[op.id := stored];
      var _ := AppendEventLocked(event, now);
      r := Success(());
    }

    method CompleteOperation(worker: string, id: string, event: Option<Event>, now: nat) returns (r: Result<(), Error>)
      modifies this
      ensures match Acked(old(Contents()), worker, id, event, now)
              case Failure(e) => r == Failure(e) && Contents() == old(Contents())
              case Success(db) => r == Success(()) && Contents() == db
      ensures if !HeldBy(old(Contents()), worker, id) then r == Failure(LeaseLost) && Contents() == old(Contents())
              else
                && r == Success(()) && runs == old(runs) && NotedOnce(old(events), old(nextEventID), events, nextEventID, event, now)
                && LetGo(old(Contents()), Contents(), id, Completed, "", old(operations)[id].availableAt, now)
    {
      hide NotedOnce;
      if id !in operations || operations[id].state != Processing || operations[id].leaseOwner != worker {
        return Failure(LeaseLost);
      }
      var op := operations[id].(state := Completed, leaseOwner := "", leaseUntil := 0, lastError := "", updatedAt := now);
      operations := operations[id := op];
      var _ := AppendEventLocked(event, now);
      r := Success(());
    }

    method RetryOperation(worker: string, id: string, lastError: string, availableAt: nat, now: nat) returns (r: Result<(), Error>)
      modifies this
      ensures match Retried(old(Contents()), worker, id, lastError, availableAt, now)
              case Failure(e) => r == Failure(e) && Contents() == old(Contents())
              case Success(db) => r == Success(()) && Contents() == db
      ensures if !HeldBy(old(Contents()), worker, id) then r == Failure(LeaseLost) && Contents() == old(Contents())
              else
                && r == Success(()) && runs == old(runs) && events == old(events) && nextEventID == old(nextEventID)
                && LetGo(old(Contents()), Contents(), id, Pending, lastError, availableAt, now)
    {
      if id !in operations || operations[id].state != Processing || operations[id].leaseOwner != worker {
        return Failure(LeaseLost);
      }
      var op := operations[id].(state := Pending, availableAt := availableAt, leaseOwner := "", leaseUntil := 0,
                                lastError := lastError, updatedAt := now);
      operations := operations[id := op];
      r := Success(());
    }

    method FailOperation(worker: string, id: string, lastError: string, run: Run, event: Option<Event>, now: nat)
      returns (r: Result<(), Error>)
      modifies this
      ensures match GivenUp(old(Contents()), worker, id, lastError, run, event, now)
              case Failure(e) => r == Failure(e) && Contents() == old(Contents())
              case Success(db) => r == Success(()) && Contents() == db
      ensures if !HeldBy(old(Contents()), worker, id) then r == Failure(LeaseLost) && Contents() == old(Contents())
              else if run.id !in old(runs) then r == Failure(NotFound) && Contents() == old(Contents())
              else
                && r == Success(()) && runs == old(runs)[run.id := run] && NotedOnce(old(events), old(nextEventID), events, nextEventID, event, now)
                && LetGo(old(Contents()), Contents(), id, Failed, lastError, old(operations)[id].availableAt, now)
    {
      hide NotedOnce;
      if id !in operations || operations[id].state != Processing || operations[id].leaseOwner != worker {
        return Failure(LeaseLost);
      }
      if run.id !in runs {
        return Failure(NotFound);
      }
      runs := runs[run.id := run];
      var op := operations[id].(state := Failed, leaseOwner := "", leaseUntil := 0, lastError := lastError, updatedAt := now);
      operations := operations[id := op];
      var _ := AppendEventLocked(event, now);
      r := Success(());
    }

    method AppendRunEvent(event: Event, now: nat) returns (r: Result<bool, Error>)
      modifies this
      ensures match Ingested(old(Contents()), event, now)
              case Failure(e) => r == Failure(e) && Contents() == old(Contents())
              case Success(db) => r == Success(!Journaled(Journal(old(Contents()), event.runID), event)) && Contents() == db
      ensures if event.runID !in old(runs) then r == Failure(NotFound) && Contents() == old(Contents())
              else
                && r == Success(nextEventID > old(nextEventID)) && NotedOnce(old(events), old(nextEventID), events, nextEventID, Some(event), now)
                && runs == old(runs) && operations == old(operations)
    {
      if event.runID !in runs {
        return Failure(NotFound);
      }
      var added := AppendEventLocked(Some(event), now);
      r := Success(added);
    }

    method UpsertRunWithEvent(run: Run, event: Option<Event>, now: nat)
      modifies this
      ensures Contents() == Mirrored(old(Contents()), run, event, now)
      ensures runs == old(runs)[run.id := run] && operations == old(operations) && NotedOnce(old(events), old(nextEventID), events, nextEventID, event, now)
    {
      runs := runs[run.id := run];
      var _ := AppendEventLocked(event, now);
    }

    method GetRun(id: string) returns (r: Result<Run, Error>)
      ensures r == if id in runs then Success(runs[id]) else Failure(NotFound)
    {
      r := if id in runs then Success(runs[id]) else Failure(NotFound);
    }

    method ListRunEvents(runID: string, afterID: int, limit: int) returns (r: Result<seq<Event>, Error>)
      ensures r == if runID !in runs then Failure(NotFound)
                   else Success(Page(Journal(Contents(), runID), afterID, PageLimit(limit)))
      ensures r.Success? && Valid(Contents()) ==> IsPage(Journal(Contents(), runID), afterID, limit, r.value)
    {
      hide IsPage, Valid, Page, JournalOk;
      if runID !in runs {
        return Failure(NotFound);
      }
      if Valid(Contents()) {
        JournalIsOk(Contents(), runID);
        PageIsPage(Journal(Contents(), runID), afterID, limit, nextEventID);
      }
      var max := limit;
      if max <= 0 || max > 1000 {
        max := 200;
      }
      var out := TakePage(if runID in events then events[runID] else [], afterID, max);
      r := Success(out);
    }

    /** The loop of ListRunEvents. */
    method TakePage(journal: seq<Event>, afterID: int, max: nat) returns (out: seq<Event>)
      requires max > 0
      ensures out == Page(journal, afterID, max)
    {
      out := [];
      var i := 0;
      while i < |journal|
        invariant i <= |journal| && |out| < max
        invariant Page(journal, afterID, max) == out + Page(journal[i..], afterID, max - |out|)
      {
        assert journal[i..][1..] == journal[i + 1..];
        if journal[i].id > afterID {
          ghost var rest := Page(journal[i + 1..], afterID, max - |out| - 1);
          assert out + ([journal[i]] + rest) == (out + [journal[i]]) + rest;
          out := out + [journal[i]];
          if |out| == max {
            assert out + rest == out;
            return;
          }
        }
        i := i + 1;
      }
      assert journal[i..] == [] && out + [] == out;
    }

    /** The ready operations, in the map's own order. */
    method ReadyOperations(now: nat) returns (ready: seq<Operation>)
      requires Valid(Contents())
      ensures forall op | op in ready :: op.id in ReadyIds(Contents(), now) && op == operations[op.id]
      ensures forall id | id in ReadyIds(Contents(), now) :: operations[id] in ready
      ensures forall i, j | 0 <= i < j < |ready| :: ready[i].id != ready[j].id
    {
      ready := [];
      var rest := operations.Keys;
      while rest != {}
        invariant rest <= operations.Keys
        invariant forall op | op in ready :: op.id in ReadyIds(Contents(), now) && op == operations[op.id] && op.id !in rest
        invariant forall id | id in ReadyIds(Contents(), now) && id !in rest :: operations[id] in ready
        invariant forall i, j | 0 <= i < j < |ready| :: ready[i].id != ready[j].id
        decreases |rest|
      {
        var id :| id in rest;
        rest := rest - {id};
        var op := operations[id];
        var pending := op.state == Pending && op.availableAt <= now;
        var expired := op.state == Processing && op.leaseUntil <= now;
        if pending || expired {
          ready := ready + [op];
        }
      }
    }

    /** The loop of ClaimOperations over what it chose. */
    method TakeAll(ready: seq<Operation>, worker: string, lease: nat, now: nat) returns (out: seq<Operation>)
      requires Valid(Contents())
      requires forall op | op in ready :: op.id in operations && op == operations[op.id]
      requires forall j, k | 0 <= j < k < |ready| :: ready[j].id != ready[k].id
      modifies this
      ensures Contents() == Claimed(old(Contents()), IdSet(IdsOf(ready)), worker, lease, now)
      ensures |out| == |ready| && forall i | 0 <= i < |ready| :: out[i] == Taken(ready[i], worker, lease, now)
    {
      hide Claimed, IdSet, Valid;
      ghost var db, ids := Contents(), IdsOf(ready);
      out := [];
      NoneTaken(db, ids, worker, lease, now);
      for i := 0 to |ready|
        invariant Contents() == Claimed(db, IdSet(ids[..i]), worker, lease, now)
        invariant |out| == i && forall k | 0 <= k < i :: out[k] == Taken(ready[k], worker, lease, now)
      {
        NextTaken(db, ids, i, worker, lease, now);
        var op := operations[ready[i].id];
        op := op.(state := Processing, leaseOwner := worker, leaseUntil := now + lease, attempts := op.attempts + 1, updatedAt := now);
        operations := operations[op.id := op];
        out := out + [op];
      }
      assert ids[..|ready|] == ids;
    }

    /** ClaimOperations: the first of the ready operations in claim order, as many
        as asked for or there are, are taken and returned; no other is touched. */
    method ClaimOperations(worker: string, limit: int, lease: nat, now: nat) returns (out: seq<Operation>, ghost ids: seq<string>)
      requires Valid(Contents())
      modifies this
      ensures FirstReady(old(Contents()), limit, now, ids)
      ensures Contents() == Claimed(old(Contents()), IdSet(ids), worker, lease, now)
      ensures |out| == |ids| && forall i | 0 <= i < |ids| :: out[i] == Taken(old(operations)[ids[i]], worker, lease, now)
      ensures Handed(old(operations), operations, worker, limit, lease, now, out)
      ensures runs == old(runs) && events == old(events) && nextEventID == old(nextEventID)
    {
      hide Claimed, IdSet, Earlier, Taken, Valid, Handed, FirstReady;
      ghost var db := Contents();
      var max := if limit <= 0 then 1 else limit;
      var all := ReadyOperations(now);
      var ready := Sorted(all);
      SortedIsOrdered(all);
      ghost var n := Min(Limit(limit), |ready|);
      SortedPrefixIsFirst(db, limit, now, ready, n);
      if |ready| > max {
        ready := ready[..max];
      }
      assert ready == Sorted(all)[..n];
      ids := IdsOf(ready);
      FirstReadyDiffer(db, limit, now, ids);
      out := TakeAll(ready, worker, lease, now);
      ClaimHands(db, limit, worker, lease, now, ids, out);
    }
  }

  /** What a claim hands out and leaves: the first `limit` operations that may be
      claimed, one if that is not positive, all of them if there are fewer, in order;
      each leased to the worker for its next attempt; no other is touched. */
  ghost predicate Handed(before: map<string, Operation>, after: map<string, Operation>, worker: string, limit: int, lease: nat, now: nat,
                         out: seq<Operation>) {
    var due := set id | id in before && MayBeClaimed(before[id], now);
    && after.Keys == before.Keys && |out| == Min(if limit <= 0 then 1 else limit, |due|)
    && (forall i | 0 <= i < |out| ::
          && out[i].id in due && out[i].id in after && after[out[i].id] == out[i]
          && out[i] == before[out[i].id].(state := Processing, leaseOwner := worker, leaseUntil := now + lease,
                                          attempts := before[out[i].id].attempts + 1, updatedAt := now))
    && (forall i, j | 0 <= i < j < |out| :: out[i].id in before && out[j].id in before && ComesFirst(before[out[i].id], before[out[j].id]))
    && (forall id | id in due && (forall i | 0 <= i < |out| :: out[i].id != id) ::
          after[id] == before[id] && forall i | 0 <= i < |out| :: ComesFirst(before[out[i].id], before[id]))
    && (forall id | id in before && id !in due :: after[id] == before[id])
  }

  lemma ClaimHands(db: Db, limit: int, worker: string, lease: nat, now: nat, ids: seq<string>, out: seq<Operation>)
    requires Valid(db) && FirstReady(db, limit, now, ids)
    requires |out| == |ids| && forall i | 0 <= i < |ids| :: out[i] == Taken(db.operations[ids[i]], worker, lease, now)
    ensures Handed(db.operations, Claimed(db, IdSet(ids), worker, lease, now).operations, worker, limit, lease, now, out)
    ensures Claimed(db, IdSet(ids), worker, lease, now) == db.(operations := Claimed(db, IdSet(ids), worker, lease, now).operations)
  {
    hide JournalOk, Less;
    var after := Claimed(db, IdSet(ids), worker, lease, now).operations;
    var due := set id | id in db.operations && MayBeClaimed(db.operations[id], now);
    assert due == ReadyIds(db, now);
    forall i | 0 <= i < |out| ensures out[i].id == ids[i] && ids[i] in due && ids[i] in IdSet(ids) {
    }
  }

  lemma FirstReadyDiffer(db: Db, limit: int, now: nat, ids: seq<string>)
    requires FirstReady(db, limit, now, ids)
    ensures forall i, j | 0 <= i < j < |ids| :: ids[i] != ids[j]
  {
    hide Earlier;
    forall i, j | 0 <= i < j < |ids| ensures ids[i] != ids[j] {
      if ids[i] == ids[j] {
        EarlierIsStrict(db.operations[ids[i]]);
      }
    }
  }

  lemma NoneTaken(db: Db, ids: seq<string>, worker: string, lease: nat, now: nat)
    ensures Claimed(db, IdSet(ids[..0]), worker, lease, now) == db
  {
  }

  /** Taking one more of the claimed operations. */
  lemma NextTaken(db: Db, ids: seq<string>, i: nat, worker: string, lease: nat, now: nat)
    requires Valid(db) && i < |ids| && (forall k | 0 <= k < |ids| :: ids[k] in db.operations)
    requires forall j, k | 0 <= j < k < |ids| :: ids[j] != ids[k]
    ensures var before := Claimed(db, IdSet(ids[..i]), worker, lease, now);
            var op := db.operations[ids[i]];
            && ids[i] in before.operations && before.operations[ids[i]] == op && op.id == ids[i]
            && Claimed(db, IdSet(ids[..i + 1]), worker, lease, now)
            == before.(operations := before.operations[ids[i] := Taken(op, worker, lease, now)])
  {
    assert ids[..i + 1] == ids[..i] + [ids[i]];
    assert IdSet(ids[..i + 1]) == IdSet(ids[..i]) + {ids[i]};
  }
}
