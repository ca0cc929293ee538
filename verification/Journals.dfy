/** Reading a journal page by page while it grows. */
module Journals {
  import opened Basics
  import opened DurableStore
  import opened Leases

  /** The cursor of a reader that has the first k events. */
  function Cursor(journal: seq<Event>, k: nat): int
    requires k <= |journal|
  {
    if k == 0 then 0 else journal[k - 1].id
  }

  lemma {:induction false} PageFrom(journal: seq<Event>, i: nat, k: nat, last: nat, limit: nat)
    requires JournalOk(journal, last) && i <= k <= |journal|
    ensures Page(journal[i..], Cursor(journal, k), limit) == journal[k..Min(k + limit, |journal|)]
    decreases |journal| - i, limit
  {
    hide SameKey;
    var rest := journal[i..];
    if rest != [] && limit > 0 {
      assert rest[1..] == journal[i + 1..];
      if i < k {
        PageFrom(journal, i + 1, k, last, limit);
      } else {
        NextPage(journal, k, last, limit - 1);
      }
    }
  }

  /** Past the cursor every event counts. */
  lemma {:induction false} NextPage(journal: seq<Event>, k: nat, last: nat, limit: nat)
    requires JournalOk(journal, last) && k < |journal|
    ensures Page(journal[k..], Cursor(journal, k), limit + 1) == journal[k..Min(k + limit + 1, |journal|)]
    decreases limit
  {
    hide SameKey;
    Unread(journal, k, k, last, limit + 1);
  }

  lemma {:induction false} Unread(journal: seq<Event>, k: nat, i: nat, last: nat, limit: nat)
    requires JournalOk(journal, last) && k <= i <= |journal|
    ensures Page(journal[i..], Cursor(journal, k), limit) == journal[i..Min(i + limit, |journal|)]
    decreases limit
  {
    hide SameKey;
    if i < |journal| && limit > 0 {
      assert journal[i..][1..] == journal[i + 1..];
      assert journal[i].id > Cursor(journal, k);
      Unread(journal, k, i + 1, last, limit - 1);
    }
  }

  /** A journal as successive readers find it: it only grows at the end. */
  ghost predicate Growing(journals: seq<seq<Event>>, last: nat) {
    && (forall i | 0 <= i < |journals| :: JournalOk(journals[i], last))
    && (forall i, j | 0 <= i < j < |journals| :: journals[i] <= journals[j])
  }

  /** A reader that asks for one page after the other, each time with the id of the
      last event it got, or 0 before the first. */
  function Read(journals: seq<seq<Event>>, limits: seq<int>): (got: seq<Event>)
    requires |limits| == |journals|
    decreases |journals|
  {
    if journals == [] then []
    else
      var n := |journals| - 1;
      var got := Read(journals[..n], limits[..n]);
      got + Page(journals[n], if got == [] then 0 else got[|got| - 1].id, PageLimit(limits[n]))
  }

  /** With any limits and any appends in between, what was read is the beginning of
      the journal, without gap or repeat; each page is full unless it reaches the
      end. */
  lemma {:induction false} PagingIsExact(journals: seq<seq<Event>>, limits: seq<int>, last: nat)
    requires |limits| == |journals| && journals != [] && Growing(journals, last)
    ensures var n := |journals| - 1;
            var before, got, journal := Read(journals[..n], limits[..n]), Read(journals, limits), journals[n];
            && before <= got <= journal
            && (|got| - |before| == PageLimit(limits[n]) || got == journal)
    decreases |journals|
  {
    hide JournalOk, Page, Growing;
    var n := |journals| - 1;
    var before := Read(journals[..n], limits[..n]);
    GrowingSoFar(journals, last);
    if n > 0 {
      PagingIsExact(journals[..n], limits[..n], last);
    }
    OnePage(before, journals[n], last, PageLimit(limits[n]));
  }

  lemma GrowingSoFar(journals: seq<seq<Event>>, last: nat)
    requires journals != [] && Growing(journals, last)
    ensures var n := |journals| - 1;
            Growing(journals[..n], last) && JournalOk(journals[n], last) && (n > 0 ==> journals[..n][n - 1] <= journals[n])
  {
    hide JournalOk;
  }

  /** One more page after the first events of a journal. */
  lemma OnePage(before: seq<Event>, journal: seq<Event>, last: nat, limit: nat)
    requires JournalOk(journal, last) && before <= journal
    ensures var got := before + Page(journal, if before == [] then 0 else before[|before| - 1].id, limit);
            got <= journal && (|got| - |before| == limit || got == journal)
  {
    hide JournalOk;
    PageFrom(journal, 0, |before|, last, limit);
    assert journal[0..] == journal;
    assert before == journal[..|before|];
  }

  // ---- the journals of a history of the store -------------------------------------------

  /** No call reorders, repeats or rewrites what is journaled. */
  lemma JournalsAfter(db: Db, t: Timed)
    requires Valid(db)
    ensures Valid(After(db, t)) && forall r :: Journal(db, r) <= Journal(After(db, t), r)
  {
    hide Valid, Appended, Journaled;
    match t.call {
      case Create(run, op, e) =>
        if run.id !in db.runs && op.id !in db.operations {
          CreateAppends(db, run, op, e, t.now);
        }
      case Claim(worker, _, lease, ids) => ClaimKeepsJournals(db, IdSet(ids), worker, lease, t.now);
      case Complete(worker, id, e) =>
        if Holds(db, worker, id) {
          AppendsTo(db, db.runs, db.operations[id := Released(db.operations[id], Completed, "", t.now)], e, t.now);
        }
      case Retry(worker, id, lastError, at) =>
        if Holds(db, worker, id) {
          AppendsTo(db, db.runs, After(db, t).operations, None, t.now);
          AppendNothing(After(db, t), t.now);
        }
      case Fail(worker, id, lastError, run, e) =>
        if Holds(db, worker, id) && run.id in db.runs {
          AppendsTo(db, db.runs[run.id := run], db.operations[id := Released(db.operations[id], Failed, lastError, t.now)], e, t.now);
        }
      case Append(e) => AppendsTo(db, db.runs, db.operations, Some(e), t.now);
      case Upsert(run, e) => AppendsTo(db, db.runs[run.id := run], db.operations, e, t.now);
    }
  }

  lemma AppendNothing(db: Db, now: nat)
    ensures Appended(db, None, now) == db
  {
  }

  /** An append after the records and operations changed. */
  lemma AppendsTo(db: Db, runs: map<string, Run>, operations: map<string, Operation>, e: Option<Event>, now: nat)
    requires Valid(db)
    ensures var db' := Appended(db.(runs := runs, operations := operations), e, now);
            (OwnIds(operations) ==> Valid(db')) && forall r :: Journal(db, r) <= Journal(db', r)
    ensures Valid(db) ==> OwnIds(db.operations)
    ensures forall id, op: Operation | id in db.operations && op.id == id :: OwnIds(db.operations[id := op])
  {
    hide JournalOk, Journaled, SameKey;
    var db1 := db.(runs := runs, operations := db.operations);
    assert Valid(db1);
    AppendKeepsJournals(db1, e, now);
    assert Appended(db.(runs := runs, operations := operations), e, now) == Appended(db1, e, now).(operations := operations);
  }

  predicate OwnIds(operations: map<string, Operation>) {
    forall id | id in operations :: operations[id].id == id
  }

  lemma CreateAppends(db: Db, run: Run, op: Operation, e: Option<Event>, now: nat)
    requires Valid(db) && run.id !in db.runs && op.id !in db.operations
    ensures var db' := Created(db, run, op, e, now);
            db'.Success? && Valid(db'.value) && forall r :: Journal(db, r) <= Journal(db'.value, r)
  {
    hide JournalOk, Journaled, SameKey, Appended;
    var stored := StoredOf(op, now);
    var operations := db.operations[op.id := stored];
    AppendsTo(db, db.runs[run.id := run], operations, e, now);
    assert OwnIds(operations);
  }

  /** The operation CreateRunWithOperation stores. */
  function StoredOf(op: Operation, now: nat): (stored: Operation)
    ensures stored.id == op.id
  {
    var op1 := if op.state == Unstated then op.(state := Pending) else op;
    var op2 := if op1.availableAt == 0 then op1.(availableAt := now) else op1;
    var op3 := if op2.createdAt == 0 then op2.(createdAt := op2.availableAt) else op2;
    op3.(updatedAt := op3.createdAt)
  }

  lemma ClaimKeepsJournals(db: Db, ids: set<string>, worker: string, lease: nat, now: nat)
    requires Valid(db)
    ensures Valid(Claimed(db, ids, worker, lease, now)) && Claimed(db, ids, worker, lease, now).events == db.events
  {
    hide JournalOk;
  }

  /** The journal of a run as it stands after each of these batches of calls. */
  function JournalsOver(db: Db, r: string, batches: seq<seq<Timed>>): (journals: seq<seq<Event>>)
    ensures |journals| == |batches|
    decreases |batches|
  {
    if batches == [] then []
    else
      var db' := AfterAll(db, batches[0]);
      [Journal(db', r)] + JournalsOver(db', r, batches[1..])
  }

  lemma {:induction false} JournalsAfterAll(db: Db, ts: seq<Timed>)
    requires Valid(db)
    ensures Valid(AfterAll(db, ts)) && forall r :: Journal(db, r) <= Journal(AfterAll(db, ts), r)
    ensures db.nextEventID <= AfterAll(db, ts).nextEventID
    decreases |ts|
  {
    hide Valid, After;
    if ts != [] {
      JournalsAfter(db, ts[0]);
      IdsGrow(db, ts[0]);
      JournalsAfterAll(After(db, ts[0]), ts[1..]);
    }
  }

  lemma IdsGrow(db: Db, t: Timed)
    ensures db.nextEventID <= After(db, t).nextEventID
  {
    hide Journaled;
  }

  function LastDb(db: Db, batches: seq<seq<Timed>>): Db
    decreases |batches|
  {
    if batches == [] then db else LastDb(AfterAll(db, batches[0]), batches[1..])
  }

  lemma {:induction false} JournalsOverGrow(db: Db, r: string, batches: seq<seq<Timed>>)
    requires Valid(db)
    ensures var journals := JournalsOver(db, r, batches);
            && Growing(journals, LastDb(db, batches).nextEventID)
            && (forall i | 0 <= i < |journals| :: Journal(db, r) <= journals[i])
            && db.nextEventID <= LastDb(db, batches).nextEventID
    decreases |batches|
  {
    hide Valid, JournalOk, Journal;
    if batches != [] {
      var db' := AfterAll(db, batches[0]);
      JournalsAfterAll(db, batches[0]);
      JournalsOverGrow(db', r, batches[1..]);
      JournalOkUpTo(db', r, LastDb(db, batches).nextEventID);
      var rest := JournalsOver(db', r, batches[1..]);
      var journals := JournalsOver(db, r, batches);
      forall i, j | 0 <= i < j < |journals| ensures journals[i] <= journals[j] {
        assert journals[j] == rest[j - 1] && (i > 0 ==> journals[i] == rest[i - 1]);
      }
    }
  }

  lemma JournalOkUpTo(db: Db, r: string, last: nat)
    requires Valid(db) && db.nextEventID <= last
    ensures JournalOk(Journal(db, r), last)
  {
    hide SameKey;
    JournalIsOk(db, r);
  }

  /** However the store is used between the pages: a reader that keeps asking from
      the last id it got reads the journal from its first event, in order, without
      gap or repeat, and is up to date whenever a page is not full. */
  lemma ReaderSeesTheJournal(db: Db, r: string, batches: seq<seq<Timed>>, limits: seq<int>)
    requires Valid(db) && batches != [] && |limits| == |batches|
    ensures var journals := JournalsOver(db, r, batches);
            var n := |journals| - 1;
            var before, got := Read(journals[..n], limits[..n]), Read(journals, limits);
            && before <= got <= journals[n]
            && (|got| - |before| == (if limits[n] <= 0 || limits[n] > 1000 then 200 else limits[n]) || got == journals[n])
  {
    hide Valid, JournalOk, Journal;
    JournalsOverGrow(db, r, batches);
    PagingIsExact(JournalsOver(db, r, batches), limits, LastDb(db, batches).nextEventID);
  }
}
