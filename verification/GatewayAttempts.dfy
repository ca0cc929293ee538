/** Many attempts of one run deliver to one journal, each under the number of its
    generation (WREN_ATTEMPT of `internal/controller/pod.go`). */
module GatewayAttempts {
  import opened Basics
  import opened DurableStore
  import opened Gateway

  // ---- the keys of different attempts ---------------------------------------------------

  /** A key tells its attempt, as the names of attempts have no slash. */
  lemma PrefixTells(a: string, b: string, key: string)
    requires '/' !in a && '/' !in b && HasPrefix(key, Prefix(a)) && HasPrefix(key, Prefix(b))
    ensures a == b
  {
    var n, m := |a|, |b|;
    assert key[8 + n] == Prefix(a)[8 + n] == '/' && key[8 + m] == Prefix(b)[8 + m] == '/';
    assert forall i | 0 <= i < n :: key[8 + i] == Prefix(a)[8 + i] == a[i] != '/';
    assert forall i | 0 <= i < m :: key[8 + i] == Prefix(b)[8 + i] == b[i] != '/';
    assert n == m;
    assert a == key[8..8 + n] == b;
  }

  lemma PrefixesExclude(a: string, b: string, key: string)
    requires '/' !in a && '/' !in b && a != b
    ensures !(HasPrefix(key, Prefix(a)) && HasPrefix(key, Prefix(b)))
  {
    if HasPrefix(key, Prefix(a)) && HasPrefix(key, Prefix(b)) {
      PrefixTells(a, b, key);
    }
  }

  lemma SourceIDsDiffer(a: string, b: string, m: nat, n: nat)
    requires '/' !in a && '/' !in b && a != b
    ensures SourceID(a, m) != SourceID(b, n)
  {
    SourceIDIsInjective(a, m, m);
    SourceIDIsInjective(b, n, n);
    PrefixesExclude(a, b, SourceID(a, m));
  }

  lemma {:induction false} DecimalIsPlain(n: nat)
    ensures '/' !in Decimal(n)
  {
    if n >= 10 {
      DecimalIsPlain(n / 10);
    }
  }

  /** The events of one generation are not those of another. */
  lemma NotMine(g: nat, h: nat, e: Event)
    requires g != h && HasPrefix(e.sourceID, Prefix(Decimal(g)))
    ensures !Mine(Decimal(h), e)
  {
    DecimalIsPlain(g);
    DecimalIsPlain(h);
    DecimalIsInjective(g, h);
    PrefixesExclude(Decimal(g), Decimal(h), e.sourceID);
  }

  // ---- several attempts at once ------------------------------------------------------------

  /** What one attempt's pod has: its event file, its requests on the way, and where
      its gateway is. */
  datatype Local = Local(file: string, sent: set<Item>, reader: Reader)

  datatype Fleet = Fleet(db: Db, locals: map<nat, Local>)

  /** A step of the attempt of this generation, or an event from elsewhere. */
  datatype Move = By(g: nat, step: Step) | Elsewhere(e: Event, now: nat)

  function LocalOf(f: Fleet, g: nat): Local {
    if g in f.locals then f.locals[g] else Local("", {}, START)
  }

  function SystemOf(f: Fleet, g: nat): System {
    var l := LocalOf(f, g);
    System(l.file, f.db, l.sent, l.reader)
  }

  ghost predicate MayMove(decode: Decoder, runID: string, f: Fleet, m: Move) {
    match m
    case By(g, step) => !step.Other? && Possible(decode, Decimal(g), runID, SystemOf(f, g), step)
    case Elsewhere(e, _) => e.source != "gateway" || e.runID != runID
  }

  function Moved(decode: Decoder, runID: string, f: Fleet, m: Move): Fleet {
    match m
    case By(g, step) =>
      var s := Next(decode, Decimal(g), runID, SystemOf(f, g), step);
      Fleet(s.db, f.locals[g := Local(s.file, s.sent, s.reader)])
    case Elsewhere(e, now) => f.(db := Appended(f.db, Some(e), now))
  }

  ghost predicate AllSound(decode: Decoder, runID: string, f: Fleet) {
    forall g: nat :: Sound(decode, Decimal(g), runID, SystemOf(f, g))
  }

  /** Soundness looks at the journal only for what this attempt has delivered. */
  lemma SoundElsewhere(decode: Decoder, attempt: string, runID: string, s: System, db: Db)
    requires Sound(decode, attempt, runID, s) && Delivered(attempt, Journal(db, runID)) == Delivered(attempt, Journal(s.db, runID))
    ensures Sound(decode, attempt, runID, s.(db := db))
  {
    hide Due, ReaderOk, Delivered, Journal;
  }

  /** A step of one attempt changes nothing of what another has delivered. */
  lemma AttemptsKeepApart(decode: Decoder, runID: string, f: Fleet, m: Move, h: nat)
    requires AllSound(decode, runID, f) && MayMove(decode, runID, f, m) && (m.By? ==> m.g != h)
    ensures Delivered(Decimal(h), Journal(Moved(decode, runID, f, m).db, runID)) == Delivered(Decimal(h), Journal(f.db, runID))
  {
    hide Delivered, Appended, Due, Decimal, ReaderOk, Mine, Prefix;
    match m {
      case By(g, step) =>
        if step.Arrive? && Posted(f.db, runID, step.item, step.at).Some? {
          var s := SystemOf(f, g);
          assert Sound(decode, Decimal(g), runID, s);
          var d := Delivered(Decimal(g), Journal(s.db, runID));
          var i :| 0 <= i <= |d| && i < |Due(decode, Decimal(g), s.file)| && step.item == Due(decode, Decimal(g), s.file)[i];
          DueKey(decode, Decimal(g), s.file, i);
          NotMine(g, h, EventOf(runID, step.item, step.at));
          OthersDeliverNothing(f.db, runID, Decimal(h), EventOf(runID, step.item, step.at), step.at);
        }
      case Elsewhere(e, now) =>
        if e.runID == runID {
          NoGatewayEvent(Decimal(h), e);
          OthersDeliverNothing(f.db, runID, Decimal(h), e, now);
        } else {
          AnotherJournal(f.db, runID, e, now);
        }
    }
  }

  lemma NoGatewayEvent(attempt: string, e: Event)
    requires e.source != "gateway"
    ensures !Mine(attempt, e)
  {
  }

  lemma AnotherJournal(db: Db, runID: string, e: Event, now: nat)
    requires e.runID != runID
    ensures Journal(Appended(db, Some(e), now), runID) == Journal(db, runID)
  {
  }

  lemma SoundMove(decode: Decoder, runID: string, f: Fleet, m: Move)
    requires AllSound(decode, runID, f) && MayMove(decode, runID, f, m)
    ensures AllSound(decode, runID, Moved(decode, runID, f, m))
  {
    hide Sound, Possible, Next, Delivered, Journal, Appended, Decimal;
    var f' := Moved(decode, runID, f, m);
    forall h: nat ensures Sound(decode, Decimal(h), runID, SystemOf(f', h)) {
      if m.By? && m.g == h {
        SoundStep(decode, Decimal(h), runID, SystemOf(f, h), m.step);
      } else {
        AttemptsKeepApart(decode, runID, f, m, h);
        SoundElsewhere(decode, Decimal(h), runID, SystemOf(f, h), f'.db);
      }
    }
  }

  ghost predicate Voyage(decode: Decoder, runID: string, f: Fleet, ms: seq<Move>)
    decreases |ms|
  {
    ms == [] || (MayMove(decode, runID, f, ms[0]) && Voyage(decode, runID, Moved(decode, runID, f, ms[0]), ms[1..]))
  }

  function AfterMoves(decode: Decoder, runID: string, f: Fleet, ms: seq<Move>): Fleet
    decreases |ms|
  {
    if ms == [] then f else AfterMoves(decode, runID, Moved(decode, runID, f, ms[0]), ms[1..])
  }

  lemma {:induction false} SoundVoyage(decode: Decoder, runID: string, f: Fleet, ms: seq<Move>)
    requires AllSound(decode, runID, f) && Voyage(decode, runID, f, ms)
    ensures AllSound(decode, runID, AfterMoves(decode, runID, f, ms))
    decreases |ms|
  {
    hide AllSound, MayMove, Moved;
    if ms != [] {
      SoundMove(decode, runID, f, ms[0]);
      SoundVoyage(decode, runID, Moved(decode, runID, f, ms[0]), ms[1..]);
    }
  }

  lemma {:induction false} NothingDelivered(attempt: string, journal: seq<Event>)
    requires forall i | 0 <= i < |journal| :: journal[i].source != "gateway"
    ensures Delivered(attempt, journal) == []
    decreases |journal|
  {
    if journal != [] {
      NothingDelivered(attempt, journal[..|journal| - 1]);
    }
  }

  lemma StartIsSound(decode: Decoder, runID: string, db: Db)
    requires forall i | 0 <= i < |Journal(db, runID)| :: Journal(db, runID)[i].source != "gateway"
    ensures AllSound(decode, runID, Fleet(db, map[]))
  {
    hide Delivered, Decimal, Due, ReaderOk;
    forall g: nat ensures Sound(decode, Decimal(g), runID, SystemOf(Fleet(db, map[]), g)) {
      NothingDelivered(Decimal(g), Journal(db, runID));
      StartIsOk(decode, Decimal(g), "", 0);
    }
  }

  /** From a journal no gateway has written to, however many attempts of the run
      deliver, at once or one after the other, whatever is lost, repeated or late: of
      every attempt the journal holds exactly a beginning of its own well-formed
      lines, in order; and nothing yet of one that has not begun. */
  lemma EachAttemptInOrder(decode: Decoder, runID: string, db: Db, ms: seq<Move>, g: nat)
    requires forall i | 0 <= i < |Journal(db, runID)| :: Journal(db, runID)[i].source != "gateway"
    requires Voyage(decode, runID, Fleet(db, map[]), ms)
    ensures var f := AfterMoves(decode, runID, Fleet(db, map[]), ms);
            && Delivered(Decimal(g), Journal(f.db, runID)) <= Due(decode, Decimal(g), LocalOf(f, g).file)
            && (g !in f.locals ==> Delivered(Decimal(g), Journal(f.db, runID)) == [])
  {
    hide Delivered, Journal, Decimal, ReaderOk, Voyage, AfterMoves, Due;
    StartIsSound(decode, runID, db);
    SoundVoyage(decode, runID, Fleet(db, map[]), ms);
    var f := AfterMoves(decode, runID, Fleet(db, map[]), ms);
    assert Sound(decode, Decimal(g), runID, SystemOf(f, g));
    NothingIsDue(decode, Decimal(g));
  }

  lemma NothingIsDue(decode: Decoder, attempt: string)
    ensures Due(decode, attempt, "") == []
  {
  }
}
