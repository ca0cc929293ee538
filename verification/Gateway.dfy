/** `internal/podruntime/gateway.go` with the control plane's side of it
    (`AppendGatewayEvent` of `internal/coreapi/service.go`): the harness event file
    is replayed from its first line, and the journal takes each line once. */
module Gateway {
  import opened Basics
  import opened DurableStore

  /** A line that decodes as an event: its type and its trimmed bytes. */
  datatype Parsed = Parsed(kind: string, payload: string)

  /** The decoder of event lines; which lines are well formed is left open. */
  type Decoder = string -> Option<Parsed>

  /** One request to the control plane. */
  datatype Item = Item(sourceID: string, kind: string, payload: string)

  // ---- lines ------------------------------------------------------------------------

  /** The complete lines of what was written so far, each with its newline. */
  function Lines(s: string): seq<string> {
    LinesFrom("", s)
  }

  /** The lines of s when a fragment of the first one was already read. */
  function LinesFrom(fragment: string, s: string): seq<string>
    decreases |s|
  {
    if s == "" then []
    else if s[0] == '\n' then [fragment + [s[0]]] + LinesFrom("", s[1..])
    else LinesFrom(fragment + [s[0]], s[1..])
  }

  /** What follows the last newline. */
  function Rest(fragment: string, s: string): string
    decreases |s|
  {
    if s == "" then fragment
    else if s[0] == '\n' then Rest("", s[1..])
    else Rest(fragment + [s[0]], s[1..])
  }

  lemma {:induction false} LinesThen(fragment: string, s: string, more: string)
    ensures LinesFrom(fragment, s + more) == LinesFrom(fragment, s) + LinesFrom(Rest(fragment, s), more)
    ensures Rest(fragment, s + more) == Rest(Rest(fragment, s), more)
    decreases |s|
  {
    if s == "" {
      assert s + more == more;
    } else {
      assert (s + more)[1..] == s[1..] + more;
      LinesThen(if s[0] == '\n' then "" else fragment + [s[0]], s[1..], more);
    }
  }

  /** A read that stops at the first newline or at the end of what is there. */
  predicate OneRead(part: string) {
    forall i | 0 <= i < |part| - 1 :: part[i] != '\n'
  }

  predicate EndsLine(part: string) {
    part != "" && part[|part| - 1] == '\n'
  }

  lemma {:induction false} ReadPart(fragment: string, part: string)
    requires OneRead(part)
    ensures LinesFrom(fragment, part) == if EndsLine(part) then [fragment + part] else []
    ensures Rest(fragment, part) == if EndsLine(part) then "" else fragment + part
    decreases |part|
  {
    if part == "" {
      assert fragment + part == fragment;
    } else {
      assert fragment + [part[0]] + part[1..] == fragment + part;
      if part[0] != '\n' {
        assert forall i | 0 <= i < |part[1..]| - 1 :: part[1..][i] == part[i + 1];
        ReadPart(fragment + [part[0]], part[1..]);
      } else {
        assert part == [part[0]];
      }
    }
  }

  // ---- the idempotency key --------------------------------------------------------------

  function Decimal(n: nat): (s: string)
    ensures s != ""
  {
    if n < 10 then ["0123456789"[n]] else Decimal(n / 10) + ["0123456789"[n % 10]]
  }

  lemma {:induction false} DecimalIsInjective(m: nat, n: nat)
    ensures Decimal(m) == Decimal(n) ==> m == n
  {
    var a, b := Decimal(m), Decimal(n);
    if a == b {
      LastDigit(m);
      LastDigit(n);
      if m >= 10 && n >= 10 {
        assert a[..|a| - 1] == b[..|b| - 1];
        DecimalIsInjective(m / 10, n / 10);
      }
    }
  }

  lemma LastDigit(n: nat)
    ensures var s := Decimal(n);
            && s[|s| - 1] == "0123456789"[n % 10]
            && (n >= 10 ==> |s| > 1 && s[..|s| - 1] == Decimal(n / 10))
            && (n < 10 ==> |s| == 1)
    ensures forall i: nat, j: nat | i < 10 && j < 10 :: "0123456789"[i] == "0123456789"[j] ==> i == j
  {
  }

  function Prefix(attempt: string): string {
    "attempt-" + attempt + "/"
  }

  function SourceID(attempt: string, sequence: nat): string {
    Prefix(attempt) + Decimal(sequence)
  }

  lemma SourceIDIsInjective(attempt: string, m: nat, n: nat)
    ensures SourceID(attempt, m) == SourceID(attempt, n) ==> m == n
    ensures HasPrefix(SourceID(attempt, m), Prefix(attempt))
  {
    var p := |Prefix(attempt)|;
    assert SourceID(attempt, m)[p..] == Decimal(m) && SourceID(attempt, n)[p..] == Decimal(n);
    DecimalIsInjective(m, n);
  }

  // ---- what is to be delivered -------------------------------------------------------------

  /** The requests for these lines, the first of which has number `first`: one for
      each well-formed line, under that line's own number. */
  function Items(decode: Decoder, attempt: string, lines: seq<string>, first: nat): seq<Item>
    decreases |lines|
  {
    if lines == [] then []
    else
      var p := decode(lines[0]);
      (if p.Some? then [Item(SourceID(attempt, first), p.value.kind, p.value.payload)] else [])
      + Items(decode, attempt, lines[1..], first + 1)
  }

  lemma {:induction false} ItemsThen(decode: Decoder, attempt: string, lines: seq<string>, more: seq<string>, first: nat)
    ensures Items(decode, attempt, lines + more, first)
         == Items(decode, attempt, lines, first) + Items(decode, attempt, more, first + |lines|)
    decreases |lines|
  {
    if lines == [] {
      assert lines + more == more;
    } else {
      assert (lines + more)[1..] == lines[1..] + more;
      ItemsThen(decode, attempt, lines[1..], more, first + 1);
    }
  }

  /** The request for line n of these, the first of which has number `first`. */
  predicate IsFor(decode: Decoder, attempt: string, lines: seq<string>, first: nat, item: Item, n: nat) {
    && first <= n < first + |lines| && decode(lines[n - first]).Some?
    && item == Item(SourceID(attempt, n), decode(lines[n - first]).value.kind, decode(lines[n - first]).value.payload)
  }

  /** Every request is for a well-formed line, under that line's own number. */
  lemma {:induction false} ItemIsForItsLine(decode: Decoder, attempt: string, lines: seq<string>, first: nat, i: nat) returns (n: nat)
    requires i < |Items(decode, attempt, lines, first)|
    ensures IsFor(decode, attempt, lines, first, Items(decode, attempt, lines, first)[i], n)
    decreases |lines|
  {
    hide SourceID;
    var rest := Items(decode, attempt, lines[1..], first + 1);
    if decode(lines[0]).Some? && i == 0 {
      n := first;
    } else {
      var k := if decode(lines[0]).Some? then i - 1 else i;
      assert Items(decode, attempt, lines, first)[i] == rest[k];
      n := ItemIsForItsLine(decode, attempt, lines[1..], first + 1, k);
      assert lines[1..][n - (first + 1)] == lines[n - first];
    }
  }

  /** And every well-formed line has its request. */
  lemma {:induction false} LineHasItsItem(decode: Decoder, attempt: string, lines: seq<string>, first: nat, n: nat) returns (i: nat)
    requires first <= n < first + |lines| && decode(lines[n - first]).Some?
    ensures i < |Items(decode, attempt, lines, first)| && IsFor(decode, attempt, lines, first, Items(decode, attempt, lines, first)[i], n)
    decreases |lines|
  {
    hide SourceID;
    if n == first {
      i := 0;
    } else {
      assert lines[1..][n - (first + 1)] == lines[n - first];
      var k := LineHasItsItem(decode, attempt, lines[1..], first + 1, n);
      i := if decode(lines[0]).Some? then k + 1 else k;
      assert Items(decode, attempt, lines, first)[i] == Items(decode, attempt, lines[1..], first + 1)[k];
    }
  }

  /** No two requests share a key. */
  lemma {:induction false} ItemsDiffer(decode: Decoder, attempt: string, lines: seq<string>, first: nat, i: nat, j: nat)
    requires i < j < |Items(decode, attempt, lines, first)|
    ensures Items(decode, attempt, lines, first)[i].sourceID != Items(decode, attempt, lines, first)[j].sourceID
    decreases |lines|
  {
    hide SourceID;
    var items, rest := Items(decode, attempt, lines, first), Items(decode, attempt, lines[1..], first + 1);
    if decode(lines[0]).Some? {
      assert items[j] == rest[j - 1] && (i > 0 ==> items[i] == rest[i - 1]);
      if i == 0 {
        var n := ItemIsForItsLine(decode, attempt, lines[1..], first + 1, j - 1);
        SourceIDIsInjective(attempt, first, n);
      } else {
        ItemsDiffer(decode, attempt, lines[1..], first + 1, i - 1, j - 1);
      }
    } else {
      assert items == rest;
      ItemsDiffer(decode, attempt, lines[1..], first + 1, i, j);
    }
  }

  // ---- the journal of one attempt --------------------------------------------------------------

  predicate Mine(attempt: string, e: Event) {
    e.source == "gateway" && HasPrefix(e.sourceID, Prefix(attempt))
  }

  /** What the journal holds of this attempt, in its order. */
  function Delivered(attempt: string, journal: seq<Event>): seq<Item>
    decreases |journal|
  {
    if journal == [] then []
    else
      var n := |journal| - 1;
      Delivered(attempt, journal[..n]) +
      (if Mine(attempt, journal[n]) then [Item(journal[n].sourceID, journal[n].kind, journal[n].payload)] else [])
  }

  /** Unicode's white space, which Go's strings.TrimSpace takes off. */
  predicate IsSpace(c: char) {
    || c in {' ', '\t', '\n', '\U{0B}', '\U{0C}', '\r', '\U{85}', '\U{A0}', '\U{1680}'}
    || '\U{2000}' <= c <= '\U{200A}'
    || c in {'\U{2028}', '\U{2029}', '\U{202F}', '\U{205F}', '\U{3000}'}
  }

  /** Nothing is left once the white space is off. */
  predicate Blank(s: string) {
    forall i | 0 <= i < |s| :: IsSpace(s[i])
  }

  function EventOf(runID: string, item: Item, at: nat): Event {
    Event(0, runID, "gateway", item.sourceID, item.kind, item.payload, at)
  }

  /** AppendGatewayEvent: None is the refusal of a request without id or type, or for
      an unknown run. */
  function Posted(db: Db, runID: string, item: Item, at: nat): Option<Db> {
    if Blank(item.sourceID) || Blank(item.kind) || runID !in db.runs then None
    else Some(Appended(db, Some(EventOf(runID, item, at)), at))
  }

  lemma {:induction false} DeliveredKeys(attempt: string, journal: seq<Event>, e: Event)
    requires Mine(attempt, e)
    ensures Journaled(journal, e) <==> exists i | 0 <= i < |Delivered(attempt, journal)| :: Delivered(attempt, journal)[i].sourceID == e.sourceID
    decreases |journal|
  {
    if journal != [] {
      var n := |journal| - 1;
      var d, d' := Delivered(attempt, journal[..n]), Delivered(attempt, journal);
      DeliveredKeys(attempt, journal[..n], e);
      assert forall i | 0 <= i < |d| :: d'[i] == d[i];
      if Journaled(journal, e) {
        var k :| 0 <= k < |journal| && SameKey(journal[k], e);
        if k == n {
          assert d'[|d|].sourceID == e.sourceID;
        } else {
          assert SameKey(journal[..n][k], e);
        }
      }
      if i :| 0 <= i < |d'| && d'[i].sourceID == e.sourceID {
        if i < |d| {
          var k :| 0 <= k < n && SameKey(journal[..n][k], e);
          assert SameKey(journal[k], e);
        } else {
          assert SameKey(journal[n], e);
        }
      }
    }
  }

  /** Posting an item of this attempt adds it at the end unless its key is there. */
  lemma PostDelivers(db: Db, runID: string, attempt: string, item: Item, at: nat)
    requires Posted(db, runID, item, at).Some? && HasPrefix(item.sourceID, Prefix(attempt))
    ensures var d, d' := Delivered(attempt, Journal(db, runID)), Delivered(attempt, Journal(Posted(db, runID, item, at).value, runID));
            if exists i | 0 <= i < |d| :: d[i].sourceID == item.sourceID then d' == d else d' == d + [item]
  {
    hide Journaled;
    var e := EventOf(runID, item, at);
    var j := Journal(db, runID);
    DeliveredKeys(attempt, j, e);
    if !Journaled(j, e) {
      var j' := Journal(Posted(db, runID, item, at).value, runID);
      assert j'[..|j|] == j;
    }
  }

  // ---- the system ---------------------------------------------------------------------------------

  /** Where the gateway process is in the file: the bytes it read, the fragment of
      a line it has, the lines it completed, and the request it waits for. */
  datatype Reader = Reader(read: nat, fragment: string, sequence: nat, awaiting: Option<Item>)

  const START := Reader(0, "", 0, None)

  /** `sent` are the requests on the way: any may arrive at any later time, and more
      than once. */
  datatype System = System(file: string, db: Db, sent: set<Item>, reader: Reader)

  datatype Step =
    | Write(bytes: string)
    | Read(part: string)
    | Send
    | Arrive(item: Item, at: nat)
    | Acknowledge
    | Restart
    | Other(e: Event, now: nat)

  /** `attempt` and `runID` are the gateway's own; other writers of the journal do
      not use this attempt's keys. */
  ghost predicate Possible(decode: Decoder, attempt: string, runID: string, s: System, t: Step) {
    match t
    case Write(_) => true
    case Read(part) => s.reader.awaiting.None? && part != "" && OneRead(part) && part <= s.file[Min(s.reader.read, |s.file|)..]
    case Send => s.reader.awaiting.Some?
    case Arrive(item, _) => item in s.sent
    case Acknowledge =>
      && s.reader.awaiting.Some?
      && exists i | 0 <= i < |Delivered(attempt, Journal(s.db, runID))| ::
           Delivered(attempt, Journal(s.db, runID))[i].sourceID == s.reader.awaiting.value.sourceID
    case Restart => true
    case Other(e, _) => !Mine(attempt, e)
  }

  /** The fragment is complete: count the line, and wait for its delivery if it is
      well formed. */
  function Completed(decode: Decoder, attempt: string, r: Reader, part: string): Reader {
    var fragment := r.fragment + part;
    if !EndsLine(part) then r.(read := r.read + |part|, fragment := fragment)
    else
      var p := decode(fragment);
      Reader(r.read + |part|, "", r.sequence + 1,
             if p.Some? then Some(Item(SourceID(attempt, r.sequence + 1), p.value.kind, p.value.payload)) else None)
  }

  function Next(decode: Decoder, attempt: string, runID: string, s: System, t: Step): System {
    match t
    case Write(bytes) => s.(file := s.file + bytes)
    case Read(part) => s.(reader := Completed(decode, attempt, s.reader, part))
    case Send => if s.reader.awaiting.Some? then s.(sent := s.sent + {s.reader.awaiting.value}) else s
    case Arrive(item, at) =>
      var posted := Posted(s.db, runID, item, at);
      if posted.Some? then s.(db := posted.value) else s
    case Acknowledge => s.(reader := s.reader.(awaiting := None))
    case Restart => s.(reader := START)
    case Other(e, now) => s.(db := Appended(s.db, Some(e), now))
  }

  /** All there is to deliver of what was written. */
  function Due(decode: Decoder, attempt: string, s: string): seq<Item> {
    Items(decode, attempt, Lines(s), 1)
  }

  lemma DueGrows(decode: Decoder, attempt: string, s: string, more: string)
    ensures Due(decode, attempt, s) <= Due(decode, attempt, s + more)
  {
    LinesThen("", s, more);
    ItemsThen(decode, attempt, Lines(s), LinesFrom(Rest("", s), more), 1);
  }

  /** The reader is where the first `read` bytes put it, and waits for nothing but
      the next item that is due. */
  ghost predicate ReaderOk(decode: Decoder, attempt: string, file: string, r: Reader, m: nat) {
    && r.read <= |file| && r.sequence == |Lines(file[..r.read])| && r.fragment == Rest("", file[..r.read])
    && var due := Due(decode, attempt, file[..r.read]);
       match r.awaiting
       case None => |due| <= m
       case Some(item) => due != [] && item == due[|due| - 1] && |due| - 1 <= m
  }

  ghost predicate Sound(decode: Decoder, attempt: string, runID: string, s: System) {
    var d, due := Delivered(attempt, Journal(s.db, runID)), Due(decode, attempt, s.file);
    && d <= due
    && (forall item | item in s.sent :: exists i | 0 <= i <= |d| && i < |due| :: item == due[i])
    && ReaderOk(decode, attempt, s.file, s.reader, |d|)
  }

  lemma ReaderReads(decode: Decoder, attempt: string, file: string, r: Reader, part: string, m: nat)
    requires ReaderOk(decode, attempt, file, r, m) && r.awaiting.None? && OneRead(part) && part <= file[r.read..]
    ensures ReaderOk(decode, attempt, file, Completed(decode, attempt, r, part), m)
  {
    hide SourceID, Items, LinesFrom, Rest, Lines, Due, OneRead;
    assert file[..r.read + |part|] == file[..r.read] + part;
    PartIsDue(decode, attempt, file[..r.read], part);
  }

  lemma ReaderKeeps(decode: Decoder, attempt: string, file: string, more: string, r: Reader, m: nat, m': nat)
    requires ReaderOk(decode, attempt, file, r, m) && m <= m'
    ensures ReaderOk(decode, attempt, file + more, r, m')
  {
    assert (file + more)[..r.read] == file[..r.read];
  }

  /** What the reader waits for is next in line or was delivered before. */
  lemma AwaitedIsDue(decode: Decoder, attempt: string, file: string, r: Reader, m: nat)
    requires ReaderOk(decode, attempt, file, r, m) && r.awaiting.Some?
    ensures exists i | 0 <= i <= m && i < |Due(decode, attempt, file)| :: r.awaiting.value == Due(decode, attempt, file)[i]
  {
    var before := Due(decode, attempt, file[..r.read]);
    assert file == file[..r.read] + file[r.read..];
    DueGrows(decode, attempt, file[..r.read], file[r.read..]);
    assert Due(decode, attempt, file)[|before| - 1] == before[|before| - 1];
  }

  lemma OthersDeliverNothing(db: Db, runID: string, attempt: string, e: Event, now: nat)
    requires !Mine(attempt, e)
    ensures Delivered(attempt, Journal(Appended(db, Some(e), now), runID)) == Delivered(attempt, Journal(db, runID))
  {
    hide Journaled, HasPrefix;
    var db' := Appended(db, Some(e), now);
    var j, j' := Journal(db, runID), Journal(db', runID);
    if !Journaled(Journal(db, e.runID), e) && e.runID == runID {
      DeliveredThen(attempt, j, j'[|j|]);
      assert j' == j + [j'[|j|]];
    }
  }

  lemma DeliveredThen(attempt: string, journal: seq<Event>, e: Event)
    ensures Delivered(attempt, journal + [e])
         == Delivered(attempt, journal) + (if Mine(attempt, e) then [Item(e.sourceID, e.kind, e.payload)] else [])
  {
    hide Mine;
    assert (journal + [e])[..|journal|] == journal;
  }

  /** A request of this attempt arrives: the next one due is delivered, an earlier
      one changes nothing. */
  lemma ArrivalInOrder(decode: Decoder, attempt: string, file: string, db: Db, runID: string, i: nat, at: nat)
    requires Delivered(attempt, Journal(db, runID)) <= Due(decode, attempt, file)
    requires i <= |Delivered(attempt, Journal(db, runID))| && i < |Due(decode, attempt, file)|
    ensures var posted := Posted(db, runID, Due(decode, attempt, file)[i], at);
            var d := Delivered(attempt, Journal(db, runID));
            posted.Some? ==>
              Delivered(attempt, Journal(posted.value, runID)) == if i < |d| then d else d + [Due(decode, attempt, file)[i]]
  {
    hide Due, Posted, Journal, Delivered;
    var d, due := Delivered(attempt, Journal(db, runID)), Due(decode, attempt, file);
    DueKey(decode, attempt, file, i);
    if Posted(db, runID, due[i], at).Some? {
      PostDelivers(db, runID, attempt, due[i], at);
      if i < |d| {
        assert d[i].sourceID == due[i].sourceID;
      } else {
        forall k | 0 <= k < |d| ensures d[k].sourceID != due[i].sourceID {
          DueDiffer(decode, attempt, file, k, i);
        }
      }
    }
  }

  lemma DueKey(decode: Decoder, attempt: string, file: string, i: nat)
    requires i < |Due(decode, attempt, file)|
    ensures HasPrefix(Due(decode, attempt, file)[i].sourceID, Prefix(attempt))
  {
    var n := ItemIsForItsLine(decode, attempt, Lines(file), 1, i);
    SourceIDIsInjective(attempt, n, n);
  }

  lemma DueDiffer(decode: Decoder, attempt: string, file: string, i: nat, j: nat)
    requires i < j < |Due(decode, attempt, file)|
    ensures Due(decode, attempt, file)[i].sourceID != Due(decode, attempt, file)[j].sourceID
  {
    ItemsDiffer(decode, attempt, Lines(file), 1, i, j);
  }

  /** An acknowledged request was delivered, with all before it. */
  lemma AcknowledgedIsDelivered(decode: Decoder, attempt: string, file: string, r: Reader, d: seq<Item>, i: nat)
    requires ReaderOk(decode, attempt, file, r, |d|) && r.awaiting.Some? && d <= Due(decode, attempt, file)
    requires i < |d| && d[i].sourceID == r.awaiting.value.sourceID
    ensures ReaderOk(decode, attempt, file, r.(awaiting := None), |d|)
  {
    hide Items, LinesFrom, Rest;
    var before, due := Due(decode, attempt, file[..r.read]), Due(decode, attempt, file);
    assert file == file[..r.read] + file[r.read..];
    DueGrows(decode, attempt, file[..r.read], file[r.read..]);
    var k := |before| - 1;
    assert due[k] == before[k] && d[i] == due[i];
    if i < k {
      DueDiffer(decode, attempt, file, i, k);
    }
  }

  lemma SoundStep(decode: Decoder, attempt: string, runID: string, s: System, t: Step)
    requires Sound(decode, attempt, runID, s) && Possible(decode, attempt, runID, s, t)
    ensures Sound(decode, attempt, runID, Next(decode, attempt, runID, s, t))
    ensures Delivered(attempt, Journal(s.db, runID)) <= Delivered(attempt, Journal(Next(decode, attempt, runID, s, t).db, runID))
  {
    hide Due, Delivered, Journal, Posted, Appended, ReaderOk, Completed, Mine, OneRead;
    var d, due := Delivered(attempt, Journal(s.db, runID)), Due(decode, attempt, s.file);
    match t {
      case Write(bytes) =>
        DueGrows(decode, attempt, s.file, bytes);
        ReaderKeeps(decode, attempt, s.file, bytes, s.reader, |d|, |d|);
      case Read(part) =>
        ReadWithin(decode, attempt, s.file, s.reader, |d|);
        ReaderReads(decode, attempt, s.file, s.reader, part, |d|);
      case Send => AwaitedIsDue(decode, attempt, s.file, s.reader, |d|);
      case Arrive(item, at) =>
        var i :| 0 <= i <= |d| && i < |due| && item == due[i];
        ArrivalInOrder(decode, attempt, s.file, s.db, runID, i, at);
        var s' := Next(decode, attempt, runID, s, t);
        var d' := Delivered(attempt, Journal(s'.db, runID));
        ReaderKeeps(decode, attempt, s.file, "", s.reader, |d|, |d'|);
        assert s.file + "" == s.file;
      case Acknowledge =>
        var i :| 0 <= i < |d| && d[i].sourceID == s.reader.awaiting.value.sourceID;
        AcknowledgedIsDelivered(decode, attempt, s.file, s.reader, d, i);
      case Restart => StartIsOk(decode, attempt, s.file, |d|);
      case Other(e, now) => OthersDeliverNothing(s.db, runID, attempt, e, now);
    }
  }

  lemma ReadWithin(decode: Decoder, attempt: string, file: string, r: Reader, m: nat)
    requires ReaderOk(decode, attempt, file, r, m)
    ensures r.read <= |file|
  {
  }

  lemma StartIsOk(decode: Decoder, attempt: string, file: string, m: nat)
    ensures ReaderOk(decode, attempt, file, START, m)
  {
    assert file[..0] == "";
  }

  ghost predicate Behavior(decode: Decoder, attempt: string, runID: string, s: System, ts: seq<Step>)
    decreases |ts|
  {
    ts == [] || (Possible(decode, attempt, runID, s, ts[0]) && Behavior(decode, attempt, runID, Next(decode, attempt, runID, s, ts[0]), ts[1..]))
  }

  function End(decode: Decoder, attempt: string, runID: string, s: System, ts: seq<Step>): System
    decreases |ts|
  {
    if ts == [] then s else End(decode, attempt, runID, Next(decode, attempt, runID, s, ts[0]), ts[1..])
  }

  lemma {:induction false} SoundBehavior(decode: Decoder, attempt: string, runID: string, s: System, ts: seq<Step>)
    requires Sound(decode, attempt, runID, s) && Behavior(decode, attempt, runID, s, ts)
    ensures Sound(decode, attempt, runID, End(decode, attempt, runID, s, ts))
    ensures Delivered(attempt, Journal(s.db, runID)) <= Delivered(attempt, Journal(End(decode, attempt, runID, s, ts).db, runID))
    decreases |ts|
  {
    hide Sound, Possible, Next, Delivered, Journal;
    if ts != [] {
      SoundStep(decode, attempt, runID, s, ts[0]);
      SoundBehavior(decode, attempt, runID, Next(decode, attempt, runID, s, ts[0]), ts[1..]);
    }
  }

  /** For a new attempt, however the file grows and is read, wherever the gateway
      restarts, whatever acknowledgements are lost and however late and often a
      request arrives: the journal holds of this attempt exactly a beginning of the
      well-formed lines, each once, in file order, each under its own number; and
      it never shrinks. */
  lemma DeliveredInOrderOnce(decode: Decoder, attempt: string, runID: string, db: Db, ts: seq<Step>, more: seq<Step>)
    requires Delivered(attempt, Journal(db, runID)) == []
    requires Behavior(decode, attempt, runID, System("", db, {}, START), ts)
    requires Behavior(decode, attempt, runID, End(decode, attempt, runID, System("", db, {}, START), ts), more)
    ensures var s := End(decode, attempt, runID, System("", db, {}, START), ts);
            var s' := End(decode, attempt, runID, s, more);
            && Delivered(attempt, Journal(s.db, runID)) <= Due(decode, attempt, s.file)
            && Delivered(attempt, Journal(s.db, runID)) <= Delivered(attempt, Journal(s'.db, runID))
  {
    hide Possible, Next, Delivered, Journal, ReaderOk, Due, Behavior, End;
    StartIsOk(decode, attempt, "", 0);
    SoundBehavior(decode, attempt, runID, System("", db, {}, START), ts);
    SoundBehavior(decode, attempt, runID, End(decode, attempt, runID, System("", db, {}, START), ts), more);
  }

  // ---- the gateway process -----------------------------------------------------------------------

  lemma PostedTwice(db: Db, runID: string, item: Item, at: nat)
    requires Posted(db, runID, item, at).Some?
    ensures Posted(Posted(db, runID, item, at).value, runID, item, at) == Posted(db, runID, item, at)
  {
    hide Journaled;
    AppendedJournal(db, EventOf(runID, item, at), at);
  }

  /** AppendGatewayEvent. */
  method AppendGatewayEvent(store: Memory, runID: string, item: Item, at: nat) returns (accepted: bool)
    modifies store
    ensures var posted := Posted(old(store.Contents()), runID, item, at);
            accepted == posted.Some? && store.Contents() == if posted.Some? then posted.value else old(store.Contents())
    ensures accepted <==> !Blank(item.sourceID) && !Blank(item.kind) && runID in old(store.runs)
    ensures store.runs == old(store.runs) && store.operations == old(store.operations)
    ensures if accepted then
              NotedOnce(old(store.events), old(store.nextEventID), store.events, store.nextEventID,
                        Some(Event(0, runID, "gateway", item.sourceID, item.kind, item.payload, at)), at)
            else store.Contents() == old(store.Contents())
  {
    hide Appended, NotedOnce;
    if Blank(item.sourceID) || Blank(item.kind) {
      return false;
    }
    var run := store.GetRun(runID);
    if run.Failure? {
      return false;
    }
    var r := store.AppendRunEvent(EventOf(runID, item, at), at);
    accepted := r.Success?;
  }

  /** What becomes of one request: whether it gets to the control plane, and whether
      the gateway hears of it. */
  datatype Try = Try(arrives: bool, answered: bool)

  predicate Arrives(tries: seq<Try>) {
    exists k | 0 <= k < |tries| :: tries[k].arrives
  }

  /** One of the requests arrives and is answered. */
  predicate GetsThrough(tries: seq<Try>) {
    exists k | 0 <= k < |tries| :: tries[k].arrives && tries[k].answered
  }

  /** forwardGatewayEvent: it repeats the request until one is acknowledged or, after
      these tries, the gateway is told to stop. Requests and replies may be lost. */
  method ForwardGatewayEvent(store: Memory, runID: string, item: Item, tries: seq<Try>, at: nat) returns (acknowledged: bool)
    modifies store
    ensures var posted := Posted(old(store.Contents()), runID, item, at);
            && (acknowledged <==> posted.Some? && GetsThrough(tries))
            && store.Contents() == if posted.Some? && Arrives(tries) then posted.value else old(store.Contents())
    ensures store.runs == old(store.runs)
  {
    hide Posted;
    ghost var db := store.Contents();
    ghost var posted := Posted(db, runID, item, at);
    PostedKeepsRuns(db, runID, item, at);
    var retries := 0;
    while retries < |tries|
      invariant retries <= |tries| && store.runs == old(store.runs)
      invariant store.Contents() == if posted.Some? && Arrives(tries[..retries]) then posted.value else db
      invariant !(posted.Some? && GetsThrough(tries[..retries]))
    {
      if posted.Some? {
        PostedTwice(db, runID, item, at);
      }
      OneMoreTry(tries, retries);
      if tries[retries].arrives {
        var accepted := AppendGatewayEvent(store, runID, item, at);
        if accepted && tries[retries].answered {
          return true;
        }
      }
      retries := retries + 1;
    }
    assert tries[..|tries|] == tries;
    acknowledged := false;
  }

  lemma OneMoreTry(tries: seq<Try>, n: nat)
    requires n < |tries|
    ensures Arrives(tries[..n + 1]) <==> Arrives(tries[..n]) || tries[n].arrives
    ensures GetsThrough(tries[..n + 1]) <==> GetsThrough(tries[..n]) || (tries[n].arrives && tries[n].answered)
    ensures Arrives(tries[..n + 1]) ==> Arrives(tries)
    ensures GetsThrough(tries[..n + 1]) ==> GetsThrough(tries)
  {
    var now, next := tries[..n], tries[..n + 1];
    assert next[n] == tries[n] && forall k | 0 <= k < n :: next[k] == now[k] == tries[k];
  }

  lemma PostedKeepsRuns(db: Db, runID: string, item: Item, at: nat)
    ensures Posted(db, runID, item, at).Some? ==> Posted(db, runID, item, at).value.runs == db.runs
  {
    hide Journaled;
  }

  /** What AppendGatewayEvent asks of a request under this attempt's keys. */
  lemma PostedExactly(db: Db, runID: string, attempt: string, n: nat, kind: string, payload: string, at: nat)
    ensures Posted(db, runID, Item(SourceID(attempt, n), kind, payload), at).Some? <==> runID in db.runs && !Blank(kind)
  {
    hide Appended;
    assert SourceID(attempt, n)[0] == Prefix(attempt)[0] == 'a';
  }

  function Concat(parts: seq<string>): string
    decreases |parts|
  {
    if parts == [] then "" else Concat(parts[..|parts| - 1]) + parts[|parts| - 1]
  }

  lemma {:induction false} ConcatUpTo(parts: seq<string>, i: nat)
    requires i <= |parts|
    ensures Concat(parts[..i]) <= Concat(parts)
    decreases |parts|
  {
    var n := |parts| - 1;
    if i < |parts| {
      ConcatUpTo(parts[..n], i);
      assert parts[..n][..i] == parts[..i];
    } else {
      assert parts[..i] == parts;
    }
  }

  /** One more part of the file and what becomes due with it. */
  lemma PartIsDue(decode: Decoder, attempt: string, before: string, part: string)
    requires OneRead(part)
    ensures var line := Rest("", before) + part;
            var n := |Lines(before)|;
            && Lines(before + part) == Lines(before) + (if EndsLine(part) then [line] else [])
            && Rest("", before + part) == (if EndsLine(part) then "" else line)
            && Due(decode, attempt, before + part) == Due(decode, attempt, before) +
                 (if EndsLine(part) && decode(line).Some? then [Item(SourceID(attempt, n + 1), decode(line).value.kind, decode(line).value.payload)] else [])
  {
    hide SourceID;
    LinesThen("", before, part);
    ReadPart(Rest("", before), part);
    ItemsThen(decode, attempt, Lines(before), LinesFrom(Rest("", before), part), 1);
    if EndsLine(part) {
      var line := Rest("", before) + part;
      assert [line][1..] == [];
      assert Items(decode, attempt, [line][1..], 1 + |Lines(before)| + 1) == [];
    }
  }

  /** A line that is malformed, or has a type and a request for it gets through. */
  predicate LinePasses(decode: Decoder, line: string, known: bool, tries: seq<Try>) {
    decode(line).Some? ==> known && !Blank(decode(line).value.kind) && GetsThrough(tries)
  }

  predicate AllPass(decode: Decoder, lines: seq<string>, known: bool, net: nat -> seq<Try>) {
    forall i | 0 <= i < |lines| :: LinePasses(decode, lines[i], known, net(i + 1))
  }

  /** RunGateway on the parts it reads of the file, from the first line again; `net`
      is what becomes of the requests for each line. What was delivered before stays;
      it gets through exactly if the run is known, every well-formed line has a type
      and some request for each is answered, and then everything is delivered. */
  method RunGateway(decode: Decoder, store: Memory, runID: string, attempt: string, parts: seq<string>, net: nat -> seq<Try>, at: nat)
    returns (finished: bool)
    requires forall i | 0 <= i < |parts| :: OneRead(parts[i])
    requires Delivered(attempt, Journal(store.Contents(), runID)) <= Due(decode, attempt, Concat(parts))
    modifies store
    ensures Delivered(attempt, old(Journal(store.Contents(), runID))) <= Delivered(attempt, Journal(store.Contents(), runID))
    ensures Delivered(attempt, Journal(store.Contents(), runID)) <= Due(decode, attempt, Concat(parts))
    ensures finished ==> Delivered(attempt, Journal(store.Contents(), runID)) == Due(decode, attempt, Concat(parts))
    ensures finished <==> AllPass(decode, Lines(Concat(parts)), runID in old(store.runs), net)
  {
    hide Due, Delivered, Journal, Posted, OneRead, LinesFrom, Rest, Lines, AllPass, LinePasses;
    ghost var file := Concat(parts);
    var fragment := "";
    var sequence := 0;
    var live := true;
    EmptyFile(decode, attempt);
    NoLines(decode, runID in store.runs, net);
    assert parts[..0] == [];
    for i := 0 to |parts|
      invariant fragment == Rest("", Concat(parts[..i])) && sequence == |Lines(Concat(parts[..i]))|
      invariant Delivered(attempt, old(Journal(store.Contents(), runID))) <= Delivered(attempt, Journal(store.Contents(), runID))
      invariant Delivered(attempt, Journal(store.Contents(), runID)) <= Due(decode, attempt, file)
      invariant live ==> Due(decode, attempt, Concat(parts[..i])) <= Delivered(attempt, Journal(store.Contents(), runID))
      invariant store.runs == old(store.runs)
      invariant live <==> AllPass(decode, Lines(Concat(parts[..i])), runID in old(store.runs), net)
    {
      ghost var before := Concat(parts[..i]);
      assert parts[..i + 1][..i] == parts[..i] && parts[..i + 1][i] == parts[i];
      assert Concat(parts[..i + 1]) == before + parts[i];
      PartIsDue(decode, attempt, before, parts[i]);
      DuePrefix(decode, attempt, parts, i + 1);
      fragment := fragment + parts[i];
      if EndsLine(parts[i]) {
        sequence := sequence + 1;
        OneMoreLine(decode, Lines(before), fragment, runID in store.runs, net);
        live := DeliverGatewayLine(decode, store, runID, attempt, sequence, fragment, live, net(sequence), at, file, before);
        fragment := "";
      } else {
        assert Lines(before) + [] == Lines(before);
      }
    }
    assert parts[..|parts|] == parts;
    finished := live;
  }

  lemma NoLines(decode: Decoder, known: bool, net: nat -> seq<Try>)
    ensures AllPass(decode, [], known, net)
  {
  }

  lemma OneMoreLine(decode: Decoder, lines: seq<string>, line: string, known: bool, net: nat -> seq<Try>)
    ensures AllPass(decode, lines + [line], known, net) <==>
            AllPass(decode, lines, known, net) && LinePasses(decode, line, known, net(|lines| + 1))
  {
    hide LinePasses;
    var more := lines + [line];
    assert more[|lines|] == line && forall i | 0 <= i < |lines| :: more[i] == lines[i];
  }

  lemma EmptyFile(decode: Decoder, attempt: string)
    ensures Rest("", Concat([])) == "" && Lines(Concat([])) == [] && Due(decode, attempt, Concat([])) == []
  {
  }

  lemma DuePrefix(decode: Decoder, attempt: string, parts: seq<string>, i: nat)
    requires i <= |parts|
    ensures Due(decode, attempt, Concat(parts[..i])) <= Due(decode, attempt, Concat(parts))
  {
    hide Due, Concat;
    ConcatUpTo(parts, i);
    var s := Concat(parts[..i]);
    assert Concat(parts) == s + Concat(parts)[|s|..];
    DueGrows(decode, attempt, s, Concat(parts)[|s|..]);
  }

  /** deliverGatewayLine: a malformed line is skipped; a gateway that was told to stop
      sends nothing more. */
  method DeliverGatewayLine(decode: Decoder, store: Memory, runID: string, attempt: string, sequence: nat, line: string,
                            live: bool, tries: seq<Try>, at: nat, ghost file: string, ghost before: string) returns (goOn: bool)
    requires Delivered(attempt, Journal(store.Contents(), runID)) <= Due(decode, attempt, file)
    requires live ==> Due(decode, attempt, before) <= Delivered(attempt, Journal(store.Contents(), runID))
    requires decode(line).Some? ==>
               var item := Item(SourceID(attempt, sequence), decode(line).value.kind, decode(line).value.payload);
               Due(decode, attempt, before) + [item] <= Due(decode, attempt, file)
    modifies store
    ensures Delivered(attempt, old(Journal(store.Contents(), runID))) <= Delivered(attempt, Journal(store.Contents(), runID))
    ensures Delivered(attempt, Journal(store.Contents(), runID)) <= Due(decode, attempt, file)
    ensures goOn <==> live && LinePasses(decode, line, runID in old(store.runs), tries)
    ensures goOn ==>
              Due(decode, attempt, before) +
                (if decode(line).Some? then [Item(SourceID(attempt, sequence), decode(line).value.kind, decode(line).value.payload)] else [])
              <= Delivered(attempt, Journal(store.Contents(), runID))
    ensures store.runs == old(store.runs)
  {
    hide Due, Delivered, Journal, Posted, SourceID, Blank, GetsThrough, Arrives;
    var p := decode(line);
    if p.None? || !live {
      return live;
    }
    var item := Item(SourceID(attempt, sequence), p.value.kind, p.value.payload);
    ghost var i := |Due(decode, attempt, before)|;
    assert Due(decode, attempt, file)[i] == item;
    ArrivalInOrder(decode, attempt, file, store.Contents(), runID, i, at);
    PostedExactly(store.Contents(), runID, attempt, sequence, p.value.kind, p.value.payload, at);
    ThroughArrives(tries);
    goOn := ForwardGatewayEvent(store, runID, item, tries, at);
  }

  lemma ThroughArrives(tries: seq<Try>)
    ensures GetsThrough(tries) ==> Arrives(tries)
  {
  }
}
