/** How far the gateway can get: exactly up to the first well-formed line whose
    event has no type. */
module GatewayProgress {
  import opened Basics
  import opened DurableStore
  import opened Gateway

  // ---- what is never delivered -------------------------------------------------------

  predicate NoneBlank(items: seq<Item>) {
    forall i | 0 <= i < |items| :: !Blank(items[i].kind)
  }

  lemma StepDelivers(decode: Decoder, attempt: string, runID: string, s: System, t: Step)
    requires Sound(decode, attempt, runID, s) && Possible(decode, attempt, runID, s, t)
    ensures var s' := Next(decode, attempt, runID, s, t);
            var d, d' := Delivered(attempt, Journal(s.db, runID)), Delivered(attempt, Journal(s'.db, runID));
            && (d' == d || (|d'| == |d| + 1 && d <= d' && !Blank(d'[|d|].kind) && runID in s.db.runs))
            && s'.db.runs == s.db.runs && s.file <= s'.file
  {
    hide Due, Delivered, Journal, Appended, ReaderOk, Mine, OneRead, Journaled;
    var due := Due(decode, attempt, s.file);
    var d := Delivered(attempt, Journal(s.db, runID));
    if t.Arrive? {
      var i :| 0 <= i <= |d| && i < |due| && t.item == due[i];
      ArrivalInOrder(decode, attempt, s.file, s.db, runID, i, t.at);
      AppendKeepsRuns(s.db, Some(EventOf(runID, t.item, t.at)), t.at);
    } else if t.Other? {
      OthersDeliverNothing(s.db, runID, attempt, t.e, t.now);
      AppendKeepsRuns(s.db, Some(t.e), t.now);
    }
  }

  lemma AppendKeepsRuns(db: Db, e: Option<Event>, now: nat)
    ensures Appended(db, e, now).runs == db.runs
  {
  }

  lemma {:induction false} OnlyTypedAreDelivered(decode: Decoder, attempt: string, runID: string, s: System, ts: seq<Step>)
    requires Sound(decode, attempt, runID, s) && Behavior(decode, attempt, runID, s, ts)
    requires NoneBlank(Delivered(attempt, Journal(s.db, runID)))
    ensures var s' := End(decode, attempt, runID, s, ts);
            var d, d' := Delivered(attempt, Journal(s.db, runID)), Delivered(attempt, Journal(s'.db, runID));
            && NoneBlank(d') && d <= d' && s'.db.runs == s.db.runs && s.file <= s'.file
            && (runID !in s.db.runs ==> d' == d)
    decreases |ts|
  {
    hide Sound, Possible, Next, Delivered, Journal;
    if ts != [] {
      StepDelivers(decode, attempt, runID, s, ts[0]);
      SoundStep(decode, attempt, runID, s, ts[0]);
      OnlyTypedAreDelivered(decode, attempt, runID, Next(decode, attempt, runID, s, ts[0]), ts[1..]);
    }
  }

  // ---- what can be delivered -----------------------------------------------------------

  lemma Then(decode: Decoder, attempt: string, runID: string, s: System, t: Step, rest: seq<Step>)
    requires Possible(decode, attempt, runID, s, t) && Behavior(decode, attempt, runID, Next(decode, attempt, runID, s, t), rest)
    ensures Behavior(decode, attempt, runID, s, [t] + rest)
    ensures End(decode, attempt, runID, s, [t] + rest) == End(decode, attempt, runID, Next(decode, attempt, runID, s, t), rest)
  {
    hide Possible, Next;
    assert ([t] + rest)[1..] == rest;
  }

  /** The gateway waits for nothing and is on its way through the file. */
  ghost predicate Reading(decode: Decoder, attempt: string, runID: string, s: System) {
    Sound(decode, attempt, runID, s) && s.reader.awaiting.None? && runID in s.db.runs
  }

  /** The items not yet delivered, up to the i-th, have types. */
  ghost predicate Typed(decode: Decoder, attempt: string, runID: string, s: System, i: nat) {
    var due := Due(decode, attempt, s.file);
    i < |due| && forall j | |Delivered(attempt, Journal(s.db, runID))| <= j <= i :: !Blank(due[j].kind)
  }

  /** An awaited item with a type gets delivered and acknowledged. */
  lemma Deliver(decode: Decoder, attempt: string, runID: string, s: System, i: nat) returns (ts: seq<Step>)
    requires Sound(decode, attempt, runID, s) && s.reader.awaiting.Some? && runID in s.db.runs
    requires Typed(decode, attempt, runID, s, i) && |Delivered(attempt, Journal(s.db, runID))| <= i
    ensures Behavior(decode, attempt, runID, s, ts)
    ensures var s' := End(decode, attempt, runID, s, ts);
            && Reading(decode, attempt, runID, s') && s'.file == s.file && s'.reader == s.reader.(awaiting := None)
            && |Delivered(attempt, Journal(s.db, runID))| <= |Delivered(attempt, Journal(s'.db, runID))|
  {
    hide Due, Delivered, Journal, Appended, ReaderOk, Mine, Posted, Next;
    var d, due := Delivered(attempt, Journal(s.db, runID)), Due(decode, attempt, s.file);
    var item := s.reader.awaiting.value;
    AwaitedIsDue(decode, attempt, s.file, s.reader, |d|);
    var k :| 0 <= k <= |d| && k < |due| && item == due[k];
    var none: seq<Step> := [];
    if k < |d| {
      assert d[k].sourceID == item.sourceID;
      ts := Acknowledged(decode, attempt, runID, s);
    } else {
      Sent(decode, attempt, runID, s);
      var s1 := Next(decode, attempt, runID, s, Send);
      DueKey(decode, attempt, s.file, k);
      Accepted(s.db, runID, attempt, item);
      ArrivalInOrder(decode, attempt, s.file, s.db, runID, k, 0);
      Arrived(decode, attempt, runID, s1, item);
      var s2 := Next(decode, attempt, runID, s1, Arrive(item, 0));
      SoundStep(decode, attempt, runID, s, Send);
      SoundStep(decode, attempt, runID, s1, Arrive(item, 0));
      assert Delivered(attempt, Journal(s2.db, runID))[|d|].sourceID == item.sourceID;
      ts := Acknowledged(decode, attempt, runID, s2);
      Then(decode, attempt, runID, s1, Arrive(item, 0), ts);
      ts := [Arrive(item, 0)] + ts;
      Then(decode, attempt, runID, s, Send, ts);
      ts := [Send] + ts;
    }
  }

  lemma Sent(decode: Decoder, attempt: string, runID: string, s: System)
    requires s.reader.awaiting.Some?
    ensures Possible(decode, attempt, runID, s, Send)
    ensures Next(decode, attempt, runID, s, Send) == s.(sent := s.sent + {s.reader.awaiting.value})
  {
  }

  lemma Arrived(decode: Decoder, attempt: string, runID: string, s: System, item: Item)
    requires item in s.sent && Posted(s.db, runID, item, 0).Some?
    ensures Possible(decode, attempt, runID, s, Arrive(item, 0))
    ensures Next(decode, attempt, runID, s, Arrive(item, 0)) == s.(db := Posted(s.db, runID, item, 0).value)
    ensures Posted(s.db, runID, item, 0).value.runs == s.db.runs
  {
    hide Journaled;
  }

  /** A request of this attempt with a type is accepted for a known run. */
  lemma Accepted(db: Db, runID: string, attempt: string, item: Item)
    requires runID in db.runs && HasPrefix(item.sourceID, Prefix(attempt)) && !Blank(item.kind)
    ensures Posted(db, runID, item, 0).Some?
  {
    hide Appended;
    assert item.sourceID[0] == Prefix(attempt)[0] == 'a';
  }

  lemma Acknowledged(decode: Decoder, attempt: string, runID: string, s: System) returns (ts: seq<Step>)
    requires Sound(decode, attempt, runID, s) && s.reader.awaiting.Some? && runID in s.db.runs
    requires exists i | 0 <= i < |Delivered(attempt, Journal(s.db, runID))| ::
               Delivered(attempt, Journal(s.db, runID))[i].sourceID == s.reader.awaiting.value.sourceID
    ensures Behavior(decode, attempt, runID, s, ts)
    ensures var s' := End(decode, attempt, runID, s, ts);
            Reading(decode, attempt, runID, s') && s' == s.(reader := s.reader.(awaiting := None))
  {
    hide Sound, Delivered, Journal;
    SoundStep(decode, attempt, runID, s, Acknowledge);
    var none: seq<Step> := [];
    Then(decode, attempt, runID, s, Acknowledge, none);
    ts := [Acknowledge] + none;
  }

  /** On from where the gateway is to the delivery of the i-th item. */
  lemma {:induction false} CatchUp(decode: Decoder, attempt: string, runID: string, s: System, i: nat) returns (ts: seq<Step>)
    requires Reading(decode, attempt, runID, s) && Typed(decode, attempt, runID, s, i) && s.reader.read <= |s.file|
    ensures Behavior(decode, attempt, runID, s, ts)
    ensures |Delivered(attempt, Journal(End(decode, attempt, runID, s, ts).db, runID))| > i
    decreases |s.file| - s.reader.read
  {
    hide Sound, Delivered, Journal, Due, Next, Possible;
    if |Delivered(attempt, Journal(s.db, runID))| > i {
      ts := [];
    } else {
      NotAtTheEnd(decode, attempt, runID, s, i);
      var part := [s.file[s.reader.read]];
      OneCharacter(decode, attempt, runID, s, part);
      var s1 := Next(decode, attempt, runID, s, Read(part));
      SoundStep(decode, attempt, runID, s, Read(part));
      if s1.reader.awaiting.None? {
        ts := CatchUp(decode, attempt, runID, s1, i);
      } else {
        var first := Deliver(decode, attempt, runID, s1, i);
        var s2 := End(decode, attempt, runID, s1, first);
        var rest := CatchUp(decode, attempt, runID, s2, i);
        Joined(decode, attempt, runID, s1, first, rest);
        ts := first + rest;
      }
      Then(decode, attempt, runID, s, Read(part), ts);
      ts := [Read(part)] + ts;
    }
  }

  lemma {:induction false} Joined(decode: Decoder, attempt: string, runID: string, s: System, xs: seq<Step>, ys: seq<Step>)
    requires Behavior(decode, attempt, runID, s, xs) && Behavior(decode, attempt, runID, End(decode, attempt, runID, s, xs), ys)
    ensures Behavior(decode, attempt, runID, s, xs + ys)
    ensures End(decode, attempt, runID, s, xs + ys) == End(decode, attempt, runID, End(decode, attempt, runID, s, xs), ys)
    decreases |xs|
  {
    hide Possible, Next;
    if xs == [] {
      assert xs + ys == ys;
    } else {
      assert (xs + ys)[1..] == xs[1..] + ys;
      Joined(decode, attempt, runID, Next(decode, attempt, runID, s, xs[0]), xs[1..], ys);
    }
  }

  lemma NotAtTheEnd(decode: Decoder, attempt: string, runID: string, s: System, i: nat)
    requires Reading(decode, attempt, runID, s) && Typed(decode, attempt, runID, s, i)
    requires |Delivered(attempt, Journal(s.db, runID))| <= i
    ensures s.reader.read < |s.file|
  {
    hide Due, Delivered, Journal;
    assert s.file[..|s.file|] == s.file;
  }

  lemma OneCharacter(decode: Decoder, attempt: string, runID: string, s: System, part: string)
    requires s.reader.awaiting.None? && s.reader.read < |s.file| && part == [s.file[s.reader.read]]
    ensures Possible(decode, attempt, runID, s, Read(part))
    ensures var s1 := Next(decode, attempt, runID, s, Read(part));
            s1.file == s.file && s1.db == s.db && s1.reader.read == s.reader.read + 1
  {
    assert s.file[s.reader.read..][..1] == part;
  }

  // ---- the exact condition ---------------------------------------------------------------

  ghost predicate Delivers(decode: Decoder, attempt: string, runID: string, s: System, i: nat, ts: seq<Step>) {
    Behavior(decode, attempt, runID, s, ts) && |Delivered(attempt, Journal(End(decode, attempt, runID, s, ts).db, runID))| > i
  }

  /** From any state a new attempt gets to, the i-th item that is due can still be
      delivered if and only if the run is known and no item up to it is without a
      type. Past the first item without one nothing is ever delivered. */
  lemma DeliverableExactly(decode: Decoder, attempt: string, runID: string, db: Db, ts: seq<Step>, i: nat)
    requires Delivered(attempt, Journal(db, runID)) == []
    requires Behavior(decode, attempt, runID, System("", db, {}, START), ts)
    requires i < |Due(decode, attempt, End(decode, attempt, runID, System("", db, {}, START), ts).file)|
    ensures var s := End(decode, attempt, runID, System("", db, {}, START), ts);
            (exists more :: Delivers(decode, attempt, runID, s, i, more))
            <==> runID in db.runs && forall j | 0 <= j <= i :: !Blank(Due(decode, attempt, s.file)[j].kind)
  {
    hide Possible, Next, Delivered, Journal, ReaderOk, Due, Behavior, End;
    var s0 := System("", db, {}, START);
    var s := End(decode, attempt, runID, s0, ts);
    StartIsOk(decode, attempt, "", 0);
    SoundBehavior(decode, attempt, runID, s0, ts);
    OnlyTypedAreDelivered(decode, attempt, runID, s0, ts);
    var due, d := Due(decode, attempt, s.file), Delivered(attempt, Journal(s.db, runID));
    if runID in db.runs && forall j | 0 <= j <= i :: !Blank(due[j].kind) {
      var more := Again(decode, attempt, runID, s, i);
      assert Delivers(decode, attempt, runID, s, i, more);
    }
    forall more | Delivers(decode, attempt, runID, s, i, more)
      ensures runID in db.runs && forall j | 0 <= j <= i :: !Blank(due[j].kind)
    {
      OnlyTypedAreDelivered(decode, attempt, runID, s, more);
      SoundBehavior(decode, attempt, runID, s, more);
      var s' := End(decode, attempt, runID, s, more);
      assert s'.file == s.file + s'.file[|s.file|..];
      DueGrows(decode, attempt, s.file, s'.file[|s.file|..]);
    }
  }

  /** The line `{}` is well formed and has no type: once it is the first line of the
      file, nothing of this attempt is ever delivered, whatever follows it. */
  lemma EmptyTypeStopsDelivery(decode: Decoder, attempt: string, runID: string, db: Db, ts: seq<Step>)
    requires decode("{}\n") == Some(Parsed("", "{}"))
    requires Delivered(attempt, Journal(db, runID)) == []
    requires Behavior(decode, attempt, runID, System("", db, {}, START), ts)
    requires "{}\n" <= End(decode, attempt, runID, System("", db, {}, START), ts).file
    ensures Delivered(attempt, Journal(End(decode, attempt, runID, System("", db, {}, START), ts).db, runID)) == []
  {
    hide Possible, Next, Delivered, Journal, ReaderOk, Due, Behavior, End;
    var s0 := System("", db, {}, START);
    var s := End(decode, attempt, runID, s0, ts);
    StartIsOk(decode, attempt, "", 0);
    SoundBehavior(decode, attempt, runID, s0, ts);
    FirstLine(decode, attempt);
    assert s.file == "{}\n" + s.file[3..];
    DueGrows(decode, attempt, "{}\n", s.file[3..]);
    var d := Delivered(attempt, Journal(s.db, runID));
    assert d != [] ==> d[0] == Due(decode, attempt, s.file)[0] == Due(decode, attempt, "{}\n")[0];
    assert d != [] ==> Blank(d[0].kind);
    OnlyTypedAreDelivered(decode, attempt, runID, s0, ts);
  }

  lemma FirstLine(decode: Decoder, attempt: string)
    requires decode("{}\n") == Some(Parsed("", "{}"))
    ensures Due(decode, attempt, "{}\n") == [Item(SourceID(attempt, 1), "", "{}")]
  {
    hide SourceID, Due;
    var line := "{}\n";
    assert line[2] == '\n' && EndsLine(line);
    assert "" + line == line;
    PartIsDue(decode, attempt, "", line);
    EmptyFile(decode, attempt);
  }

  /** After a restart everything can be delivered that has a type all the way. */
  lemma Again(decode: Decoder, attempt: string, runID: string, s: System, i: nat) returns (ts: seq<Step>)
    requires Sound(decode, attempt, runID, s) && runID in s.db.runs && Typed(decode, attempt, runID, s, i)
    ensures Delivers(decode, attempt, runID, s, i, ts)
  {
    hide Sound, Delivered, Journal, Due;
    var s1 := Next(decode, attempt, runID, s, Restart);
    SoundStep(decode, attempt, runID, s, Restart);
    ts := CatchUp(decode, attempt, runID, s1, i);
    Then(decode, attempt, runID, s, Restart, ts);
    ts := [Restart] + ts;
  }
}
