/** What a publisher does that is left alone: step by step, beside any other
    publishers that do nothing meanwhile, it does what PublishCheckpoint promises. */
module CheckpointSolo {
  import opened Basics
  import opened Checkpoints
  import opened CheckpointStore
  import opened CheckpointProtocol
  import opened CheckpointRetention

  lemma TwoSteps(s: State, a: Action) returns (acts: seq<Action>)
    requires Enabled(s, a) && Enabled(Do(s, a), a)
    ensures CanRun(s, acts) && Reached(s, acts) == Do(Do(s, a), a) && forall x | x in acts :: x == a
  {
    hide Enabled, Do;
    var none: seq<Action> := [];
    assert Reached(Do(Do(s, a), a), none) == Do(Do(s, a), a);
    First(Do(s, a), a, none);
    First(s, a, [a] + none);
    acts := [a] + ([a] + none);
  }

  // ---- the retention loop ----------------------------------------------------------------

  /** A step of a pruner that does not skip. */
  lemma PrunerAdvances(s: State, p: nat)
    requires p in s.procs && s.procs[p].Pruning?
    ensures Enabled(s, Advance(p, STEP))
    ensures Do(s, Advance(p, STEP)) == Pruned(s, p, s.procs[p].seen, s.procs[p].todo, s.procs[p].retain, s.procs[p].at)
  {
    hide Pruned;
  }

  /** One manifest goes, and its archive if it loads. */
  lemma VictimGoes(s: State, p: nat) returns (acts: seq<Action>)
    requires p in s.procs && s.procs[p].Pruning? && s.procs[p].todo != [] && s.procs[p].at == Read && s.procs[p].todo[0] in s.objects
    ensures CanRun(s, acts) && forall x | x in acts :: x == Advance(p, STEP)
    ensures var t := Reached(s, acts);
            && t.procs == s.procs[p := s.procs[p].(todo := s.procs[p].todo[1..])]
            && t.ever == s.ever && t.used == s.used && t.clock == s.clock
            && PrunedOne(s.objects, t.objects, s.procs[p].todo[0], false, {})
  {
    hide Verified, WellFormed, Do, Enabled, PrunedOne;
    var Pruning(seen, todo, retain, at) := s.procs[p];
    var a, key := Advance(p, STEP), todo[0];
    PrunerAdvances(s, p);
    var s1 := Do(s, a);
    PrunerAdvances(s1, p);
    var s2 := Do(s1, a);
    if !(s.objects[key].content.Encoded? && WellFormed(s.objects[key].content.manifest)) {
      assert s2.objects == s.objects - {key};
      OnlyTheMarker(s.objects, key);
      acts := TwoSteps(s, a);
    } else {
      var m := s.objects[key].content.manifest;
      PrunerAdvances(s2, p);
      var s3 := Do(s2, a);
      if !Verified(s.objects, m) {
        assert s3.objects == s.objects - {key};
        OnlyTheMarker(s.objects, key);
        acts := ThreeSteps(s, a);
      } else {
        PrunerAdvances(s3, p);
        var s4 := Do(s3, a);
        assert s4.objects == s.objects - {key} - {m.archiveKey};
        MarkerAndArchive(s.objects, key);
        acts := FourSteps(s, a);
      }
    }
  }

  lemma OnlyTheMarker(objects: Objects, key: string)
    requires key in objects && !Valid(objects, key)
    ensures PrunedOne(objects, objects - {key}, key, false, {})
  {
    MarkerDeleted(objects, objects - {key}, key, Fine);
  }

  lemma MarkerAndArchive(objects: Objects, key: string)
    requires Valid(objects, key)
    ensures PrunedOne(objects, objects - {key} - {objects[key].content.manifest.archiveKey}, key, false, {})
  {
    BothDeleted(objects, objects - {key}, objects - {key} - {objects[key].content.manifest.archiveKey}, key, Fine, Fine);
  }

  /** The keys of a listing, in its order. */
  function InOrder(ms: seq<Listed>): (keys: seq<string>)
    ensures |keys| == |ms| && forall i | 0 <= i < |ms| :: keys[i] == ms[i].key
  {
    seq(|ms|, i requires 0 <= i < |ms| => ms[i].key)
  }

  /** The rest of the loop, and the pruner is done. */
  lemma {:induction false} PrunesTheRest(before: Objects, s: State, p: nat, ms: seq<Listed>, retain: nat, i: nat) returns (acts: seq<Action>)
    requires retain <= i <= |ms| && DistinctKeys(ms) && OnlyPublished(before) && Surplus(before, retain) == Keys(ms[retain..])
    requires TailInvariant(before, s.objects, ms, retain, i, false, {})
    requires p in s.procs && s.procs[p] == Pruning(before, InOrder(ms[i..]), retain, Read)
    ensures CanRun(s, acts) && forall x | x in acts :: x == Advance(p, STEP)
    ensures var t := Reached(s, acts);
            && t.procs == s.procs - {p} && t.ever == s.ever && t.used == s.used && t.clock == s.clock
            && TailInvariant(before, t.objects, ms, retain, |ms|, false, {})
    decreases |ms| - i
  {
    hide TailInvariant, PrunedOne, OnlyPublished, Surplus, DistinctKeys, Keys, Do, Enabled;
    var a := Advance(p, STEP);
    var none: seq<Action> := [];
    var unfailed: set<string> := {};
    if i == |ms| {
      PrunerAdvances(s, p);
      assert Reached(Do(s, a), none) == Do(s, a);
      First(s, a, none);
      acts := [a] + none;
    } else {
      TailLoads(before, s.objects, ms, retain, i, {});
      var first := VictimGoes(s, p);
      var t := Reached(s, first);
      TailStep(before, s.objects, t.objects, ms, retain, i, {}, false, {});
      assert unfailed + unfailed == unfailed;
      assert InOrder(ms[i..])[1..] == InOrder(ms[i + 1..]);
      var rest := PrunesTheRest(before, t, p, ms, retain, i + 1);
      RunThen(s, first, rest);
      acts := first + rest;
    }
  }

  lemma {:induction false} AnyListing(objects: Objects, ks: set<string>) returns (s: seq<Listed>)
    requires ks <= objects.Keys
    ensures Lists(objects, ks, s)
    decreases |ks|
  {
    if ks == {} {
      s := [];
    } else {
      var k :| k in ks;
      var rest := AnyListing(objects, ks - {k});
      s := [Listed(k, objects[k].modified)] + rest;
    }
  }

  /** A pruner without victims is done at once. */
  lemma NothingToPrune(s: State, p: nat) returns (acts: seq<Action>)
    requires p in s.procs && s.procs[p].Publishing? && s.procs[p].stage == Stage.List && Surplus(s.objects, s.procs[p].retain) == {}
    ensures CanRun(s, acts) && forall x | x in acts :: x.Advance? && x.p == p
    ensures Reached(s, acts) == s.(procs := s.procs - {p})
  {
    hide Surplus, Do, Enabled;
    var none: seq<Action> := [];
    var t := ListedAs(s, p, []);
    PrunerAdvances(t, p);
    var a, b := Advance(p, []), Advance(p, STEP);
    assert Reached(Do(t, b), none) == Do(t, b);
    First(t, b, none);
    First(s, a, [b] + none);
    assert Do(t, b) == s.(procs := s.procs - {p});
    acts := [a] + ([b] + none);
  }

  lemma PrunesSurplus(s: State, p: nat, ms: seq<Listed>) returns (acts: seq<Action>)
    requires OnlyPublished(s.objects)
    requires p in s.procs && s.procs[p].Publishing? && s.procs[p].stage == Stage.List
    requires var retain := s.procs[p].retain;
             && retain < |ms| && DistinctKeys(ms) && Surplus(s.objects, retain) == Keys(ms[retain..])
             && |ManifestKeys(s.objects) - Surplus(s.objects, retain)| == retain <= |ManifestKeys(s.objects)|
    ensures CanRun(s, acts) && forall x | x in acts :: x.Advance? && x.p == p
    ensures var t := Reached(s, acts);
            && t.procs == s.procs - {p} && t.ever == s.ever && t.used == s.used && t.clock == s.clock
            && PruneSafe(s.objects, t.objects, {}, s.procs[p].retain) && PruneExact(s.objects, t.objects, s.procs[p].retain)
  {
    hide OnlyPublished, Surplus, PruneExact, PruneSafe, ManifestKeys, Keys, DistinctKeys, TailInvariant, Do, Enabled;
    var retain, before := s.procs[p].retain, s.objects;
    var order := InOrder(ms[retain..]);
    OrderIsTail(ms[retain..]);
    var t := ListedAs(s, p, order);
    TailStart(before, ms, retain);
    var rest := PrunesTheRest(before, t, p, ms, retain, retain);
    First(s, Advance(p, order), rest);
    acts := [Advance(p, order)] + rest;
    assert t.procs - {p} == s.procs - {p};
    TailEnd(before, Reached(t, rest).objects, ms, retain, |ms|, false, {});
  }

  /** From the listing on. */
  lemma PrunesAlone(s: State, p: nat) returns (acts: seq<Action>)
    requires OnlyPublished(s.objects) && DistinctTimes(s.objects)
    requires p in s.procs && s.procs[p].Publishing? && s.procs[p].stage == Stage.List
    ensures CanRun(s, acts) && forall x | x in acts :: x.Advance? && x.p == p
    ensures var t := Reached(s, acts);
            && t.procs == s.procs - {p} && t.ever == s.ever && t.used == s.used && t.clock == s.clock
            && Shrunk(s.objects, t.objects) && PruneSafe(s.objects, t.objects, {}, s.procs[p].retain)
            && PruneExact(s.objects, t.objects, s.procs[p].retain)
  {
    hide OnlyPublished, DistinctTimes, Surplus, PruneExact, PruneSafe, ManifestKeys, Lists, NewestFirst, DistinctKeys, Keys, Do, Enabled;
    var retain, before := s.procs[p].retain, s.objects;
    SurplusSubset(before, retain);
    var listed := AnyListing(before, ManifestKeys(before));
    SortedListing(before, ManifestKeys(before), listed);
    var ms := SortNewestFirst(listed);
    SurplusIsTail(before, ms, retain);
    if |ms| <= retain {
      acts := NothingToPrune(s, p);
      NothingPruned(before, retain);
      NothingShrinks(before);
    } else {
      ListedOnce(before, ms);
      acts := PrunesSurplus(s, p, ms);
      SafeShrinks(before, Reached(s, acts).objects, {}, retain);
    }
  }

  lemma NothingShrinks(objects: Objects)
    ensures Shrunk(objects, objects)
  {
  }

  lemma OrderIsTail(tail: seq<Listed>)
    ensures forall k :: k in InOrder(tail) <==> k in Keys(tail)
  {
    forall k | k in Keys(tail) ensures k in InOrder(tail) {
      var i :| 0 <= i < |tail| && tail[i].key == k;
      assert InOrder(tail)[i] == k;
    }
  }

  lemma ListedAs(s: State, p: nat, order: seq<string>) returns (t: State)
    requires p in s.procs && s.procs[p].Publishing? && s.procs[p].stage == Stage.List
    requires forall k :: k in order <==> k in Surplus(s.objects, s.procs[p].retain)
    ensures Enabled(s, Advance(p, order)) && t == Do(s, Advance(p, order))
    ensures t == s.(procs := s.procs[p := Pruning(s.objects, order, s.procs[p].retain, Read)])
  {
    hide Surplus;
    t := Do(s, Advance(p, order));
  }

  // ---- a whole publication -------------------------------------------------------------------

  lemma InvariantPublishes(s: State)
    requires Invariant(s)
    ensures OnlyPublished(s.objects) && DistinctTimes(s.objects)
  {
    hide ProcessesOk, OwnIds, ManifestKey, ArchiveKey, Verified, WellFormed, IsManifest, NewerThanAll, DistinctTimes;
  }

  /** The store once the manifest is complete. */
  lemma CommitsAlone(s: State, id: string, c: Content, b: Objects)
    requires NewerThanAll(s.objects, s.clock) && id != ""
    requires b == Archiving(s, id, c)[ManifestKey(id) := Object(Encoded(Begin(id, c)), s.clock + 3)]
    ensures CommittedAs(b, id, Begin(id, c)) && AgreeExcept(s.objects, b, id)
    ensures forall k | k in b :: b[k].modified <= b[ManifestKey(id)].modified
  {
    hide ManifestKey, ArchiveKey, IsManifest;
    KeysInjective(id, id);
    ArchiveKeyNotEmpty(id);
  }

  /** From every state of the protocol, whatever other publishers have left half done: a
      publisher that is left alone gets through; then its checkpoint is the one that
      loads, and of the manifests that were there and its own the newest `retain` are
      left, with what they name. */
  lemma PublishesAlone(s: State, p: nat, id: string, c: Content, retain: nat) returns (acts: seq<Action>)
    requires Invariant(s) && Enabled(s, Start(p, id, c, retain))
    ensures CanRun(s, acts) && forall x | x in acts :: (x.Start? || x.Advance?) && x.p == p
    ensures var t := Reached(s, acts);
            && t.procs == s.procs && id in t.ever && t.ever[id].content == Encoded(Begin(id, c))
            && Load(t.objects, "") == Success(Loaded(Begin(id, c), c))
            && KeepsNewest(s.objects, t.objects, id, retain)
  {
    hide Invariant, Enabled, Do, ManifestKey, ArchiveKey, KeepsNewest, Load, PruneExact, PruneSafe, Shrunk, CommittedAs, AgreeExcept,
      OnlyPublished, DistinctTimes, Archiving;
    StartFacts(s, p, id, c, retain);
    var first := PublishesUpToManifest(s, p, id, c, retain);
    var s1 := Reached(s, first);
    PublisherAdvances(s1, p);
    var close := Advance(p, STEP);
    var s2 := Do(s1, close);
    var b := s2.objects;
    assert b == Archiving(s, id, c)[ManifestKey(id) := Object(Encoded(Begin(id, c)), s.clock + 3)];
    CommitsAlone(s, id, c, b);
    RunKeepsAll(s, first);
    StepKeepsInvariant(s1, close);
    InvariantPublishes(s);
    InvariantPublishes(s2);
    var rest := PrunesAlone(s2, p);
    var t := Reached(s2, rest);
    First(s1, close, rest);
    RunThen(s, first, [close] + rest);
    acts := first + ([close] + rest);
    forall x | x in acts ensures (x.Start? || x.Advance?) && x.p == p {
      if x in first {
        var i :| 0 <= i < |first| && first[i] == x;
      }
    }
    ExactIsRetained(b, t.objects, retain);
    NewestAreKept(s.objects, b, t.objects, id, retain);
    TimesShrink(b, t.objects);
    AfterPrune(b, t.objects, {}, retain, id, Begin(id, c));
    CommittedIsLatest(t.objects, id, Begin(id, c));
  }

  lemma StartFacts(s: State, p: nat, id: string, c: Content, retain: nat)
    requires Invariant(s) && Enabled(s, Start(p, id, c, retain))
    ensures p !in s.procs && id != "" && retain >= 1 && ManifestKey(id) !in s.objects && NewerThanAll(s.objects, s.clock)
  {
  }

  lemma TimesShrink(before: Objects, after: Objects)
    requires DistinctTimes(before) && Shrunk(before, after)
    ensures DistinctTimes(after)
  {
  }
}
