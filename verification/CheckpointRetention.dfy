/** When concurrent publishers keep the newest checkpoint: exactly when no listing
    counts it, or a manifest still being written, among the surplus. */
module CheckpointRetention {
  import opened Basics
  import opened Checkpoints
  import opened CheckpointStore
  import opened CheckpointProtocol

  // ---- ids and keys ------------------------------------------------------------------

  ghost predicate Tracked(s: State) {
    && (forall id | id in s.ever :: id in s.used)
    && (forall p | p in s.procs && s.procs[p].Publishing? :: s.procs[p].m.id in s.used)
    && (forall id | ManifestKey(id) in s.objects :: id in s.used)
    && (forall id | id in s.ever && ManifestKey(id) in s.objects :: s.objects[ManifestKey(id)] == s.ever[id])
    && (forall p | p in s.procs && s.procs[p].Publishing? && s.procs[p].stage != CloseManifest && s.procs[p].stage != List ::
          s.procs[p].m.manifestKey !in s.objects)
    && (forall p | p in s.procs && s.procs[p].Publishing? && s.procs[p].stage == List :: s.procs[p].m.id in s.ever)
    && (forall id | id in s.ever ::
          s.ever[id].content.Encoded? && s.ever[id].content.manifest.id == id && s.ever[id].content.manifest.formatVersion == FORMAT_VERSION)
  }

  /** Manifest keys of different ids, and archive keys, never meet. */
  lemma KeysApart(id: string)
    ensures forall id' | id' != id :: ManifestKey(id') != ManifestKey(id)
    ensures forall id' :: ManifestKey(id') != ArchiveKey(id)
  {
    forall id' ensures id' != id ==> ManifestKey(id') != ManifestKey(id) {
      KeysInjective(id, id');
    }
    forall id' ensures ManifestKey(id') != ArchiveKey(id) {
      KeysInjective(id', id);
    }
  }

  lemma TrackedStart(s: State, a: Action)
    requires Tracked(s) && Enabled(s, a) && !a.Advance?
    ensures Tracked(Do(s, a))
  {
    hide ManifestKey, ArchiveKey;
  }

  lemma TrackedPublisher(s: State, a: Action)
    requires Invariant(s) && Tracked(s) && Enabled(s, a) && a.Advance? && s.procs[a.p].Publishing?
    ensures Tracked(Do(s, a))
  {
    hide ManifestKey, ArchiveKey, MarkersBacked, DistinctTimes, NewerThanAll, Verified, WellFormed, Surplus, IsManifest, FreshId, Tracked;
    var Publishing(stage, m, retain) := s.procs[a.p];
    assert PublisherOk(s, stage, m);
    forall q | q in s.procs && s.procs[q].Publishing? && q != a.p
      ensures s.procs[q].m.id != m.id && s.procs[q].m.manifestKey == ManifestKey(s.procs[q].m.id)
    {
      assert PublisherOk(s, s.procs[q].stage, s.procs[q].m);
    }
    match stage {
      case OpenArchive => TrackedWrite(s, a.p, m.archiveKey, Cut(Archived(m)), CloseArchive, m, retain);
      case CloseArchive => TrackedWrite(s, a.p, m.archiveKey, Archived(m), Verify, m, retain);
      case OpenManifest => TrackedWrite(s, a.p, m.manifestKey, Cut(Encoded(m)), CloseManifest, m, retain);
      case CloseManifest =>
        WellFormedVersion(m);
        TrackedCommit(s, a.p, m, retain);
      case Verify => TrackedMove(s, Do(s, a), a.p);
      case List => TrackedMove(s, Do(s, a), a.p);
    }
  }

  lemma WellFormedVersion(m: Manifest)
    requires WellFormed(m)
    ensures m.formatVersion == FORMAT_VERSION
  {
  }

  /** The others' publications have other ids. */
  ghost predicate OthersApart(s: State, p: nat, m: Manifest) {
    && m.manifestKey == ManifestKey(m.id) && m.archiveKey == ArchiveKey(m.id)
    && forall q | q in s.procs && s.procs[q].Publishing? && q != p ::
         s.procs[q].m.id != m.id && s.procs[q].m.manifestKey == ManifestKey(s.procs[q].m.id)
  }

  lemma TrackedWrite(s: State, p: nat, key: string, c: Content, next: Stage, m: Manifest, retain: nat)
    requires Tracked(s) && p in s.procs && s.procs[p].Publishing? && s.procs[p].m == m && OthersApart(s, p, m)
    requires m.id !in s.ever && s.procs[p].stage != CloseManifest && s.procs[p].stage != List && next != List
    requires key == m.archiveKey || (key == m.manifestKey && next == CloseManifest)
    ensures Tracked(Become(Write(s, key, c), p, Publishing(next, m, retain)))
  {
    hide ManifestKey, ArchiveKey;
    KeysApart(m.id);
  }

  lemma TrackedCommit(s: State, p: nat, m: Manifest, retain: nat)
    requires Tracked(s) && p in s.procs && s.procs[p].Publishing? && s.procs[p].m == m && OthersApart(s, p, m) && m.id !in s.ever
    requires m.formatVersion == FORMAT_VERSION
    ensures Tracked(CheckpointProtocol.Published(s, p, m, retain, CloseManifest, []))
  {
    hide ManifestKey, ArchiveKey;
    KeysApart(m.id);
  }

  lemma TrackedMove(s: State, t: State, p: nat)
    requires Tracked(s) && t.objects == s.objects && t.ever == s.ever && t.used == s.used
    requires forall q | q in t.procs && q != p :: q in s.procs && t.procs[q] == s.procs[q]
    requires p in t.procs && t.procs[p].Publishing? ==>
               p in s.procs && s.procs[p].Publishing? && s.procs[p].m == t.procs[p].m
               && t.procs[p].stage == OpenManifest && s.procs[p].stage == Verify
    ensures Tracked(t)
  {
    hide ManifestKey;
  }

  lemma TrackedPruner(s: State, a: Action)
    requires Tracked(s) && Enabled(s, a) && a.Advance? && s.procs[a.p].Pruning?
    ensures Tracked(Do(s, a))
  {
    hide Tracked, Do, Enabled;
    PrunerOnlyRemoves(s, a);
    TrackedLess(s, Do(s, a));
  }

  lemma PrunerOnlyRemoves(s: State, a: Action)
    requires Enabled(s, a) && a.Advance? && s.procs[a.p].Pruning?
    ensures var t := Do(s, a);
            && t.ever == s.ever && t.used == s.used
            && (forall k | k in t.objects :: k in s.objects && t.objects[k] == s.objects[k])
            && (forall p | p in t.procs && t.procs[p].Publishing? :: p in s.procs && t.procs[p] == s.procs[p])
  {
    hide ManifestKey, ArchiveKey, Verified, WellFormed, FreshId, Surplus, IsManifest;
  }

  lemma TrackedLess(s: State, t: State)
    requires Tracked(s) && t.ever == s.ever && t.used == s.used
    requires forall k | k in t.objects :: k in s.objects && t.objects[k] == s.objects[k]
    requires forall p | p in t.procs && t.procs[p].Publishing? :: p in s.procs && t.procs[p] == s.procs[p]
    ensures Tracked(t)
  {
    hide ManifestKey;
  }

  lemma {:induction false} RunKeepsTracked(ss: seq<State>, acts: seq<Action>, n: nat)
    requires IsRun(ss, acts) && Start0(ss[0]) && n < |ss|
    ensures Tracked(ss[n])
  {
    hide Do, Enabled, Invariant, ManifestKey, DistinctTimes, NewerThanAll, IsManifest;
    if n > 0 {
      RunKeepsTracked(ss, acts, n - 1);
      RunKeepsInvariant(ss, acts, n - 1);
      TrackedStep(ss[n - 1], acts[n - 1]);
    }
  }

  lemma TrackedStep(s: State, a: Action)
    requires Invariant(s) && Tracked(s) && Enabled(s, a)
    ensures Tracked(Do(s, a))
  {
    hide Do, Invariant, Tracked, FreshId;
    if a.Advance? {
      if s.procs[a.p].Publishing? {
        TrackedPublisher(s, a);
      } else {
        TrackedPruner(s, a);
      }
    } else {
      TrackedStart(s, a);
    }
  }

  // ---- safe listings --------------------------------------------------------------------

  /** Somebody is still to complete this manifest. */
  ghost predicate BeingWritten(s: State, k: string) {
    exists p | p in s.procs :: s.procs[p].Publishing? && s.procs[p].stage == CloseManifest && s.procs[p].m.manifestKey == k
  }

  /** Nothing listed as surplus is the newest complete manifest or one still being
      written. Unfinished manifests of crashed publishers may be there, as long as
      fewer than `retain` of them are newer than the newest complete one. */
  ghost predicate SafeListing(s: State, retain: nat) {
    forall k | k in Surplus(s.objects, retain) ::
      if s.objects[k].content.Encoded? then exists k' | k' in Newer(s.objects, k) :: s.objects[k'].content.Encoded?
      else !BeingWritten(s, k)
  }

  ghost predicate ListsSafely(s: State, a: Action) {
    a.Advance? && a.p in s.procs && s.procs[a.p].Publishing? && s.procs[a.p].stage == List ==> SafeListing(s, s.procs[a.p].retain)
  }

  ghost predicate NewestEver(s: State, id: string) {
    id in s.ever && forall id' | id' in s.ever :: s.ever[id'].modified <= s.ever[id].modified
  }

  /** The most recently published manifest is in the store. */
  ghost predicate NewestPresent(s: State) {
    forall id | NewestEver(s, id) :: ManifestKey(id) in s.objects && s.objects[ManifestKey(id)] == s.ever[id]
  }

  /** k is a published manifest older than another published one. */
  ghost predicate Outdated(s: State, k: string) {
    exists id, id' | id in s.ever && id' in s.ever :: k == ManifestKey(id) && s.ever[id].modified < s.ever[id'].modified
  }

  /** k is the manifest of an id that nobody will complete any more. */
  ghost predicate Dead(s: State, k: string) {
    exists id | id in s.used :: k == ManifestKey(id) && id !in s.ever
      && forall p | p in s.procs && s.procs[p].Publishing? :: s.procs[p].m.id != id
  }

  ghost predicate VictimsOutdated(s: State) {
    forall p | p in s.procs && s.procs[p].Pruning? :: forall k | k in s.procs[p].todo :: Outdated(s, k) || Dead(s, k)
  }

  ghost predicate EverOlder(s: State) {
    forall id | id in s.ever :: s.ever[id].modified < s.clock
  }

  lemma ListingIsOutdated(s: State, retain: nat)
    requires Invariant(s) && Tracked(s) && SafeListing(s, retain)
    ensures forall k | k in Surplus(s.objects, retain) :: Outdated(s, k) || Dead(s, k)
  {
    hide WellFormed, Verified, HasPrefix, HasSuffix, ManifestKey, DistinctTimes, NewerThanAll, ProcessesOk, OwnIds, Tracked, BeingWritten;
    forall k | k in Surplus(s.objects, retain) ensures Outdated(s, k) || Dead(s, k) {
      if s.objects[k].content.Encoded? {
        var k' :| k' in Newer(s.objects, k) && s.objects[k'].content.Encoded?;
        var id, id' := s.objects[k].content.manifest.id, s.objects[k'].content.manifest.id;
        assert k == ManifestKey(id) && s.ever[id] == s.objects[k] && s.ever[id'] == s.objects[k'];
      } else {
        TornIsDead(s, k);
      }
    }
  }

  lemma KeyHasId(k: string) returns (id: string)
    requires IsManifest(k)
    ensures k == ManifestKey(id)
  {
    var n := |k| - 5;
    forall j | n <= j < |k| ensures k[j] != '/' {
      assert k[j] == k[n..][j - n] == ".json"[j - n];
    }
    assert k[|DIR| - 1] == DIR[|DIR| - 1] == '/';
    id := k[|DIR|..n];
    assert k[n..] == ".json";
    assert k == DIR + id + ".json";
  }

  /** An unfinished manifest that nobody is writing stays unfinished. */
  lemma TornIsDead(s: State, k: string)
    requires Invariant(s) && Tracked(s) && IsManifest(k) && k in s.objects && !s.objects[k].content.Encoded? && !BeingWritten(s, k)
    ensures Dead(s, k)
  {
    hide ManifestKey, MarkersBacked, DistinctTimes, NewerThanAll, Verified, WellFormed, Surplus, IsManifest;
    var id := KeyHasId(k);
    KeysApart(id);
    assert id in s.used;
    forall p | p in s.procs && s.procs[p].Publishing? ensures s.procs[p].m.id != id {
      assert PublisherOk(s, s.procs[p].stage, s.procs[p].m);
    }
  }

  /** Only a start takes up an id, and only its own publisher completes it. */
  lemma PublishersAfter(s: State, a: Action)
    requires Enabled(s, a)
    ensures var t := Do(s, a);
            && s.used <= t.used
            && (forall p | p in t.procs && t.procs[p].Publishing? ::
                  || (p in s.procs && s.procs[p].Publishing? && s.procs[p].m == t.procs[p].m)
                  || (a.Start? && p == a.p && t.procs[p].m.id == a.id))
            && (forall id | id in t.ever && id !in s.ever :: a.Advance? && s.procs[a.p].Publishing? && id == s.procs[a.p].m.id)
  {
    hide ManifestKey, ArchiveKey, Verified, WellFormed, Surplus, IsManifest, FreshId;
  }

  /** Nobody takes up a dead id. */
  lemma DeadStays(s: State, a: Action, k: string)
    requires Enabled(s, a) && Dead(s, k)
    ensures Dead(Do(s, a), k)
  {
    hide ManifestKey, Do, Surplus;
    PublishersAfter(s, a);
    var id :| id in s.used && k == ManifestKey(id) && id !in s.ever
      && forall p | p in s.procs && s.procs[p].Publishing? :: s.procs[p].m.id != id;
    var t := Do(s, a);
    assert id in t.used && id !in t.ever;
    assert forall p | p in t.procs && t.procs[p].Publishing? :: t.procs[p].m.id != id;
  }

  lemma OutdatedStays(s: State, a: Action, k: string)
    requires Invariant(s) && Enabled(s, a) && Outdated(s, k)
    ensures Outdated(Do(s, a), k)
  {
    hide ManifestKey, ArchiveKey, MarkersBacked, DistinctTimes, NewerThanAll, Verified, WellFormed, Surplus, IsManifest, FreshId;
    var id, id' :| id in s.ever && id' in s.ever && k == ManifestKey(id) && s.ever[id].modified < s.ever[id'].modified;
    var t := Do(s, a);
    EverStays(s, a, id);
    EverStays(s, a, id');
    assert t.ever[id].modified < t.ever[id'].modified;
  }

  lemma EverStays(s: State, a: Action, id: string)
    requires Invariant(s) && Enabled(s, a) && id in s.ever
    ensures id in Do(s, a).ever && Do(s, a).ever[id] == s.ever[id]
  {
    hide ManifestKey, ArchiveKey, MarkersBacked, DistinctTimes, NewerThanAll, Verified, WellFormed, Surplus, IsManifest, FreshId;
    if a.Advance? && s.procs[a.p].Publishing? {
      assert PublisherOk(s, s.procs[a.p].stage, s.procs[a.p].m);
    }
  }

  /** What a pruner still has to do it had to do before, or it was listed just now. */
  lemma TodoFrom(s: State, a: Action, p: nat, k: string)
    requires Enabled(s, a) && p in Do(s, a).procs && Do(s, a).procs[p].Pruning? && k in Do(s, a).procs[p].todo
    ensures p in s.procs
    ensures || (s.procs[p].Pruning? && k in s.procs[p].todo)
            || (a.Advance? && a.p == p && s.procs[p].Publishing? && s.procs[p].stage == List && k in Surplus(s.objects, s.procs[p].retain))
  {
    hide ManifestKey, ArchiveKey, Verified, WellFormed, Surplus, IsManifest, FreshId, ManifestFor;
  }

  lemma VictimsStay(s: State, a: Action)
    requires Invariant(s) && Tracked(s) && Enabled(s, a) && ListsSafely(s, a) && VictimsOutdated(s)
    ensures VictimsOutdated(Do(s, a))
  {
    hide Invariant, Tracked, Do, Surplus, SafeListing, Outdated, Dead;
    var t := Do(s, a);
    forall p, k | p in t.procs && t.procs[p].Pruning? && k in t.procs[p].todo ensures Outdated(t, k) || Dead(t, k) {
      TodoFrom(s, a, p, k);
      if !s.procs[p].Pruning? {
        ListingIsOutdated(s, s.procs[p].retain);
      }
      if Outdated(s, k) {
        OutdatedStays(s, a, k);
      } else {
        DeadStays(s, a, k);
      }
    }
  }

  lemma StepKeepsNewest(s: State, a: Action)
    requires Invariant(s) && Tracked(s) && Enabled(s, a) && ListsSafely(s, a)
    requires NewestPresent(s) && VictimsOutdated(s) && EverOlder(s)
    ensures var t := Do(s, a); NewestPresent(t) && VictimsOutdated(t) && EverOlder(t)
  {
    hide Invariant, Tracked, NewestPresent, VictimsOutdated, EverOlder, FreshId, ListsSafely;
    var t := Do(s, a);
    VictimsStay(s, a);
    if a.Advance? && s.procs[a.p].Publishing? {
      NewestAfterPublisher(s, a, t);
    } else if a.Advance? {
      NewestAfterPruner(s, a, t);
    } else {
      NewestUnmoved(s, t);
    }
  }

  lemma NewestAfterPublisher(s: State, a: Action, t: State)
    requires Invariant(s) && Enabled(s, a) && a.Advance? && s.procs[a.p].Publishing?
    requires NewestPresent(s) && EverOlder(s) && t == Do(s, a)
    ensures NewestPresent(t) && EverOlder(t)
  {
    hide Invariant, Surplus, ManifestKey, ArchiveKey, NewestPresent, EverOlder, Verified, FreshId;
    PublisherFacts(s, a.p);
    var Publishing(stage, m, retain) := s.procs[a.p];
    if stage == List || stage == Verify {
      NewestUnmoved(s, t);
    } else if stage == CloseManifest {
      NewestAfterCommit(s, t, m);
    } else {
      NewestAfterWrite(s, t, m.id);
    }
  }

  lemma VictimIsNotNewest(s: State, p: nat, id: string)
    requires VictimsOutdated(s) && p in s.procs && s.procs[p].Pruning? && s.procs[p].todo != []
    requires NewestEver(s, id)
    ensures ManifestKey(id) != s.procs[p].todo[0]
  {
    hide ManifestKey;
    var k := s.procs[p].todo[0];
    assert k in s.procs[p].todo;
    KeysApart(id);
    if Outdated(s, k) {
      var id1, id2 :| id1 in s.ever && id2 in s.ever && k == ManifestKey(id1) && s.ever[id1].modified < s.ever[id2].modified;
      assert id1 != id;
    } else {
      var id1 :| id1 in s.used && k == ManifestKey(id1) && id1 !in s.ever;
      assert id1 != id;
    }
  }

  lemma NewestAfterPruner(s: State, a: Action, t: State)
    requires Invariant(s) && Enabled(s, a) && a.Advance? && s.procs[a.p].Pruning?
    requires NewestPresent(s) && VictimsOutdated(s) && EverOlder(s) && t == Do(s, a)
    ensures NewestPresent(t) && EverOlder(t)
  {
    hide Invariant, Surplus, ManifestKey, ArchiveKey, NewestPresent, VictimsOutdated, Verified, WellFormed, NewestEver;
    var Pruning(seen, todo, retain, at) := s.procs[a.p];
    if todo != [] && at.Mark? {
      forall id | NewestEver(s, id) ensures ManifestKey(id) != todo[0] {
        VictimIsNotNewest(s, a.p, id);
      }
      NewestAfterDelete(s, t, todo[0]);
    } else if todo != [] && at.Sweep? {
      PrunerFacts(s, a.p);
      KeysApart(at.m.id);
      NewestAfterDelete(s, t, at.m.archiveKey);
    } else {
      NewestUnmoved(s, t);
    }
  }

  lemma NewestAfterDelete(s: State, t: State, gone: string)
    requires NewestPresent(s) && t.ever == s.ever && t.objects == s.objects - {gone}
    requires forall id | NewestEver(s, id) :: ManifestKey(id) != gone
    ensures NewestPresent(t)
  {
    hide ManifestKey;
    forall id | NewestEver(t, id) ensures ManifestKey(id) in t.objects && t.objects[ManifestKey(id)] == t.ever[id] {
      assert NewestEver(s, id);
    }
  }

  lemma {:induction false} NewestStays(ss: seq<State>, acts: seq<Action>, n: nat)
    requires IsRun(ss, acts) && Start0(ss[0]) && n < |ss|
    requires forall i | 0 <= i < |acts| :: ListsSafely(ss[i], acts[i])
    ensures NewestPresent(ss[n]) && VictimsOutdated(ss[n]) && EverOlder(ss[n])
  {
    hide ListsSafely, Enabled, Do, Invariant, Tracked;
    if n > 0 {
      NewestStays(ss, acts, n - 1);
      RunKeepsInvariant(ss, acts, n - 1);
      RunKeepsTracked(ss, acts, n - 1);
      StepKeepsNewest(ss[n - 1], acts[n - 1]);
    }
  }

  /** As long as no listing counts the newest complete manifest, or one still being
      written, among the surplus, concurrent publishers never take the newest
      published checkpoint away: a load without a key gives exactly it. */
  lemma NewestCheckpointLoads(ss: seq<State>, acts: seq<Action>, n: nat, id: string)
    requires IsRun(ss, acts) && Start0(ss[0]) && n < |ss|
    requires forall i | 0 <= i < |acts| :: ListsSafely(ss[i], acts[i])
    requires NewestEver(ss[n], id)
    ensures ss[n].ever[id].content.Encoded?
    ensures Load(ss[n].objects, "") ==
            Success(Loaded(ss[n].ever[id].content.manifest, Archived(ss[n].ever[id].content.manifest)))
  {
    hide Enabled, Do, Invariant, ListsSafely, IsManifest, Verified, WellFormed, DistinctTimes, NewerThanAll, ManifestKey, Load;
    RunKeepsInvariant(ss, acts, n);
    RunKeepsTracked(ss, acts, n);
    NewestStays(ss, acts, n);
    NewestIsValid(ss[n], id);
  }

  lemma PublisherFacts(s: State, p: nat)
    requires Invariant(s) && p in s.procs && s.procs[p].Publishing?
    ensures s.procs[p].retain >= 1
    ensures var m := s.procs[p].m;
            && m.manifestKey == ManifestKey(m.id) && m.archiveKey == ArchiveKey(m.id)
            && (s.procs[p].stage != List ==> m.id !in s.ever)
  {
    hide DistinctTimes, NewerThanAll, MarkersBacked, OwnIds, Verified, WellFormed, ManifestKey, ArchiveKey;
    assert PublisherOk(s, s.procs[p].stage, s.procs[p].m);
  }

  lemma NewestUnmoved(s: State, t: State)
    requires NewestPresent(s) && EverOlder(s) && t.ever == s.ever && t.objects == s.objects && t.clock == s.clock
    ensures NewestPresent(t) && EverOlder(t)
  {
    hide ManifestKey;
    forall id | NewestEver(t, id) ensures NewestEver(s, id) {
    }
  }

  lemma NewestAfterWrite(s: State, t: State, id: string)
    requires NewestPresent(s) && EverOlder(s)
    requires id !in s.ever && t.ever == s.ever && t.clock == s.clock + 1
    requires AgreeExcept(s.objects, t.objects, id)
    ensures NewestPresent(t) && EverOlder(t)
  {
    hide ManifestKey, ArchiveKey;
    forall id' | NewestEver(t, id') ensures ManifestKey(id') in t.objects && t.objects[ManifestKey(id')] == t.ever[id'] {
      assert NewestEver(s, id');
      KeysInjective(id, id');
      KeysInjective(id', id);
    }
  }

  lemma NewestAfterCommit(s: State, t: State, m: Manifest)
    requires EverOlder(s) && m.id !in s.ever && m.manifestKey == ManifestKey(m.id)
    requires t.clock == s.clock + 1 && t.objects == Write(s, m.manifestKey, Encoded(m)).objects
    requires t.ever == s.ever[m.id := t.objects[m.manifestKey]]
    ensures NewestPresent(t) && EverOlder(t)
  {
    hide ManifestKey;
    assert t.ever[m.id].modified == s.clock;
    forall id' | NewestEver(t, id') ensures id' == m.id {
      assert t.ever[m.id].modified <= t.ever[id'].modified;
    }
  }

  lemma PrunerFacts(s: State, p: nat)
    requires Invariant(s) && p in s.procs && s.procs[p].Pruning? && s.procs[p].todo != [] && s.procs[p].at.Sweep?
    ensures s.procs[p].at.m.archiveKey == ArchiveKey(s.procs[p].at.m.id)
  {
    hide DistinctTimes, NewerThanAll, MarkersBacked, OwnIds, Verified, WellFormed, ManifestKey, ArchiveKey, Surplus;
    assert PrunerOk(s, s.procs[p].seen, s.procs[p].todo, s.procs[p].retain, s.procs[p].at);
  }

  lemma NewestIsValid(s: State, id: string)
    requires Invariant(s) && NewestEver(s, id) && NewestPresent(s) && s.ever[id].content.Encoded?
    ensures Load(s.objects, "") == Success(Loaded(s.ever[id].content.manifest, Archived(s.ever[id].content.manifest)))
  {
    hide DistinctTimes, NewerThanAll, HasPrefix, HasSuffix, ProcessesOk, OwnIds, ManifestKey, ArchiveKey;
    var k := ManifestKey(id);
    KeyFacts(id);
    assert k in ValidKeys(s.objects);
    forall k' | k' in ValidKeys(s.objects) ensures s.objects[k'].modified <= s.objects[k].modified {
      assert s.ever[s.objects[k'].content.manifest.id] == s.objects[k'];
    }
    assert IsNewest(s.objects, ValidKeys(s.objects), k);
    NewestIsUnique(s.objects, ValidKeys(s.objects), k);
  }

  // ---- and an unsafe listing can lose it ------------------------------------------------

  ghost predicate CanRun(s: State, acts: seq<Action>)
    decreases |acts|
  {
    acts == [] || (Enabled(s, acts[0]) && CanRun(Do(s, acts[0]), acts[1..]))
  }

  ghost function Reached(s: State, acts: seq<Action>): State
    requires CanRun(s, acts)
    decreases |acts|
  {
    if acts == [] then s else Reached(Do(s, acts[0]), acts[1..])
  }

  lemma First(s: State, a: Action, rest: seq<Action>)
    requires Enabled(s, a) && CanRun(Do(s, a), rest)
    ensures CanRun(s, [a] + rest) && Reached(s, [a] + rest) == Reached(Do(s, a), rest)
  {
    hide Enabled, Do;
    assert ([a] + rest)[1..] == rest;
  }

  lemma {:induction false} RunThen(s: State, xs: seq<Action>, ys: seq<Action>)
    requires CanRun(s, xs) && CanRun(Reached(s, xs), ys)
    ensures CanRun(s, xs + ys) && Reached(s, xs + ys) == Reached(Reached(s, xs), ys)
    decreases |xs|
  {
    hide Enabled, Do;
    if xs == [] {
      assert xs + ys == ys;
    } else {
      assert (xs + ys)[1..] == xs[1..] + ys;
      RunThen(Do(s, xs[0]), xs[1..], ys);
    }
  }

  lemma {:induction false} RunStates(s: State, acts: seq<Action>) returns (ss: seq<State>)
    requires CanRun(s, acts)
    ensures IsRun(ss, acts) && ss[0] == s && ss[|acts|] == Reached(s, acts)
    decreases |acts|
  {
    hide Enabled, Do;
    if acts == [] {
      ss := [s];
    } else {
      var rest := RunStates(Do(s, acts[0]), acts[1..]);
      ss := [s] + rest;
      forall i | 0 <= i < |acts| ensures Enabled(ss[i], acts[i]) && ss[i + 1] == Do(ss[i], acts[i]) {
        if i > 0 {
          assert acts[i] == acts[1..][i - 1] && ss[i] == rest[i - 1] && ss[i + 1] == rest[i];
        }
      }
    }
  }

  lemma {:induction false} RunKeepsAll(s: State, acts: seq<Action>)
    requires Invariant(s) && CanRun(s, acts)
    ensures Invariant(Reached(s, acts))
    decreases |acts|
  {
    hide Invariant, Enabled, Do;
    if acts != [] {
      StepKeepsInvariant(s, acts[0]);
      RunKeepsAll(Do(s, acts[0]), acts[1..]);
    }
  }

  /** The elements of a set in an order that begins with k. */
  lemma {:induction false} OrderFrom(ks: set<string>, k: string) returns (order: seq<string>)
    requires k in ks
    ensures order != [] && order[0] == k && forall x :: x in order <==> x in ks
    decreases |ks|
  {
    var rest := ks - {k};
    if rest == {} {
      order := [k];
    } else {
      var k' :| k' in rest;
      var others := OrderFrom(rest, k');
      order := [k] + others;
    }
  }

  const STEP: seq<string> := []

  /** A pruner whose next victim is a complete manifest takes it away. */
  lemma FirstVictimGoes(s: State, p: nat) returns (acts: seq<Action>)
    requires Invariant(s) && p in s.procs && s.procs[p].Pruning? && s.procs[p].todo != [] && s.procs[p].at == Read
    requires s.procs[p].todo[0] in s.objects && s.objects[s.procs[p].todo[0]].content.Encoded? && IsManifest(s.procs[p].todo[0])
    ensures CanRun(s, acts) && forall x | x in acts :: !x.Start?
    ensures var t := Reached(s, acts); t.objects == s.objects - {s.procs[p].todo[0]} && t.ever == s.ever
  {
    hide Surplus, ManifestKey, ArchiveKey, DistinctTimes, NewerThanAll, Verified, WellFormed, IsManifest, ProcessesOk, OwnIds;
    var Pruning(seen, todo, retain, at) := s.procs[p];
    var m := s.objects[todo[0]].content.manifest;
    var a := Advance(p, STEP);
    var s1 := Do(s, a);
    assert s1 == Become(s, p, Pruning(seen, todo, retain, Check(m)));
    var s2 := Do(s1, a);
    assert s2 == Become(s1, p, Pruning(seen, todo, retain, Mark(Some(m))));
    var s3 := Do(s2, a);
    assert s3.objects == s.objects - {todo[0]} && s3.ever == s.ever;
    acts := ThreeSteps(s, a);
  }

  lemma ThreeSteps(s: State, a: Action) returns (acts: seq<Action>)
    requires Enabled(s, a) && Enabled(Do(s, a), a) && Enabled(Do(Do(s, a), a), a)
    ensures CanRun(s, acts) && Reached(s, acts) == Do(Do(Do(s, a), a), a) && forall x | x in acts :: x == a
  {
    hide Enabled, Do;
    var none: seq<Action> := [];
    var s2 := Do(Do(s, a), a);
    assert Reached(Do(s2, a), none) == Do(s2, a);
    First(s2, a, none);
    First(Do(s, a), a, [a] + none);
    First(s, a, [a] + ([a] + none));
    acts := [a] + ([a] + ([a] + none));
  }

  lemma NewestExistsEver(s: State, id0: string) returns (id: string)
    requires id0 in s.ever
    ensures NewestEver(s, id)
  {
    id := NewestAmong(s, s.ever.Keys, id0);
  }

  lemma {:induction false} NewestAmong(s: State, ids: set<string>, id0: string) returns (id: string)
    requires id0 in ids && ids <= s.ever.Keys
    ensures id in ids && forall x | x in ids :: s.ever[x].modified <= s.ever[id].modified
    decreases |ids|
  {
    var rest := ids - {id0};
    id := id0;
    assert forall z | z in ids :: z == id0 || z in rest;
    if rest != {} {
      var x :| x in rest;
      var y := NewestAmong(s, rest, x);
      if s.ever[id0].modified < s.ever[y].modified {
        id := y;
      }
    }
  }

  /** The newest manifest is gone: a load gives something else or nothing. */
  ghost predicate NewestLost(s: State) {
    exists id :: NewestEver(s, id) && ManifestKey(id) !in s.objects
  }

  lemma LostIsNotLoaded(s: State, id: string)
    requires Invariant(s) && Tracked(s) && NewestEver(s, id) && ManifestKey(id) !in s.objects
    ensures Load(s.objects, "") != Success(Loaded(s.ever[id].content.manifest, Archived(s.ever[id].content.manifest)))
  {
    hide DistinctTimes, NewerThanAll, ManifestKey, ProcessesOk, OwnIds, HasPrefix, HasSuffix;
    if ValidKeys(s.objects) != {} {
      var k := Newest(s.objects, ValidKeys(s.objects));
      assert k == ManifestKey(s.objects[k].content.manifest.id);
    }
  }

  /** A complete manifest listed as surplus with no complete one newer is the newest. */
  lemma SurplusNewest(s: State, k: string) returns (id: string)
    requires Invariant(s) && Tracked(s) && NewestPresent(s) && IsManifest(k) && k in s.objects && s.objects[k].content.Encoded?
    requires forall k' | k' in Newer(s.objects, k) :: !s.objects[k'].content.Encoded?
    ensures NewestEver(s, id) && k == ManifestKey(id)
  {
    hide ManifestKey, DistinctTimes, NewerThanAll, ProcessesOk, OwnIds, HasPrefix, HasSuffix, Verified, WellFormed;
    id := s.objects[k].content.manifest.id;
    var top := NewestExistsEver(s, id);
    KeyFacts(top);
    assert ManifestKey(top) in s.objects && s.objects[ManifestKey(top)] == s.ever[top];
    assert s.ever[id] == s.objects[k];
    assert ManifestKey(top) !in Newer(s.objects, k);
  }

  /** The other half: from a listing that is not safe the run can go on so that the
      newest published checkpoint is gone. */
  lemma UnsafeListingLosesNewest(s: State, p: nat) returns (acts: seq<Action>)
    requires Invariant(s) && Tracked(s) && NewestPresent(s) && EverOlder(s)
    requires p in s.procs && s.procs[p].Publishing? && s.procs[p].stage == List && !SafeListing(s, s.procs[p].retain)
    ensures CanRun(s, acts) && NewestLost(Reached(s, acts))
  {
    hide Invariant, Tracked, NewestPresent, EverOlder, Surplus, Do, Enabled, ManifestKey;
    var retain := s.procs[p].retain;
    var k := UnsafeVictim(s, retain);
    var order := OrderFrom(Surplus(s.objects, retain), k);
    var list := Advance(p, order);
    Listed(s, p, order);
    var s1 := Do(s, list);
    StepKeepsInvariant(s, list);
    if s.objects[k].content.Encoded? {
      var id := SurplusNewest(s, k);
      acts := FirstVictimGoes(s1, p);
      LostStays(s, Reached(s1, acts), id);
    } else {
      var q :| q in s.procs && s.procs[q].Publishing? && s.procs[q].stage == CloseManifest && s.procs[q].m.manifestKey == k;
      var close := Advance(q, STEP);
      Closed(s, s1, p, q, k);
      var s2 := Do(s1, close);
      StepKeepsInvariant(s1, close);
      acts := FirstVictimGoes(s2, p);
      LostStays(s2, Reached(s2, acts), s.procs[q].m.id);
      First(s1, close, acts);
      acts := [close] + acts;
    }
    First(s, list, acts);
    acts := [list] + acts;
  }

  lemma UnsafeVictim(s: State, retain: nat) returns (k: string)
    requires !SafeListing(s, retain)
    ensures k in Surplus(s.objects, retain) && k in s.objects && IsManifest(k)
    ensures if s.objects[k].content.Encoded? then forall k' | k' in Newer(s.objects, k) :: !s.objects[k'].content.Encoded?
            else BeingWritten(s, k)
  {
    hide BeingWritten, IsManifest;
    k :| k in Surplus(s.objects, retain) &&
      !(if s.objects[k].content.Encoded? then exists k' | k' in Newer(s.objects, k) :: s.objects[k'].content.Encoded?
        else !BeingWritten(s, k));
  }

  lemma Listed(s: State, p: nat, order: seq<string>)
    requires p in s.procs && s.procs[p].Publishing? && s.procs[p].stage == List
    requires forall k :: k in order <==> k in Surplus(s.objects, s.procs[p].retain)
    ensures Enabled(s, Advance(p, order))
    ensures Do(s, Advance(p, order)) == Become(s, p, Pruning(s.objects, order, s.procs[p].retain, Read))
  {
    hide Surplus;
  }

  /** The manifest is completed after it was listed; it is then the newest. */
  lemma Closed(s: State, s1: State, p: nat, q: nat, k: string)
    requires Invariant(s) && EverOlder(s) && p in s.procs && p != q && p in s1.procs && s1.procs[p].Pruning?
    requires s1 == Become(s, p, s1.procs[p])
    requires q in s.procs && s.procs[q].Publishing? && s.procs[q].stage == CloseManifest && s.procs[q].m.manifestKey == k
    ensures Enabled(s1, Advance(q, STEP))
    ensures var s2 := Do(s1, Advance(q, STEP));
            && s2.procs[p] == s1.procs[p] && p in s2.procs && k in s2.objects && s2.objects[k].content.Encoded?
            && NewestEver(s2, s.procs[q].m.id) && k == ManifestKey(s.procs[q].m.id)
  {
    hide MarkersBacked, DistinctTimes, NewerThanAll, Verified, WellFormed, IsManifest, Surplus, ManifestKey, ArchiveKey;
    assert PublisherOk(s, CloseManifest, s.procs[q].m);
  }

  lemma LostStays(s: State, t: State, id: string)
    requires NewestEver(s, id) && t.ever == s.ever && t.objects == s.objects - {ManifestKey(id)}
    ensures NewestLost(t)
  {
    hide ManifestKey;
    assert NewestEver(t, id) && ManifestKey(id) !in t.objects;
  }

  // ---- such a run ---------------------------------------------------------------------------

  /** An empty store. */
  const NOTHING := State(map[], 1, map[], map[], {})

  function Archiving(s: State, id: string, c: Content): Objects {
    s.objects[ArchiveKey(id) := Object(c, s.clock + 1)][ManifestKey(id) := Object(Cut(Encoded(Begin(id, c))), s.clock + 2)]
  }

  lemma PublisherAdvances(s: State, p: nat)
    requires p in s.procs && s.procs[p].Publishing? && s.procs[p].stage != List
    ensures Enabled(s, Advance(p, STEP))
    ensures Do(s, Advance(p, STEP)) == CheckpointProtocol.Published(s, p, s.procs[p].m, s.procs[p].retain, s.procs[p].stage, STEP)
  {
    hide CheckpointProtocol.Published;
  }

  lemma FourSteps(s: State, a: Action) returns (acts: seq<Action>)
    requires Enabled(s, a) && Enabled(Do(s, a), a) && Enabled(Do(Do(s, a), a), a) && Enabled(Do(Do(Do(s, a), a), a), a)
    ensures CanRun(s, acts) && Reached(s, acts) == Do(Do(Do(Do(s, a), a), a), a) && forall x | x in acts :: x == a
  {
    hide Enabled, Do;
    var tail := ThreeSteps(Do(s, a), a);
    First(s, a, tail);
    acts := [a] + tail;
  }

  /** From the start to the verified archive. */
  lemma ArchivesFirst(s: State, p: nat, m: Manifest, retain: nat)
    requires p in s.procs && s.procs[p] == Publishing(OpenArchive, m, retain)
    requires m.sha256.Some? && Size(m.sha256.value) == m.sizeBytes
    ensures var a := Advance(p, STEP);
            && Enabled(s, a) && Enabled(Do(s, a), a) && Enabled(Do(Do(s, a), a), a)
            && var t := Do(Do(Do(s, a), a), a);
               && t.objects == s.objects[m.archiveKey := Object(m.sha256.value, s.clock + 1)] && t.clock == s.clock + 2
               && t.ever == s.ever && t.used == s.used && t.procs == s.procs[p := Publishing(OpenManifest, m, retain)]
  {
    hide Do, Enabled;
    var a := Advance(p, STEP);
    PublisherAdvances(s, p);
    var s1 := Do(s, a);
    PublisherAdvances(s1, p);
    var s2 := Do(s1, a);
    assert s2.objects == s.objects[m.archiveKey := Object(m.sha256.value, s.clock + 1)];
    PublisherAdvances(s2, p);
  }

  /** A publication up to the opened manifest. */
  lemma PublishesUpToManifest(s: State, p: nat, id: string, c: Content, retain: nat) returns (acts: seq<Action>)
    requires Enabled(s, Start(p, id, c, retain))
    ensures CanRun(s, acts) && forall i | 0 <= i < |acts| && acts[i].Start? :: acts[i].retain == retain
    ensures forall i | 0 <= i < |acts| :: (acts[i].Start? || acts[i].Advance?) && acts[i].p == p
    ensures var t := Reached(s, acts);
            && t.objects == Archiving(s, id, c) && t.clock == s.clock + 3 && t.ever == s.ever
            && t.procs == s.procs[p := Publishing(CloseManifest, Begin(id, c), retain)] && t.used == s.used + {id}
  {
    hide ManifestKey, ArchiveKey, Enabled, Do;
    var start, a := Start(p, id, c, retain), Advance(p, STEP);
    var m := Begin(id, c);
    Started(s, start);
    var s0 := Do(s, start);
    ArchivesFirst(s0, p, m, retain);
    var s3 := Do(Do(Do(s0, a), a), a);
    PublisherAdvances(s3, p);
    var tail := FourSteps(s0, a);
    First(s, start, tail);
    acts := [start] + tail;
    forall i | 0 < i < |acts| ensures acts[i] == a {
      assert acts[i] == tail[i - 1] && tail[i - 1] in tail;
    }
    var t := Reached(s, acts);
    assert t.procs == s.procs[p := Publishing(CloseManifest, m, retain)];
    assert t.objects == Archiving(s, id, c);
  }

  lemma Started(s: State, a: Action)
    requires a.Start? && Enabled(s, a)
    ensures Do(s, a) == Become(s.(used := s.used + {a.id}), a.p, Publishing(OpenArchive, Begin(a.id, a.c), a.retain))
  {
  }

  /** The store after the first publisher completed its manifest, and after the second
      opened its own. */
  ghost predicate OneComplete(s: State, c: Content) {
    && s.objects == Archiving(NOTHING, "a", c)[ManifestKey("a") := Object(Encoded(Begin("a", c)), 4)]
    && s.clock == 5 && s.used == {"a"} && s.procs == map[0 := Publishing(List, Begin("a", c), 1)]
    && s.ever == map["a" := Object(Encoded(Begin("a", c)), 4)]
  }

  ghost predicate OneTorn(s: State, c: Content) {
    && s.objects == Archiving(NOTHING, "a", c)[ManifestKey("a") := Object(Encoded(Begin("a", c)), 4)]
                    [ArchiveKey("b") := Object(c, 6)][ManifestKey("b") := Object(Cut(Encoded(Begin("b", c))), 7)]
    && 0 in s.procs && s.procs[0] == Publishing(List, Begin("a", c), 1)
  }

  lemma KeysOfAAndB()
    ensures |{ManifestKey("a"), ManifestKey("b"), ArchiveKey("a"), ArchiveKey("b")}| == 4
    ensures ManifestKey("a") != ManifestKey("b") && ArchiveKey("a") != ArchiveKey("b")
    ensures forall id, id' :: ManifestKey(id) != ArchiveKey(id')
    ensures forall id :: IsManifest(ManifestKey(id)) && !IsLegacy(ManifestKey(id)) && !IsManifest(ArchiveKey(id)) && !IsLegacy(ArchiveKey(id))
  {
    hide ManifestKey, ArchiveKey, IsManifest, IsLegacy;
    KeysInjective("a", "b");
    forall id, id' ensures ManifestKey(id) != ArchiveKey(id') {
      KeysInjective(id, id');
    }
    forall id ensures IsManifest(ManifestKey(id)) && !IsLegacy(ManifestKey(id)) && !IsManifest(ArchiveKey(id)) && !IsLegacy(ArchiveKey(id)) {
      KeyFacts(id);
    }
  }

  lemma TornIsSurplus(s: State, c: Content)
    requires OneTorn(s, c)
    ensures Surplus(s.objects, 1) == {ManifestKey("a")}
  {
    hide ManifestKey, ArchiveKey, IsManifest;
    KeysOfAAndB();
    assert Newer(s.objects, ManifestKey("a")) == {ManifestKey("b")};
    assert Newer(s.objects, ManifestKey("b")) == {};
  }

  lemma NothingLeftToLoad(s: State, c: Content)
    requires OneTorn(s, c)
    ensures Load(s.objects - {ManifestKey("a")}, "").Failure?
  {
    hide ManifestKey, ArchiveKey, IsManifest, IsLegacy, Verified, WellFormed;
    KeysOfAAndB();
    var objects := s.objects - {ManifestKey("a")};
    assert ValidKeys(objects) == {} && LegacyKeys(objects) == {};
  }

  lemma OneLoads(s: State, c: Content)
    requires OneComplete(s, c)
    ensures Load(s.objects, "").Success?
  {
    hide ManifestKey, ArchiveKey, IsManifest, IsLegacy;
    KeysOfAAndB();
    ArchiveKeyNotEmpty("a");
    assert ManifestKey("a") in ValidKeys(s.objects);
  }

  lemma ArchiveKeyNotEmpty(id: string)
    ensures ArchiveKey(id) != ""
  {
  }

  lemma FirstCompletes(c: Content) returns (acts: seq<Action>)
    ensures CanRun(NOTHING, acts) && OneComplete(Reached(NOTHING, acts), c)
    ensures forall i | 0 <= i < |acts| && acts[i].Start? :: acts[i].retain == 1
  {
    hide ManifestKey, ArchiveKey, Do, Enabled;
    NothingMayStart(c);
    var open := PublishesUpToManifest(NOTHING, 0, "a", c, 1);
    var s1 := Reached(NOTHING, open);
    FirstCloses(s1, c);
    var close := Advance(0, STEP);
    var none: seq<Action> := [];
    assert Reached(Do(s1, close), none) == Do(s1, close);
    First(s1, close, none);
    RunThen(NOTHING, open, [close] + none);
    acts := open + ([close] + none);
  }

  lemma NothingMayStart(c: Content)
    ensures Enabled(NOTHING, Start(0, "a", c, 1))
  {
  }

  lemma FirstCloses(s: State, c: Content)
    requires s.objects == Archiving(NOTHING, "a", c) && s.clock == 4 && s.ever == map[] && s.used == {"a"}
    requires s.procs == map[0 := Publishing(CloseManifest, Begin("a", c), 1)]
    ensures Enabled(s, Advance(0, STEP)) && OneComplete(Do(s, Advance(0, STEP)), c)
  {
    hide ManifestKey, ArchiveKey, Do, Enabled;
    PublisherAdvances(s, 0);
  }

  lemma SecondOpens(s: State, c: Content) returns (acts: seq<Action>)
    requires OneComplete(s, c)
    ensures CanRun(s, acts) && OneTorn(Reached(s, acts), c)
    ensures forall i | 0 <= i < |acts| && acts[i].Start? :: acts[i].retain == 1
  {
    hide ManifestKey, ArchiveKey, Do;
    KeysOfAAndB();
    acts := PublishesUpToManifest(s, 1, "b", c, 1);
  }

  lemma FirstLists(s: State, c: Content) returns (acts: seq<Action>)
    requires OneTorn(s, c) && Invariant(s)
    ensures CanRun(s, acts) && Load(Reached(s, acts).objects, "").Failure?
    ensures forall i | 0 <= i < |acts| :: !acts[i].Start?
  {
    hide ManifestKey, ArchiveKey, Do, Enabled, Invariant, Surplus, IsManifest, Load;
    TornIsSurplus(s, c);
    KeysOfAAndB();
    var list := Advance(0, [ManifestKey("a")]);
    Listed(s, 0, [ManifestKey("a")]);
    StepKeepsInvariant(s, list);
    var rest := FirstVictimGoes(Do(s, list), 0);
    First(s, list, rest);
    acts := [list] + rest;
    NothingLeftToLoad(s, c);
  }

  lemma NothingIsStart()
    ensures Start0(NOTHING) && Invariant(NOTHING)
  {
  }

  /** With retain 1 and two publishers the protocol itself gets there: the second one
      opens its manifest after the first has completed its own and before it lists;
      the first one's listing counts the only checkpoint as surplus, and afterwards
      there is nothing to load. */
  lemma RetainOneLosesTheOnlyCheckpoint() returns (ss: seq<State>, acts: seq<Action>, loaded: nat)
    ensures IsRun(ss, acts) && Start0(ss[0])
    ensures forall i | 0 <= i < |acts| && acts[i].Start? :: acts[i].retain == 1
    ensures loaded < |acts| && Load(ss[loaded].objects, "").Success? && Load(ss[|acts|].objects, "").Failure?
  {
    hide OneComplete, OneTorn, Invariant, Do, Enabled, Load, Start0;
    var c := Other(0);
    NothingIsStart();
    var first := FirstCompletes(c);
    var s1 := Reached(NOTHING, first);
    OneLoads(s1, c);
    var second := SecondOpens(s1, c);
    RunThen(NOTHING, first, second);
    var s2 := Reached(s1, second);
    RunKeepsAll(NOTHING, first + second);
    var lists := FirstLists(s2, c);
    RunThen(s1, second, lists);
    var before := RunStates(NOTHING, first);
    var after := RunStates(s1, second + lists);
    acts := first + (second + lists);
    ss := before + after[1..];
    loaded := |first|;
    forall i | 0 <= i < |acts| ensures Enabled(ss[i], acts[i]) && ss[i + 1] == Do(ss[i], acts[i]) {
      if i >= |first| {
        assert acts[i] == (second + lists)[i - |first|];
        assert ss[i] == after[i - |first|] && ss[i + 1] == after[i + 1 - |first|];
      }
    }
    if lists == [] {
      assert s2 == Reached(s1, second + lists);
    }
  }
}
