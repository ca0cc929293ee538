/** Several publishers at once (the periodic loop and `checkpoint-once` of
    `internal/podruntime/podruntime.go`), each crashing anywhere, interleaved at
    the granularity of single store operations. A Put is two steps: opening the
    object leaves it cut, closing it makes it whole. */
module CheckpointProtocol {
  import opened Basics
  import opened Checkpoints
  import opened CheckpointStore

  datatype Stage = OpenArchive | CloseArchive | Verify | OpenManifest | CloseManifest | List

  /** Inside the retention loop: about to read the next manifest, to check its
      archive, to delete the marker, or to delete the archive. */
  datatype Cursor = Read | Check(m: Manifest) | Mark(got: Option<Manifest>) | Sweep(m: Manifest)

  datatype Process =
    | Publishing(stage: Stage, m: Manifest, retain: nat)
    | Pruning(seen: Objects, todo: seq<string>, retain: nat, at: Cursor)

  /** `ever` remembers every manifest whose write was completed, with its time;
      `used` the ids taken so far. */
  datatype State = State(objects: Objects, clock: nat, procs: map<nat, Process>, ever: map<string, Object>, used: set<string>)

  /** `Skip` is a deletion that reports an error and does nothing. */
  datatype Action = Start(p: nat, id: string, c: Content, retain: nat) | Advance(p: nat, order: seq<string>) | Skip(p: nat) | Crash(p: nat)

  /** The archive bytes a publication writes. */
  function Archived(m: Manifest): Content {
    if m.sha256.Some? then m.sha256.value else Other(0)
  }

  function Begin(id: string, c: Content): Manifest { ManifestFor(id, "", "", c) }

  /** Distinct publications use distinct checkpoint ids. */
  ghost predicate FreshId(s: State, id: string) {
    && id != "" && id !in s.ever && id !in s.used
    && ManifestKey(id) !in s.objects && ArchiveKey(id) !in s.objects
    && forall q | q in s.procs && s.procs[q].Publishing? :: s.procs[q].m.id != id
  }

  ghost predicate Enabled(s: State, a: Action) {
    match a
    case Start(p, id, c, retain) => p !in s.procs && FreshId(s, id) && retain >= 1
    case Advance(p, order) =>
      && p in s.procs
      && (s.procs[p].Publishing? && s.procs[p].stage == List ==>
            forall k :: k in order <==> k in Surplus(s.objects, s.procs[p].retain))
    case Skip(p) => p in s.procs && s.procs[p].Pruning? && s.procs[p].todo != [] && HarmlessToSkip(s.procs[p].at)
    case Crash(p) => p in s.procs
  }

  /** Any deletion but that of the marker of a manifest that loads: its archive is
      deleted next even if the marker stays. */
  predicate HarmlessToSkip(at: Cursor) {
    at.Sweep? || at == Mark(None)
  }

  function Write(s: State, key: string, c: Content): State {
    s.(objects := s.objects[key := Object(c, s.clock)], clock := s.clock + 1)
  }

  function Become(s: State, p: nat, q: Process): State {
    s.(procs := s.procs[p := q])
  }

  function Leave(s: State, p: nat): State {
    s.(procs := s.procs - {p})
  }

  ghost function Published(s: State, p: nat, m: Manifest, retain: nat, stage: Stage, order: seq<string>): State {
    match stage
    case OpenArchive => Become(Write(s, m.archiveKey, Cut(Archived(m))), p, Publishing(CloseArchive, m, retain))
    case CloseArchive => Become(Write(s, m.archiveKey, Archived(m)), p, Publishing(Verify, m, retain))
    case Verify => if Verified(s.objects, m) then Become(s, p, Publishing(OpenManifest, m, retain)) else Leave(s, p)
    case OpenManifest => Become(Write(s, m.manifestKey, Cut(Encoded(m))), p, Publishing(CloseManifest, m, retain))
    case CloseManifest =>
      var t := Write(s, m.manifestKey, Encoded(m));
      Become(t.(ever := t.ever[m.id := t.objects[m.manifestKey]]), p, Publishing(List, m, retain))
    case List => Become(s, p, Pruning(s.objects, order, retain, Read))
  }

  function Pruned(s: State, p: nat, seen: Objects, todo: seq<string>, retain: nat, at: Cursor): State {
    if todo == [] then Leave(s, p)
    else
      var key := todo[0];
      match at
      case Read =>
        if key in s.objects && s.objects[key].content.Encoded? && WellFormed(s.objects[key].content.manifest)
        then Become(s, p, Pruning(seen, todo, retain, Check(s.objects[key].content.manifest)))
        else Become(s, p, Pruning(seen, todo, retain, Mark(None)))
      case Check(m) =>
        Become(s, p, Pruning(seen, todo, retain, Mark(if Verified(s.objects, m) then Some(m) else None)))
      case Mark(got) =>
        var t := s.(objects := s.objects - {key});
        if got.Some? then Become(t, p, Pruning(seen, todo, retain, Sweep(got.value)))
        else Become(t, p, Pruning(seen, todo[1..], retain, Read))
      case Sweep(m) =>
        Become(s.(objects := s.objects - {m.archiveKey}), p, Pruning(seen, todo[1..], retain, Read))
  }

  ghost function Do(s: State, a: Action): State
    requires Enabled(s, a)
  {
    match a
    case Start(p, id, c, retain) => Become(s.(used := s.used + {id}), p, Publishing(OpenArchive, Begin(id, c), retain))
    case Crash(p) => Leave(s, p)
    case Skip(p) => Become(s, p, Pruning(s.procs[p].seen, s.procs[p].todo[1..], s.procs[p].retain, Read))
    case Advance(p, order) =>
      match s.procs[p]
      case Publishing(stage, m, retain) => Published(s, p, m, retain, stage, order)
      case Pruning(seen, todo, retain, at) => Pruned(s, p, seen, todo, retain, at)
  }

  // ---- the invariant -----------------------------------------------------------

  /** m names its own keys and was completely written at some time. */
  ghost predicate Known(s: State, m: Manifest) {
    && m.id in s.ever && s.ever[m.id].content == Encoded(m)
    && m.manifestKey == ManifestKey(m.id) && m.archiveKey == ArchiveKey(m.id) && WellFormed(m)
  }

  /** Every visible complete manifest has its archive, whole, beside it. */
  ghost predicate MarkersBacked(s: State) {
    forall k | k in s.objects && IsManifest(k) && s.objects[k].content.Encoded? ::
      var m := s.objects[k].content.manifest;
      k == ManifestKey(m.id) && Known(s, m) && Verified(s.objects, m) && s.ever[m.id] == s.objects[k]
  }

  ghost predicate PublisherOk(s: State, stage: Stage, m: Manifest) {
    && m.manifestKey == ManifestKey(m.id) && m.archiveKey == ArchiveKey(m.id) && WellFormed(m)
    && (stage != List ==> m.id !in s.ever)
    && (stage == OpenManifest || stage == CloseManifest ==> Verified(s.objects, m))
  }

  ghost predicate PrunerOk(s: State, seen: Objects, todo: seq<string>, retain: nat, at: Cursor) {
    && (forall k | k in todo :: k in Surplus(seen, retain))
    && (todo != [] ==>
          match at
          case Read => true
          case Check(m) => Known(s, m) && todo[0] == ManifestKey(m.id)
          case Mark(got) => got.Some? ==> Known(s, got.value) && todo[0] == ManifestKey(got.value.id)
          case Sweep(m) => Known(s, m) && ManifestKey(m.id) !in s.objects)
  }

  ghost predicate ProcessesOk(s: State) {
    forall p | p in s.procs ::
      match s.procs[p]
      case Publishing(stage, m, retain) => retain >= 1 && PublisherOk(s, stage, m)
      case Pruning(seen, todo, retain, at) => retain >= 1 && PrunerOk(s, seen, todo, retain, at)
  }

  ghost predicate OwnIds(s: State) {
    forall p, q | p in s.procs && q in s.procs && p != q && s.procs[p].Publishing? && s.procs[q].Publishing? ::
      s.procs[p].m.id != s.procs[q].m.id
  }

  ghost predicate Invariant(s: State) {
    && DistinctTimes(s.objects) && NewerThanAll(s.objects, s.clock)
    && MarkersBacked(s) && ProcessesOk(s) && OwnIds(s)
  }

  // ---- every step keeps it -------------------------------------------------------

  lemma ProcessStep(s: State, t: State, p: nat)
    requires Invariant(s) && t.objects == s.objects && t.clock == s.clock && t.ever == s.ever
    requires forall q | q in t.procs && q != p :: q in s.procs && t.procs[q] == s.procs[q]
    requires p in t.procs ==>
               match t.procs[p]
               case Publishing(stage, m, retain) => retain >= 1 && PublisherOk(t, stage, m)
               case Pruning(seen, todo, retain, at) => retain >= 1 && PrunerOk(t, seen, todo, retain, at)
    requires p in t.procs && t.procs[p].Publishing? ==>
               forall q | q in s.procs && q != p && s.procs[q].Publishing? :: s.procs[q].m.id != t.procs[p].m.id
    ensures Invariant(t)
  {
    hide DistinctTimes, NewerThanAll, IsManifest, Verified, WellFormed, ManifestKey, ArchiveKey, Surplus;
  }

  lemma WriteTimes(s: State, key: string, c: Content)
    requires DistinctTimes(s.objects) && NewerThanAll(s.objects, s.clock)
    ensures DistinctTimes(Write(s, key, c).objects) && NewerThanAll(Write(s, key, c).objects, Write(s, key, c).clock)
  {
  }

  /** A publisher's write touches nothing the others rely on. */
  lemma OwnWrite(s: State, p: nat, key: string, c: Content, t: State, stage: Stage)
    requires Invariant(s) && p in s.procs && s.procs[p].Publishing? && s.procs[p].stage != List
    requires var m := s.procs[p].m;
             && (key == ArchiveKey(m.id) || (key == ManifestKey(m.id) && !c.Encoded?))
             && t == Become(Write(s, key, c), p, s.procs[p].(stage := stage))
             && PublisherOk(t, stage, m)
    ensures Invariant(t)
  {
    hide DistinctTimes, NewerThanAll, IsManifest, WellFormed, ManifestKey, ArchiveKey, Surplus;
    var id := s.procs[p].m.id;
    WriteTimes(s, key, c);
    KeyFacts(id);
    forall id' ensures id' != id ==> ManifestKey(id') != key && ArchiveKey(id') != key {
      KeysInjective(id, id');
      KeysInjective(id', id);
    }
    forall q | q in t.procs && q != p && t.procs[q].Publishing?
      ensures PublisherOk(t, t.procs[q].stage, t.procs[q].m)
    {
      assert t.procs[q] == s.procs[q];
    }
  }

  lemma CommitStep(s: State, p: nat, t: State)
    requires Invariant(s) && p in s.procs && s.procs[p].Publishing? && s.procs[p].stage == CloseManifest
    requires t == Published(s, p, s.procs[p].m, s.procs[p].retain, CloseManifest, [])
    ensures Invariant(t)
  {
    hide DistinctTimes, NewerThanAll, IsManifest, WellFormed, ManifestKey, ArchiveKey, Surplus;
    var m := s.procs[p].m;
    WriteTimes(s, m.manifestKey, Encoded(m));
    KeyFacts(m.id);
    KeysInjective(m.id, m.id);
    forall id' ensures id' != m.id ==> ManifestKey(id') != m.manifestKey && ArchiveKey(id') != m.manifestKey {
      KeysInjective(m.id, id');
      KeysInjective(id', m.id);
    }
    forall q | q in t.procs && q != p && t.procs[q].Publishing?
      ensures PublisherOk(t, t.procs[q].stage, t.procs[q].m)
    {
      assert t.procs[q] == s.procs[q];
    }
  }

  /** Removing an object that is neither the archive of a visible manifest nor
      of one about to be written. */
  lemma RemoveStep(s: State, p: nat, gone: string, t: State)
    requires Invariant(s) && p in s.procs && s.procs[p].Pruning? && p in t.procs && t.procs[p].Pruning?
    requires t == Become(s.(objects := s.objects - {gone}), p, t.procs[p])
    requires t.procs[p].retain >= 1 && PrunerOk(t, t.procs[p].seen, t.procs[p].todo, t.procs[p].retain, t.procs[p].at)
    requires forall k | k in t.objects && IsManifest(k) && t.objects[k].content.Encoded? ::
               t.objects[k].content.manifest.archiveKey != gone
    requires forall q | q in s.procs && s.procs[q].Publishing? && s.procs[q].stage != List :: s.procs[q].m.archiveKey != gone
    ensures Invariant(t)
  {
    hide IsManifest, WellFormed, ManifestKey, ArchiveKey, Surplus;
  }

  /** Deleting a marker, or the archive of a marker already gone. */
  lemma DeleteStep(s: State, p: nat, t: State)
    requires Invariant(s) && p in s.procs && s.procs[p].Pruning? && s.procs[p].todo != []
    requires s.procs[p].at.Mark? || s.procs[p].at.Sweep?
    requires t == Pruned(s, p, s.procs[p].seen, s.procs[p].todo, s.procs[p].retain, s.procs[p].at)
    ensures Invariant(t)
  {
    hide WellFormed, ManifestKey, ArchiveKey, Newer, DistinctTimes, NewerThanAll, Verified, HasPrefix, HasSuffix;
    var Pruning(seen, todo, retain, at) := s.procs[p];
    if at.Mark? {
      assert todo[0] in todo && IsManifest(todo[0]);
      forall id ensures !IsManifest(ArchiveKey(id)) {
        KeyFacts(id);
      }
      RemoveStep(s, p, todo[0], t);
    } else {
      var id := at.m.id;
      forall id' ensures id' != id ==> ArchiveKey(id') != at.m.archiveKey {
        KeysInjective(id, id');
      }
      RemoveStep(s, p, at.m.archiveKey, t);
    }
  }

  lemma PublisherStep(s: State, p: nat, order: seq<string>)
    requires Invariant(s) && Enabled(s, Advance(p, order)) && s.procs[p].Publishing?
    ensures Invariant(Do(s, Advance(p, order)))
  {
    var t := Do(s, Advance(p, order));
    var Publishing(stage, m, retain) := s.procs[p];
    match stage {
      case OpenArchive => OwnWrite(s, p, m.archiveKey, Cut(Archived(m)), t, CloseArchive);
      case CloseArchive => OwnWrite(s, p, m.archiveKey, Archived(m), t, Verify);
      case Verify => ProcessStep(s, t, p);
      case OpenManifest =>
        KeysInjective(m.id, m.id);
        OwnWrite(s, p, m.manifestKey, Cut(Encoded(m)), t, CloseManifest);
      case CloseManifest => CommitStep(s, p, t);
      case List => ProcessStep(s, t, p);
    }
  }

  lemma PrunerStep(s: State, p: nat, order: seq<string>)
    requires Invariant(s) && Enabled(s, Advance(p, order)) && s.procs[p].Pruning?
    ensures Invariant(Do(s, Advance(p, order)))
  {
    var t := Do(s, Advance(p, order));
    var Pruning(seen, todo, retain, at) := s.procs[p];
    if todo != [] && (at.Mark? || at.Sweep?) {
      DeleteStep(s, p, t);
    } else {
      if todo != [] {
        assert todo[0] in todo && IsManifest(todo[0]);
      }
      ProcessStep(s, t, p);
    }
  }

  lemma StepKeepsInvariant(s: State, a: Action)
    requires Invariant(s) && Enabled(s, a)
    ensures Invariant(Do(s, a))
  {
    match a
    case Start(p, id, c, retain) =>
      KeysInjective(id, id);
      ProcessStep(s, Do(s, a), p);
    case Crash(p) => ProcessStep(s, Do(s, a), p);
    case Skip(p) => ProcessStep(s, Do(s, a), p);
    case Advance(p, order) =>
      if s.procs[p].Publishing? { PublisherStep(s, p, order); } else { PrunerStep(s, p, order); }
  }

  // ---- whole runs ------------------------------------------------------------------

  ghost predicate IsRun(ss: seq<State>, acts: seq<Action>) {
    && |ss| == |acts| + 1
    && forall i | 0 <= i < |acts| :: Enabled(ss[i], acts[i]) && ss[i + 1] == Do(ss[i], acts[i])
  }

  /** Nothing published and nobody at work; other objects may be there. */
  ghost predicate Start0(s: State) {
    && DistinctTimes(s.objects) && NewerThanAll(s.objects, s.clock)
    && s.procs == map[] && s.ever == map[]
    && (forall k | k in s.objects && IsManifest(k) :: !s.objects[k].content.Encoded?)
    && (forall id | ManifestKey(id) in s.objects :: id in s.used)
  }

  lemma {:induction false} RunKeepsInvariant(ss: seq<State>, acts: seq<Action>, n: nat)
    requires IsRun(ss, acts) && Start0(ss[0]) && n < |ss|
    ensures Invariant(ss[n])
  {
    if n > 0 {
      RunKeepsInvariant(ss, acts, n - 1);
      StepKeepsInvariant(ss[n - 1], acts[n - 1]);
    }
  }

  /** Whatever the interleaving and wherever processes crash, a visible complete
      manifest always has its whole archive beside it. */
  lemma VisibleManifestsAreBacked(ss: seq<State>, acts: seq<Action>, n: nat, k: string)
    requires IsRun(ss, acts) && Start0(ss[0]) && n < |ss|
    requires k in ss[n].objects && IsManifest(k) && ss[n].objects[k].content.Encoded?
    ensures Valid(ss[n].objects, k)
  {
    RunKeepsInvariant(ss, acts, n);
  }

  /** The one deletion that may not be skipped: a pruner that reports an error on the
      marker of a manifest that loads goes on to delete its archive, and the marker
      is left without it. */
  lemma SkippedMarkerDangles(s: State, p: nat)
    requires Invariant(s) && p in s.procs && s.procs[p].Pruning? && s.procs[p].todo != []
    requires s.procs[p].at.Mark? && s.procs[p].at.got.Some? && s.procs[p].todo[0] in s.objects
    requires s.objects[s.procs[p].todo[0]].content.Encoded?
    ensures var Pruning(seen, todo, retain, at) := s.procs[p];
            var skipped := Become(s, p, Pruning(seen, todo, retain, Sweep(at.got.value)));
            var swept := Pruned(skipped, p, seen, todo, retain, Sweep(at.got.value));
            todo[0] in swept.objects && swept.objects[todo[0]].content.Encoded? && !Valid(swept.objects, todo[0])
  {
    hide DistinctTimes, NewerThanAll, IsManifest, WellFormed, Surplus, ManifestKey, ArchiveKey, OwnIds;
    var m := s.procs[p].at.got.value;
    assert PrunerOk(s, s.procs[p].seen, s.procs[p].todo, s.procs[p].retain, s.procs[p].at);
    KeysInjective(m.id, m.id);
    MarkerOf(s, m);
  }

  lemma MarkerOf(s: State, m: Manifest)
    requires MarkersBacked(s) && Known(s, m) && ManifestKey(m.id) in s.objects && s.objects[ManifestKey(m.id)].content.Encoded?
    ensures s.objects[ManifestKey(m.id)].content.manifest == m
  {
    hide ManifestKey, ArchiveKey, Verified, WellFormed;
    KeyFacts(m.id);
    KeysInjective(m.id, s.objects[ManifestKey(m.id)].content.manifest.id);
  }

  lemma SeenAfterStep(s: State, a: Action, p: nat)
    requires Enabled(s, a) && p in Do(s, a).procs && Do(s, a).procs[p].Pruning?
    ensures p in s.procs
    ensures s.procs[p].Pruning? ==> Do(s, a).procs[p].seen == s.procs[p].seen
    ensures s.procs[p].Publishing? ==> Do(s, a).procs[p].seen == s.objects
  {
    hide IsManifest, Verified, WellFormed, FreshId, Surplus, ManifestFor;
    if a.Advance? && a.p == p && s.procs[p].Publishing? {
      assert s.procs[p].stage == List;
    }
  }

  /** What a pruner saw is what the store was at some earlier point of the run. */
  lemma {:induction false} SeenIsPast(ss: seq<State>, acts: seq<Action>, n: nat, p: nat) returns (i: nat)
    requires IsRun(ss, acts) && Start0(ss[0]) && n < |ss|
    requires p in ss[n].procs && ss[n].procs[p].Pruning?
    ensures i <= n && ss[i].objects == ss[n].procs[p].seen
  {
    hide Enabled, Do, IsManifest;
    assert n > 0 by {
      if n == 0 { assert ss[0].procs == map[]; }
    }
    SeenAfterStep(ss[n - 1], acts[n - 1], p);
    if ss[n - 1].procs[p].Pruning? {
      i := SeenIsPast(ss, acts, n - 1, p);
    } else {
      i := n - 1;
    }
  }

  /** A manifest is deleted only if at some earlier moment its deleter listed at
      least `retain` manifests newer than it. */
  lemma DeletedOnlyWhenSurplus(ss: seq<State>, acts: seq<Action>, n: nat, k: string)
    requires IsRun(ss, acts) && Start0(ss[0]) && n < |acts|
    requires IsManifest(k) && k in ss[n].objects && k !in ss[n + 1].objects
    ensures acts[n].Advance? && acts[n].p in ss[n].procs && ss[n].procs[acts[n].p].Pruning?
    ensures exists i | 0 <= i <= n ::
              k in ss[i].objects && |Newer(ss[i].objects, k)| >= ss[n].procs[acts[n].p].retain >= 1
  {
    hide DistinctTimes, NewerThanAll, ManifestKey, ArchiveKey, ManifestFor, HasPrefix, HasSuffix, Newer;
    RunKeepsInvariant(ss, acts, n);
    var p := acts[n].p;
    forall id ensures !IsManifest(ArchiveKey(id)) {
      KeyFacts(id);
    }
    var i := SeenIsPast(ss, acts, n, p);
    assert k in ss[n].procs[p].todo;
    assert k in Surplus(ss[i].objects, ss[n].procs[p].retain);
  }
}
