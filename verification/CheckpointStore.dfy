/** The object store of one run as the code drives it, and the three operations
    of `internal/blob/checkpoint.go` over it. Every store call may fail or take
    the process down, with its effect done, half done or not done. */
module CheckpointStore {
  import opened Basics
  import opened Archives
  import opened Checkpoints

  datatype Fault = Fine | Error | Crash

  /** How one writing call went: the error it reported, and whether the backend kept
      the bytes as they were sent. */
  datatype Served = Served(f: Fault, intact: bool)

  /** What is to come of a writing call: the error it reports, whether it has any
      effect then, whether a whole one, and what the backend stores in place of the
      bytes it was sent. */
  datatype Reply = Reply(f: Fault, untouched: bool, whole: bool, garbage: Option<nat>)

  predicate AllWell(calls: seq<Served>) {
    forall i | 0 <= i < |calls| :: calls[i] == Served(Fine, true)
  }

  predicate Met(calls: seq<Served>, f: Fault) {
    exists i | 0 <= i < |calls| :: calls[i].f == f
  }

  lemma MetThen(a: seq<Served>, b: seq<Served>, f: Fault)
    ensures Met(a + b, f) <==> Met(a, f) || Met(b, f)
  {
    if Met(a, f) {
      var i :| 0 <= i < |a| && a[i].f == f;
      assert (a + b)[i].f == f;
    }
    if Met(b, f) {
      var i :| 0 <= i < |b| && b[i].f == f;
      assert (a + b)[|a| + i].f == f;
    }
  }

  /** One object of a listing. */
  datatype Listed = Listed(key: string, modified: nat)

  // ---- newest first ----------------------------------------------------------

  predicate NewestFirst(s: seq<Listed>) {
    forall i, j | 0 <= i < j < |s| :: s[j].modified <= s[i].modified
  }

  predicate DistinctKeys(s: seq<Listed>) {
    forall i, j | 0 <= i < j < |s| :: s[i].key != s[j].key
  }

  function Insert(x: Listed, s: seq<Listed>): (r: seq<Listed>)
    ensures |r| == |s| + 1
    ensures forall y :: y in r <==> y == x || y in s
  {
    if s == [] || s[0].modified < x.modified then [x] + s else [s[0]] + Insert(x, s[1..])
  }

  /** The stable sort of a listing by descending modification time. */
  function SortNewestFirst(s: seq<Listed>): (r: seq<Listed>)
    ensures |r| == |s|
    ensures forall y :: y in r <==> y in s
  {
    if s == [] then [] else Insert(s[0], SortNewestFirst(s[1..]))
  }

  lemma {:induction false} InsertSorted(x: Listed, s: seq<Listed>)
    requires NewestFirst(s) && DistinctKeys(s)
    requires forall y | y in s :: y.key != x.key
    ensures NewestFirst(Insert(x, s)) && DistinctKeys(Insert(x, s))
  {
    if s != [] && s[0].modified >= x.modified {
      InsertSorted(x, s[1..]);
      var r := Insert(x, s[1..]);
      forall i | 0 <= i < |r| ensures r[i].modified <= s[0].modified && r[i].key != s[0].key {
        assert r[i] in r;
      }
    }
  }

  lemma {:induction false} SortIsNewestFirst(s: seq<Listed>)
    requires DistinctKeys(s)
    ensures NewestFirst(SortNewestFirst(s)) && DistinctKeys(SortNewestFirst(s))
  {
    if s != [] {
      SortIsNewestFirst(s[1..]);
      InsertSorted(s[0], SortNewestFirst(s[1..]));
    }
  }

  // ---- listings --------------------------------------------------------------

  /** s lists exactly the keys in ks, once each, with their times. */
  ghost predicate Lists(objects: Objects, ks: set<string>, s: seq<Listed>) {
    && ks <= objects.Keys
    && (forall x | x in s :: x.key in ks && x.modified == objects[x.key].modified)
    && (forall k | k in ks :: Listed(k, objects[k].modified) in s)
    && DistinctKeys(s)
  }

  lemma ListedOnce(objects: Objects, s: seq<Listed>)
    requires Lists(objects, ManifestKeys(objects), s)
    ensures DistinctKeys(s)
  {
  }

  lemma SortedListing(objects: Objects, ks: set<string>, s: seq<Listed>)
    requires Lists(objects, ks, s)
    ensures Lists(objects, ks, SortNewestFirst(s)) && NewestFirst(SortNewestFirst(s))
  {
    SortIsNewestFirst(s);
  }

  /** The keys of the checkpoint directory. */
  function DirKeys(objects: Objects): set<string> {
    set k | k in objects && HasPrefix(k, DIR)
  }

  /** The keys of a listing. */
  function Keys(s: seq<Listed>): set<string> {
    set i | 0 <= i < |s| :: s[i].key
  }

  lemma {:induction false} KeysCount(s: seq<Listed>)
    requires DistinctKeys(s)
    ensures |Keys(s)| == |s|
  {
    if s != [] {
      var n := |s| - 1;
      KeysCount(s[..n]);
      assert Keys(s) == Keys(s[..n]) + {s[n].key};
      assert s[n].key !in Keys(s[..n]);
    }
  }

  // ---- what one store call may do ---------------------------------------------

  ghost predicate NewerThanAll(objects: Objects, t: nat) {
    forall k | k in objects :: objects[k].modified < t
  }

  /** A Put that returned f: complete when Fine, else possibly absent or cut; not
      `intact` when the backend stored other bytes without saying so. */
  ghost predicate PutEffect(before: Objects, after: Objects, key: string, c: Content, f: Fault, intact: bool) {
    || (f != Fine && after == before)
    || (&& key in after && after == before[key := after[key]]
        && NewerThanAll(before, after[key].modified)
        && (|| after[key].content == c
            || (f != Fine && after[key].content == Cut(c))
            || (!intact && after[key].content.Other?)))
  }

  ghost predicate DeleteEffect(before: Objects, after: Objects, key: string, f: Fault) {
    after == before - {key} || (f != Fine && after == before)
  }

  /** The prune's victims: these manifests, and the archives of those that load. */
  function Doomed(objects: Objects, ks: set<string>): set<string>
    requires ks <= objects.Keys
  {
    ks + set k | k in ks && Valid(objects, k) :: objects[k].content.manifest.archiveKey
  }

  ghost predicate Shrunk(before: Objects, after: Objects) {
    after.Keys <= before.Keys && forall k | k in after :: after[k] == before[k]
  }

  /** The manifests listed as more recent than k. */
  function Newer(objects: Objects, k: string): set<string>
    requires k in objects
  {
    set k' | k' in objects && IsManifest(k') && objects[k].modified < objects[k'].modified
  }

  // ---- lemmas about loading ----------------------------------------------------

  ghost function Latest(objects: Objects): Option<Loaded> {
    match Load(objects, "")
    case Success(l) => Some(l)
    case Failure(_) => None
  }

  /** Stores that agree on everything a load can see give the same load. */
  lemma SameLoad(a: Objects, b: Objects)
    requires DistinctTimes(a) && DistinctTimes(b)
    requires ValidKeys(a) == ValidKeys(b) && LegacyKeys(a) == LegacyKeys(b)
    requires forall k | k in ValidKeys(a) :: a[k] == b[k] && Loading(a, k) == Loading(b, k)
    requires forall k | k in LegacyKeys(a) :: a[k] == b[k]
    ensures Latest(a) == Latest(b)
  {
    if ValidKeys(a) != {} {
      var k := Newest(a, ValidKeys(a));
      assert IsNewest(b, ValidKeys(b), k);
      NewestIsUnique(b, ValidKeys(b), k);
    } else if LegacyKeys(a) != {} {
      var k := Newest(a, LegacyKeys(a));
      assert IsNewest(b, LegacyKeys(b), k);
      NewestIsUnique(b, LegacyKeys(b), k);
    }
  }

  /** Until the manifest is complete nothing a load can see changes. */
  lemma UncommittedIsInvisible(a: Objects, b: Objects, id: string)
    requires OnlyPublished(a) && DistinctTimes(a) && DistinctTimes(b)
    requires ManifestKey(id) !in a
    requires forall k :: k != ManifestKey(id) && k != ArchiveKey(id) ==> ((k in a <==> k in b) && (k in a ==> a[k] == b[k]))
    requires ManifestKey(id) in b ==> !b[ManifestKey(id)].content.Encoded?
    ensures Latest(a) == Latest(b)
    ensures OnlyPublished(b)
  {
    KeyFacts(id);
    forall k | IsManifest(k) && k in a && a[k].content.Encoded?
      ensures Valid(a, k) <==> Valid(b, k)
      ensures Valid(a, k) ==> Loading(a, k) == Loading(b, k)
    {
      var m := a[k].content.manifest;
      KeysInjective(id, m.id);
      KeysInjective(m.id, id);
      assert k != ManifestKey(id) && m.archiveKey != ArchiveKey(id) && m.archiveKey != ManifestKey(id);
    }
    assert ValidKeys(a) == ValidKeys(b);
    assert LegacyKeys(a) == LegacyKeys(b);
    SameLoad(a, b);
  }

  /** What a load says after a publication that opened its manifest or not, and did
      not complete it: the same, but for the kind of a failure. */
  ghost function Attempted(before: Result<Loaded, LoadError>, begun: bool): Result<Loaded, LoadError> {
    if before == Failure(NotFound) && begun then Failure(NoValid) else before
  }

  /** The exact condition under which an uncompleted publication changes what a load
      says: there was nothing at all before, and its unfinished manifest is there. */
  lemma UncommittedChangesOnlyTheError(a: Objects, b: Objects, id: string)
    requires OnlyPublished(a) && DistinctTimes(a) && DistinctTimes(b)
    requires ManifestKey(id) !in a
    requires forall k :: k != ManifestKey(id) && k != ArchiveKey(id) ==> ((k in a <==> k in b) && (k in a ==> a[k] == b[k]))
    requires ManifestKey(id) in b ==> !b[ManifestKey(id)].content.Encoded?
    ensures Load(b, "") == Attempted(Load(a, ""), ManifestKey(id) in b)
    ensures Load(b, "") != Load(a, "") <==> Load(a, "") == Failure(NotFound) && ManifestKey(id) in b
  {
    hide Load, OnlyPublished, ManifestKey, ArchiveKey, IsManifest, IsLegacy, Valid, DistinctTimes;
    UncommittedIsInvisible(a, b, id);
    LatestLoad(a, "");
    LatestLoad(b, "");
    LoadErrors(a);
    LoadErrors(b);
    KeyFacts(id);
    forall k | k == ManifestKey(id) || k == ArchiveKey(id) ensures !IsLegacy(k) && (IsManifest(k) ==> k == ManifestKey(id)) {
    }
    assert LegacyKeys(a) == LegacyKeys(b);
    assert ManifestKeys(b) == if ManifestKey(id) in b then ManifestKeys(a) + {ManifestKey(id)} else ManifestKeys(a);
    if Load(a, "").Success? {
      assert Latest(a) == Some(Load(a, "").value);
      assert Load(b, "") == Load(a, "");
    } else {
      assert Latest(b) == None && Load(b, "").Failure?;
      assert Load(a, "").error != Invalid && Load(b, "").error != Invalid;
      assert ManifestKey(id) in b ==> ManifestKey(id) in ManifestKeys(b);
    }
  }

  lemma LoadErrors(objects: Objects)
    ensures Load(objects, "") != Failure(Invalid)
  {
  }

  /** A first publication cut off after opening its manifest: a load that found
      nothing now finds nothing valid. */
  lemma NotFoundBecomesNoValid(id: string, m: Manifest, t: nat)
    requires id != ""
    ensures var after: Objects := map[ManifestKey(id) := Object(Cut(Encoded(m)), t)];
            && PutEffect(map[], after, ManifestKey(id), Encoded(m), Crash, true)
            && Load(map[], "") == Failure(NotFound) && Load(after, "") == Failure(NoValid)
  {
    hide IsManifest, IsLegacy, ManifestKey;
    KeyFacts(id);
    var after: Objects := map[ManifestKey(id) := Object(Cut(Encoded(m)), t)];
    assert after == map[][ManifestKey(id) := after[ManifestKey(id)]];
    assert ManifestKeys(after) == {ManifestKey(id)} && LegacyKeys(after) == {} && ValidKeys(after) == {};
    assert ManifestKeys(map[]) == {} && LegacyKeys(map[]) == {} && ValidKeys(map[]) == {};
  }

  /** The manifest of id is stored whole, newer than the rest, its archive intact. */
  ghost predicate CommittedAs(b: Objects, id: string, m: Manifest) {
    && ManifestKey(id) in b && b[ManifestKey(id)].content == Encoded(m)
    && m.manifestKey == ManifestKey(id) && WellFormed(m) && Verified(b, m)
    && forall k | k in b && IsManifest(k) :: b[k].modified <= b[ManifestKey(id)].modified
  }

  /** A complete manifest newer than every other, its archive in place, is what
      a load gives. */
  lemma CommittedIsLatest(b: Objects, id: string, m: Manifest)
    requires DistinctTimes(b) && CommittedAs(b, id, m)
    ensures Load(b, "") == Success(Loaded(m, m.sha256.value))
    ensures Latest(b) == Some(Loaded(m, m.sha256.value))
  {
    var mk := ManifestKey(id);
    KeyFacts(id);
    assert mk in ValidKeys(b);
    assert IsNewest(b, ValidKeys(b), mk);
    NewestIsUnique(b, ValidKeys(b), mk);
    assert mk != "";
  }

  /** The stores differ at most in the two objects of checkpoint id. */
  ghost predicate AgreeExcept(a: Objects, b: Objects, id: string) {
    forall k :: k != ManifestKey(id) && k != ArchiveKey(id) ==> ((k in a <==> k in b) && (k in a ==> a[k] == b[k]))
  }

  lemma ArchivePut(start: Objects, a: Objects, id: string, c: Content, f: Fault, intact: bool)
    requires OnlyPublished(start) && DistinctTimes(start) && DistinctTimes(a) && ManifestKey(id) !in start
    requires PutEffect(start, a, ArchiveKey(id), c, f, intact)
    ensures OnlyPublished(a) && Load(a, "") == Load(start, "") && AgreeExcept(start, a, id) && ManifestKey(id) !in a
  {
    hide Latest, OnlyPublished, ManifestKey, ArchiveKey, Load;
    KeysInjective(id, id);
    UncommittedIsInvisible(start, a, id);
    UncommittedChangesOnlyTheError(start, a, id);
  }

  lemma ManifestPut(start: Objects, a: Objects, b: Objects, id: string, m: Manifest, f: Fault, honest: bool)
    requires OnlyPublished(start) && DistinctTimes(start) && DistinctTimes(b)
    requires ManifestKey(id) !in start && ManifestKey(id) !in a && AgreeExcept(start, a, id)
    requires m.id == id && m.archiveKey == ArchiveKey(id) && m.manifestKey == ManifestKey(id)
    requires WellFormed(m) && Verified(a, m)
    requires PutEffect(a, b, ManifestKey(id), Encoded(m), f, honest)
    ensures OnlyPublished(b)
    ensures || CommittedAs(b, id, m)
            || (Load(b, "") == Attempted(Load(start, ""), ManifestKey(id) in b) && !(f == Fine && honest))
  {
    KeysInjective(id, id);
    KeyFacts(id);
    if ManifestKey(id) in b && b[ManifestKey(id)].content == Encoded(m) {
      hide Latest, Load, WellFormed, ManifestKey, ArchiveKey, IsManifest;
      assert CommittedAs(b, id, m);
    } else {
      hide Latest, Load, WellFormed, ManifestKey, ArchiveKey, IsManifest, OnlyPublished, CommittedAs;
      UncommittedIsInvisible(start, b, id);
      UncommittedChangesOnlyTheError(start, b, id);
    }
  }

  lemma CommittedNotSurplus(b: Objects, retain: nat, id: string, m: Manifest)
    requires retain >= 1 && CommittedAs(b, id, m)
    ensures ManifestKey(id) in ManifestKeys(b) && ManifestKey(id) !in Surplus(b, retain)
  {
    hide Verified, WellFormed, Contains;
    KeyFacts(id);
    assert Newer(b, ManifestKey(id)) == {};
  }

  lemma NotDoomedStays(b: Objects, after: Objects, failed: set<string>, retain: nat, k: string)
    requires PruneSafe(b, after, failed, retain) && k in b
    requires forall v | v in Surplus(b, retain) :: k !in Doomed(b, {v})
    ensures k in after
  {
    hide Surplus, Doomed;
  }

  lemma StillCommitted(b: Objects, after: Objects, id: string, m: Manifest)
    requires CommittedAs(b, id, m) && Shrunk(b, after)
    requires ManifestKey(id) in after && m.archiveKey in after
    ensures CommittedAs(after, id, m)
  {
    hide IsManifest, WellFormed;
  }

  lemma SafeShrinks(b: Objects, after: Objects, failed: set<string>, retain: nat)
    requires PruneSafe(b, after, failed, retain)
    ensures Shrunk(b, after)
  {
    hide Shrunk, Surplus, Doomed;
  }

  /** A prune that keeps at least one manifest keeps the newest one loading. */
  lemma AfterPrune(b: Objects, after: Objects, failed: set<string>, retain: nat, id: string, m: Manifest)
    requires DistinctTimes(after) && OnlyPublished(b) && retain >= 1
    requires PruneSafe(b, after, failed, retain) && CommittedAs(b, id, m)
    ensures CommittedAs(after, id, m)
  {
    hide *;
    CommittedNotSurplus(b, retain, id, m);
    CommittedIsValid(b, id, m);
    SurplusSubset(b, retain);
    forall v | v in Surplus(b, retain)
      ensures ManifestKey(id) !in Doomed(b, {v}) && m.archiveKey !in Doomed(b, {v})
    {
      DoomedDisjoint(b, {v}, ManifestKey(id));
    }
    SafeShrinks(b, after, failed, retain);
    NotDoomedStays(b, after, failed, retain, ManifestKey(id));
    NotDoomedStays(b, after, failed, retain, m.archiveKey);
    StillCommitted(b, after, id, m);
  }

  lemma SurplusSubset(b: Objects, retain: nat)
    ensures Surplus(b, retain) <= ManifestKeys(b) <= b.Keys
  {
    hide Newer, IsManifest;
  }

  lemma CommittedIsValid(b: Objects, id: string, m: Manifest)
    requires CommittedAs(b, id, m)
    ensures ManifestKey(id) in b && Valid(b, ManifestKey(id))
    ensures b[ManifestKey(id)].content == Encoded(m) && m.archiveKey in b
  {
    hide IsManifest;
  }

  lemma ShrunkStaysPublished(b: Objects, after: Objects, failed: set<string>, retain: nat)
    requires OnlyPublished(b) && PruneSafe(b, after, failed, retain)
    ensures OnlyPublished(after)
  {
    hide IsManifest, Surplus;
  }

  lemma ManifestForFacts(id: string, runID: string, trigger: string, c: Content)
    requires id != ""
    ensures var m := ManifestFor(id, runID, trigger, c);
            && m.id == id && m.archiveKey == ArchiveKey(id) && m.manifestKey == ManifestKey(id)
            && WellFormed(m) && m.sha256 == Some(c)
  {
  }

  lemma ManifestFields(id: string, runID: string, trigger: string, c: Content)
    ensures var m := ManifestFor(id, runID, trigger, c);
            && m.formatVersion == 1 && m.id == id && m.runID == runID && m.trigger == trigger
            && m.archiveKey == "checkpoints/objects/" + id + ".tar.gz" && m.manifestKey == "checkpoints/" + id + ".json"
            && m.sha256 == Some(c) && m.sizeBytes == Size(c)
  {
    assert "checkpoints/" + "objects/" + id == "checkpoints/objects/" + id;
  }

  /** An archive that was stored as sent is read back as it was sent. */
  lemma ArchiveVerifies(start: Objects, a: Objects, m: Manifest, c: Content, intact: bool)
    requires PutEffect(start, a, m.archiveKey, c, Fine, intact) && m.sha256 == Some(c) && m.sizeBytes == Size(c)
    ensures intact ==> Verified(a, m)
  {
  }

  lemma ManifestIsNewest(start: Objects, a: Objects, b: Objects, id: string, m: Manifest, honest: bool)
    requires AgreeExcept(start, a, id) && PutEffect(a, b, ManifestKey(id), Encoded(m), Fine, honest)
    ensures AgreeExcept(start, b, id) && ManifestKey(id) in b
    ensures forall k | k in b :: b[k].modified <= b[ManifestKey(id)].modified
  {
    hide ManifestKey, ArchiveKey;
  }

  lemma CommittedVerified(b: Objects, id: string, m: Manifest)
    requires CommittedAs(b, id, m)
    ensures Verified(b, m)
  {
  }

  // ---- lemmas about pruning -----------------------------------------------------

  lemma DoomedDisjoint(objects: Objects, ks: set<string>, k: string)
    requires OnlyPublished(objects) && ks <= ManifestKeys(objects)
    requires k in ManifestKeys(objects) && k !in ks
    ensures k !in Doomed(objects, ks)
    ensures Valid(objects, k) ==> objects[k].content.manifest.archiveKey !in Doomed(objects, ks)
  {
    forall k' | k' in ks && Valid(objects, k')
      ensures k != objects[k'].content.manifest.archiveKey
      ensures Valid(objects, k) ==> objects[k].content.manifest.archiveKey != objects[k'].content.manifest.archiveKey
    {
      var id' := objects[k'].content.manifest.id;
      KeyFacts(id');
      if Valid(objects, k) {
        KeysInjective(objects[k].content.manifest.id, id');
      }
    }
    if Valid(objects, k) {
      KeyFacts(objects[k].content.manifest.id);
    }
  }

  lemma DoomedGrows(objects: Objects, ks: set<string>, k: string)
    requires ks <= objects.Keys && k in objects
    ensures Doomed(objects, ks + {k}) == Doomed(objects, ks) + Doomed(objects, {k})
  {
  }

  /** In a listing sorted newest first, the manifests newer than the j-th are the
      first j. */
  lemma RankIsIndex(objects: Objects, ms: seq<Listed>, j: nat)
    requires DistinctTimes(objects) && Lists(objects, ManifestKeys(objects), ms) && NewestFirst(ms) && j < |ms|
    ensures ms[j].key in objects && Newer(objects, ms[j].key) == Keys(ms[..j])
    ensures |Newer(objects, ms[j].key)| == j
  {
    assert ms[j] in ms;
    forall k | k in Newer(objects, ms[j].key) ensures k in Keys(ms[..j]) {
      var i :| 0 <= i < |ms| && ms[i] == Listed(k, objects[k].modified);
      assert ms[..j][i] == ms[i];
    }
    forall k | k in Keys(ms[..j]) ensures k in Newer(objects, ms[j].key) {
      var i :| 0 <= i < j && ms[..j][i].key == k;
      assert ms[i] in ms && ms[i].key != ms[j].key;
    }
    KeysCount(ms[..j]);
  }

  lemma FirstIsNewest(objects: Objects, ks: set<string>, objs: seq<Listed>, wanted: set<string>, i: nat)
    requires Lists(objects, ks, objs) && NewestFirst(objs) && i < |objs| && wanted <= ks
    requires objs[i].key in wanted && forall j | 0 <= j < i :: objs[j].key !in wanted
    ensures IsNewest(objects, wanted, objs[i].key)
  {
    assert objs[i] in objs;
    forall k' | k' in wanted && k' in objects ensures objects[k'].modified <= objects[objs[i].key].modified {
      assert Listed(k', objects[k'].modified) in objs;
    }
  }

  lemma NoneListed(objects: Objects, ks: set<string>, objs: seq<Listed>, wanted: set<string>)
    requires Lists(objects, ks, objs) && wanted <= ks
    requires forall j | 0 <= j < |objs| :: objs[j].key !in wanted
    ensures wanted == {}
  {
    forall k | k in ks ensures k !in wanted {
      var j :| 0 <= j < |objs| && objs[j] == Listed(k, objects[k].modified);
    }
  }

  /** The ".json" entries of a listing. */
  function ManifestsOf(s: seq<Listed>): (r: seq<Listed>)
    ensures forall x :: x in r <==> x in s && HasSuffix(x.key, ".json")
  {
    if s == [] then []
    else if HasSuffix(s[0].key, ".json") then [s[0]] + ManifestsOf(s[1..])
    else ManifestsOf(s[1..])
  }

  lemma {:induction false} ManifestsDistinct(s: seq<Listed>)
    requires DistinctKeys(s)
    ensures DistinctKeys(ManifestsOf(s))
  {
    if s != [] {
      ManifestsDistinct(s[1..]);
      forall j | 0 <= j < |ManifestsOf(s[1..])| ensures ManifestsOf(s[1..])[j].key != s[0].key {
        assert ManifestsOf(s[1..])[j] in s[1..];
      }
    }
  }

  lemma ListManifests(objects: Objects, s: seq<Listed>)
    requires Lists(objects, DirKeys(objects), s)
    ensures Lists(objects, ManifestKeys(objects), ManifestsOf(s))
  {
    ManifestsDistinct(s);
  }

  /** The manifests with at least `retain` newer ones. */
  function Surplus(objects: Objects, retain: nat): set<string> {
    set v | v in ManifestKeys(objects) && |Newer(objects, v)| >= retain
  }

  /** In a listing, the keys from position `retain` on. */
  lemma TailOfListing(ms: seq<Listed>, ks: set<string>, surplus: set<string>, retain: nat)
    requires DistinctKeys(ms) && Keys(ms) == ks && surplus <= ks
    requires forall j | 0 <= j < |ms| :: ms[j].key in surplus <==> j >= retain
    ensures |ms| == |ks|
    ensures |ms| <= retain ==> surplus == {}
    ensures |ms| > retain ==> surplus == Keys(ms[retain..]) && |ks - surplus| == retain
  {
    KeysCount(ms);
    if |ms| > retain {
      assert forall j | retain <= j < |ms| :: ms[retain..][j - retain] == ms[j];
      assert forall j | 0 <= j < retain :: ms[..retain][j] == ms[j];
      assert ks - surplus == Keys(ms[..retain]);
      KeysCount(ms[..retain]);
    }
  }

  lemma SurplusIsTail(objects: Objects, ms: seq<Listed>, retain: nat)
    requires DistinctTimes(objects) && Lists(objects, ManifestKeys(objects), ms) && NewestFirst(ms)
    ensures |ms| == |ManifestKeys(objects)|
    ensures |ms| <= retain ==> Surplus(objects, retain) == {}
    ensures |ms| > retain ==> Surplus(objects, retain) == Keys(ms[retain..])
    ensures |ms| > retain ==> |ManifestKeys(objects) - Surplus(objects, retain)| == retain
  {
    hide IsManifest;
    var ks := ManifestKeys(objects);
    assert Keys(ms) == ks by {
      assert forall j | 0 <= j < |ms| :: ms[j] in ms;
      forall k | k in ks ensures k in Keys(ms) {
        var j :| 0 <= j < |ms| && ms[j] == Listed(k, objects[k].modified);
      }
    }
    forall j | 0 <= j < |ms| ensures ms[j].key in Surplus(objects, retain) <==> j >= retain {
      assert ms[j] in ms;
      RankIsIndex(objects, ms, j);
    }
    TailOfListing(ms, ks, Surplus(objects, retain), retain);
  }

  /** Taking the doomed keys away leaves exactly the other manifests. */
  lemma ManifestsLeft(objects: Objects, o: Objects, ks: set<string>)
    requires OnlyPublished(objects) && ks <= ManifestKeys(objects)
    requires o.Keys == objects.Keys - Doomed(objects, ks)
    ensures ManifestKeys(o) == ManifestKeys(objects) - ks
  {
    forall k | k in ManifestKeys(objects) && k !in ks ensures k in o {
      DoomedDisjoint(objects, ks, k);
    }
  }

  /** v loaded before and is still visible, but its archive has gone. */
  ghost predicate Dangling(before: Objects, after: Objects, v: string) {
    v in before && v in after && Valid(before, v) && before[v].content.manifest.archiveKey !in after
  }

  /** Nothing goes but manifests with at least `retain` newer ones and their
      archives, and a visible manifest loses its archive only if deleting the
      manifest reported an error. */
  ghost predicate PruneSafe(before: Objects, after: Objects, failed: set<string>, retain: nat) {
    && Shrunk(before, after)
    && (forall k | k in before && k !in after :: exists v | v in Surplus(before, retain) :: k in Doomed(before, {v}))
    && (forall v | v in ManifestKeys(before) && Dangling(before, after, v) :: v in failed)
  }

  /** Exactly the newest `retain` manifests stay, with everything that is not an
      archive of a removed one. */
  ghost predicate PruneExact(before: Objects, after: Objects, retain: nat) {
    && after.Keys == before.Keys - Doomed(before, Surplus(before, retain))
    && |ManifestKeys(after)| == Min(|ManifestKeys(before)|, retain)
  }

  /** The retention loop has dealt with the manifests in `dead`. */
  ghost predicate PruneProgress(before: Objects, now: Objects, dead: set<string>, failed: set<string>, retain: nat) {
    && Shrunk(before, now)
    && dead <= Surplus(before, retain)
    && (forall v | v in dead && Dangling(before, now, v) :: v in failed)
    && before.Keys - now.Keys <= Doomed(before, dead)
  }

  /** One manifest and, when it loads, its archive have been dealt with. */
  ghost predicate PrunedOne(now: Objects, next: Objects, key: string, died: bool, errs: set<string>)
    requires key in now
  {
    && Shrunk(now, next) && now.Keys - next.Keys <= Doomed(now, {key})
    && (Dangling(now, next, key) ==> key in errs)
    && (!died && errs == {} ==> next.Keys == now.Keys - Doomed(now, {key}))
  }

  /** What the retention loop keeps, i being the next manifest. */
  ghost predicate TailInvariant(before: Objects, now: Objects, ms: seq<Listed>, retain: nat, i: nat, died: bool, failed: set<string>) {
    && retain <= i <= |ms|
    && PruneProgress(before, now, Keys(ms[retain..i]), failed, retain)
    && (!died && failed == {} ==> now.Keys == before.Keys - Doomed(before, Keys(ms[retain..i])))
  }

  lemma TailStep(before: Objects, now: Objects, next: Objects, ms: seq<Listed>, retain: nat, i: nat,
                 failed: set<string>, died: bool, errs: set<string>)
    requires DistinctKeys(ms) && i < |ms| && OnlyPublished(before)
    requires TailInvariant(before, now, ms, retain, i, false, failed)
    requires Surplus(before, retain) == Keys(ms[retain..])
    requires ms[i].key in now && PrunedOne(now, next, ms[i].key, died, errs)
    ensures TailInvariant(before, next, ms, retain, i + 1, died, failed + errs)
  {
    var key, dead := ms[i].key, Keys(ms[retain..i]);
    TailMember(ms, retain, i);
    UntouchedLoads(before, now, dead, failed, retain, key);
    PruneStep(before, now, next, dead, key, failed, errs, retain);
  }

  lemma TailLoads(before: Objects, now: Objects, ms: seq<Listed>, retain: nat, i: nat, failed: set<string>)
    requires DistinctKeys(ms) && i < |ms| && OnlyPublished(before)
    requires TailInvariant(before, now, ms, retain, i, false, failed)
    requires Surplus(before, retain) == Keys(ms[retain..])
    ensures ms[i].key in now
  {
    TailMember(ms, retain, i);
    UntouchedLoads(before, now, Keys(ms[retain..i]), failed, retain, ms[i].key);
  }

  lemma MarkerDeleted(now: Objects, next: Objects, key: string, f: Fault)
    requires key in now && DeleteEffect(now, next, key, f)
    ensures f == Crash || !Valid(now, key) ==> PrunedOne(now, next, key, f == Crash, if f == Error then {key} else {})
  {
    hide WellFormed;
  }

  lemma BothDeleted(now: Objects, mid: Objects, next: Objects, key: string, f: Fault, f': Fault)
    requires Valid(now, key) && f != Crash && DeleteEffect(now, mid, key, f)
    requires DeleteEffect(mid, next, now[key].content.manifest.archiveKey, f')
    ensures PrunedOne(now, next, key, f' == Crash,
                      (if f == Error then {key} else {}) + (if f' == Error then {now[key].content.manifest.archiveKey} else {}))
  {
    hide WellFormed;
  }

  lemma NothingPruned(objects: Objects, retain: nat)
    requires Surplus(objects, retain) == {} && |ManifestKeys(objects)| <= retain
    ensures PruneSafe(objects, objects, {}, retain) && PruneExact(objects, objects, retain)
  {
    hide Surplus, IsManifest;
  }

  lemma TailStart(before: Objects, ms: seq<Listed>, retain: nat)
    requires retain <= |ms|
    ensures TailInvariant(before, before, ms, retain, retain, false, {})
  {
    assert ms[retain..retain] == [];
    assert Keys(ms[retain..retain]) == {};
  }

  lemma TailEnd(before: Objects, now: Objects, ms: seq<Listed>, retain: nat, i: nat, died: bool, failed: set<string>)
    requires OnlyPublished(before) && TailInvariant(before, now, ms, retain, i, died, failed)
    requires Surplus(before, retain) == Keys(ms[retain..])
    requires |ManifestKeys(before) - Surplus(before, retain)| == retain <= |ManifestKeys(before)|
    ensures PruneSafe(before, now, failed, retain)
    ensures !died && failed == {} && i == |ms| ==> PruneExact(before, now, retain)
  {
    hide Doomed, Surplus, Newer, Keys, PruneSafe, PruneProgress, OnlyPublished;
    ProgressIsSafe(before, now, Keys(ms[retain..i]), failed, retain);
    if !died && failed == {} && i == |ms| {
      assert ms[retain..i] == ms[retain..];
      SurplusLeft(before, now, retain);
    }
  }

  lemma SurplusLeft(before: Objects, now: Objects, retain: nat)
    requires OnlyPublished(before)
    requires now.Keys == before.Keys - Doomed(before, Surplus(before, retain))
    requires |ManifestKeys(before) - Surplus(before, retain)| == retain <= |ManifestKeys(before)|
    ensures PruneExact(before, now, retain)
  {
    hide Doomed, Newer, OnlyPublished, IsManifest;
    ManifestsLeft(before, now, Surplus(before, retain));
  }

  lemma PruneStep(before: Objects, now: Objects, next: Objects, dead: set<string>, key: string,
                  failed: set<string>, errs: set<string>, retain: nat)
    requires PruneProgress(before, now, dead, failed, retain)
    requires key in now && key in Surplus(before, retain) && Doomed(now, {key}) == Doomed(before, {key})
    requires OnlyPublished(before) && key !in dead && (Valid(now, key) <==> Valid(before, key))
    requires Shrunk(now, next) && now.Keys - next.Keys <= Doomed(now, {key})
    requires Dangling(now, next, key) ==> key in errs
    ensures PruneProgress(before, next, dead + {key}, failed + errs, retain)
    ensures now.Keys == before.Keys - Doomed(before, dead) && next.Keys == now.Keys - Doomed(now, {key})
        ==> next.Keys == before.Keys - Doomed(before, dead + {key})
  {
    hide Valid, IsManifest, Newer;
    DoomedGrows(before, dead, key);
    SurplusSubset(before, retain);
    forall v | v in dead && Dangling(before, next, v) ensures Dangling(before, now, v) {
      DoomedDisjoint(before, {key}, v);
    }
  }

  lemma ProgressIsSafe(before: Objects, now: Objects, dead: set<string>, failed: set<string>, retain: nat)
    requires OnlyPublished(before) && PruneProgress(before, now, dead, failed, retain)
    ensures PruneSafe(before, now, failed, retain)
  {
    hide IsManifest, Newer, OnlyPublished, WellFormed;
    SurplusSubset(before, retain);
    forall v | v in ManifestKeys(before) && Dangling(before, now, v) ensures v in failed {
      if v !in dead {
        DoomedDisjoint(before, dead, v);
      }
    }
    forall k | k in before && k !in now
      ensures exists v | v in Surplus(before, retain) :: k in Doomed(before, {v})
    {
      assert k in before.Keys - now.Keys && k in Doomed(before, dead);
      if k in dead {
        assert k in Doomed(before, {k});
      } else {
        var v :| v in dead && Valid(before, v) && before[v].content.manifest.archiveKey == k;
        assert k in Doomed(before, {v});
      }
    }
  }

  lemma KeysSnoc(s: seq<Listed>, x: Listed)
    ensures Keys(s + [x]) == Keys(s) + {x.key}
  {
    assert (s + [x])[|s|] == x;
    assert forall i | 0 <= i < |s| :: (s + [x])[i] == s[i];
  }

  lemma TailMember(ms: seq<Listed>, retain: nat, i: nat)
    requires DistinctKeys(ms) && retain <= i < |ms|
    ensures Keys(ms[retain..i + 1]) == Keys(ms[retain..i]) + {ms[i].key}
    ensures ms[i].key !in Keys(ms[retain..i]) && ms[i].key in Keys(ms[retain..]) && ms[i] in ms
  {
    assert ms[retain..i + 1] == ms[retain..i] + [ms[i]];
    KeysSnoc(ms[retain..i], ms[i]);
    assert ms[retain..][i - retain] == ms[i];
    assert forall j | retain <= j < i :: ms[retain..i][j - retain] == ms[j];
  }

  /** A manifest not yet dealt with still loads as it did. */
  lemma UntouchedLoads(before: Objects, now: Objects, dead: set<string>, failed: set<string>, retain: nat, key: string)
    requires OnlyPublished(before) && PruneProgress(before, now, dead, failed, retain)
    requires key in ManifestKeys(before) && key !in dead
    ensures key in now && Doomed(now, {key}) == Doomed(before, {key}) && (Valid(now, key) <==> Valid(before, key))
  {
    DoomedDisjoint(before, dead, key);
    assert key in before.Keys - Doomed(before, dead);
  }

  /** An undisturbed prune leaves something to load exactly when a manifest that
      loads was among the newest `retain`; manifests that do not load count
      against that limit like any other. */
  lemma PruneLeavesACheckpoint(before: Objects, after: Objects, retain: nat)
    requires OnlyPublished(before) && Shrunk(before, after) && PruneExact(before, after, retain)
    ensures ValidKeys(after) != {} <==> exists v | v in ValidKeys(before) :: |Newer(before, v)| < retain
  {
    hide IsManifest, WellFormed, Newer;
    var doomed := Surplus(before, retain);
    ManifestsLeft(before, after, doomed);
    forall v | v in ManifestKeys(before) && v !in doomed
      ensures v in after && (Valid(before, v) ==> Valid(after, v))
    {
      DoomedDisjoint(before, doomed, v);
    }
    if v :| v in ValidKeys(before) && |Newer(before, v)| < retain {
      assert v in ValidKeys(after);
    }
    forall v | v in ValidKeys(after) ensures v in ValidKeys(before) && |Newer(before, v)| < retain {
      assert v in ManifestKeys(after);
    }
  }

  /** One good checkpoint and a newer manifest its publisher never finished. */
  ghost predicate IsTornStore(o: Objects, id: string, torn: string, c: Content) {
    && id != "" && id != torn
    && o == map[ArchiveKey(id) := Object(c, 0),
                ManifestKey(id) := Object(Encoded(ManifestFor(id, "r", "periodic", c)), 1),
                ManifestKey(torn) := Object(Cut(c), 2)]
  }

  lemma TornStoreFacts(o: Objects, id: string, torn: string, c: Content)
    requires IsTornStore(o, id, torn, c)
    ensures ArchiveKey(id) != ManifestKey(id) && ManifestKey(id) != ManifestKey(torn) && ManifestKey(torn) != ArchiveKey(id)
    ensures IsManifest(ManifestKey(id)) && IsManifest(ManifestKey(torn)) && !IsManifest(ArchiveKey(id))
    ensures forall k | k in o :: !IsLegacy(k)
  {
    KeysInjective(id, torn);
    KeysInjective(torn, id);
    KeysInjective(id, id);
    KeyFacts(id);
    KeyFacts(torn);
    hide ManifestKey, ArchiveKey, IsManifest, IsLegacy;
  }

  lemma TornStoreLoads(o: Objects, id: string, torn: string, c: Content)
    requires IsTornStore(o, id, torn, c)
    ensures OnlyPublished(o) && DistinctTimes(o) && LegacyKeys(o) == {}
    ensures ManifestKey(id) in o && ValidKeys(o) == {ManifestKey(id)}
    ensures |Newer(o, ManifestKey(id))| == 1
    ensures Load(o, "") == Success(Loaded(ManifestFor(id, "r", "periodic", c), c))
  {
    hide ManifestKey, ArchiveKey, IsManifest, IsLegacy;
    TornStoreFacts(o, id, torn, c);
    NotEmptyKey(id);
    assert Newer(o, ManifestKey(id)) == {ManifestKey(torn)};
    assert ValidKeys(o) == {ManifestKey(id)};
    assert IsNewest(o, ValidKeys(o), ManifestKey(id));
    NewestIsUnique(o, ValidKeys(o), ManifestKey(id));
  }

  lemma NotEmptyKey(id: string)
    ensures ManifestKey(id) != "" && ArchiveKey(id) != ""
  {
  }

  /** With retain = 1 a half-written manifest left by another publisher makes the
      prune delete the only checkpoint there is. */
  lemma TornManifestEvicts(before: Objects, id: string, torn: string, c: Content, after: Objects)
    requires IsTornStore(before, id, torn, c)
    requires Shrunk(before, after) && PruneExact(before, after, 1)
    ensures Load(before, "") == Success(Loaded(ManifestFor(id, "r", "periodic", c), c))
    ensures Load(after, "").Failure?
  {
    hide IsTornStore, ManifestKey, ArchiveKey, IsManifest, IsLegacy, PruneExact, OnlyPublished, Valid, ManifestFor;
    TornStoreLoads(before, id, torn, c);
    PruneLeavesACheckpoint(before, after, 1);
    assert LegacyKeys(after) <= LegacyKeys(before);
  }

  /** The manifests that are still visible load as before, save those a deletion
      reported an error for. */
  ghost predicate StillLoad(before: Objects, after: Objects, failed: set<string>) {
    forall v | v in ManifestKeys(before) && v in after && v !in failed && Valid(before, v) :: Valid(after, v)
  }

  lemma CrashNeverDangles(before: Objects, after: Objects, failed: set<string>, retain: nat)
    requires PruneSafe(before, after, failed, retain)
    ensures StillLoad(before, after, failed)
  {
    hide IsManifest, Surplus, Doomed;
    forall v | v in ManifestKeys(before) && v in after && v !in failed && Valid(before, v) ensures Valid(after, v) {
      assert !Dangling(before, after, v);
    }
  }

  /** An error from deleting a marker does not stop the archive's deletion: this
      outcome of one round leaves a visible manifest that no longer loads. */
  lemma MarkerErrorDangles(now: Objects, key: string)
    requires Valid(now, key) && now[key].content.manifest.archiveKey != key
    ensures var next := now - {now[key].content.manifest.archiveKey};
            && DeleteEffect(now, now, key, Error)
            && DeleteEffect(now, next, now[key].content.manifest.archiveKey, Fine)
            && PrunedOne(now, next, key, false, {key})
            && key in next && !Valid(next, key)
  {
  }

  // ---- what retention leaves ------------------------------------------------------

  /** Every manifest that went is older than every one that is left. */
  ghost predicate OldestGo(before: Objects, all: set<string>, left: set<string>) {
    forall k, k' | k in left && k in before && k' in all && k' !in left && k' in before :: before[k'].modified < before[k].modified
  }

  /** This is the archive of a manifest that went. */
  ghost predicate Unloaded(before: Objects, gone: set<string>, k: string) {
    exists v | v in gone :: Valid(before, v) && before[v].content.manifest.archiveKey == k
  }

  /** Of the manifests the newest n are left, as they were, and with the others goes
      exactly what they load. */
  ghost predicate Retained(before: Objects, after: Objects, n: nat) {
    var all, left := ManifestKeys(before), ManifestKeys(after);
    && Shrunk(before, after) && |left| == Min(|all|, n) && OldestGo(before, all, left)
    && (forall k | k in before && !IsManifest(k) :: k !in after <==> Unloaded(before, all - left, k))
  }

  lemma FewerNewer(objects: Objects, k: string, k': string)
    requires k in objects && k' in objects && objects[k].modified <= objects[k'].modified
    ensures |Newer(objects, k')| <= |Newer(objects, k)|
  {
    var a, b := Newer(objects, k'), Newer(objects, k);
    assert a <= b;
    assert b == a + (b - a);
  }

  lemma ExactIsRetained(before: Objects, after: Objects, n: nat)
    requires OnlyPublished(before) && Shrunk(before, after) && PruneExact(before, after, n)
    ensures Retained(before, after, n)
  {
    hide IsManifest, Newer, Valid, Doomed, OnlyPublished, Surplus, OldestGo, ManifestKeys, Unloaded;
    var doomed := Surplus(before, n);
    SurplusSubset(before, n);
    ManifestsLeft(before, after, doomed);
    assert ManifestKeys(before) - ManifestKeys(after) == doomed;
    SurplusIsOldest(before, n);
    GoneWith(before, after, doomed);
  }

  lemma SurplusIsOldest(before: Objects, n: nat)
    ensures OldestGo(before, ManifestKeys(before), ManifestKeys(before) - Surplus(before, n))
  {
    hide IsManifest, Newer;
    var left := ManifestKeys(before) - Surplus(before, n);
    forall k, k' | k in left && k in before && k' in ManifestKeys(before) && k' !in left && k' in before
      ensures before[k'].modified < before[k].modified
    {
      if before[k].modified <= before[k'].modified {
        FewerNewer(before, k, k');
      }
    }
  }

  lemma GoneWith(before: Objects, after: Objects, doomed: set<string>)
    requires doomed <= ManifestKeys(before) && doomed <= before.Keys && after.Keys == before.Keys - Doomed(before, doomed)
    ensures forall k | k in before && !IsManifest(k) :: k !in after <==> Unloaded(before, doomed, k)
  {
    hide WellFormed, Verified;
  }

  /** The same after a publication: the newest n of the old manifests and the new one. */
  ghost predicate KeepsNewest(before: Objects, after: Objects, id: string, n: nat) {
    var all, left := ManifestKeys(before) + {ManifestKey(id)}, ManifestKeys(after);
    && left <= all && ManifestKey(id) in left && |left| == Min(|all|, n) && OldestGo(before, all, left)
    && (forall k | k in left && k != ManifestKey(id) :: k in before && after[k] == before[k])
    && (forall k | k in before && !IsManifest(k) && k != ArchiveKey(id) ::
          (k !in after <==> Unloaded(before, all - left, k)) && (k in after ==> after[k] == before[k]))
  }

  lemma NewestAreKept(before: Objects, committed: Objects, after: Objects, id: string, n: nat)
    requires OnlyPublished(before) && ManifestKey(id) !in before && AgreeExcept(before, committed, id) && n >= 1
    requires ManifestKey(id) in committed && forall k | k in committed :: committed[k].modified <= committed[ManifestKey(id)].modified
    requires Retained(committed, after, n)
    ensures KeepsNewest(before, after, id, n)
  {
    hide Valid, ManifestKey, ArchiveKey, OnlyPublished, Unloaded, OldestGo, IsManifest, ManifestKeys;
    var all, left := ManifestKeys(committed), ManifestKeys(after);
    OneMoreManifest(before, committed, after, id);
    NewestRemains(committed, after, n, ManifestKey(id));
    AgesAgree(before, committed, id, all, left);
    forall k | k in before && !IsManifest(k) && k != ArchiveKey(id)
      ensures Unloaded(before, all - left, k) <==> Unloaded(committed, all - left, k)
    {
      UnloadedAgree(before, committed, id, all - left, k);
    }
  }

  lemma OneMoreManifest(before: Objects, committed: Objects, after: Objects, id: string)
    requires AgreeExcept(before, committed, id) && ManifestKey(id) in committed && Shrunk(committed, after)
    ensures ManifestKeys(committed) == ManifestKeys(before) + {ManifestKey(id)}
    ensures ManifestKeys(after) <= ManifestKeys(committed)
    ensures forall k | k in ManifestKeys(before) :: k in before && IsManifest(k) && k != ArchiveKey(id)
    ensures forall k | k in ManifestKeys(after) :: k in after
    ensures IsManifest(ManifestKey(id))
  {
    hide ManifestKey, ArchiveKey, IsManifest;
    KeyFacts(id);
  }

  lemma AgesAgree(before: Objects, committed: Objects, id: string, all: set<string>, left: set<string>)
    requires AgreeExcept(before, committed, id) && ManifestKey(id) !in before && OldestGo(committed, all, left)
    requires left <= all && all == ManifestKeys(before) + {ManifestKey(id)}
    ensures OldestGo(before, all, left)
  {
    hide ManifestKey, ArchiveKey, IsManifest;
    KeyFacts(id);
  }

  lemma UnloadedAgree(before: Objects, committed: Objects, id: string, gone: set<string>, k: string)
    requires OnlyPublished(before) && ManifestKey(id) !in before && AgreeExcept(before, committed, id)
    requires gone <= ManifestKeys(before)
    ensures Unloaded(before, gone, k) <==> Unloaded(committed, gone, k)
  {
    hide Valid, ManifestKey, ArchiveKey, OnlyPublished, AgreeExcept;
    forall v | v in gone ensures v in before && v in committed && before[v] == committed[v] && (Valid(before, v) <==> Valid(committed, v)) {
      SameValidity(before, committed, id, v);
    }
  }

  lemma SameValidity(a: Objects, b: Objects, id: string, k: string)
    requires OnlyPublished(a) && ManifestKey(id) !in a && AgreeExcept(a, b, id) && k in ManifestKeys(a)
    ensures k in b && b[k] == a[k] && (Valid(a, k) <==> Valid(b, k))
  {
    KeyFacts(id);
    if a[k].content.Encoded? {
      var m := a[k].content.manifest;
      KeysInjective(id, m.id);
      KeysInjective(m.id, id);
    }
  }

  /** A newest manifest is among the newest n. */
  lemma NewestRemains(before: Objects, after: Objects, n: nat, k: string)
    requires Retained(before, after, n) && n >= 1 && k in ManifestKeys(before)
    requires forall k' | k' in before :: before[k'].modified <= before[k].modified
    ensures k in ManifestKeys(after)
  {
    hide IsManifest, Valid, Unloaded;
    var left := ManifestKeys(after);
    assert left != {};
    var k' :| k' in left;
    assert k' in before;
  }

  // ---- what a load gives, field by field ---------------------------------------------

  /** The object is a manifest of this format whose archive is there with the size and
      the digest it names. */
  predicate Loads(objects: Objects, key: string) {
    && key in objects && objects[key].content.Encoded?
    && var m := objects[key].content.manifest;
       && m.formatVersion == 1 && m.id != "" && m.archiveKey != "" && m.sizeBytes >= 0
       && m.archiveKey in objects && Size(objects[m.archiveKey].content) == m.sizeBytes
       && m.sha256 == Some(objects[m.archiveKey].content)
  }

  /** What was loaded is this manifest, under its key, with its archive. */
  predicate IsLoadOf(objects: Objects, key: string, l: Loaded) {
    && Loads(objects, key)
    && var m := objects[key].content.manifest;
       && l.manifest == m.(manifestKey := if m.manifestKey == "" then key else m.manifestKey)
       && l.archive == objects[m.archiveKey].content
  }

  predicate InDirectory(key: string, suffix: string) {
    HasPrefix(key, "checkpoints/") && HasSuffix(key, suffix)
  }

  /** An archive from before there were manifests. */
  predicate IsSnapshot(objects: Objects, key: string) {
    key in objects && InDirectory(key, ".tar.gz") && !Contains(key, "/objects/")
  }

  /** What was loaded is this snapshot, under the id its key spells. */
  predicate IsSnapshotOf(objects: Objects, key: string, l: Loaded) {
    && IsSnapshot(objects, key) && l.archive == objects[key].content
    && l.manifest.id == TrimSuffix(TrimPrefix(key, "checkpoints/"), ".tar.gz")
    && l.manifest.archiveKey == key && l.manifest.manifestKey == key && l.manifest.trigger == "legacy"
    && l.manifest.sizeBytes == Size(objects[key].content)
  }

  /** Of the manifests that load, none is more recent. */
  predicate NewestLoading(objects: Objects, key: string) {
    key in objects && forall k | k in objects && InDirectory(k, ".json") && Loads(objects, k) :: objects[k].modified <= objects[key].modified
  }

  predicate NewestSnapshot(objects: Objects, key: string) {
    key in objects && forall k | k in objects && IsSnapshot(objects, k) :: objects[k].modified <= objects[key].modified
  }

  /** LoadCheckpoint's answer: with a key that manifest or none; without one the most
      recent manifest that loads, or the most recent snapshot if there is no such
      manifest, or why there is neither. */
  ghost predicate Answers(objects: Objects, key: string, r: Result<Loaded, LoadError>) {
    if key != "" then
      match r
      case Success(l) => IsLoadOf(objects, key, l)
      case Failure(e) => !Loads(objects, key) && (e == NotFound <==> key !in objects)
    else
      match r
      case Success(l) =>
        || (exists k :: InDirectory(k, ".json") && NewestLoading(objects, k) && IsLoadOf(objects, k, l))
        || (&& (forall k | k in objects && InDirectory(k, ".json") :: !Loads(objects, k))
            && exists k :: NewestSnapshot(objects, k) && IsSnapshotOf(objects, k, l))
      case Failure(e) =>
        && (forall k | k in objects && InDirectory(k, ".json") :: !Loads(objects, k))
        && (forall k | k in objects :: !IsSnapshot(objects, k))
        && (e == NotFound <==> forall k | k in objects :: !InDirectory(k, ".json"))
  }

  lemma LoadsIsValid(objects: Objects, key: string)
    ensures (Loads(objects, key) <==> Valid(objects, key)) && (Loads(objects, key) ==> key in objects)
    ensures Valid(objects, key) ==> IsLoadOf(objects, key, Loading(objects, key))
  {
  }

  lemma LoadAnswers(objects: Objects, key: string)
    ensures Answers(objects, key, Load(objects, key))
  {
    hide Valid, Loads, IsLoadOf, IsSnapshotOf, Loading, LoadingLegacy, HasPrefix, HasSuffix, Contains;
    LoadsIsValid(objects, key);
    if key == "" {
      forall k | k in objects
        ensures Loads(objects, k) <==> Valid(objects, k)
        ensures k in ManifestKeys(objects) <==> InDirectory(k, ".json")
        ensures k in ValidKeys(objects) <==> InDirectory(k, ".json") && Loads(objects, k)
        ensures k in LegacyKeys(objects) <==> IsSnapshot(objects, k)
      {
        LoadsIsValid(objects, k);
      }
      if ValidKeys(objects) != {} {
        var k := Newest(objects, ValidKeys(objects));
        LoadsIsValid(objects, k);
        assert InDirectory(k, ".json") && NewestLoading(objects, k);
      } else if LegacyKeys(objects) != {} {
        var k := Newest(objects, LegacyKeys(objects));
        SnapshotIsLegacy(objects, k);
        assert NewestSnapshot(objects, k);
      } else if ManifestKeys(objects) != {} {
        var k :| k in ManifestKeys(objects);
        assert k in objects && InDirectory(k, ".json");
      } else {
        assert forall k | k in objects :: k !in ManifestKeys(objects);
      }
      assert ValidKeys(objects) == {} ==> forall k | k in objects :: k !in ValidKeys(objects);
      assert LegacyKeys(objects) == {} ==> forall k | k in objects :: k !in LegacyKeys(objects);
    }
  }

  lemma SnapshotIsLegacy(objects: Objects, key: string)
    requires key in objects && IsLegacy(key)
    ensures IsSnapshotOf(objects, key, LoadingLegacy(objects, key))
  {
  }

  // ---- the store and the operations ----------------------------------------------

  /** How PublishCheckpoint ends: with a manifest (and possibly a retention
      warning), with an error, or with the process gone. */
  datatype Outcome = Published(manifest: Manifest, warning: bool) | Refused | Died

  /** The process died exactly if a call took it down, and errors are told exactly if
      a call reported one. */
  ghost predicate Tells(before: seq<Served>, after: seq<Served>, died: bool, failed: set<string>) {
    && before <= after
    && (died <==> Met(after[|before|..], Crash))
    && (failed != {} <==> Met(after[|before|..], Error))
  }

  lemma NothingTells(calls: seq<Served>)
    ensures Tells(calls, calls, false, {})
  {
  }

  lemma OneTells(calls: seq<Served>, f: Fault, key: string)
    ensures Tells(calls, calls + [Served(f, true)], f == Crash, if f == Error then {key} else {})
  {
    var one := [Served(f, true)];
    assert (calls + one)[|calls|..] == one && one[0].f == f;
  }

  lemma TellsThen(a: seq<Served>, b: seq<Served>, c: seq<Served>, failed: set<string>, died: bool, errs: set<string>)
    requires Tells(a, b, false, failed) && Tells(b, c, died, errs)
    ensures Tells(a, c, died, failed + errs)
  {
    hide Met;
    var x, y := b[|a|..], c[|b|..];
    assert c[|a|..] == x + y;
    MetThen(x, y, Crash);
    MetThen(x, y, Error);
  }

  /** How a publication answers for the calls it made; `sensible` says that it had a
      run id and a workspace that can be archived. */
  ghost predicate PublishTold(calls: seq<Served>, sensible: bool, o: Outcome, honest: bool) {
    && (o.Died? <==> Met(calls, Crash))
    && (sensible && AllWell(calls) ==> o.Published? && !o.warning)
    && (o.Published? ==> sensible && |calls| >= 2 && calls[0].f == Fine && calls[1].f == Fine && (o.warning <==> Met(calls, Error)))
    && (o.Refused? ==> !sensible || exists i | 0 <= i < Min(2, |calls|) :: calls[i] != Served(Fine, true))
    && (honest <==> |calls| < 2 || calls[1].intact)
  }

  lemma NothingCalled(calls: seq<Served>, sensible: bool)
    ensures calls <= calls && (!sensible ==> PublishTold(calls[|calls|..], sensible, Refused, true))
  {
  }

  lemma FirstCall(calls: seq<Served>, a: Served)
    ensures var now := calls + [a];
            && calls <= now
            && (a.f != Fine ==> PublishTold(now[|calls|..], true, if a.f == Crash then Died else Refused, true))
            && (a.f == Fine && !a.intact ==> PublishTold(now[|calls|..], true, Refused, true))
  {
    var now := calls + [a];
    assert now[|calls|..] == [a] && [a][0] == a;
  }

  lemma SecondCall(calls: seq<Served>, a: Served, b: Served)
    requires a.f == Fine
    ensures var now := calls + [a] + [b];
            calls <= now && (b.f != Fine ==> PublishTold(now[|calls|..], true, if b.f == Crash then Died else Refused, b.intact))
  {
    var now := calls + [a] + [b];
    assert now[|calls|..] == [a, b] && [a, b][1] == b;
  }

  lemma PruneTold(calls: seq<Served>, a: Served, honest: bool, before: seq<Served>, now: seq<Served>, died: bool, failed: set<string>, m: Manifest)
    requires a.f == Fine && before == calls + [a] + [Served(Fine, honest)] && Tells(before, now, died, failed)
    ensures calls <= now && PublishTold(now[|calls|..], true, if died then Died else Published(m, failed != {}), honest)
  {
    hide Met;
    var two, rest := [a, Served(Fine, honest)], now[|before|..];
    assert now[|calls|..] == two + rest;
    MetThen(two, rest, Crash);
    MetThen(two, rest, Error);
    NoneMet(two);
    if AllWell(two + rest) {
      WellMeetsNothing(two + rest);
    }
  }

  lemma NoneMet(two: seq<Served>)
    requires forall i | 0 <= i < |two| :: two[i].f == Fine
    ensures !Met(two, Crash) && !Met(two, Error)
  {
  }

  lemma WellMeetsNothing(calls: seq<Served>)
    requires AllWell(calls)
    ensures !Met(calls, Crash) && !Met(calls, Error)
  {
  }

  class Store {
    var objects: Objects
    var clock: nat

    /** What is to come of the next writing calls; without a reply a call works. */
    var replies: seq<Reply>

    /** Every writing call to come works. */
    ghost predicate Smooth()
      reads this
    {
      forall i | 0 <= i < |replies| :: replies[i].f == Fine && replies[i].garbage.None?
    }

    /** The writing calls so far. */
    ghost var served: seq<Served>

    ghost predicate Consistent()
      reads this
    {
      DistinctTimes(objects) && NewerThanAll(objects, clock)
    }

    method Serve() returns (r: Reply)
      modifies `replies
      ensures old(Smooth()) ==> r.f == Fine && r.garbage.None? && Smooth()
    {
      if replies == [] {
        return Reply(Fine, false, true, None);
      }
      r := replies[0];
      replies := replies[1..];
    }

    method Put(key: string, c: Content) returns (f: Fault, ghost intact: bool)
      requires Consistent()
      modifies this
      ensures Consistent() && PutEffect(old(objects), objects, key, c, f, intact)
      ensures served == old(served) + [Served(f, intact)]
      ensures old(Smooth()) ==> f == Fine && intact && Smooth()
    {
      var r := Serve();
      f, intact := r.f, r.garbage.None?;
      if f == Fine || !r.untouched {
        var stored := if r.garbage.Some? then Other(r.garbage.value) else if f == Fine || r.whole then c else Cut(c);
        objects := objects[key := Object(stored, clock)];
        clock := clock + 1;
      }
      served := served + [Served(f, intact)];
    }

    method Delete(key: string) returns (f: Fault)
      requires Consistent()
      modifies this`objects, `served, `replies
      ensures Consistent() && DeleteEffect(old(objects), objects, key, f)
      ensures served == old(served) + [Served(f, true)]
      ensures old(Smooth()) ==> f == Fine && Smooth()
    {
      var r := Serve();
      f := r.f;
      if f == Fine || !r.untouched {
        objects := objects - {key};
      }
      served := served + [Served(f, true)];
    }

    /** List of the checkpoint directory. */
    method List() returns (s: seq<Listed>)
      ensures Lists(objects, DirKeys(objects), s)
    {
      s := [];
      var left := DirKeys(objects);
      ghost var all := left;
      while left != {}
        invariant left <= all <= objects.Keys
        invariant Lists(objects, all - left, s)
        decreases |left|
      {
        var k :| k in left;
        s := s + [Listed(k, objects[k].modified)];
        left := left - {k};
      }
      assert all - left == all;
    }

    /** loadManifest. */
    method LoadManifest(key: string) returns (r: Result<Loaded, LoadError>)
      ensures key !in objects ==> r == Failure(NotFound)
      ensures key in objects && Valid(objects, key) ==> r == Success(Loading(objects, key))
      ensures key in objects && !Valid(objects, key) ==> r == Failure(Invalid)
      ensures if Loads(objects, key) then r.Success? && IsLoadOf(objects, key, r.value)
              else r == Failure(if key in objects then Invalid else NotFound)
    {
      LoadsIsValid(objects, key);
      if key !in objects {
        return Failure(NotFound);
      }
      if !objects[key].content.Encoded? {
        return Failure(Invalid);
      }
      var m := objects[key].content.manifest;
      if m.formatVersion != FORMAT_VERSION || m.id == "" || m.archiveKey == "" || m.sha256.None? || m.sizeBytes < 0 {
        return Failure(Invalid);
      }
      if !Verified(objects, m) {
        return Failure(Invalid);
      }
      if m.manifestKey == "" {
        m := m.(manifestKey := key);
      }
      return Success(Loaded(m, objects[m.archiveKey].content));
    }

    /** LoadCheckpoint: with a key that manifest; without one the newest valid
        manifest, then the newest legacy snapshot. */
    method LoadCheckpoint(key: string) returns (r: Result<Loaded, LoadError>)
      requires Consistent()
      ensures r == Load(objects, key)
      ensures Answers(objects, key, r)
    {
      hide Answers, Loads, IsLoadOf;
      LoadAnswers(objects, key);
      LoadsIsValid(objects, key);
      if key != "" {
        r := LoadManifest(key);
        return;
      }
      var listed := List();
      ghost var ks := DirKeys(objects);
      SortedListing(objects, ks, listed);
      var objs := SortNewestFirst(listed);
      var found, invalid := FirstValid(ks, objs);
      if found.Some? {
        return Success(found.value);
      }
      found := FirstLegacy(ks, objs);
      if found.Some? {
        return Success(found.value);
      }
      return Failure(if invalid then NoValid else NotFound);
    }

    /** The loop over the ".json" entries; `invalid` says it rejected some. */
    method FirstValid(ghost ks: set<string>, objs: seq<Listed>) returns (found: Option<Loaded>, invalid: bool)
      requires Consistent() && ks == DirKeys(objects) && Lists(objects, ks, objs) && NewestFirst(objs)
      ensures found.None? <==> ValidKeys(objects) == {}
      ensures found.Some? ==> found.value == Loading(objects, Newest(objects, ValidKeys(objects)))
      ensures found.None? ==> (invalid <==> ManifestKeys(objects) != {})
    {
      hide Valid, Contains, HasPrefix, HasSuffix;
      found, invalid := None, false;
      var i := 0;
      while i < |objs|
        invariant 0 <= i <= |objs|
        invariant forall j | 0 <= j < i :: objs[j].key !in ValidKeys(objects)
        invariant forall j | 0 <= j < i && !invalid :: objs[j].key !in ManifestKeys(objects)
        invariant invalid ==> ManifestKeys(objects) != {}
      {
        assert objs[i] in objs;
        if HasSuffix(objs[i].key, ".json") {
          var r := LoadManifest(objs[i].key);
          if r.Success? {
            FirstIsNewest(objects, ks, objs, ValidKeys(objects), i);
            NewestIsUnique(objects, ValidKeys(objects), objs[i].key);
            return Some(r.value), invalid;
          }
          invalid := true;
          assert objs[i].key in ManifestKeys(objects);
        }
        i := i + 1;
      }
      NoneListed(objects, ks, objs, ValidKeys(objects));
      if !invalid {
        NoneListed(objects, ks, objs, ManifestKeys(objects));
      }
    }

    /** The loop over snapshots that predate manifests. */
    method FirstLegacy(ghost ks: set<string>, objs: seq<Listed>) returns (found: Option<Loaded>)
      requires Consistent() && ks == DirKeys(objects) && Lists(objects, ks, objs) && NewestFirst(objs)
      ensures found.None? <==> LegacyKeys(objects) == {}
      ensures found.Some? ==> found.value == LoadingLegacy(objects, Newest(objects, LegacyKeys(objects)))
    {
      var i := 0;
      while i < |objs|
        invariant 0 <= i <= |objs|
        invariant forall j | 0 <= j < i :: objs[j].key !in LegacyKeys(objects)
      {
        assert objs[i] in objs;
        if HasSuffix(objs[i].key, ".tar.gz") && !Contains(objs[i].key, "/objects/") {
          FirstIsNewest(objects, ks, objs, LegacyKeys(objects), i);
          NewestIsUnique(objects, LegacyKeys(objects), objs[i].key);
          return Some(LoadingLegacy(objects, objs[i].key));
        }
        i := i + 1;
      }
      NoneListed(objects, ks, objs, LegacyKeys(objects));
      found := None;
    }

    /** PublishCheckpoint. The manifest Put is the commit point: whatever fails
        and wherever the process stops, a load gives what it gave before or the
        new checkpoint; `honest` says the manifest's bytes were stored as sent.
        It publishes when nothing goes wrong, is refused or dies only for a reason,
        and then keeps the newest `keep` manifests, five by default. */
    method PublishCheckpoint(t: Tree, walk: seq<Visit>, runID: string, trigger: string, keep: int, id: string)
      returns (o: Outcome, ghost honest: bool)
      requires Consistent() && OnlyPublished(objects) && IsWalk(t, walk)
      requires id != "" && ManifestKey(id) !in objects
      modifies this
      ensures Consistent() && OnlyPublished(objects)
      ensures runID == "" || !Archivable(t) ==> o == Refused && objects == old(objects)
      ensures honest ==>
              var m := ManifestFor(id, runID, trigger, Packed(Archives.Packed(walk)));
              && (|| Load(objects, "") == Attempted(Load(old(objects), ""), ManifestKey(id) in objects)
                  || Load(objects, "") == Success(Loaded(m, Packed(Archives.Packed(walk)))))
              && (o.Published? ==>
                    && o.manifest == m && Verified(objects, m)
                    && Load(objects, "") == Success(Loaded(m, Packed(Archives.Packed(walk)))))
      ensures o.Published? ==>
              && o.manifest.formatVersion == 1 && o.manifest.id == id && o.manifest.runID == runID && o.manifest.trigger == trigger
              && o.manifest.archiveKey == "checkpoints/objects/" + id + ".tar.gz" && o.manifest.manifestKey == "checkpoints/" + id + ".json"
              && o.manifest.sha256 == Some(Packed(Archives.Packed(walk))) && o.manifest.sizeBytes == Size(Packed(Archives.Packed(walk)))
      ensures old(served) <= served && PublishTold(served[|old(served)|..], runID != "" && Archivable(t), o, honest)
      ensures runID != "" && Archivable(t) && old(Smooth()) ==> o.Published? && !o.warning && honest
      ensures o.Published? && !o.warning ==> KeepsNewest(old(objects), objects, id, if keep <= 0 then 5 else keep)
    {
      hide Archivable, IsWalk, Archives.Packed, Verified, WellFormed, PutEffect, AgreeExcept, CommittedAs, OnlyPublished,
        Latest, Load, ManifestFor, ManifestKey, ArchiveKey, PruneSafe, PruneExact, DistinctTimes, NewerThanAll,
        Met, Tells, KeepsNewest, Retained, StillLoad, PublishTold;
      honest := true;
      ghost var calls := served;
      NothingCalled(calls, runID != "" && Archivable(t));
      if runID == "" {
        return Refused, honest;
      }
      var retain := if keep <= 0 then DEFAULT_RETAIN else keep;
      var archived := Archive(t, walk);
      if archived.Failure? {
        return Refused, honest;
      }
      var payload := Packed(archived.value);
      var m := ManifestFor(id, runID, trigger, payload);
      ManifestForFacts(id, runID, trigger, payload);
      ManifestFields(id, runID, trigger, payload);
      ghost var start := objects;
      var f;
      ghost var intact;
      f, intact := Put(m.archiveKey, payload);
      ArchivePut(start, objects, id, payload, f, intact);
      FirstCall(calls, Served(f, intact));
      if f != Fine {
        return if f == Crash then Died else Refused, honest;
      }
      ArchiveVerifies(start, objects, m, payload, intact);
      if !Verified(objects, m) {
        return Refused, honest;
      }
      ghost var stored := objects;
      ghost var first := Served(f, intact);
      f, honest := Put(m.manifestKey, Encoded(m));
      ghost var committed := objects;
      SecondCall(calls, first, Served(f, honest));
      ManifestPut(start, stored, committed, id, m, f, honest);
      if CommittedAs(committed, id, m) {
        CommittedIsLatest(committed, id, m);
      }
      if f != Fine {
        return if f == Crash then Died else Refused, honest;
      }
      ManifestIsNewest(start, stored, committed, id, m, honest);
      ghost var before := served;
      var died, failed := PruneCheckpoints(retain);
      PruneTold(calls, first, honest, before, served, died, failed, m);
      ShrunkStaysPublished(committed, objects, failed, retain);
      if !died && failed == {} {
        NewestAreKept(start, committed, objects, id, retain);
      }
      if honest {
        AfterPrune(committed, objects, failed, retain, id, m);
        CommittedIsLatest(objects, id, m);
        CommittedVerified(objects, id, m);
      }
      return if died then Died else Published(m, failed != {}), honest;
    }

    /** One round of the retention loop: the marker first, then the archive of a
        manifest that loads, even when deleting the marker reported an error. */
    method PruneOne(key: string) returns (died: bool, failed: set<string>)
      requires Consistent() && key in objects
      modifies this`objects, `served, `replies
      ensures Consistent() && PrunedOne(old(objects), objects, key, died, failed)
      ensures Tells(old(served), served, died, failed)
      ensures old(Smooth()) ==> !died && failed == {} && Smooth()
    {
      hide Tells, PrunedOne, DeleteEffect, DistinctTimes, NewerThanAll, Valid;
      var m := LoadManifest(key);
      var f := Delete(key);
      OneTells(old(served), f, key);
      MarkerDeleted(old(objects), objects, key, f);
      failed := if f == Error then {key} else {};
      if f != Crash && m.Success? {
        ghost var before, mid, first := served, objects, f;
        var archive := m.value.manifest.archiveKey;
        f := Delete(archive);
        OneTells(before, f, archive);
        BothDeleted(old(objects), mid, objects, key, first, f);
        var more := if f == Error then {archive} else {};
        TellsThen(old(served), before, served, failed, f == Crash, more);
        failed := failed + more;
      }
      died := f == Crash;
    }

    /** pruneCheckpoints. Keys whose deletion reported an error are returned in
        `failed`; `died` says the process stopped in the middle. */
    method PruneCheckpoints(retain: nat) returns (died: bool, failed: set<string>)
      requires Consistent() && OnlyPublished(objects)
      modifies this`objects, `served, `replies
      ensures Consistent() && PruneSafe(old(objects), objects, failed, retain)
      ensures StillLoad(old(objects), objects, failed)
      ensures !died && failed == {} ==> PruneExact(old(objects), objects, retain) && Retained(old(objects), objects, retain)
      ensures Tells(old(served), served, died, failed)
      ensures old(Smooth()) ==> !died && failed == {} && Smooth()
    {
      hide Tells, Retained, Shrunk, StillLoad, PruneSafe, PruneExact, ManifestKeys, Surplus, Lists, NewestFirst, DistinctKeys, OnlyPublished, Keys;
      died, failed := false, {};
      NothingTells(served);
      var listed := List();
      ListManifests(objects, listed);
      SortedListing(objects, ManifestKeys(objects), ManifestsOf(listed));
      var manifests := SortNewestFirst(ManifestsOf(listed));
      SurplusIsTail(objects, manifests, retain);
      ghost var before := objects;
      if |manifests| <= retain {
        NothingPruned(before, retain);
      } else {
        ListedOnce(before, manifests);
        died, failed := PruneTail(manifests, retain);
      }
      CrashNeverDangles(before, objects, failed, retain);
      if !died && failed == {} {
        SafeShrinks(before, objects, failed, retain);
        ExactIsRetained(before, objects, retain);
      }
    }

    method PruneTail(manifests: seq<Listed>, retain: nat) returns (died: bool, failed: set<string>)
      requires Consistent() && OnlyPublished(objects) && retain < |manifests|
      requires DistinctKeys(manifests)
      requires Surplus(objects, retain) == Keys(manifests[retain..])
      requires |ManifestKeys(objects) - Surplus(objects, retain)| == retain <= |ManifestKeys(objects)|
      modifies this`objects, `served, `replies
      ensures Consistent() && PruneSafe(old(objects), objects, failed, retain)
      ensures !died && failed == {} ==> PruneExact(old(objects), objects, retain)
      ensures Tells(old(served), served, died, failed)
      ensures old(Smooth()) ==> !died && failed == {} && Smooth()
    {
      hide *;
      NothingTells(served);
      died, failed := false, {};
      ghost var before := objects;
      TailStart(before, manifests, retain);
      var i := retain;
      while i < |manifests| && !died
        invariant retain <= i <= |manifests|
        invariant Consistent() && TailInvariant(before, objects, manifests, retain, i, died, failed)
        invariant Tells(old(served), served, died, failed)
        invariant old(Smooth()) ==> !died && failed == {} && Smooth()
        decreases |manifests| - i
      {
        ghost var now, calls := objects, served;
        TailLoads(before, now, manifests, retain, i, failed);
        var errs: set<string>;
        died, errs := PruneOne(manifests[i].key);
        TailStep(before, now, objects, manifests, retain, i, failed, died, errs);
        TellsThen(old(served), calls, served, failed, died, errs);
        failed := failed + errs;
        i := i + 1;
      }
      TailEnd(before, objects, manifests, retain, i, died, failed);
    }
  }
}
