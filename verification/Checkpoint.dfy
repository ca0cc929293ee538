/** `internal/blob/checkpoint.go`: publishing, loading and pruning checkpoints in
    an object store that can fail, or take the process down, at every call. */
module Checkpoints {
  import opened Basics
  import opened Archives

  /** The bytes of an object. `Cut` is what an unfinished write leaves behind;
      it never decodes as a manifest and never has a whole archive's digest. */
  datatype Content = Packed(stream: Stream) | Encoded(manifest: Manifest) | Cut(whole: Content) | Other(tag: nat)

  /** SHA-256 is taken as injective, so the digest of some bytes is written as
      those bytes; None is the empty digest field. */
  datatype Manifest = Manifest(formatVersion: int, id: string, runID: string, archiveKey: string,
                               sha256: Option<Content>, sizeBytes: int, trigger: string, manifestKey: string)

  /** A stand-in for the byte length: any function of the bytes would do. */
  function Size(c: Content): nat {
    match c
    case Packed(s) => |s|
    case Encoded(_) => 1
    case Cut(_) => 0
    case Other(tag) => tag
  }

  datatype Object = Object(content: Content, modified: nat)

  type Objects = map<string, Object>

  datatype LoadError = NotFound | NoValid | Invalid

  /** What a successful load hands to hydrate: the manifest and the bytes of its
      archive. */
  datatype Loaded = Loaded(manifest: Manifest, archive: Content)

  const FORMAT_VERSION := 1
  const DIR := "checkpoints/"
  const DEFAULT_RETAIN := 5

  function ManifestKey(id: string): string { DIR + id + ".json" }
  function ArchiveKey(id: string): string { DIR + "objects/" + id + ".tar.gz" }

  predicate IsManifest(key: string) {
    HasPrefix(key, DIR) && HasSuffix(key, ".json")
  }

  predicate IsLegacy(key: string) {
    HasPrefix(key, DIR) && HasSuffix(key, ".tar.gz") && !Contains(key, "/objects/")
  }

  // ---- loadManifest and verifyArchive as functions of the store ------------

  predicate WellFormed(m: Manifest) {
    m.formatVersion == FORMAT_VERSION && m.id != "" && m.archiveKey != "" && m.sha256.Some? && m.sizeBytes >= 0
  }

  /** verifyArchive: the archive is there with the recorded size and digest. */
  predicate Verified(objects: Objects, m: Manifest) {
    && m.archiveKey in objects
    && Size(objects[m.archiveKey].content) == m.sizeBytes
    && m.sha256 == Some(objects[m.archiveKey].content)
  }

  /** The object under this key is a manifest that checks out. */
  predicate Valid(objects: Objects, key: string) {
    && key in objects
    && objects[key].content.Encoded?
    && WellFormed(objects[key].content.manifest)
    && Verified(objects, objects[key].content.manifest)
  }

  /** loadManifest's value for a valid key. */
  function Loading(objects: Objects, key: string): Loaded
    requires Valid(objects, key)
  {
    var m := objects[key].content.manifest;
    Loaded(if m.manifestKey == "" then m.(manifestKey := key) else m, objects[m.archiveKey].content)
  }

  /** The value for a snapshot that predates manifests. */
  function LoadingLegacy(objects: Objects, key: string): Loaded
    requires key in objects && IsLegacy(key)
  {
    var id := TrimSuffix(TrimPrefix(key, DIR), ".tar.gz");
    Loaded(Manifest(0, id, "", key, None, Size(objects[key].content), "legacy", key), objects[key].content)
  }

  // ---- which object a load without a key picks ------------------------------

  ghost predicate DistinctTimes(objects: Objects) {
    forall k, k' | k in objects && k' in objects && k != k' :: objects[k].modified != objects[k'].modified
  }

  /** k is the most recently modified of the keys in ks. */
  ghost predicate IsNewest(objects: Objects, ks: set<string>, k: string) {
    k in ks && k in objects && forall k' | k' in ks && k' in objects :: objects[k'].modified <= objects[k].modified
  }

  function ValidKeys(objects: Objects): set<string> {
    set k | k in objects && IsManifest(k) && Valid(objects, k)
  }

  function ManifestKeys(objects: Objects): set<string> {
    set k | k in objects && IsManifest(k)
  }

  function LegacyKeys(objects: Objects): set<string> {
    set k | k in objects && IsLegacy(k)
  }

  lemma {:induction false} NewestExists(objects: Objects, ks: set<string>)
    requires ks != {} && ks <= objects.Keys
    ensures exists k :: IsNewest(objects, ks, k)
    decreases |ks|
  {
    var x :| x in ks;
    var rest := ks - {x};
    if rest == {} {
      assert ks == {x};
      assert IsNewest(objects, ks, x);
    } else {
      NewestExists(objects, rest);
      var y :| IsNewest(objects, rest, y);
      var z := if objects[y].modified < objects[x].modified then x else y;
      assert IsNewest(objects, ks, z);
    }
  }

  ghost function Newest(objects: Objects, ks: set<string>): (k: string)
    requires ks != {} && ks <= objects.Keys
    ensures IsNewest(objects, ks, k)
  {
    NewestExists(objects, ks);
    var k :| IsNewest(objects, ks, k);
    k
  }

  lemma NewestIsUnique(objects: Objects, ks: set<string>, k: string)
    requires DistinctTimes(objects) && ks <= objects.Keys && IsNewest(objects, ks, k)
    ensures Newest(objects, ks) == k
  {
  }

  /** LoadCheckpoint. */
  ghost function Load(objects: Objects, key: string): Result<Loaded, LoadError> {
    if key != "" then
      if key !in objects then Failure(NotFound)
      else if Valid(objects, key) then Success(Loading(objects, key))
      else Failure(Invalid)
    else if ValidKeys(objects) != {} then Success(Loading(objects, Newest(objects, ValidKeys(objects))))
    else if LegacyKeys(objects) != {} then Success(LoadingLegacy(objects, Newest(objects, LegacyKeys(objects))))
    else if ManifestKeys(objects) != {} then Failure(NoValid)
    else Failure(NotFound)
  }

  /** An explicit key yields that manifest with its archive intact or nothing. */
  lemma ExplicitLoadNeverFallsBack(objects: Objects, key: string)
    requires key != ""
    ensures Load(objects, key).Success? <==> Valid(objects, key)
    ensures Load(objects, key).Success? ==>
              var l := Load(objects, key).value;
              && Encoded(l.manifest.(manifestKey := objects[key].content.manifest.manifestKey)) == objects[key].content
              && l.manifest.sha256 == Some(l.archive)
  {
  }

  /** Without a key the load gives the newest manifest that checks out, a legacy
      snapshot only if there is none, and fails exactly when there is neither. */
  lemma LatestLoad(objects: Objects, k: string)
    requires DistinctTimes(objects)
    ensures IsNewest(objects, ValidKeys(objects), k) ==> Load(objects, "") == Success(Loading(objects, k))
    ensures ValidKeys(objects) == {} && IsNewest(objects, LegacyKeys(objects), k)
        ==> Load(objects, "") == Success(LoadingLegacy(objects, k))
    ensures Load(objects, "").Failure? <==> ValidKeys(objects) == {} && LegacyKeys(objects) == {}
    ensures Load(objects, "") == Failure(NotFound) <==> ManifestKeys(objects) == {} && LegacyKeys(objects) == {}
  {
    if IsNewest(objects, ValidKeys(objects), k) {
      NewestIsUnique(objects, ValidKeys(objects), k);
    } else if ValidKeys(objects) == {} && IsNewest(objects, LegacyKeys(objects), k) {
      NewestIsUnique(objects, LegacyKeys(objects), k);
    }
    assert ValidKeys(objects) <= ManifestKeys(objects);
  }

  // ---- keys of published checkpoints ----------------------------------------

  lemma KeyFacts(id: string)
    ensures IsManifest(ManifestKey(id)) && !IsLegacy(ManifestKey(id))
    ensures !IsManifest(ArchiveKey(id)) && !IsLegacy(ArchiveKey(id))
  {
    var mk, ak := ManifestKey(id), ArchiveKey(id);
    assert mk[|mk| - 5..] == ".json";
    assert mk[|mk| - 1] == 'n' && (|mk| >= 7 ==> mk[|mk| - 7..][6] == 'n');
    assert ak[|ak| - 1] == 'z' && ak[|ak| - 5..][4] == 'z';
    assert "/objects/" <= ak[|DIR| - 1..];
  }

  lemma KeysInjective(id: string, id': string)
    ensures ManifestKey(id) == ManifestKey(id') ==> id == id'
    ensures ArchiveKey(id) == ArchiveKey(id') ==> id == id'
    ensures ManifestKey(id) != ArchiveKey(id')
  {
    var n, n' := |ManifestKey(id)|, |ManifestKey(id')|;
    assert ManifestKey(id)[|DIR|..n - 5] == id && ManifestKey(id')[|DIR|..n' - 5] == id';
    var m, m' := |ArchiveKey(id)|, |ArchiveKey(id')|;
    var d := |DIR| + |"objects/"|;
    assert ArchiveKey(id)[d..m - 7] == id && ArchiveKey(id')[d..m' - 7] == id';
    KeyFacts(id);
    KeyFacts(id');
  }

  /** Every readable manifest in the store was written by PublishCheckpoint: it
      sits under its own id's key and names its own id's archive. */
  ghost predicate OnlyPublished(objects: Objects) {
    forall k | k in objects && IsManifest(k) && objects[k].content.Encoded? ::
      var m := objects[k].content.manifest;
      k == ManifestKey(m.id) && m.archiveKey == ArchiveKey(m.id)
  }

  /** The manifest PublishCheckpoint builds for an archive. */
  function ManifestFor(id: string, runID: string, trigger: string, archive: Content): Manifest {
    Manifest(FORMAT_VERSION, id, runID, ArchiveKey(id), Some(archive), Size(archive), trigger, ManifestKey(id))
  }
}
