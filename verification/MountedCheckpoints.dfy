/** Checkpoints in a mounted run directory: the keys of `internal/blob/checkpoint.go`
    as paths of `internal/blob/mount.go`. */
module MountedCheckpoints {
  import opened Basics
  import opened Paths
  import opened Mount
  import Checkpoints

  function ManifestPath(root: Path, id: string): Path {
    root + ["checkpoints", id + ".json"]
  }

  function ArchivePath(root: Path, id: string): Path {
    root + ["checkpoints", "objects", id + ".tar.gz"]
  }

  lemma SplitTwo(a: string, b: string)
    requires '/' !in a && '/' !in b
    ensures Split(a + "/" + b) == [a, b]
  {
    SplitPlain(b, "");
    SplitPlain(a, b);
  }

  lemma ManifestKeyIsPath(root: Path, id: string)
    requires AllPlain(root) && root != [] && '/' !in id
    ensures Resolve(root, Checkpoints.ManifestKey(id)) == Some(ManifestPath(root, id))
  {
    hide Split, Resolve;
    var file := id + ".json";
    SplitTwo("checkpoints", file);
    assert "checkpoints" + "/" + file == Checkpoints.ManifestKey(id);
    CanonicalKey(root, Checkpoints.ManifestKey(id));
  }

  lemma ArchiveKeyIsPath(root: Path, id: string)
    requires AllPlain(root) && root != [] && '/' !in id
    ensures Resolve(root, Checkpoints.ArchiveKey(id)) == Some(ArchivePath(root, id))
  {
    hide Split, Resolve;
    var file := id + ".tar.gz";
    SplitTwo("objects", file);
    SplitPlain("checkpoints", "objects" + "/" + file);
    assert "checkpoints" + "/" + ("objects" + "/" + file) == Checkpoints.ArchiveKey(id);
    assert ["checkpoints"] + ["objects", file] == ["checkpoints", "objects", file];
    CanonicalKey(root, Checkpoints.ArchiveKey(id));
  }

  /** Neither is above the other. */
  predicate Apart(p: Path, q: Path) {
    !(p <= q) && !(q <= p)
  }

  lemma PathsAreApart(root: Path, id: string, id': string)
    requires id != id'
    ensures Apart(ManifestPath(root, id), ManifestPath(root, id')) && Apart(ArchivePath(root, id), ArchivePath(root, id'))
    ensures Apart(ManifestPath(root, id), ArchivePath(root, id')) && Apart(ArchivePath(root, id), ManifestPath(root, id'))
    ensures Apart(ManifestPath(root, id), ArchivePath(root, id))
  {
    var n := |root|;
    assert ManifestPath(root, id)[n + 1] == id + ".json" && ManifestPath(root, id')[n + 1] == id' + ".json";
    assert ArchivePath(root, id)[n + 1] == ArchivePath(root, id')[n + 1] == "objects";
    assert ArchivePath(root, id)[n + 2] == id + ".tar.gz" && ArchivePath(root, id')[n + 2] == id' + ".tar.gz";
    SuffixesDiffer(id, id');
  }

  lemma SuffixesDiffer(id: string, id': string)
    requires id != id'
    ensures id + ".json" != id' + ".json" && id + ".tar.gz" != id' + ".tar.gz"
    ensures id + ".json" != "objects" && id' + ".json" != "objects"
  {
    var n, n' := |id|, |id'|;
    assert (id + ".json")[..n] == id && (id' + ".json")[..n'] == id';
    assert (id + ".tar.gz")[..n] == id && (id' + ".tar.gz")[..n'] == id';
    assert (id + ".json")[n + 4] == 'n' && (id' + ".json")[n' + 4] == 'n';
    assert "objects"[|"objects"| - 1] == 's';
  }

  /** Putting or deleting one object of a checkpoint in a mounted store changes what is
      got of that object and of no other object of any checkpoint. */
  lemma CheckpointsAreApart(files: Files, root: Path, id: string, id': string, key: string, other: string, content: string, now: nat)
    requires IsTree(files) && AllPlain(root) && root != [] && '/' !in id && '/' !in id'
    requires key in {Checkpoints.ManifestKey(id), Checkpoints.ArchiveKey(id)}
    requires other in {Checkpoints.ManifestKey(id'), Checkpoints.ArchiveKey(id')} && other != key
    ensures Resolve(root, key).Some?
    ensures var stored := Stored(files, Resolve(root, key).value, content, now);
            stored.Some? ==> Fetched(stored.value, root, key) == Success(content)
                             && Fetched(stored.value, root, other) == Fetched(files, root, other)
    ensures var p := Resolve(root, key).value;
            p in files && files[p].File? ==> Fetched(files - {p}, root, key) == Failure(NotFound)
                                             && Fetched(files - {p}, root, other) == Fetched(files, root, other)
  {
    hide Resolve, Stored, Fetched, IsTree;
    ManifestKeyIsPath(root, id);
    ArchiveKeyIsPath(root, id);
    ManifestKeyIsPath(root, id');
    ArchiveKeyIsPath(root, id');
    if id != id' {
      PathsAreApart(root, id, id');
    } else {
      PathsAreApart(root, id, id + "x");
    }
    var p := Resolve(root, key).value;
    if Stored(files, p, content, now).Some? {
      PutThenGet(files, root, key, content, now, key);
      PutThenGet(files, root, key, content, now, other);
    }
    if p in files && files[p].File? {
      DeleteThenGet(files, root, key, other);
    }
  }
}
