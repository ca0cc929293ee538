/** The hydrate init container, RunHydrate of `internal/podruntime/podruntime.go`:
    it prepares the workspace before the harness may start. */
module Hydration {
  import opened Basics
  import opened Archives
  import opened Checkpoints
  import opened CheckpointStore
  import opened AgentRuns

  /** How the clone of a fresh start goes when one is configured. */
  datatype CloneOutcome = Cloned(tree: Tree) | ProxyUnreachable | CloneFailed

  datatype HydrateResult = Prepared(disk: Tree, restored: Option<Loaded>) | Exited(code: int)

  /** restoreFromCheckpoint. */
  ghost function Restored(storage: bool, key: string, objects: Objects, disk: Tree): HydrateResult {
    if !storage then Exited(EXIT_ERROR)
    else
      match Load(objects, key)
      case Failure(_) => Exited(EXIT_ERROR)
      case Success(l) =>
        if !l.archive.Packed? then Exited(EXIT_ERROR)
        else
          match Unpacked(disk, l.archive.stream)
          case Failure(_) => Exited(EXIT_ERROR)
          case Success(t) => Prepared(t, Some(l))
  }

  /** RunHydrate. */
  ghost function Hydrated(cfg: Config, spec: RunSpec, objects: Objects, disk: Tree, clone: CloneOutcome): HydrateResult {
    if spec.resume then
      if !spec.restoreRequired then Prepared(disk, None)
      else Restored(cfg.storage, spec.restoreCheckpoint, objects, disk)
    else if !cfg.clones then Prepared(disk, None)
    else
      match clone
      case ProxyUnreachable => Exited(EXIT_RETRYABLE)
      case CloneFailed => Exited(EXIT_ERROR)
      case Cloned(t) => Prepared(t, None)
  }

  method RestoreFromCheckpoint(storage: bool, key: string, store: Store, ws: Workspace) returns (code: int, restored: Option<Loaded>)
    requires store.Consistent()
    modifies ws
    ensures code == 0 ==> Restored(storage, key, store.objects, old(ws.tree)) == Prepared(ws.tree, restored)
    ensures code != 0 ==> Restored(storage, key, store.objects, old(ws.tree)) == Exited(code)
  {
    restored := None;
    if !storage {
      return EXIT_ERROR, None;
    }
    var loaded := store.LoadCheckpoint(key);
    if loaded.Failure? {
      return EXIT_ERROR, None;
    }
    if !loaded.value.archive.Packed? {
      return EXIT_ERROR, None;
    }
    var r := ws.Unarchive(loaded.value.archive.stream);
    if r.Failure? {
      return EXIT_ERROR, None;
    }
    return 0, Some(loaded.value);
  }

  /** RunHydrate: exit code 0 means the harness may start. */
  method RunHydrate(cfg: Config, spec: RunSpec, store: Store, ws: Workspace, clone: CloneOutcome)
    returns (code: int, restored: Option<Loaded>)
    requires store.Consistent()
    modifies ws
    ensures code == 0 ==> Hydrated(cfg, spec, store.objects, old(ws.tree), clone) == Prepared(ws.tree, restored)
    ensures code != 0 ==> Hydrated(cfg, spec, store.objects, old(ws.tree), clone) == Exited(code)
    // A resume on a volume that survived leaves everything on it as it is.
    ensures spec.resume && !spec.restoreRequired ==> code == 0 && ws.tree == old(ws.tree) && restored == None
    // A fresh start has what the clone gave, or without one what was there.
    ensures !spec.resume && !cfg.clones ==> code == 0 && ws.tree == old(ws.tree) && restored == None
    ensures !spec.resume && cfg.clones ==>
              match clone
              case Cloned(t) => code == 0 && ws.tree == t && restored == None
              case ProxyUnreachable => code == 75 && ws.tree == old(ws.tree)
              case CloneFailed => code == 1 && ws.tree == old(ws.tree)
    // A mandatory restore gives the loaded checkpoint's archive, or exit code 1.
    ensures spec.resume && spec.restoreRequired ==>
              var loaded := Load(store.objects, spec.restoreCheckpoint);
              if cfg.storage && loaded.Success? && loaded.value.archive.Packed? && Unpacked(old(ws.tree), loaded.value.archive.stream).Success? then
                code == 0 && restored == Some(loaded.value) && Unpacked(old(ws.tree), loaded.value.archive.stream) == Success(ws.tree)
              else code == 1
  {
    if spec.resume {
      if !spec.restoreRequired {
        return 0, None;
      }
      code, restored := RestoreFromCheckpoint(cfg.storage, spec.restoreCheckpoint, store, ws);
      return;
    }
    if cfg.clones {
      match clone {
        case ProxyUnreachable => return EXIT_RETRYABLE, None;
        case CloneFailed => return EXIT_ERROR, None;
        case Cloned(t) => ws.tree := t;
      }
    }
    return 0, None;
  }

  /** A mandatory restore either unarchives a checkpoint that LoadCheckpoint gave,
      the pinned one if one is pinned, or ends the attempt for good. */
  lemma RestoreIsMandatory(cfg: Config, spec: RunSpec, objects: Objects, disk: Tree, clone: CloneOutcome)
    requires spec.resume && spec.restoreRequired
    ensures var r := Hydrated(cfg, spec, objects, disk, clone);
            && (r.Prepared? ==>
                  && r.restored.Some? && Load(objects, spec.restoreCheckpoint) == Success(r.restored.value)
                  && r.restored.value.archive.Packed? && Unpacked(disk, r.restored.value.archive.stream) == Success(r.disk)
                  && (spec.restoreCheckpoint != "" ==>
                        Valid(objects, spec.restoreCheckpoint) && r.restored.value == Loading(objects, spec.restoreCheckpoint)))
            && (r.Exited? ==> !Retryable([Termination(r.code, false)]))
  {
  }

  /** End to end: restoring onto a blank volume what PublishCheckpoint archived
      gives back the workspace, less what no checkpoint keeps. */
  lemma PublishedWorkspaceComesBack(cfg: Config, spec: RunSpec, objects: Objects, clone: CloneOutcome,
                                    t: Tree, walk: seq<Visit>, m: Manifest)
    requires spec.resume && spec.restoreRequired && cfg.storage
    requires ValidTree(t) && Archivable(t) && IsWalk(t, walk)
    requires Load(objects, spec.restoreCheckpoint) == Success(Loaded(m, Packed(Archives.Packed(walk))))
    ensures Hydrated(cfg, spec, objects, map[], clone)
         == Prepared(Restorable(t), Some(Loaded(m, Packed(Archives.Packed(walk)))))
  {
    RoundTrip(t, walk);
  }
}
