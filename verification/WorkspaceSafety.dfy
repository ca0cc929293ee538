/** No silent workspace loss: over every execution, a volume made after the run
    left Pending is never used by a harness unless hydrate first unarchived a
    checkpoint that LoadCheckpoint gave. */
module WorkspaceSafety {
  import opened Basics
  import opened Archives
  import opened Checkpoints
  import opened AgentRuns
  import opened Hydration
  import opened Reconciliation
  import opened Runs

  /** Only the current attempt's pod may be one that is not being deleted. */
  predicate PastPodsGo(w: World) {
    forall g | g in w.pods :: g <= Gen(w) && (g != Gen(w) ==> w.pods[g].deleting)
  }

  /** A pod that may still start will read the spec of the stored status. */
  predicate SpecIsCurrent(w: World) {
    forall g | g in w.pods && w.pods[g].phase == PodPending && !w.pods[g].deleting :: w.spec == Some(BuildRunSpec(w.run.status))
  }

  /** The volume was made after the run left Pending and nothing has been
      restored into it. */
  predicate Blank(w: World) {
    w.pvc.Some? && w.pvc.value.recreated && w.pvc.value.restored.None?
  }

  /** While the volume is gone or blank no harness is up, and a blank one is
      marked for restore. */
  ghost predicate BlankIsMarked(w: World) {
    && (w.pvc.None? || Blank(w) ==> NoneStarted(w))
    && (Blank(w) ==> Holds(w.run.status, WorkspaceRestorePending))
  }

  /** Recovery belongs to a later attempt, restore to a run with storage. */
  predicate RecoveryIsLater(cfg: Config, w: World) {
    && (Holds(w.run.status, WorkspaceRestorePending) ==> Gen(w) > 0 && cfg.storage)
    && (Holds(w.run.status, Resuming) ==> Gen(w) > 0)
  }

  ghost predicate Sound(cfg: Config, w: World) {
    PastPodsGo(w) && SpecIsCurrent(w) && BlankIsMarked(w) && RecoveryIsLater(cfg, w)
  }

  // ---- what a write can do to each part -----------------------------------------------------

  /** Writes that begin a later attempt. */
  predicate Advances(w: World, x: Write) {
    x.RecordResume? || x.Restart? || (x.RecordLoss? && !Holds(w.run.status, Resuming))
  }

  lemma GenerationAfter(w: World, x: Write)
    ensures Gen(Apply(w, x)) == Gen(w) + (if Advances(w, x) then 1 else 0)
  {
    hide Holds, StatusAfter, Generation;
    FieldsAfter(w.run.status, x);
  }

  lemma PodsAfterWrite(cfg: Config, w: World, x: Write)
    requires Guard(cfg, w, x)
    ensures Advances(w, x) ==> Released(w) && PodsAfter(w, x) == w.pods
    ensures forall g | g in PodsAfter(w, x) && g != Gen(w) :: g in w.pods && PodsAfter(w, x)[g] == w.pods[g]
    ensures forall g | g in PodsAfter(w, x) && g in w.pods ::
              PodsAfter(w, x)[g].phase == w.pods[g].phase && (w.pods[g].deleting ==> PodsAfter(w, x)[g].deleting)
    ensures Gen(w) in PodsAfter(w, x) && Gen(w) !in w.pods ==> x.CreatePod? && PodsAfter(w, x)[Gen(w)] == Pod(PodPending, false, false)
  {
    hide Holds, BuildRunSpec, Retryable, EnterGuard, Generation, Budget;
  }

  lemma PastPodsWrite(cfg: Config, w: World, x: Write)
    requires Guard(cfg, w, x) && PastPodsGo(w)
    ensures PastPodsGo(Apply(w, x))
  {
    hide Guard, Generation, PodsAfter, StatusAfter, LedgerAfter, Advances;
    GenerationAfter(w, x);
    PodsAfterWrite(cfg, w, x);
    assert Apply(w, x).pods == PodsAfter(w, x);
  }

  /** A write changes the spec to be built only if no pod is left that could
      still start on the old one. */
  lemma SpecAfterWrite(cfg: Config, w: World, x: Write)
    requires Guard(cfg, w, x)
    ensures || Advances(w, x)
            || BuildRunSpec(Apply(w, x).run.status) == BuildRunSpec(w.run.status)
            || Released(w) || w.pods[Gen(w)].phase != PodPending
    ensures x.CreatePod? ==> w.spec == Some(BuildRunSpec(w.run.status))
    ensures x.CreatePod? || x.PutSpec? ==> Apply(w, x).run == w.run
    ensures Apply(w, x).spec == w.spec || (x.PutSpec? && Apply(w, x).spec == Some(BuildRunSpec(w.run.status)))
  {
    hide Retryable, EnterGuard, Budget, StatusAfter, PodsAfter, LedgerAfter, Generation, Holds;
    ConditionsAfter(w.run.status, x);
    FieldsAfter(w.run.status, x);
  }

  lemma SpecWrite(cfg: Config, w: World, x: Write)
    requires Guard(cfg, w, x) && PastPodsGo(w) && SpecIsCurrent(w)
    ensures SpecIsCurrent(Apply(w, x))
  {
    hide Guard, Generation, PodsAfter, StatusAfter, LedgerAfter, Advances, BuildRunSpec;
    SpecAfterWrite(cfg, w, x);
    PodsAfterWrite(cfg, w, x);
    assert Apply(w, x).pods == PodsAfter(w, x);
  }

  lemma RecoveryWrite(cfg: Config, w: World, x: Write)
    requires Guard(cfg, w, x) && RecoveryIsLater(cfg, w)
    ensures RecoveryIsLater(cfg, Apply(w, x))
  {
    hide StatusAfter, LedgerAfter, PodsAfter, Holds, Generation, EnterGuard, BuildRunSpec;
    ConditionsAfter(w.run.status, x);
    FieldsAfter(w.run.status, x);
  }

  /** Only the sight of a running pod takes the mark away. */
  lemma MarkAfterWrite(w: World, x: Write)
    requires Holds(w.run.status, WorkspaceRestorePending) && !x.ClearRecovery?
    ensures Holds(Apply(w, x).run.status, WorkspaceRestorePending)
  {
    hide StatusAfter, LedgerAfter, PodsAfter, Holds, BuildRunSpec;
    ConditionsAfter(w.run.status, x);
  }

  lemma VolumeAfterWrite(cfg: Config, w: World, x: Write)
    requires Guard(cfg, w, x)
    ensures x.CreatePvc? ==> w.pvc.None? && (w.run.status.phase != Pending ==> Holds(w.run.status, WorkspaceRestorePending))
    ensures x.ClearRecovery? ==> Gen(w) in w.pods && Started(w.pods[Gen(w)]) && w.pvc.Some?
  {
    hide Retryable, EnterGuard, Budget, BuildRunSpec, Generation, Holds;
  }

  lemma BlankWrite(cfg: Config, w: World, x: Write)
    requires Guard(cfg, w, x) && BlankIsMarked(w)
    ensures BlankIsMarked(Apply(w, x))
  {
    hide Guard, Generation, PodsAfter, StatusAfter, LedgerAfter, BuildRunSpec, Holds, Released, Advances;
    VolumeAfterWrite(cfg, w, x);
    PodsAfterWrite(cfg, w, x);
    assert Apply(w, x).pods == PodsAfter(w, x);
    if Holds(w.run.status, WorkspaceRestorePending) && !x.ClearRecovery? {
      MarkAfterWrite(w, x);
    }
  }

  // ---- every event keeps it ------------------------------------------------------------------

  /** A harness that starts on a blank volume has had a checkpoint restored. */
  lemma StartRestores(cfg: Config, w: World, g: nat, clone: CloneOutcome, left: Tree)
    requires Sound(cfg, w) && MayStart(w, g) && Blank(w)
    ensures var w' := AfterStart(cfg, w, g, clone, left);
            var spec := BuildRunSpec(w.run.status);
            && w.spec == Some(spec) && spec.resume && spec.restoreRequired
            && (Started(w'.pods[g]) ==>
                  && w'.pvc.value.restored.Some?
                  && var l := w'.pvc.value.restored.value;
                     Load(w.bucket, spec.restoreCheckpoint) == Success(l) && l.archive.Packed?
                     && Unpacked(w.pvc.value.disk, l.archive.stream) == Success(w'.pvc.value.disk))
            && (!Started(w'.pods[g]) ==> w'.pods[g].phase.PodFailed? && !Retryable(w'.pods[g].phase.containers))
  {
    hide Restored;
    RestoreIsMandatory(cfg, w.spec.value, w.bucket, w.pvc.value.disk, clone);
  }

  lemma SoundStart(cfg: Config, w: World, g: nat, clone: CloneOutcome, left: Tree)
    requires Sound(cfg, w) && MayStart(w, g)
    ensures Sound(cfg, AfterStart(cfg, w, g, clone, left))
  {
    hide Hydrated, BuildRunSpec, Holds, Generation, Retryable;
    if Blank(w) {
      StartRestores(cfg, w, g, clone, left);
    }
  }

  lemma SoundEvent(cfg: Config, w: World, e: Event)
    requires Sound(cfg, w) && Possible(cfg, w, e)
    ensures Sound(cfg, Happens(cfg, w, e))
  {
    hide Guard, Apply, AfterStart, BuildRunSpec, Holds, Generation;
    if e.Api? {
      PastPodsWrite(cfg, w, e.x);
      SpecWrite(cfg, w, e.x);
      RecoveryWrite(cfg, w, e.x);
      BlankWrite(cfg, w, e.x);
    } else if e.PodStarts? {
      SoundStart(cfg, w, e.g, e.clone, e.left);
    }
  }

  lemma {:induction false} SoundHistory(cfg: Config, w: World, es: seq<Event>)
    requires Sound(cfg, w) && History(cfg, w, es)
    ensures Sound(cfg, End(cfg, w, es))
    decreases |es|
  {
    hide Sound, Possible, Happens;
    if es != [] {
      SoundEvent(cfg, w, es[0]);
      SoundHistory(cfg, Happens(cfg, w, es[0]), es[1..]);
    }
  }

  lemma FreshIsSound(cfg: Config, w: World)
    requires Fresh(w)
    ensures Sound(cfg, w)
  {
  }

  // ---- the theorem ------------------------------------------------------------------------------

  /** From admission on, over every execution: while a volume is blank no harness
      is up, the run is marked for restore, and a hydrate on it either unarchives
      onto it a checkpoint LoadCheckpoint gave, the pinned one if one is pinned,
      or ends the attempt for good. */
  lemma NoSilentWorkspaceLoss(cfg: Config, w0: World, acts: seq<Action>, g: nat, clone: CloneOutcome, left: Tree)
    requires Fresh(w0) && Feasible(cfg, w0, acts)
    ensures var w := After(cfg, w0, acts);
            Blank(w) ==>
              && NoneStarted(w)
              && Holds(w.run.status, WorkspaceRestorePending)
              && BuildRunSpec(w.run.status).resume && BuildRunSpec(w.run.status).restoreRequired
              && (MayStart(w, g) ==>
                    var w' := AfterStart(cfg, w, g, clone, left);
                    && (Started(w'.pods[g]) ==>
                          && w'.pvc.value.restored.Some?
                          && var l := w'.pvc.value.restored.value;
                             && Load(w.bucket, BuildRunSpec(w.run.status).restoreCheckpoint) == Success(l) && l.archive.Packed?
                             && Unpacked(w.pvc.value.disk, l.archive.stream) == Success(w'.pvc.value.disk))
                    && (!Started(w'.pods[g]) ==> w'.pods[g].phase.PodFailed? && !Retryable(w'.pods[g].phase.containers)))
  {
    hide Guard, Apply, Plan, Hydrated, Unpacked;
    ExecutionIsHistory(cfg, w0, acts);
    FreshIsSound(cfg, w0);
    SoundHistory(cfg, w0, Events(cfg, w0, acts));
    var w := After(cfg, w0, acts);
    if Blank(w) && MayStart(w, g) {
      StartRestores(cfg, w, g, clone, left);
    }
  }
}
