/** Where a reconcile that nothing interrupts leaves the run: the stored object,
    the pods, the volume and the RunSpec, field by field, for every state it can
    find and everything it can learn. */
module Outcomes {
  import opened Basics
  import opened AgentRuns
  import opened Reconciliation
  import opened Runs

  /** The generation of the current attempt: runs stored before the field existed
      count by their restarts. */
  function Attempt(st: Status): nat {
    Max(st.attemptGeneration, st.restartCount)
  }

  function Restarts(cfg: Config): int {
    if cfg.maxRestarts == 0 then 5 else cfg.maxRestarts
  }

  /** The first container that did not exit 0 was killed for memory or asked for a
      retry; or there is none. */
  predicate MayHelpToRetry(containers: seq<Termination>) {
    forall i | 0 <= i < |containers| && containers[i].code != 0 && (forall j | 0 <= j < i :: containers[j].code == 0) ::
      containers[i].oom || containers[i].code == 75
  }

  lemma {:induction false} RetryableExactly(containers: seq<Termination>)
    ensures Retryable(containers) <==> MayHelpToRetry(containers)
    decreases |containers|
  {
    if containers != [] {
      var rest := containers[1..];
      RetryableExactly(rest);
      if containers[0].code == 0 {
        if MayHelpToRetry(containers) {
          forall i | 0 <= i < |rest| && rest[i].code != 0 && (forall j | 0 <= j < i :: rest[j].code == 0)
            ensures rest[i].oom || rest[i].code == 75
          {
            assert containers[i + 1] == rest[i];
            assert forall j | 0 <= j < i + 1 :: j > 0 ==> containers[j] == rest[j - 1];
          }
        }
        if MayHelpToRetry(rest) {
          forall i | 0 <= i < |containers| && containers[i].code != 0 && (forall j | 0 <= j < i :: containers[j].code == 0)
            ensures containers[i].oom || containers[i].code == 75
          {
            assert rest[i - 1] == containers[i];
            assert forall j | 0 <= j < i - 1 :: rest[j] == containers[j + 1];
          }
        }
      }
    }
  }

  // ---- what is stored ------------------------------------------------------------------

  /** The run has this phase, and is Ready exactly while it runs or when it succeeded. */
  predicate Entered(st: Status, st': Status, p: Phase) {
    st' == st.(phase := p, conditions := st.conditions[Ready := p == Running || p == Succeeded])
  }

  /** The pods, when the current attempt's is deleted if it is there. */
  predicate CurrentPodGoes(w: World, w': World) {
    var g := Attempt(w.run.status);
    w'.pods == if g in w.pods then w.pods[g := w.pods[g].(deleting := true)] else w.pods
  }

  predicate OnlyStatusAndPods(w: World, w': World) {
    w'.run == w.run.(status := w'.run.status) && w'.pvc == w.pvc && w'.spec == w.spec && w'.bucket == w.bucket
  }

  /** The next attempt is due, and charged. */
  predicate Restarted(st: Status, st': Status) {
    st' == st.(phase := Interrupted, attemptGeneration := Attempt(st) + 1, restartCount := st.restartCount + 1,
               conditions := st.conditions[Resuming := true])
  }

  // ---- requests --------------------------------------------------------------------------

  /** cancel. */
  predicate IsCanceled(w: World, w': World) {
    OnlyStatusAndPods(w, w') && CurrentPodGoes(w, w') && Entered(w.run.status, w'.run.status, Canceled)
  }

  /** resume: the request is gone and the next attempt due; a pause comes back to its
      checkpoint, a failure starts on a new budget. */
  predicate IsResumed(w: World, w': World) {
    var st, c := w.run.status, w.run.status.conditions;
    && CurrentPodGoes(w, w') && w'.pvc == w.pvc && w'.spec == w.spec && w'.bucket == w.bucket
    && w'.run == AgentRun(
         st.(phase := Interrupted, attemptGeneration := Attempt(st) + 1,
             restartCount := if st.phase == Paused then st.restartCount else 0,
             conditions := (if st.phase == Paused then c[PauseResumePending := true] else c)[Resumed := true][Resuming := true]),
         w.run.cancel, w.run.pause, false)
  }

  /** abortPause: the request and the proof are withdrawn and the run goes on. */
  predicate PauseIsOff(w: World, w': World) {
    var st := w.run.status;
    && w'.run == AgentRun(st.(phase := Running, conditions := st.conditions[PauseCheckpointReady := false][Ready := true]),
                          w.run.cancel, false, w.run.resume)
    && w'.pvc == w.pvc && w'.spec == w.spec
  }

  /** The harness of the current attempt is stopped by a signal or runs again. */
  predicate Signaled(w: World, w': World, quiesced: bool) {
    var g := Attempt(w.run.status);
    g in w.pods && w'.pods == w.pods[g := w.pods[g].(quiesced := quiesced)]
  }

  predicate PodRuns(w: World) {
    var g := Attempt(w.run.status);
    g in w.pods && w.pods[g].phase == PodRunning
  }

  predicate HasProof(st: Status) {
    PauseCheckpointReady in st.conditions && st.conditions[PauseCheckpointReady] && st.lastCheckpoint.Some?
  }

  /** The proof that checkpoint-once printed is complete. */
  predicate Proves(once: Once) {
    && once.Printed? && once.proof.Proof?
    && once.proof.ref.id != "" && once.proof.ref.uri != "" && once.proof.ref.sha256 != ""
  }

  /** A pausing run without a proof. */
  predicate ProofOutcome(cfg: Config, w: World, obs: Obs, w': World) {
    var st := w.run.status;
    if !cfg.executor then PauseIsOff(w, w') && w'.pods == w.pods && w'.bucket == w.bucket
    else if Attempt(st) !in w.pods then OnlyStatusAndPods(w, w') && w'.pods == w.pods && Entered(st, w'.run.status, Failed)
    else if !PodRuns(w) || !obs.quiesce then
      && PauseIsOff(w, w') && w'.bucket == w.bucket
      && (if PodRuns(w) && obs.unquiesce then Signaled(w, w', false) else w'.pods == w.pods)
    else if !Proves(obs.once) then
      PauseIsOff(w, w') && w'.bucket == obs.published && Signaled(w, w', !obs.unquiesce)
    else
      var c := st.conditions[PauseCheckpointReady := true];
      && w'.run == w.run.(status := st.(lastCheckpoint := Some(obs.once.proof.ref),
                                        conditions := if obs.once.proof.warning then c[CheckpointRetention := false] else c))
      && w'.pvc == w.pvc && w'.spec == w.spec && w'.bucket == obs.published && Signaled(w, w', true)
  }

  /** pause. */
  predicate PauseOutcome(cfg: Config, w: World, obs: Obs, w': World) {
    var st := w.run.status;
    if !cfg.storage then PauseIsOff(w, w') && w'.pods == w.pods && w'.bucket == w.bucket
    else if st.phase != Pausing then OnlyStatusAndPods(w, w') && w'.pods == w.pods && Entered(st, w'.run.status, Pausing)
    else if !HasProof(st) then ProofOutcome(cfg, w, obs, w')
    else if Attempt(st) in w.pods then OnlyStatusAndPods(w, w') && w'.run == w.run && CurrentPodGoes(w, w')
    else
      && Entered(st, w'.run.status, Paused) && w'.run == w.run.(status := w'.run.status, pause := false)
      && w'.pods == w.pods && w'.pvc == w.pvc && w'.spec == w.spec && w'.bucket == w.bucket
  }

  /** What is asked for, or over, comes before anything else. */
  predicate Asked(w: World) {
    w.run.cancel || w.run.pause || w.run.status.phase in {Unset, Pausing, Paused, Succeeded, Failed, Canceled}
  }

  predicate RequestOutcome(cfg: Config, w: World, obs: Obs, w': World) {
    var p := w.run.status.phase;
    if p in {Succeeded, Canceled} then w' == w
    else if p == Failed then if w.run.resume then IsResumed(w, w') else w' == w
    else if w.run.cancel then IsCanceled(w, w')
    else if p == Paused then if w.run.resume then IsResumed(w, w') else w' == w
    else if p == Pausing || w.run.pause then PauseOutcome(cfg, w, obs, w')
    else OnlyStatusAndPods(w, w') && w'.pods == w.pods && Entered(w.run.status, w'.run.status, Pending)
  }

  // ---- the volume --------------------------------------------------------------------------

  predicate RestoreIsPending(st: Status) {
    WorkspaceRestorePending in st.conditions && st.conditions[WorkspaceRestorePending]
  }

  /** The volume is gone and not about to be made. */
  predicate Gone(cfg: Config, w: World) {
    w.pvc.None? && w.run.status.phase != Pending && !(cfg.storage && RestoreIsPending(w.run.status))
  }

  predicate GoneOutcome(cfg: Config, w: World, w': World) {
    var st := w.run.status;
    var mark := st.conditions[WorkspaceRestorePending := true];
    && OnlyStatusAndPods(w, w') && CurrentPodGoes(w, w')
    && (if !cfg.storage then Entered(st, w'.run.status, Failed)
        else if Resuming in st.conditions && st.conditions[Resuming] then
          w'.run.status == st.(phase := Interrupted, podName := None, conditions := mark)
        else w'.run.status == st.(phase := Interrupted, attemptGeneration := Attempt(st) + 1, restartCount := st.restartCount + 1, conditions := mark))
  }

  /** The volume is there, and the RunSpec tells hydrate what the status says: to
      resume from the second attempt on, to restore when that is pending, and from
      the recorded checkpoint when a pause is being resumed. */
  predicate Provided(w: World, w': World) {
    var st := w.run.status;
    var pinned := RestoreIsPending(st) && PauseResumePending in st.conditions && st.conditions[PauseResumePending] && st.lastCheckpoint.Some?;
    && w'.pvc == Some(if w.pvc.Some? then w.pvc.value else Pvc(st.phase != Pending, None, map[]))
    && w'.spec == Some(RunSpec(Attempt(st) > 0, RestoreIsPending(st), if pinned then st.lastCheckpoint.value.uri else ""))
    && w'.bucket == w.bucket && w'.run == w.run.(status := w'.run.status)
  }

  // ---- the pod -----------------------------------------------------------------------------

  /** A pod that runs: nothing is being recovered any more, a newer checkpoint is
      recorded, and the run is Running. */
  predicate RunningOutcome(w: World, obs: Obs, w': World) {
    var st, st' := w.run.status, w'.run.status;
    var newer := obs.scraped.Some? && (st.lastCheckpoint.None? || obs.scraped.value.at > st.lastCheckpoint.value.at);
    && w'.pods == w.pods
    && st' == st.(phase := Running, lastCheckpoint := if newer then obs.scraped else st.lastCheckpoint, conditions := st'.conditions)
    && (forall c | c in {WorkspaceRestorePending, Resuming, PauseResumePending} ::
          (c in st'.conditions <==> c in st.conditions) && (c in st.conditions ==> !st'.conditions[c]))
    && (forall c | c in {PauseCheckpointReady, Resumed, CheckpointRetention} ::
          (c in st'.conditions <==> c in st.conditions) && (c in st.conditions ==> st'.conditions[c] == st.conditions[c]))
    && (if st.phase == Running then (Ready in st'.conditions <==> Ready in st.conditions) && (Ready in st.conditions ==> st'.conditions[Ready] == st.conditions[Ready])
        else Ready in st'.conditions && st'.conditions[Ready])
  }

  predicate PodOutcome(cfg: Config, w: World, obs: Obs, w': World) {
    var st, st', g := w.run.status, w'.run.status, Attempt(w.run.status);
    var spent := st.restartCount >= Restarts(cfg);
    if g !in w.pods then
      if st.podName == Some(g) then w'.pods == w.pods && if spent then Entered(st, st', Failed) else Restarted(st, st')
      else if obs.forbidden then w'.pods == w.pods && Entered(st, st', Failed)
      else w'.pods == w.pods[g := Pod(PodPending, false, false)] && st' == st.(podName := Some(g))
    else if st.podName != Some(g) then w'.pods == w.pods && st' == st.(podName := Some(g))
    else if w.pods[g].deleting then w'.pods == w.pods && st' == st
    else
      match w.pods[g].phase
      case PodPending => w'.pods == w.pods && if st.phase == Provisioning then st' == st else Entered(st, st', Provisioning)
      case PodRunning => RunningOutcome(w, obs, w')
      case PodSucceeded => w'.pods == w.pods && Entered(st, st', Succeeded)
      case PodUnknown => w'.pods == w.pods && st' == st
      case PodFailed(containers) =>
        if !MayHelpToRetry(containers) || spent then w'.pods == w.pods && Entered(st, st', Failed)
        else CurrentPodGoes(w, w') && Restarted(st, st')
  }

  /** Where an uninterrupted reconcile leaves everything. */
  ghost predicate Outcome(cfg: Config, w: World, obs: Obs, w': World) {
    if Asked(w) then RequestOutcome(cfg, w, obs, w')
    else if Gone(cfg, w) then GoneOutcome(cfg, w, w')
    else Provided(w, w') && PodOutcome(cfg, w, obs, w')
  }

  // ---- the proof ---------------------------------------------------------------------------

  lemma AttemptIsGeneration(st: Status)
    ensures Generation(st) == Attempt(st)
  {
  }

  lemma DeletesThenEnters(w: World, p: Phase)
    ensures var w' := Perform(w, DeleteThen(w, [Enter(p)]));
            OnlyStatusAndPods(w, w') && CurrentPodGoes(w, w') && Entered(w.run.status, w'.run.status, p)
  {
    hide Perform;
    var cfg := Config(false, false, 0, false);
    GuardedOne(cfg, w, Enter(p));
    GuardedTwo(cfg, w, DeletePod, Enter(p));
    assert [DeletePod] + [Enter(p)] == [DeletePod, Enter(p)];
  }

  lemma Resumes(w: World)
    ensures IsResumed(w, Perform(w, ResumePlan(w)))
  {
    hide Perform;
    var cfg := Config(false, false, 0, false);
    GuardedTwo(cfg, w, ClearResume, RecordResume);
    GuardedThree(cfg, w, DeletePod, ClearResume, RecordResume);
    PerformThen(w, [DeletePod], [ClearResume, RecordResume]);
    GuardedOne(cfg, w, DeletePod);
    GuardedTwo(cfg, Apply(w, DeletePod), ClearResume, RecordResume);
    assert [DeletePod] + [ClearResume, RecordResume] == [DeletePod, ClearResume, RecordResume];
  }

  lemma Aborts(cfg: Config, w: World, pod: bool, obs: Obs)
    ensures var w' := Perform(w, AbortPlan(cfg, w, pod, obs));
            && PauseIsOff(w, w') && w'.bucket == w.bucket
            && (if pod && cfg.executor && PodRuns(w) && obs.unquiesce then Signaled(w, w', false) else w'.pods == w.pods)
  {
    hide Perform;
    GuardedTwo(cfg, w, ClearPause, AbandonPause);
    PerformThen(w, [Unquiesce], [ClearPause, AbandonPause]);
    GuardedOne(cfg, w, Unquiesce);
    GuardedTwo(cfg, Apply(w, Unquiesce), ClearPause, AbandonPause);
    assert [Unquiesce] + [ClearPause, AbandonPause] == [Unquiesce, ClearPause, AbandonPause];
  }

  lemma Proves3(w: World, obs: Obs)
    requires PodRuns(w) && Proves(obs.once)
    ensures var ref, warning := obs.once.proof.ref, obs.once.proof.warning;
            var w' := Apply(Apply(Apply(w, Quiesce), TakeCheckpoint(obs.published, Some(ref))), CommitProof(ref, warning));
            var st := w.run.status;
            var c := st.conditions[PauseCheckpointReady := true];
            && w'.run == w.run.(status := st.(lastCheckpoint := Some(ref), conditions := if warning then c[CheckpointRetention := false] else c))
            && w'.pvc == w.pvc && w'.spec == w.spec && w'.bucket == obs.published && Signaled(w, w', true)
  {
  }

  lemma QuiescedAborts(cfg: Config, w: World, obs: Obs)
    requires cfg.executor && PodRuns(w)
    ensures var w2 := Apply(Apply(w, Quiesce), TakeCheckpoint(obs.published, None));
            var w' := Perform(w2, AbortPlan(cfg, w, true, obs));
            PauseIsOff(w, w') && w'.bucket == obs.published && Signaled(w, w', !obs.unquiesce)
  {
    hide Perform, AbortPlan;
    var w2 := Apply(Apply(w, Quiesce), TakeCheckpoint(obs.published, None));
    assert w2.run == w.run && Signaled(w, w2, true) && PodRuns(w2);
    SameAbort(cfg, w, w2, obs);
    Aborts(cfg, w2, true, obs);
  }

  lemma ProofEnds(cfg: Config, w: World, obs: Obs)
    ensures ProofOutcome(cfg, w, obs, Perform(w, PublishPlan(cfg, w, obs)))
  {
    hide Perform, AbortPlan, PauseIsOff, Signaled, StatusAfter;
    AttemptIsGeneration(w.run.status);
    Aborts(cfg, w, false, obs);
    Aborts(cfg, w, true, obs);
    if !cfg.executor {
    } else if Attempt(w.run.status) !in w.pods {
      GuardedOne(cfg, w, Enter(Failed));
      EntersOnly(w, Failed);
    } else if Reaches(w, obs.quiesce) {
      if Proves(obs.once) {
        var take, commit := TakeCheckpoint(obs.published, Some(obs.once.proof.ref)), CommitProof(obs.once.proof.ref, obs.once.proof.warning);
        assert [Quiesce] + [take, commit] == [Quiesce, take, commit];
        ThreeWrites(w, Quiesce, take, commit);
        Proves3(w, obs);
      } else {
        var take := TakeCheckpoint(obs.published, None);
        var abort := AbortPlan(cfg, w, true, obs);
        assert [Quiesce] + ([take] + abort) == [Quiesce, take] + abort;
        PerformThen(w, [Quiesce, take], abort);
        GuardedTwo(cfg, w, Quiesce, take);
        QuiescedAborts(cfg, w, obs);
      }
    }
  }

  lemma ThreeWrites(w: World, x: Write, y: Write, z: Write)
    ensures Perform(w, [x, y, z]) == Apply(Apply(Apply(w, x), y), z)
  {
    hide Apply;
    assert [x, y, z][1..] == [y, z];
    GuardedTwo(Config(false, false, 0, false), Apply(w, x), y, z);
  }

  lemma EntersOnly(w: World, p: Phase)
    ensures var w' := Apply(w, Enter(p));
            OnlyStatusAndPods(w, w') && w'.pods == w.pods && Entered(w.run.status, w'.run.status, p)
  {
  }

  lemma PauseEnds(cfg: Config, w: World, obs: Obs)
    requires w.run.status.phase == Pausing || w.run.pause
    ensures PauseOutcome(cfg, w, obs, Perform(w, PausePlan(cfg, w, obs)))
  {
    hide Perform, AbortPlan, PublishPlan, PauseIsOff, ProofOutcome;
    AttemptIsGeneration(w.run.status);
    Aborts(cfg, w, false, obs);
    ProofEnds(cfg, w, obs);
    GuardedOne(cfg, w, BeginPause);
    GuardedOne(cfg, w, DeletePod);
    GuardedTwo(cfg, w, ClearPause, Enter(Paused));
  }

  lemma RequestEnds(cfg: Config, w: World, obs: Obs)
    requires RequestPlan(cfg, w, obs).Some?
    ensures Asked(w) && RequestOutcome(cfg, w, obs, Perform(w, RequestPlan(cfg, w, obs).value))
  {
    hide Perform, PausePlan, PauseOutcome, ResumePlan, IsResumed, DeleteThen, StatusAfter;
    GuardedOne(cfg, w, Enter(Pending));
    EntersOnly(w, Pending);
    DeletesThenEnters(w, Canceled);
    Resumes(w);
    if w.run.status.phase == Pausing || w.run.pause {
      PauseEnds(cfg, w, obs);
    }
  }

  lemma LossEnds(cfg: Config, w: World)
    ensures GoneOutcome(cfg, w, Perform(w, LossPlan(cfg, w)))
  {
    hide Perform;
    AttemptIsGeneration(w.run.status);
    if cfg.storage {
      GuardedOne(cfg, w, RecordLoss);
      GuardedTwo(cfg, w, DeletePod, RecordLoss);
      assert [DeletePod] + [RecordLoss] == [DeletePod, RecordLoss];
    } else {
      DeletesThenEnters(w, Failed);
    }
  }

  /** What the pod's part of a reconcile leaves alone. */
  predicate PodPart(w: World, w': World) {
    w'.pvc == w.pvc && w'.spec == w.spec && w'.bucket == w.bucket && w'.run == w.run.(status := w'.run.status)
  }

  /** The recovery conditions are down, everything else is as it was. */
  predicate Recovered(st: Status, st': Status) {
    && st' == st.(conditions := st'.conditions) && st'.conditions.Keys == st.conditions.Keys
    && (forall c | c in st.conditions ::
          st'.conditions[c] == (st.conditions[c] && c !in {WorkspaceRestorePending, Resuming, PauseResumePending}))
  }

  lemma LowersOne(st: Status, c: Condition)
    ensures var st' := Lowered(st, c);
            && st' == st.(conditions := st'.conditions) && st'.conditions.Keys == st.conditions.Keys
            && (forall d | d in st.conditions :: st'.conditions[d] == (st.conditions[d] && d != c))
  {
  }

  lemma Recovers(st: Status)
    ensures Recovered(st, StatusAfter(st, ClearRecovery))
    ensures !Recovering(st) ==> Recovered(st, st)
  {
    hide Lowered;
    var st1 := Lowered(st, WorkspaceRestorePending);
    var st2 := Lowered(st1, Resuming);
    LowersOne(st, WorkspaceRestorePending);
    LowersOne(st1, Resuming);
    LowersOne(st2, PauseResumePending);
  }

  /** What the Running case stores on top of that. */
  lemma MarksRunning(w: World, v: World, obs: Obs)
    requires Recovered(w.run.status, v.run.status) && v.pods == w.pods
    ensures var scraped := Scraped(v.run.status, obs.scraped);
            && scraped == Scraped(w.run.status, obs.scraped)
            && RunningOutcome(w, obs, if scraped.Some? || v.run.status.phase != Running then Apply(v, MarkRunning(scraped)) else v)
  {
    hide LedgerAfter, BuildRunSpec;
  }

  lemma RunningEnds(w: World, obs: Obs)
    ensures var w' := Perform(w, RunningPlan(w, obs)); RunningOutcome(w, obs, w') && PodPart(w, w')
  {
    hide Perform, RunningOutcome, Recovered, StatusAfter, Scraped, Recovering, LedgerAfter;
    var cfg := Config(false, false, 0, false);
    var st := w.run.status;
    var first := if Recovering(st) then ClearRecovery else Observe;
    var second := MarkRunning(Scraped(st, obs.scraped));
    GuardedOne(cfg, w, first);
    GuardedTwo(cfg, w, first, second);
    assert [first] + [second] == [first, second] && [first] + [] == [first];
    Recovers(st);
    ObservesOnly(st);
    MarksRunning(w, Apply(w, first), obs);
  }

  lemma ObservesOnly(st: Status)
    ensures StatusAfter(st, Observe) == st
    ensures StatusAfter(st, ClearRecovery).phase == st.phase
  {
  }

  lemma RestartEnds(cfg: Config, w: World)
    ensures var w' := Perform(w, [Restart]);
            w'.pods == w.pods && Restarted(w.run.status, w'.run.status)
            && w'.pvc == w.pvc && w'.spec == w.spec && w'.bucket == w.bucket && w'.run == w.run.(status := w'.run.status)
    ensures Attempt(w.run.status) in w.pods ==>
              var w' := Perform(w, [DeletePod, Restart]);
              CurrentPodGoes(w, w') && Restarted(w.run.status, w'.run.status)
              && w'.pvc == w.pvc && w'.spec == w.spec && w'.bucket == w.bucket && w'.run == w.run.(status := w'.run.status)
  {
    hide Perform;
    GuardedOne(cfg, w, Restart);
    GuardedTwo(cfg, w, DeletePod, Restart);
  }

  lemma PodEnds(cfg: Config, w: World, obs: Obs)
    requires !Asked(w)
    ensures var w' := Perform(w, PodPlan(cfg, w, obs)); PodOutcome(cfg, w, obs, w') && PodPart(w, w')
  {
    hide Perform, RunningPlan, RunningOutcome, MayHelpToRetry, Retryable, StatusAfter, Restarted;
    AttemptIsGeneration(w.run.status);
    EntersOnly(w, Failed);
    EntersOnly(w, Succeeded);
    EntersOnly(w, Provisioning);
    GuardedOne(cfg, w, Enter(Failed));
    GuardedOne(cfg, w, Enter(Succeeded));
    GuardedOne(cfg, w, Enter(Provisioning));
    GuardedOne(cfg, w, RecordPod);
    GuardedTwo(cfg, w, CreatePod, RecordPod);
    Records(w);
    RestartEnds(cfg, w);
    RunningEnds(w, obs);
    if Gen(w) in w.pods && w.pods[Gen(w)].phase.PodFailed? {
      RetryableExactly(w.pods[Gen(w)].phase.containers);
    }
  }

  lemma Records(w: World)
    ensures var w' := Apply(w, RecordPod);
            w'.pods == w.pods && w'.run.status == w.run.status.(podName := Some(Attempt(w.run.status))) && PodPart(w, w')
    ensures var w' := Apply(Apply(w, CreatePod), RecordPod);
            && w'.pods == w.pods[Attempt(w.run.status) := Pod(PodPending, false, false)]
            && w'.run.status == w.run.status.(podName := Some(Attempt(w.run.status))) && PodPart(w, w')
  {
  }

  /** Where a reconcile ends, for every state, whatever it learns. */
  lemma ReconcileEnds(cfg: Config, w: World, obs: Obs)
    ensures Outcome(cfg, w, obs, Perform(w, Plan(cfg, w, obs)))
  {
    hide Perform, RequestPlan, RequestOutcome, LossPlan, GoneOutcome, PodPlan, PodOutcome, PrerequisitePlan, BuildRunSpec;
    NotRequested(cfg, w, obs);
    if RequestPlan(cfg, w, obs).Some? {
      RequestEnds(cfg, w, obs);
    } else if !VolumeAvailable(cfg, w) {
      LossEnds(cfg, w);
    } else {
      PrerequisitesAreGuarded(cfg, w);
      var v := Perform(w, PrerequisitePlan(w));
      PerformThen(w, PrerequisitePlan(w), PodPlan(cfg, w, obs));
      SamePods(cfg, w, v, obs);
      PodEnds(cfg, v, obs);
      PodOutcomeFrom(cfg, w, v, obs, Perform(v, PodPlan(cfg, v, obs)));
      SpecIs(w.run.status);
    }
  }

  lemma SpecIs(st: Status)
    ensures BuildRunSpec(st) ==
            RunSpec(Attempt(st) > 0, RestoreIsPending(st),
                    if RestoreIsPending(st) && PauseResumePending in st.conditions && st.conditions[PauseResumePending] && st.lastCheckpoint.Some?
                    then st.lastCheckpoint.value.uri else "")
  {
  }

  lemma PodOutcomeFrom(cfg: Config, w: World, v: World, obs: Obs, w': World)
    requires v.run == w.run && v.pods == w.pods && PodOutcome(cfg, v, obs, w')
    ensures PodOutcome(cfg, w, obs, w')
  {
    hide MayHelpToRetry, Restarted, Entered;
  }

  /** The same of a reconcile among the other actions of an execution: one that gets
      through as many writes as it has. */
  lemma UninterruptedReconcile(cfg: Config, w: World, obs: Obs, n: nat)
    requires n >= 5
    ensures Outcome(cfg, w, obs, Next(cfg, w, Reconcile(obs, n)))
  {
    hide Perform, Outcome;
    ReconcileEnds(cfg, w, obs);
    FiveWrites(cfg, w, obs);
    var plan := Plan(cfg, w, obs);
    assert n == |plan| ==> plan[..n] == plan;
  }

  lemma FiveWrites(cfg: Config, w: World, obs: Obs)
    ensures |Plan(cfg, w, obs)| <= 5
  {
    hide Generation, Holds, Retryable;
  }
}
