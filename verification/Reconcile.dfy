/** What one reconcile of `internal/controller/agentrun_controller.go` writes to
    the cluster, in order, as a function of the state it read; and for each write
    the guard under which the operator may issue it. */
module Reconciliation {
  import opened Basics
  import opened Checkpoints
  import opened AgentRuns

  /** What checkpoint-once printed. */
  datatype Proof = Garbled | Proof(ref: CheckpointRef, warning: bool)

  datatype Once = ExecFailed | Printed(proof: Proof)

  /** What a reconcile learns outside the API server: whether the execs into the
      pod work, what checkpoint-once printed and left in the bucket, the newest
      checkpoint in the sidecar's log, and whether admission forbids the pod. */
  datatype Obs = Obs(quiesce: bool, unquiesce: bool, once: Once, published: Objects,
                     scraped: Option<CheckpointRef>, forbidden: bool)

  /** One effect on the cluster: an API write, or an exec into the pod. */
  datatype Write =
    | DeletePod | CreatePod | CreatePvc | PutSpec
    | ClearPause | ClearResume
    | Quiesce | Unquiesce | TakeCheckpoint(published: Objects, proof: Option<CheckpointRef>)
    | Enter(phase: Phase)
    | BeginPause | CommitProof(ref: CheckpointRef, warning: bool) | AbandonPause
    | RecordResume | RecordLoss | Restart
    | RecordPod | ClearRecovery | Observe | MarkRunning(scraped: Option<CheckpointRef>)

  // ---- effects -----------------------------------------------------------------

  function Gen(w: World): nat {
    Generation(w.run.status)
  }

  /** A complete proof: id, manifest key and digest are all there. */
  predicate Complete(p: Proof) {
    p.Proof? && p.ref.id != "" && p.ref.uri != "" && p.ref.sha256 != ""
  }

  /** The status a status write stores. */
  function StatusAfter(st: Status, x: Write): Status {
    match x
    case Enter(p) => WithPhase(st, p)
    case BeginPause => SetCondition(st.(phase := Pausing), Ready, false)
    case CommitProof(ref, warning) =>
      var st' := SetCondition(st.(lastCheckpoint := Some(ref)), PauseCheckpointReady, true);
      if warning then SetCondition(st', CheckpointRetention, false) else st'
    case AbandonPause =>
      SetCondition(SetCondition(st.(phase := Running), PauseCheckpointReady, false), Ready, true)
    case RecordResume =>
      var st1 := Advanced(st);
      var st2 := if st.phase == Paused then SetCondition(st1, PauseResumePending, true) else st1.(restartCount := 0);
      SetCondition(SetCondition(st2.(phase := Interrupted), Resumed, true), Resuming, true)
    case RecordLoss =>
      var st1 := if Holds(st, Resuming) then st.(podName := None) else Advanced(st).(restartCount := st.restartCount + 1);
      SetCondition(st1.(phase := Interrupted), WorkspaceRestorePending, true)
    case Restart =>
      SetCondition(Advanced(st).(restartCount := st.restartCount + 1, phase := Interrupted), Resuming, true)
    case RecordPod => st.(podName := Some(Generation(st)))
    case ClearRecovery => Lowered(Lowered(Lowered(st, WorkspaceRestorePending), Resuming), PauseResumePending)
    case MarkRunning(scraped) =>
      var st1 := if scraped.Some? then st.(lastCheckpoint := scraped) else st;
      if st.phase == Running then st1 else SetCondition(st1.(phase := Running), Ready, true)
    case _ => st
  }

  /** A condition that is True becomes False; any other is left alone. */
  function Lowered(st: Status, c: Condition): Status {
    if Holds(st, c) then SetCondition(st, c, false) else st
  }

  function Strayed(v: VolumeStory): VolumeStory {
    v.(strayed := v.strayed || !v.made)
  }

  function LedgerAfter(w: World, x: Write): Ledger {
    var l := w.ledger;
    var st := w.run.status;
    match x
    case BeginPause => l.(episode := Episode(ProofReady(st), false, None, None))
    case Quiesce => l.(episode := l.episode.(quiesced := true))
    case TakeCheckpoint(_, proof) => l.(episode := l.episode.(taken := proof))
    case CommitProof(ref, _) => l.(episode := l.episode.(committed := Some(ref)))
    case RecordResume => l.(resumes := l.resumes + 1, volume := Strayed(l.volume))
    case AbandonPause => l.(volume := Strayed(l.volume))
    case CreatePvc => l.(volume := l.volume.(made := true, emptied := l.volume.worked))
    case RecordLoss => if Holds(st, Resuming) then l else l.(losses := l.losses + 1)
    case Restart => l.(restarts := l.restarts + 1)
    case ClearRecovery => l.(observed := l.observed + {Gen(w)})
    case Observe => l.(observed := l.observed + {Gen(w)})
    case _ => l
  }

  /** PauseCheckpointReady is True and a checkpoint is recorded. */
  predicate ProofReady(st: Status) {
    Holds(st, PauseCheckpointReady) && st.lastCheckpoint.Some?
  }

  function PodsAfter(w: World, x: Write): map<nat, Pod> {
    var g := Gen(w);
    match x
    case CreatePod => w.pods[g := Pod(PodPending, false, false)]
    case DeletePod => if g in w.pods then w.pods[g := w.pods[g].(deleting := true)] else w.pods
    case Quiesce => if g in w.pods then w.pods[g := w.pods[g].(quiesced := true)] else w.pods
    case Unquiesce => if g in w.pods then w.pods[g := w.pods[g].(quiesced := false)] else w.pods
    case _ => w.pods
  }

  function Apply(w: World, x: Write): World {
    var run := match x
               case ClearPause => w.run.(pause := false)
               case ClearResume => w.run.(resume := false)
               case _ => w.run.(status := StatusAfter(w.run.status, x));
    World(run, PodsAfter(w, x),
          if x.CreatePvc? then Some(Pvc(w.run.status.phase != Pending, None, map[])) else w.pvc,
          if x.PutSpec? then Some(BuildRunSpec(w.run.status)) else w.spec,
          if x.TakeCheckpoint? then x.published else w.bucket,
          LedgerAfter(w, x))
  }

  function Perform(w: World, xs: seq<Write>): World
    decreases |xs|
  {
    if xs == [] then w else Perform(Apply(w, xs[0]), xs[1..])
  }

  // ---- what a reconcile writes -----------------------------------------------------

  /** An exec reaches a container only while its pod runs. */
  predicate Reaches(w: World, works: bool) {
    works && Gen(w) in w.pods && w.pods[Gen(w)].phase == PodRunning
  }

  /** Get and Delete the current pod unless it is gone, then go on. */
  function DeleteThen(w: World, rest: seq<Write>): seq<Write> {
    if Gen(w) in w.pods then [DeletePod] + rest else rest
  }

  function CancelPlan(w: World): seq<Write> {
    DeleteThen(w, [Enter(Canceled)])
  }

  function ResumePlan(w: World): seq<Write> {
    DeleteThen(w, [ClearResume, RecordResume])
  }

  /** abortPause; `pod` when the caller has one to unquiesce. */
  function AbortPlan(cfg: Config, w: World, pod: bool, obs: Obs): seq<Write> {
    if pod && cfg.executor && Reaches(w, obs.unquiesce) then [Unquiesce, ClearPause, AbandonPause] else [ClearPause, AbandonPause]
  }

  /** publishPauseCheckpoint once the harness is quiesced. */
  function ProofPlan(cfg: Config, w: World, obs: Obs): seq<Write> {
    if obs.once.Printed? && Complete(obs.once.proof) then
      var p := obs.once.proof;
      [TakeCheckpoint(obs.published, Some(p.ref)), CommitProof(p.ref, p.warning)]
    else [TakeCheckpoint(obs.published, None)] + AbortPlan(cfg, w, true, obs)
  }

  function PublishPlan(cfg: Config, w: World, obs: Obs): seq<Write> {
    if !cfg.executor then AbortPlan(cfg, w, false, obs)
    else if Gen(w) !in w.pods then [Enter(Failed)]
    else if !Reaches(w, obs.quiesce) then AbortPlan(cfg, w, true, obs)
    else [Quiesce] + ProofPlan(cfg, w, obs)
  }

  function RemovePlan(w: World): seq<Write> {
    if Gen(w) in w.pods then [DeletePod] else [ClearPause, Enter(Paused)]
  }

  function PausePlan(cfg: Config, w: World, obs: Obs): seq<Write> {
    if !cfg.storage then AbortPlan(cfg, w, false, obs)
    else if w.run.status.phase != Pausing then [BeginPause]
    else if !ProofReady(w.run.status) then PublishPlan(cfg, w, obs)
    else RemovePlan(w)
  }

  /** handleRequestedTransition: None lets the reconcile go on. */
  function RequestPlan(cfg: Config, w: World, obs: Obs): Option<seq<Write>> {
    var p := w.run.status.phase;
    if p == Paused then Some(if w.run.cancel then CancelPlan(w) else if w.run.resume then ResumePlan(w) else [])
    else if IsTerminal(p) then Some(if p == Failed && w.run.resume then ResumePlan(w) else [])
    else if w.run.cancel then Some(CancelPlan(w))
    else if p == Pausing || w.run.pause then Some(PausePlan(cfg, w, obs))
    else if p == Unset then Some([Enter(Pending)])
    else None
  }

  /** ensurePVC finds the volume or may make it. */
  predicate VolumeAvailable(cfg: Config, w: World) {
    w.pvc.Some? || w.run.status.phase == Pending || (cfg.storage && Holds(w.run.status, WorkspaceRestorePending))
  }

  /** A volume that is gone and may not simply be made. */
  function LossPlan(cfg: Config, w: World): seq<Write> {
    DeleteThen(w, [if cfg.storage then RecordLoss else Enter(Failed)])
  }

  function PrerequisitePlan(w: World): seq<Write> {
    (if w.pvc.Some? then [] else [CreatePvc]) +
    (if w.spec == Some(BuildRunSpec(w.run.status)) then [] else [PutSpec])
  }

  function EnterIfChanged(w: World, p: Phase): seq<Write> {
    if w.run.status.phase == p then [] else [Enter(p)]
  }

  /** The conditions clearRecoveryConditions lowers. */
  predicate Recovering(st: Status) {
    Holds(st, WorkspaceRestorePending) || Holds(st, Resuming) || Holds(st, PauseResumePending)
  }

  /** scrapeCheckpointStatus: only a later checkpoint replaces the recorded one. */
  function Scraped(st: Status, latest: Option<CheckpointRef>): Option<CheckpointRef> {
    if latest.Some? && (st.lastCheckpoint.None? || latest.value.at > st.lastCheckpoint.value.at) then latest else None
  }

  function RunningPlan(w: World, obs: Obs): seq<Write> {
    var st := w.run.status;
    [if Recovering(st) then ClearRecovery else Observe] +
    (if Scraped(st, obs.scraped).Some? || st.phase != Running then [MarkRunning(Scraped(st, obs.scraped))] else [])
  }

  function FailurePlan(cfg: Config, w: World, containers: seq<Termination>): seq<Write> {
    if !Retryable(containers) || w.run.status.restartCount >= Budget(cfg) then [Enter(Failed)] else [DeletePod, Restart]
  }

  /** reconcilePodState. */
  function PodStatePlan(cfg: Config, w: World, obs: Obs): seq<Write>
    requires Gen(w) in w.pods
  {
    var pod := w.pods[Gen(w)];
    if w.run.status.podName != Some(Gen(w)) then [RecordPod]
    else if pod.deleting then []
    else
      match pod.phase
      case PodPending => EnterIfChanged(w, Provisioning)
      case PodRunning => RunningPlan(w, obs)
      case PodSucceeded => EnterIfChanged(w, Succeeded)
      case PodFailed(containers) => FailurePlan(cfg, w, containers)
      case PodUnknown => []
  }

  function MissingPodPlan(cfg: Config, w: World): seq<Write> {
    if w.run.status.restartCount >= Budget(cfg) then [Enter(Failed)] else [Restart]
  }

  /** ensurePod and what follows it. */
  function PodPlan(cfg: Config, w: World, obs: Obs): seq<Write> {
    if Gen(w) in w.pods then PodStatePlan(cfg, w, obs)
    else if w.run.status.podName == Some(Gen(w)) then MissingPodPlan(cfg, w)
    else if obs.forbidden then [Enter(Failed)]
    else [CreatePod, RecordPod]
  }

  /** Reconcile: everything it writes when nothing fails on the way. */
  function Plan(cfg: Config, w: World, obs: Obs): seq<Write> {
    var requested := RequestPlan(cfg, w, obs);
    if requested.Some? then requested.value
    else if !VolumeAvailable(cfg, w) then LossPlan(cfg, w)
    else PrerequisitePlan(w) + PodPlan(cfg, w, obs)
  }

  // ---- the guards -------------------------------------------------------------------

  /** No request is pending and the run is neither paused nor over. */
  predicate Unrequested(w: World) {
    var p := w.run.status.phase;
    !w.run.cancel && !w.run.pause && (p == Pending || p == Provisioning || p == Running || p == Interrupted)
  }

  /** The current attempt's pod is gone or going. */
  predicate Released(w: World) {
    Gen(w) in w.pods ==> w.pods[Gen(w)].deleting
  }

  predicate Recorded(w: World) {
    w.run.status.podName == Some(Gen(w))
  }

  /** ensurePod has to create the pod, or admission forbids it. */
  predicate NeedsPod(w: World) {
    Gen(w) !in w.pods && !Recorded(w)
  }

  /** The volume is gone and nothing entitles the operator to make another. */
  predicate VolumeLost(cfg: Config, w: World) {
    Unrequested(w) && !VolumeAvailable(cfg, w)
  }

  /** The recorded pod runs and is not being deleted. */
  predicate Live(w: World) {
    Unrequested(w) && w.pvc.Some? && Recorded(w) && Gen(w) in w.pods
    && !w.pods[Gen(w)].deleting && w.pods[Gen(w)].phase == PodRunning
  }

  /** The recorded pod ended in a way that a retry may help. */
  predicate FailedForNow(w: World) {
    && Recorded(w) && Gen(w) in w.pods && w.pods[Gen(w)].phase.PodFailed? && Retryable(w.pods[Gen(w)].phase.containers)
  }

  /** A pause that still needs its proof and has a running pod to take it from. */
  predicate Proving(cfg: Config, w: World) {
    && cfg.storage && cfg.executor && w.run.status.phase == Pausing && !ProofReady(w.run.status)
    && Gen(w) in w.pods && w.pods[Gen(w)].phase == PodRunning
  }

  predicate EnterGuard(cfg: Config, w: World, p: Phase) {
    var st := w.run.status;
    match p
    case Pending => st.phase == Unset && !w.run.cancel && !w.run.pause
    case Canceled => w.run.cancel && !IsTerminal(st.phase) && Released(w)
    case Paused => cfg.storage && st.phase == Pausing && ProofReady(st) && Gen(w) !in w.pods
    case Provisioning => Unrequested(w) && w.pvc.Some? && Recorded(w) && Gen(w) in w.pods && w.pods[Gen(w)].phase == PodPending
    case Succeeded => Unrequested(w) && w.pvc.Some? && Recorded(w) && Gen(w) in w.pods && w.pods[Gen(w)].phase == PodSucceeded
    case Failed =>
      || (Unrequested(w) && (w.pvc.Some? || (VolumeLost(cfg, w) && Released(w))))
      || (st.phase == Pausing && !ProofReady(st) && Gen(w) !in w.pods)
    case _ => false
  }

  /** When the operator may issue a write. */
  predicate Guard(cfg: Config, w: World, x: Write) {
    var st := w.run.status;
    match x
    case DeletePod =>
      && Gen(w) in w.pods
      && (|| (w.run.cancel && !IsTerminal(st.phase))
          || (w.run.resume && (st.phase == Paused || st.phase == Failed))
          || (st.phase == Pausing && cfg.storage && ProofReady(st))
          || VolumeLost(cfg, w)
          || (Unrequested(w) && w.pvc.Some? && FailedForNow(w) && st.restartCount < Budget(cfg)))
    case CreatePvc => Unrequested(w) && w.pvc.None? && VolumeAvailable(cfg, w)
    case PutSpec => Unrequested(w) && w.pvc.Some?
    case CreatePod =>
      && Unrequested(w) && w.pvc.Some? && w.spec == Some(BuildRunSpec(st)) && Gen(w) !in w.pods && !Recorded(w)
    case RecordPod => Unrequested(w) && w.pvc.Some? && Gen(w) in w.pods && !Recorded(w)
    case ClearPause => !IsTerminal(st.phase) && st.phase != Paused
    case ClearResume => (st.phase == Paused || st.phase == Failed) && w.run.resume && Released(w)
    case RecordResume => (st.phase == Paused || st.phase == Failed) && Released(w)
    case Quiesce => Proving(cfg, w)
    case Unquiesce => st.phase == Pausing && Gen(w) in w.pods
    case TakeCheckpoint(_, _) => Proving(cfg, w) && w.ledger.episode.quiesced && w.pods[Gen(w)].quiesced
    case CommitProof(ref, _) =>
      Proving(cfg, w) && w.ledger.episode.quiesced && w.ledger.episode.taken == Some(ref) && ref.uri != ""
    case BeginPause => cfg.storage && w.run.pause && st.phase != Pausing && st.phase != Paused && !IsTerminal(st.phase)
    case AbandonPause =>
      && st.phase != Paused && !IsTerminal(st.phase) && (cfg.storage ==> st.phase == Pausing && !ProofReady(st))
    case RecordLoss => VolumeLost(cfg, w) && cfg.storage && Released(w)
    case Restart =>
      && Unrequested(w) && w.pvc.Some? && Recorded(w) && Released(w) && st.restartCount < Budget(cfg)
    case ClearRecovery => Live(w)
    case Observe => Live(w) && !Recovering(st)
    case MarkRunning(s) => Live(w) && !Recovering(st) && Scraped(st, s) == s
    case Enter(p) => EnterGuard(cfg, w, p)
  }

  /** Each write is allowed in the state the writes before it left. */
  predicate Guarded(cfg: Config, w: World, xs: seq<Write>)
    decreases |xs|
  {
    xs == [] || (Guard(cfg, w, xs[0]) && Guarded(cfg, Apply(w, xs[0]), xs[1..]))
  }

  // ---- every reconcile is a chain of guarded writes ------------------------------------

  lemma GuardedThen(cfg: Config, w: World, xs: seq<Write>, ys: seq<Write>)
    requires Guarded(cfg, w, xs) && Guarded(cfg, Perform(w, xs), ys)
    ensures Guarded(cfg, w, xs + ys) && Perform(w, xs + ys) == Perform(Perform(w, xs), ys)
    decreases |xs|
  {
    hide Guard, Apply;
    if xs == [] {
      assert xs + ys == ys;
    } else {
      assert (xs + ys)[1..] == xs[1..] + ys;
      GuardedThen(cfg, Apply(w, xs[0]), xs[1..], ys);
    }
  }

  /** Writes were issued from `before` in the order of the plan, all of them if
      nothing failed; `log` and `now` are the history and the cluster since. */
  ghost predicate Followed(before: World, prior: seq<Write>, plan: seq<Write>, log: seq<Write>, now: World, ok: bool) {
    && prior <= log && log[|prior|..] <= plan && (ok ==> log == prior + plan)
    && now == Perform(before, log[|prior|..])
  }

  lemma PerformThen(w: World, xs: seq<Write>, ys: seq<Write>)
    ensures Perform(w, xs + ys) == Perform(Perform(w, xs), ys)
    decreases |xs|
  {
    hide Apply;
    if xs == [] {
      assert xs + ys == ys;
    } else {
      assert (xs + ys)[1..] == xs[1..] + ys;
      PerformThen(Apply(w, xs[0]), xs[1..], ys);
    }
  }

  /** A plan followed to its end and then another. */
  lemma FollowedOn(before: World, prior: seq<Write>, xs: seq<Write>, mid: seq<Write>, there: World,
                   ys: seq<Write>, log: seq<Write>, now: World, ok: bool)
    requires Followed(before, prior, xs, mid, there, true) && Followed(there, mid, ys, log, now, ok)
    ensures Followed(before, prior, xs + ys, log, now, ok)
  {
    hide Perform;
    var done := log[|mid|..];
    assert log == prior + (xs + done) && log[|prior|..] == xs + done;
    assert mid[|prior|..] == xs;
    PerformThen(before, xs, done);
    assert xs + done <= xs + ys;
    if ok {
      assert done == ys;
    }
  }

  /** Following a plan, to its end or not, is being on the way through a longer one. */
  lemma FollowedLoose(before: World, prior: seq<Write>, xs: seq<Write>, ys: seq<Write>, log: seq<Write>, now: World, ok: bool)
    requires Followed(before, prior, xs, log, now, ok)
    ensures Followed(before, prior, xs + ys, log, now, false)
  {
    hide Perform;
  }

  lemma FollowedNothing(w: World, prior: seq<Write>, plan: seq<Write>)
    ensures Followed(w, prior, plan, prior, w, plan == [])
    ensures Followed(w, prior, plan, prior, w, false)
  {
    assert prior[|prior|..] == [];
  }

  lemma GuardedOne(cfg: Config, w: World, x: Write)
    ensures Perform(w, []) == w && Guarded(cfg, w, [])
    ensures Perform(w, [x]) == Apply(w, x)
    ensures Guard(cfg, w, x) ==> Guarded(cfg, w, [x])
  {
    hide Guard, Apply;
    assert [x][1..] == [];
    assert Perform(Apply(w, x), []) == Apply(w, x);
  }

  lemma GuardedTwo(cfg: Config, w: World, x: Write, y: Write)
    ensures Perform(w, [x, y]) == Apply(Apply(w, x), y)
    ensures Guard(cfg, w, x) && Guard(cfg, Apply(w, x), y) ==> Guarded(cfg, w, [x, y])
  {
    hide Guard, Apply;
    GuardedOne(cfg, Apply(w, x), y);
    assert [x, y][1..] == [y];
  }

  lemma GuardedThree(cfg: Config, w: World, x: Write, y: Write, z: Write)
    ensures Guard(cfg, w, x) && Guard(cfg, Apply(w, x), y) && Guard(cfg, Apply(Apply(w, x), y), z) ==> Guarded(cfg, w, [x, y, z])
  {
    hide Guard, Apply;
    GuardedTwo(cfg, Apply(w, x), y, z);
    assert [x, y, z][1..] == [y, z];
  }

  lemma AbortIsGuarded(cfg: Config, w: World, pod: bool, obs: Obs)
    requires w.run.status.phase != Paused && !IsTerminal(w.run.status.phase)
    requires cfg.storage ==> w.run.status.phase == Pausing && !ProofReady(w.run.status)
    requires pod ==> w.run.status.phase == Pausing
    ensures Guarded(cfg, w, AbortPlan(cfg, w, pod, obs))
  {
    hide Guarded, Perform, Holds, Generation;
    if pod && cfg.executor && Reaches(w, obs.unquiesce) {
      GuardedThree(cfg, w, Unquiesce, ClearPause, AbandonPause);
    } else {
      GuardedTwo(cfg, w, ClearPause, AbandonPause);
    }
  }

  lemma DeleteIsGuarded(cfg: Config, w: World, rest: seq<Write>)
    requires Gen(w) in w.pods ==> Guard(cfg, w, DeletePod) && Guarded(cfg, Apply(w, DeletePod), rest)
    requires Gen(w) !in w.pods ==> Guarded(cfg, w, rest)
    ensures Guarded(cfg, w, DeleteThen(w, rest))
  {
    hide Guard, Apply;
    assert ([DeletePod] + rest)[1..] == rest;
  }

  lemma PublishIsGuarded(cfg: Config, w: World, obs: Obs)
    requires cfg.storage && w.run.status.phase == Pausing && !ProofReady(w.run.status)
    ensures Guarded(cfg, w, PublishPlan(cfg, w, obs))
  {
    hide Guarded, Perform;
    AbortIsGuarded(cfg, w, false, obs);
    AbortIsGuarded(cfg, w, true, obs);
    if cfg.executor && Gen(w) !in w.pods {
      GuardedOne(cfg, w, Enter(Failed));
    } else if cfg.executor && Reaches(w, obs.quiesce) {
      ProvingIsGuarded(cfg, w, obs);
    }
  }

  lemma ProvingIsGuarded(cfg: Config, w: World, obs: Obs)
    requires cfg.storage && cfg.executor && w.run.status.phase == Pausing && !ProofReady(w.run.status)
    requires Reaches(w, obs.quiesce)
    ensures Guarded(cfg, w, PublishPlan(cfg, w, obs))
  {
    hide Guarded, Perform, Holds, Generation, Guard, Apply, AbortPlan;
    if obs.once.Printed? && Complete(obs.once.proof) {
      var p := obs.once.proof;
      TakenIsGuarded(cfg, w, obs.published, Some(p.ref));
      CommitIsGuarded(cfg, w, obs.published, p.ref, p.warning);
      var take, commit := TakeCheckpoint(obs.published, Some(p.ref)), CommitProof(p.ref, p.warning);
      GuardedThree(cfg, w, Quiesce, take, commit);
      assert [Quiesce] + [take, commit] == [Quiesce, take, commit];
    } else {
      var take := TakeCheckpoint(obs.published, None);
      TakenIsGuarded(cfg, w, obs.published, None);
      GuardedTwo(cfg, w, Quiesce, take);
      var w2 := Apply(Apply(w, Quiesce), take);
      AbortIsGuarded(cfg, w2, true, obs);
      assert AbortPlan(cfg, w2, true, obs) == AbortPlan(cfg, w, true, obs) by { SameAbort(cfg, w, w2, obs); }
      GuardedThen(cfg, w, [Quiesce, take], AbortPlan(cfg, w, true, obs));
      assert [Quiesce] + ([take] + AbortPlan(cfg, w, true, obs)) == [Quiesce, take] + AbortPlan(cfg, w, true, obs);
    }
  }

  lemma TakenIsGuarded(cfg: Config, w: World, published: Objects, taken: Option<CheckpointRef>)
    requires Proving(cfg, w)
    ensures Guard(cfg, w, Quiesce) && Guard(cfg, Apply(w, Quiesce), TakeCheckpoint(published, taken))
    ensures var w2 := Apply(Apply(w, Quiesce), TakeCheckpoint(published, taken));
            && w2.run == w.run && w2.pods.Keys == w.pods.Keys && w2.pods[Gen(w)].phase == PodRunning
            && w2.ledger.episode.quiesced && w2.ledger.episode.taken == taken
  {
    hide Holds, Generation;
  }

  lemma CommitIsGuarded(cfg: Config, w: World, published: Objects, ref: CheckpointRef, warning: bool)
    requires Proving(cfg, w) && ref.uri != ""
    ensures Guard(cfg, Apply(Apply(w, Quiesce), TakeCheckpoint(published, Some(ref))), CommitProof(ref, warning))
  {
    hide Holds, Generation, Apply;
    TakenIsGuarded(cfg, w, published, Some(ref));
  }

  /** An exec into a running pod does not change what can be done about it next. */
  lemma QuiescedStill(cfg: Config, w: World, obs: Obs)
    requires Gen(w) in w.pods
    ensures ProofPlan(cfg, Apply(w, Quiesce), obs) == ProofPlan(cfg, w, obs)
    ensures Apply(w, Quiesce).run == w.run && Gen(w) in Apply(w, Quiesce).pods
  {
    hide Generation, AbortPlan, Holds;
    SameAbort(cfg, w, Apply(w, Quiesce), obs);
  }

  lemma SameAbort(cfg: Config, w: World, w': World, obs: Obs)
    requires w'.run == w.run && Reaches(w, true) == Reaches(w', true)
    ensures AbortPlan(cfg, w', true, obs) == AbortPlan(cfg, w, true, obs)
  {
    hide Generation;
  }

  lemma CancelIsGuarded(cfg: Config, w: World)
    requires w.run.cancel && !IsTerminal(w.run.status.phase)
    ensures Guarded(cfg, w, CancelPlan(w))
  {
    hide Guarded, Perform, Holds;
    GuardedOne(cfg, w, Enter(Canceled));
    GuardedOne(cfg, Apply(w, DeletePod), Enter(Canceled));
    DeleteIsGuarded(cfg, w, [Enter(Canceled)]);
  }

  lemma ResumeIsGuarded(cfg: Config, w: World)
    requires w.run.resume && (w.run.status.phase == Paused || w.run.status.phase == Failed)
    ensures Guarded(cfg, w, ResumePlan(w))
  {
    hide Guarded, Perform, Holds;
    GuardedTwo(cfg, w, ClearResume, RecordResume);
    GuardedTwo(cfg, Apply(w, DeletePod), ClearResume, RecordResume);
    DeleteIsGuarded(cfg, w, [ClearResume, RecordResume]);
  }

  lemma PauseIsGuarded(cfg: Config, w: World, obs: Obs)
    requires w.run.status.phase != Paused && !IsTerminal(w.run.status.phase)
    requires w.run.status.phase == Pausing || w.run.pause
    ensures Guarded(cfg, w, PausePlan(cfg, w, obs))
  {
    hide Guarded, Perform, Holds;
    if !cfg.storage {
      AbortIsGuarded(cfg, w, false, obs);
    } else if w.run.status.phase != Pausing {
      GuardedOne(cfg, w, BeginPause);
    } else if !ProofReady(w.run.status) {
      PublishIsGuarded(cfg, w, obs);
    } else if Gen(w) in w.pods {
      GuardedOne(cfg, w, DeletePod);
    } else {
      GuardedTwo(cfg, w, ClearPause, Enter(Paused));
    }
  }

  lemma RequestIsGuarded(cfg: Config, w: World, obs: Obs)
    requires RequestPlan(cfg, w, obs).Some?
    ensures Guarded(cfg, w, RequestPlan(cfg, w, obs).value)
  {
    hide Guarded, Perform, Holds, Guard, Apply, CancelPlan, ResumePlan, PausePlan;
    var st := w.run.status;
    if (st.phase == Paused || !IsTerminal(st.phase)) && w.run.cancel {
      CancelIsGuarded(cfg, w);
    } else if (st.phase == Paused || st.phase == Failed) && w.run.resume {
      ResumeIsGuarded(cfg, w);
    } else if !IsTerminal(st.phase) && st.phase != Paused && (st.phase == Pausing || w.run.pause) {
      PauseIsGuarded(cfg, w, obs);
    } else {
      AdmitIsGuarded(cfg, w);
    }
  }

  lemma AdmitIsGuarded(cfg: Config, w: World)
    ensures Guarded(cfg, w, [])
    ensures w.run.status.phase == Unset && !w.run.cancel && !w.run.pause ==> Guarded(cfg, w, [Enter(Pending)])
  {
    hide Guarded, Perform, Apply;
    GuardedOne(cfg, w, Enter(Pending));
  }

  lemma LossIsGuarded(cfg: Config, w: World)
    requires VolumeLost(cfg, w)
    ensures Guarded(cfg, w, LossPlan(cfg, w))
  {
    hide Guarded, Perform, Holds;
    var last := if cfg.storage then RecordLoss else Enter(Failed);
    GuardedOne(cfg, w, last);
    GuardedOne(cfg, Apply(w, DeletePod), last);
    DeleteIsGuarded(cfg, w, [last]);
  }

  /** Until the pod is looked at, the status and the pods are as they were read. */
  ghost predicate Prepared(w: World, w': World) {
    && w'.run == w.run && w'.pods == w.pods && w'.ledger == w.ledger.(volume := w'.ledger.volume) && w'.bucket == w.bucket
    && w'.pvc.Some? && w'.spec == Some(BuildRunSpec(w.run.status))
    && (w.pvc.Some? ==> w'.pvc == w.pvc && w'.ledger == w.ledger)
    && (w.pvc.None? ==>
          && w'.pvc == Some(Pvc(w.run.status.phase != Pending, None, map[]))
          && w'.ledger.volume == w.ledger.volume.(made := true, emptied := w.ledger.volume.worked))
  }

  lemma PrerequisitesAreGuarded(cfg: Config, w: World)
    requires Unrequested(w) && VolumeAvailable(cfg, w)
    ensures Guarded(cfg, w, PrerequisitePlan(w))
    ensures Prepared(w, Perform(w, PrerequisitePlan(w)))
  {
    hide Guarded, Perform, Holds, BuildRunSpec;
    GuardedOne(cfg, w, PutSpec);
    GuardedOne(cfg, w, CreatePvc);
    GuardedTwo(cfg, w, CreatePvc, PutSpec);
    assert [CreatePvc] + [PutSpec] == [CreatePvc, PutSpec];
    var none: seq<Write> := [];
    assert [CreatePvc] + none == [CreatePvc] && none + [PutSpec] == [PutSpec] && none + none == none;
  }

  lemma RunningIsGuarded(cfg: Config, w: World, obs: Obs)
    requires Live(w)
    ensures Guarded(cfg, w, RunningPlan(w, obs))
  {
    hide Guarded, Perform, Holds, Lowered, Recovering;
    var st := w.run.status;
    var first := if Recovering(st) then ClearRecovery else Observe;
    var second := MarkRunning(Scraped(st, obs.scraped));
    LoweredFacts(st);
    GuardedOne(cfg, w, first);
    GuardedTwo(cfg, w, first, second);
    assert [first] + [second] == [first, second];
    var none: seq<Write> := [];
    assert [first] + none == [first];
  }

  /** What clearing the recovery conditions leaves alone. */
  lemma LoweredFacts(st: Status)
    ensures var st' := StatusAfter(st, ClearRecovery);
            && !Recovering(st')
            && st' == st.(conditions := st'.conditions)
            && (forall c | !(c in {WorkspaceRestorePending, Resuming, PauseResumePending}) :: Holds(st', c) == Holds(st, c))
  {
  }

  lemma FailureIsGuarded(cfg: Config, w: World, containers: seq<Termination>)
    requires Unrequested(w) && w.pvc.Some? && Recorded(w) && Gen(w) in w.pods && w.pods[Gen(w)].phase == PodFailed(containers)
    ensures Guarded(cfg, w, FailurePlan(cfg, w, containers))
  {
    hide Guarded, Perform, Holds, Retryable, Generation, Budget;
    GuardedOne(cfg, w, Enter(Failed));
    GuardedTwo(cfg, w, DeletePod, Restart);
  }

  lemma PodStateIsGuarded(cfg: Config, w: World, obs: Obs)
    requires Unrequested(w) && w.pvc.Some? && Gen(w) in w.pods
    ensures Guarded(cfg, w, PodStatePlan(cfg, w, obs))
  {
    hide Guarded, Perform, Holds, Apply, FailurePlan, RunningPlan, Generation;
    GuardedOne(cfg, w, RecordPod);
    GuardedOne(cfg, w, Enter(Provisioning));
    GuardedOne(cfg, w, Enter(Succeeded));
    if Recorded(w) && w.pods[Gen(w)].phase.PodFailed? {
      FailureIsGuarded(cfg, w, w.pods[Gen(w)].phase.containers);
    } else if Live(w) {
      RunningIsGuarded(cfg, w, obs);
    }
  }

  lemma PodIsGuarded(cfg: Config, w: World, obs: Obs)
    requires Unrequested(w) && w.pvc.Some? && w.spec == Some(BuildRunSpec(w.run.status))
    ensures Guarded(cfg, w, PodPlan(cfg, w, obs))
  {
    hide Guarded, Perform, Holds, BuildRunSpec, PodStatePlan, Apply, Generation;
    if Gen(w) in w.pods {
      PodStateIsGuarded(cfg, w, obs);
    } else if Recorded(w) {
      GuardedOne(cfg, w, Restart);
      GuardedOne(cfg, w, Enter(Failed));
    } else {
      GuardedOne(cfg, w, Enter(Failed));
      GuardedTwo(cfg, w, CreatePod, RecordPod);
      CreatedMayBeRecorded(cfg, w);
    }
  }

  lemma CreatedMayBeRecorded(cfg: Config, w: World)
    requires Guard(cfg, w, CreatePod)
    ensures Guard(cfg, Apply(w, CreatePod), RecordPod)
  {
    hide BuildRunSpec, Holds, Generation;
  }

  /** Every reconcile, in any state and whatever it learns, is a chain of writes
      each of which its guard allows. */
  lemma PlanIsGuarded(cfg: Config, w: World, obs: Obs)
    ensures Guarded(cfg, w, Plan(cfg, w, obs))
  {
    hide Guarded, Perform, Holds, Guard, Apply, LossPlan, PrerequisitePlan, PodPlan, RequestPlan;
    if RequestPlan(cfg, w, obs).Some? {
      RequestIsGuarded(cfg, w, obs);
    } else {
      NotRequested(cfg, w, obs);
      if !VolumeAvailable(cfg, w) {
        LossIsGuarded(cfg, w);
      } else {
        PrerequisitesAreGuarded(cfg, w);
        var w' := Perform(w, PrerequisitePlan(w));
        PodIsGuarded(cfg, w', obs);
        assert PodPlan(cfg, w', obs) == PodPlan(cfg, w, obs) by { SamePods(cfg, w, w', obs); }
        GuardedThen(cfg, w, PrerequisitePlan(w), PodPlan(cfg, w, obs));
      }
    }
  }

  lemma NotRequested(cfg: Config, w: World, obs: Obs)
    ensures RequestPlan(cfg, w, obs).None? <==> Unrequested(w)
  {
    hide CancelPlan, ResumePlan, PausePlan;
  }

  /** What is done about the pod depends only on the status and the pods. */
  lemma SamePods(cfg: Config, w: World, w': World, obs: Obs)
    requires w'.run == w.run && w'.pods == w.pods
    ensures PodPlan(cfg, w', obs) == PodPlan(cfg, w, obs)
  {
    hide Retryable, Generation, Budget;
  }

  // ---- which write touches what ---------------------------------------------------------

  lemma ConditionsAfter(st: Status, x: Write)
    ensures var st' := StatusAfter(st, x);
            && (Holds(st', WorkspaceRestorePending) <==> x.RecordLoss? || (Holds(st, WorkspaceRestorePending) && !x.ClearRecovery?))
            && (Holds(st', Resuming) <==> x.RecordResume? || x.Restart? || (Holds(st, Resuming) && !x.ClearRecovery?))
            && (Holds(st', PauseResumePending) <==>
                  (x.RecordResume? && st.phase == Paused) || (Holds(st, PauseResumePending) && !x.ClearRecovery?))
            && (Holds(st', PauseCheckpointReady) <==> x.CommitProof? || (Holds(st, PauseCheckpointReady) && !x.AbandonPause?))
  {
    hide Generation;
  }

  lemma FieldsAfter(st: Status, x: Write)
    ensures var st' := StatusAfter(st, x);
            && (x.CreatePod? || x.PutSpec? || x.CreatePvc? || x.DeletePod? || x.Quiesce? || x.TakeCheckpoint? || x.Observe? ==> st' == st)
            && st'.lastCheckpoint == (if x.CommitProof? then Some(x.ref)
                                      else if x.MarkRunning? && x.scraped.Some? then x.scraped else st.lastCheckpoint)
            && st'.podName == (if x.RecordPod? then Some(Generation(st))
                               else if x.RecordLoss? && Holds(st, Resuming) then None else st.podName)
            && st'.phase == (if x.Enter? then x.phase
                             else if x.BeginPause? then Pausing
                             else if x.AbandonPause? || x.MarkRunning? then Running
                             else if x.RecordResume? || x.RecordLoss? || x.Restart? then Interrupted
                             else st.phase)
            && st'.restartCount == (if x.Restart? || (x.RecordLoss? && !Holds(st, Resuming)) then st.restartCount + 1
                                    else if x.RecordResume? && st.phase != Paused then 0 else st.restartCount)
            && Generation(st') == Generation(st) +
                 (if x.RecordResume? || x.Restart? || (x.RecordLoss? && !Holds(st, Resuming)) then 1 else 0)
  {
    LoweredFacts(st);
    hide Holds, Lowered;
  }
}
