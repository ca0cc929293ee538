/** The run in which a second pause ends on the proof of the first one. */
module SecondPause {
  import opened Basics
  import opened AgentRuns
  import opened Hydration
  import opened Reconciliation
  import opened Runs
  import opened WorkspaceSafety
  import opened RetryBudget
  import opened VolumeHistory

  /** The current pod runs, is on record, and nothing is asked for. */
  predicate Attended(w: World) {
    && !w.run.cancel && !w.run.pause && !w.run.resume && w.pvc.Some? && PastPodsGo(w) && Recorded(w)
    && Gen(w) in w.pods && !w.pods[Gen(w)].deleting && w.pods[Gen(w)].phase == PodRunning
    && !Holds(w.run.status, WorkspaceRestorePending)
  }

  /** What pauses and resumes have left in the status. */
  predicate SameProof(a: Status, b: Status) {
    a.lastCheckpoint == b.lastCheckpoint && ProofReady(a) == ProofReady(b)
  }

  function Good(ref: CheckpointRef): Obs {
    Obs(true, true, Printed(Proof(ref, false)), map[], None, false)
  }

  /** The user asks; nothing else changes. */
  function Asked(w: World, pause: bool, resume: bool): World {
    w.(run := w.run.(cancel := false, pause := pause, resume := resume))
  }

  function Ask(pause: bool, resume: bool): Action {
    Env(Request(false, pause, resume))
  }

  /** A pod on its first sight as Running. */
  lemma SeenRunning(cfg: Config, w: World, ref: CheckpointRef)
    requires Attended(w) && w.run.status.phase in {Pending, Provisioning, Running, Interrupted}
    ensures var w' := Full(cfg, w, Good(ref));
            Attended(w') && w'.run.status.phase == Running && Gen(w') == Gen(w) && SameProof(w'.run.status, w.run.status)
  {
    hide Perform, Holds, RequestPlan, PrerequisitePlan, Generation, BuildRunSpec, Guarded, StatusAfter, LedgerAfter;
    NotRequested(cfg, w, Good(ref));
    PrerequisitesAreGuarded(cfg, w);
    var st := w.run.status;
    var w1 := Perform(w, PrerequisitePlan(w));
    var first := if Recovering(st) then ClearRecovery else Observe;
    var rest: seq<Write> := if st.phase == Running then [] else [MarkRunning(None)];
    assert RunningPlan(w, Good(ref)) == [first] + rest;
    assert [first] + [] == [first] && [first] + [MarkRunning(None)] == [first, MarkRunning(None)];
    PerformThen(w, PrerequisitePlan(w), [first] + rest);
    GuardedOne(cfg, w1, first);
    GuardedTwo(cfg, w1, first, MarkRunning(None));
    FieldsAfter(st, first);
    ConditionsAfter(st, first);
    var st1 := StatusAfter(st, first);
    FieldsAfter(st1, MarkRunning(None));
    ConditionsAfter(st1, MarkRunning(None));
  }

  /** A pod of a run that needs no restore starts. */
  lemma StartsUp(cfg: Config, w: World, g: nat)
    requires MayStart(w, g) && g == Gen(w) && !w.spec.value.restoreRequired && Recorded(w) && PastPodsGo(w)
    requires !w.run.cancel && !w.run.pause && !w.run.resume && !Holds(w.run.status, WorkspaceRestorePending)
    ensures var e := PodStarts(g, Cloned(map[]), map[]);
            Possible(cfg, w, e) && Attended(Happens(cfg, w, e)) && Happens(cfg, w, e).run == w.run
  {
    hide Restored, Holds, Generation;
  }

  /** From a run whose pod is to be created to one whose pod is seen running. */
  lemma BringUp(cfg: Config, w: World, ref: CheckpointRef) returns (acts: seq<Action>)
    requires Unrequested(w) && !w.run.resume && VolumeAvailable(cfg, w) && Gen(w) !in w.pods && !Recorded(w) && PastPodsGo(w)
    requires !Holds(w.run.status, WorkspaceRestorePending)
    ensures Feasible(cfg, w, acts)
    ensures var w' := After(cfg, w, acts);
            Attended(w') && w'.run.status.phase == Running && Gen(w') == Gen(w) && SameProof(w'.run.status, w.run.status)
  {
    hide Full, Plan, Guard, Holds, Generation, AfterStart, ProofReady;
    StartsAnew(cfg, w, Good(ref));
    var w1 := Full(cfg, w, Good(ref));
    NamedOnly(w, w1);
    var start := Env(PodStarts(Gen(w), Cloned(map[]), map[]));
    StartsUp(cfg, w1, Gen(w));
    var w2 := Next(cfg, w1, start);
    SeenRunning(cfg, w2, ref);
    hide Next;
    WholeIsFull(cfg, w2, Good(ref));
    acts := OneStep(cfg, w2, Whole(cfg, w2, Good(ref)));
    Prepend(cfg, w1, start, acts);
    acts := [start] + acts;
    WholeIsFull(cfg, w, Good(ref));
    Prepend(cfg, w, Whole(cfg, w, Good(ref)), acts);
    acts := [Whole(cfg, w, Good(ref))] + acts;
  }

  lemma NamedOnly(w: World, w1: World)
    requires w1.run == w.run.(status := w.run.status.(podName := Some(Gen(w)))) && PastPodsGo(w)
    requires w1.pods == w.pods[Gen(w) := Pod(PodPending, false, false)]
    ensures Gen(w1) == Gen(w) && Recorded(w1) && PastPodsGo(w1) && SameProof(w1.run.status, w.run.status)
    ensures forall c :: Holds(w1.run.status, c) == Holds(w.run.status, c)
  {
  }

  lemma OneStep(cfg: Config, w: World, a: Action) returns (acts: seq<Action>)
    requires Enabled(cfg, w, a)
    ensures acts == [a] && Feasible(cfg, w, acts) && After(cfg, w, acts) == Next(cfg, w, a)
  {
    hide Enabled, Next;
    var none: seq<Action> := [];
    assert After(cfg, Next(cfg, w, a), none) == Next(cfg, w, a);
    Prepend(cfg, w, a, none);
    acts := [a];
    assert [a] + none == [a];
  }

  // ---- the pause -------------------------------------------------------------------------

  lemma PauseBegins(cfg: Config, w: World, ref: CheckpointRef)
    requires Attended(w) && w.run.status.phase == Running && cfg.storage
    ensures var w' := Full(cfg, Asked(w, true, false), Good(ref));
            && w'.run.status.phase == Pausing && Gen(w') == Gen(w) && SameProof(w'.run.status, w.run.status)
            && w'.pods == w.pods && w'.pvc == w.pvc && !w'.run.cancel && !w'.run.resume && Recorded(w') && PastPodsGo(w')
            && w'.ledger.episode.readyAtEntry == ProofReady(w.run.status)
            && !Holds(w'.run.status, WorkspaceRestorePending)
  {
    hide Perform, Holds, Generation, StatusAfter;
    var v := Asked(w, true, false);
    GuardedOne(cfg, v, BeginPause);
    FieldsAfter(v.run.status, BeginPause);
    ConditionsAfter(v.run.status, BeginPause);
  }

  /** A pausing run without a proof and with its pod at work. */
  predicate Unproven(w: World) {
    && w.run.status.phase == Pausing && !ProofReady(w.run.status) && !w.run.cancel && !w.run.resume
    && Gen(w) in w.pods && w.pods[Gen(w)].phase == PodRunning && w.pvc.Some? && Recorded(w) && PastPodsGo(w)
    && !Holds(w.run.status, WorkspaceRestorePending)
  }

  lemma ProofIsCommitted(cfg: Config, w: World, ref: CheckpointRef)
    requires Unproven(w) && cfg.storage && cfg.executor && ref.id != "" && ref.uri != "" && ref.sha256 != ""
    ensures var w' := Full(cfg, w, Good(ref));
            && w'.run.status.phase == Pausing && ProofReady(w'.run.status) && w'.run.status.lastCheckpoint == Some(ref)
            && Gen(w') == Gen(w) && w'.pods.Keys == w.pods.Keys && w'.pvc.Some? && !w'.run.cancel && !w'.run.resume
            && Recorded(w') && PastPodsGo(w') && !Holds(w'.run.status, WorkspaceRestorePending)
  {
    hide Plan, Holds, Generation, StatusAfter, ProofReady, Perform;
    var take, commit := TakeCheckpoint(map[], Some(ref)), CommitProof(ref, false);
    ProofIsPlanned(cfg, w, ref);
    ThreeWrites(w, Quiesce, take, commit);
    FieldsAfter(w.run.status, Quiesce);
    FieldsAfter(w.run.status, take);
    FieldsAfter(w.run.status, commit);
    ConditionsAfter(w.run.status, commit);
    ReadyByCommit(w.run.status, ref);
  }

  lemma ReadyByCommit(st: Status, ref: CheckpointRef)
    ensures ProofReady(StatusAfter(st, CommitProof(ref, false)))
  {
  }

  lemma ProofIsPlanned(cfg: Config, w: World, ref: CheckpointRef)
    requires Unproven(w) && cfg.storage && cfg.executor && ref.id != "" && ref.uri != "" && ref.sha256 != ""
    ensures Plan(cfg, w, Good(ref)) == [Quiesce, TakeCheckpoint(map[], Some(ref)), CommitProof(ref, false)]
  {
    hide Holds, Generation;
    assert [Quiesce] + [TakeCheckpoint(map[], Some(ref)), CommitProof(ref, false)]
        == [Quiesce, TakeCheckpoint(map[], Some(ref)), CommitProof(ref, false)];
  }

  lemma ThreeWrites(w: World, x: Write, y: Write, z: Write)
    ensures Perform(w, [x, y, z]) == Apply(Apply(Apply(w, x), y), z)
  {
    hide Apply;
    assert [x, y, z][1..] == [y, z];
    GuardedTwo(Config(false, false, 0, false), Apply(w, x), y, z);
  }

  /** The pod goes and the run is paused. */
  lemma PauseEnds(cfg: Config, w: World, ref: CheckpointRef)
    requires w.run.status.phase == Pausing && ProofReady(w.run.status) && cfg.storage && Gen(w) in w.pods && w.pvc.Some?
    requires !w.run.cancel && !w.run.resume && Recorded(w) && PastPodsGo(w) && !Holds(w.run.status, WorkspaceRestorePending)
    ensures var w1 := Full(cfg, w, Good(ref));
            var w2 := w1.(pods := w1.pods - {Gen(w)});
            var w3 := Full(cfg, w2, Good(ref));
            && Gen(w) in w1.pods
            && w3.run.status.phase == Paused && Gen(w3) == Gen(w) && SameProof(w3.run.status, w.run.status) && Gen(w3) !in w3.pods
            && w3.pvc.Some? && !w3.run.cancel && !w3.run.pause && Recorded(w3) && PastPodsGo(w3)
            && !Holds(w3.run.status, WorkspaceRestorePending)
  {
    hide Perform, Holds, Generation, StatusAfter;
    GuardedOne(cfg, w, DeletePod);
    FieldsAfter(w.run.status, DeletePod);
    var w1 := Full(cfg, w, Good(ref));
    var w2 := w1.(pods := w1.pods - {Gen(w)});
    GuardedTwo(cfg, w2, ClearPause, Enter(Paused));
    FieldsAfter(w2.run.status, Enter(Paused));
    ConditionsAfter(w2.run.status, Enter(Paused));
  }

  /** The resume begins the next attempt. */
  lemma ResumeBegins(cfg: Config, w: World, ref: CheckpointRef)
    requires w.run.status.phase == Paused && Gen(w) !in w.pods && w.pvc.Some? && Recorded(w) && PastPodsGo(w)
    requires !Holds(w.run.status, WorkspaceRestorePending)
    ensures var w' := Full(cfg, Asked(w, false, true), Good(ref));
            && Unrequested(w') && !w'.run.resume && VolumeAvailable(cfg, w') && Gen(w') == Gen(w) + 1 && Gen(w') !in w'.pods
            && !Recorded(w') && PastPodsGo(w') && SameProof(w'.run.status, w.run.status)
            && !Holds(w'.run.status, WorkspaceRestorePending)
  {
    hide Perform, Holds, Generation, StatusAfter;
    var v := Asked(w, false, true);
    GuardedTwo(cfg, v, ClearResume, RecordResume);
    FieldsAfter(v.run.status, RecordResume);
    ConditionsAfter(v.run.status, RecordResume);
  }

  // ---- the whole run ---------------------------------------------------------------------------

  /** From a running attempt without a proof to the pause it ends in. */
  lemma PausedOnce(cfg: Config, w: World, ref: CheckpointRef) returns (acts: seq<Action>)
    requires Attended(w) && w.run.status.phase == Running && !ProofReady(w.run.status)
    requires cfg.storage && cfg.executor && ref.id != "" && ref.uri != "" && ref.sha256 != ""
    ensures Feasible(cfg, w, acts)
    ensures var w' := After(cfg, w, acts);
            && w'.run.status.phase == Paused && ProofReady(w'.run.status) && w'.run.status.lastCheckpoint == Some(ref)
            && Gen(w') == Gen(w) && Gen(w') !in w'.pods && w'.pvc.Some? && Recorded(w') && PastPodsGo(w')
            && !Holds(w'.run.status, WorkspaceRestorePending)
  {
    hide Full, Plan, Guard, Holds, Generation, ProofReady, Attended;
    var good := Good(ref);
    var w1 := Next(cfg, w, Ask(true, false));
    assert w1 == Asked(w, true, false);
    PauseBegins(cfg, w, ref);
    var w2 := Full(cfg, w1, good);
    StillUnproven(w, w2);
    ProofIsCommitted(cfg, w2, ref);
    var w3 := Full(cfg, w2, good);
    PauseEnds(cfg, w3, ref);
    var w4 := Full(cfg, w3, good);
    var gone := Env(PodVanishes(Gen(w3)));
    var w5 := Next(cfg, w4, gone);
    hide Next;
    WholeIsFull(cfg, w5, good);
    acts := OneStep(cfg, w5, Whole(cfg, w5, good));
    Prepend(cfg, w4, gone, acts);
    acts := [gone] + acts;
    acts := Then(cfg, w3, good, acts);
    acts := Then(cfg, w2, good, acts);
    acts := Then(cfg, w1, good, acts);
    Prepend(cfg, w, Ask(true, false), acts);
    acts := [Ask(true, false)] + acts;
  }

  lemma StillUnproven(w: World, w2: World)
    requires Attended(w) && !ProofReady(w.run.status) && SameProof(w2.run.status, w.run.status) && w2.pods == w.pods && w2.pvc == w.pvc
    requires w2.run.status.phase == Pausing && Gen(w2) == Gen(w) && !w2.run.cancel && !w2.run.resume && Recorded(w2) && PastPodsGo(w2)
    requires !Holds(w2.run.status, WorkspaceRestorePending)
    ensures Unproven(w2)
  {
  }

  /** A whole reconcile before the rest. */
  lemma Then(cfg: Config, w: World, obs: Obs, rest: seq<Action>) returns (acts: seq<Action>)
    requires Feasible(cfg, Full(cfg, w, obs), rest)
    ensures Feasible(cfg, w, acts) && After(cfg, w, acts) == After(cfg, Full(cfg, w, obs), rest)
  {
    hide Full, Next, Enabled, Plan;
    WholeIsFull(cfg, w, obs);
    Prepend(cfg, w, Whole(cfg, w, obs), rest);
    acts := [Whole(cfg, w, obs)] + rest;
  }

  lemma {:induction false} Joined(cfg: Config, w: World, xs: seq<Action>, ys: seq<Action>)
    requires Feasible(cfg, w, xs) && Feasible(cfg, After(cfg, w, xs), ys)
    ensures Feasible(cfg, w, xs + ys) && After(cfg, w, xs + ys) == After(cfg, After(cfg, w, xs), ys)
    decreases |xs|
  {
    hide Enabled, Next;
    if xs == [] {
      assert xs + ys == ys;
    } else {
      assert (xs + ys)[1..] == xs[1..] + ys;
      Joined(cfg, Next(cfg, w, xs[0]), xs[1..], ys);
    }
  }

  /** From the pause through a resume into the next pause. */
  lemma PausedAgain(cfg: Config, w: World, ref: CheckpointRef) returns (acts: seq<Action>)
    requires w.run.status.phase == Paused && ProofReady(w.run.status) && w.run.status.lastCheckpoint == Some(ref)
    requires Gen(w) !in w.pods && w.pvc.Some? && Recorded(w) && PastPodsGo(w) && cfg.storage
    requires !Holds(w.run.status, WorkspaceRestorePending)
    ensures Feasible(cfg, w, acts)
    ensures var w' := After(cfg, w, acts);
            && w'.run.status.phase == Pausing && w'.ledger.episode.readyAtEntry && Gen(w') == Gen(w) + 1
            && w'.run.status.lastCheckpoint == Some(ref)
            && forall obs :: Plan(cfg, w', obs) == [DeletePod]
  {
    hide Full, Plan, Guard, Holds, Generation, Attended, PastPodsGo, VolumeAvailable, ProofReady;
    var good := Good(ref);
    var w1 := Next(cfg, w, Ask(false, true));
    assert w1 == Asked(w, false, true);
    ResumeBegins(cfg, w, ref);
    var w2 := Full(cfg, w1, good);
    var up := BringUp(cfg, w2, ref);
    var w3 := After(cfg, w2, up);
    var w4 := Next(cfg, w3, Ask(true, false));
    assert w4 == Asked(w3, true, false);
    PauseBegins(cfg, w3, ref);
    var w5 := Full(cfg, w4, good);
    PlansDeletion(cfg, w3, w5);
    hide Next;
    WholeIsFull(cfg, w4, good);
    acts := OneStep(cfg, w4, Whole(cfg, w4, good));
    Prepend(cfg, w3, Ask(true, false), acts);
    acts := [Ask(true, false)] + acts;
    Joined(cfg, w2, up, acts);
    acts := Then(cfg, w1, good, up + acts);
    Prepend(cfg, w, Ask(false, true), acts);
    acts := [Ask(false, true)] + acts;
  }

  lemma PlansDeletion(cfg: Config, w: World, w': World)
    requires Attended(w) && w'.pods == w.pods && Gen(w') == Gen(w) && cfg.storage
    requires w'.run.status.phase == Pausing && ProofReady(w'.run.status) && !w'.run.cancel
    ensures forall obs :: Plan(cfg, w', obs) == [DeletePod]
  {
    hide Generation, Holds;
  }

  /** A new run is started, paused, resumed and paused again: the second pause is
      about to remove the pod of the resumed attempt on the checkpoint taken in the
      first one, before that attempt did any of its work. */
  lemma SecondPauseReusesProof(cfg: Config, w0: World, ref: CheckpointRef) returns (acts: seq<Action>)
    requires Fresh(w0) && !w0.run.cancel && !w0.run.pause && !w0.run.resume && cfg.storage && cfg.executor
    requires ref.id != "" && ref.uri != "" && ref.sha256 != ""
    ensures Feasible(cfg, w0, acts)
    ensures var w := After(cfg, w0, acts);
            && w.run.status.phase == Pausing && w.ledger.episode.readyAtEntry && Gen(w) == 1
            && w.run.status.lastCheckpoint == Some(ref)
            && forall obs :: Plan(cfg, w, obs) == [DeletePod]
  {
    hide Full, Plan, Guard, Holds, Generation, Attended, PastPodsGo, VolumeAvailable, Next, Enabled;
    var good := Good(ref);
    Admitted(cfg, w0, good);
    var w1 := Full(cfg, w0, good);
    FreshIsUnproven(w0, w1);
    var up := BringUp(cfg, w1, ref);
    var w2 := After(cfg, w1, up);
    var once := PausedOnce(cfg, w2, ref);
    var again := PausedAgain(cfg, After(cfg, w2, once), ref);
    Joined(cfg, w2, once, again);
    Joined(cfg, w1, up, once + again);
    acts := Then(cfg, w0, good, up + (once + again));
  }

  lemma FreshIsUnproven(w0: World, w1: World)
    requires Fresh(w0) && w1 == w0.(run := w0.run.(status := WithPhase(w0.run.status, Pending)))
    ensures Gen(w1) == 0 && !ProofReady(w1.run.status) && !Holds(w1.run.status, WorkspaceRestorePending)
  {
  }
}
