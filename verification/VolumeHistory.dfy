/** What the phase can tell about volumes. ensurePVC takes Pending for "no volume
    yet" and any later phase for "there was one"; both are right only up to a
    condition that is exact here. */
module VolumeHistory {
  import opened Basics
  import opened AgentRuns
  import opened Hydration
  import opened Reconciliation
  import opened Runs
  import opened WorkspaceSafety
  import opened RetryBudget

  // ---- work lost while the phase is still Pending -------------------------------------

  /** The volume was made after a harness had worked on an earlier one, and nothing
      has been restored into it. */
  predicate Emptied(w: World) {
    w.pvc.Some? && w.ledger.volume.emptied
  }

  /** A harness is up on such a volume. */
  ghost predicate SilentLoss(w: World) {
    Emptied(w) && !NoneStarted(w)
  }

  /** A volume that was worked on goes away while the stored phase is Pending. */
  predicate LostInPending(w: World, e: Event) {
    e.PvcVanishes? && w.run.status.phase == Pending && w.ledger.volume.worked
  }

  ghost predicate NoPendingLoss(cfg: Config, w: World, es: seq<Event>)
    decreases |es|
  {
    es == [] || (Possible(cfg, w, es[0]) && !LostInPending(w, es[0]) && NoPendingLoss(cfg, Happens(cfg, w, es[0]), es[1..]))
  }

  /** Before admission there is nothing; once worked on, a missing volume is missed
      after Pending; an emptied volume is one made after Pending. */
  predicate WorkIsKnown(w: World) {
    && (w.run.status.phase == Unset ==> w.pods == map[] && w.pvc.None? && !w.ledger.volume.worked)
    && (w.ledger.volume.worked && w.pvc.None? ==> w.run.status.phase != Pending)
    && (Emptied(w) ==> w.pvc.value.recreated && w.pvc.value.restored.None? && w.ledger.volume.worked)
  }

  lemma VolumeStoryAfter(w: World, x: Write)
    ensures var v, v' := w.ledger.volume, LedgerAfter(w, x).volume;
            && v'.worked == v.worked && v'.made == (v.made || x.CreatePvc?)
            && v'.emptied == (if x.CreatePvc? then v.worked else v.emptied)
            && v'.strayed == (v.strayed || (!v.made && (x.AbandonPause? || x.RecordResume?)))
  {
    hide Holds, Generation, ProofReady;
  }

  lemma WorkKnownWrite(cfg: Config, w: World, x: Write)
    requires Guard(cfg, w, x) && WorkIsKnown(w)
    ensures WorkIsKnown(Apply(w, x))
  {
    hide Retryable, Budget, BuildRunSpec, StatusAfter, LedgerAfter, PodsAfter, Generation, Holds, Released, Recorded;
    FieldsAfter(w.run.status, x);
    VolumeStoryAfter(w, x);
    PodsMadeByWrite(cfg, w, x);
  }

  /** Writes that can put a pod where there was none need a volume. */
  lemma PodsMadeByWrite(cfg: Config, w: World, x: Write)
    requires Guard(cfg, w, x)
    ensures PodsAfter(w, x) != map[] && w.pods == map[] ==> Unrequested(w) && w.pvc.Some?
  {
    hide Holds, Retryable, Generation, BuildRunSpec, Budget;
  }

  lemma WorkKnownEvent(cfg: Config, w: World, e: Event)
    requires WorkIsKnown(w) && Possible(cfg, w, e) && !LostInPending(w, e)
    ensures WorkIsKnown(Happens(cfg, w, e))
  {
    hide Guard, Apply, Hydrated, Generation, Holds, BuildRunSpec;
    if e.Api? {
      WorkKnownWrite(cfg, w, e.x);
    }
  }

  lemma {:induction false} WorkKnownHistory(cfg: Config, w: World, es: seq<Event>)
    requires WorkIsKnown(w) && History(cfg, w, es) && NoPendingLoss(cfg, w, es)
    ensures WorkIsKnown(End(cfg, w, es))
    decreases |es|
  {
    hide WorkIsKnown, Possible, Happens, LostInPending;
    if es != [] {
      WorkKnownEvent(cfg, w, es[0]);
      WorkKnownHistory(cfg, Happens(cfg, w, es[0]), es[1..]);
    }
  }

  /** A volume made after a harness had worked on an earlier one is used by a harness
      only once a checkpoint was restored into it, if no volume that was worked on
      went away while the stored phase was Pending. */
  lemma WorkIsNeverSilentlyLost(cfg: Config, w0: World, acts: seq<Action>)
    requires Fresh(w0) && Feasible(cfg, w0, acts)
    requires NoPendingLoss(cfg, w0, Events(cfg, w0, acts))
    ensures var w := After(cfg, w0, acts);
            && !SilentLoss(w)
            && (Emptied(w) ==> Blank(w) && Holds(w.run.status, WorkspaceRestorePending) && BuildRunSpec(w.run.status).restoreRequired)
  {
    hide Guard, Apply, Plan, Possible, Happens, Holds;
    ExecutionIsHistory(cfg, w0, acts);
    FreshIsSound(cfg, w0);
    SoundHistory(cfg, w0, Events(cfg, w0, acts));
    WorkKnownHistory(cfg, w0, Events(cfg, w0, acts));
  }

  // ---- and such a loss is silent -------------------------------------------------------------

  predicate NoVanish(acts: seq<Action>) {
    forall i | 0 <= i < |acts| :: acts[i] != Env(PvcVanishes)
  }

  lemma {:induction false} NoVanishNoLoss(cfg: Config, w: World, acts: seq<Action>)
    requires Feasible(cfg, w, acts) && NoVanish(acts)
    ensures History(cfg, w, Events(cfg, w, acts))
    ensures forall i | 0 <= i < |Events(cfg, w, acts)| :: !Events(cfg, w, acts)[i].PvcVanishes?
    decreases |acts|
  {
    hide Next, Enabled, Possible, Happens, Plan;
    ExecutionIsHistory(cfg, w, acts);
    if acts != [] {
      var w' := Next(cfg, w, acts[0]);
      NoVanishNoLoss(cfg, w', acts[1..]);
      var head := match acts[0] case Reconcile(obs, n) => Calls(Written(cfg, w, obs, n)) case Env(e) => [e];
      assert Events(cfg, w, acts) == head + Events(cfg, w', acts[1..]);
    }
  }

  lemma {:induction false} NothingVanished(cfg: Config, w: World, es: seq<Event>)
    requires History(cfg, w, es) && forall i | 0 <= i < |es| :: !es[i].PvcVanishes?
    ensures NoPendingLoss(cfg, w, es)
    decreases |es|
  {
    hide Possible, Happens;
    if es != [] {
      NothingVanished(cfg, Happens(cfg, w, es[0]), es[1..]);
    }
  }

  /** An execution step by step. */
  lemma Prepend(cfg: Config, w: World, a: Action, rest: seq<Action>)
    requires Enabled(cfg, w, a) && Feasible(cfg, Next(cfg, w, a), rest)
    ensures Feasible(cfg, w, [a] + rest) && After(cfg, w, [a] + rest) == After(cfg, Next(cfg, w, a), rest)
  {
    hide Enabled, Next;
    assert ([a] + rest)[1..] == rest;
  }

  /** A reconcile nothing interrupts, as a step of an execution. */
  function Whole(cfg: Config, w: World, obs: Obs): Action {
    Reconcile(obs, |Plan(cfg, w, obs)|)
  }

  lemma WholeIsFull(cfg: Config, w: World, obs: Obs)
    ensures Enabled(cfg, w, Whole(cfg, w, obs)) && Next(cfg, w, Whole(cfg, w, obs)) == Full(cfg, w, obs)
  {
    hide Plan, Perform;
  }

  /** While Pending the run is at its first attempt and nothing was charged. */
  predicate PendingIsFirst(w: World) {
    var st := w.run.status;
    st.phase == Unset || st.phase == Pending ==>
      && Gen(w) == 0 && st.restartCount == 0
      && !Holds(st, WorkspaceRestorePending) && !Holds(st, Resuming)
  }

  lemma PendingFirstEvent(cfg: Config, w: World, e: Event)
    requires PendingIsFirst(w) && Possible(cfg, w, e)
    ensures PendingIsFirst(Happens(cfg, w, e))
  {
    hide Retryable, Budget, BuildRunSpec, StatusAfter, LedgerAfter, PodsAfter, Generation, Holds, AfterStart, Released, Unrequested;
    if e.Api? {
      ConditionsAfter(w.run.status, e.x);
      FieldsAfter(w.run.status, e.x);
    } else {
      OnlyTheOperatorWritesStatus(cfg, w, e);
    }
  }

  lemma {:induction false} PendingFirstHistory(cfg: Config, w: World, es: seq<Event>)
    requires PendingIsFirst(w) && History(cfg, w, es)
    ensures PendingIsFirst(End(cfg, w, es))
    decreases |es|
  {
    hide PendingIsFirst, Possible, Happens;
    if es != [] {
      PendingFirstEvent(cfg, w, es[0]);
      PendingFirstHistory(cfg, Happens(cfg, w, es[0]), es[1..]);
    }
  }

  /** An uninterrupted reconcile that has a pod to create. */
  lemma StartsAnew(cfg: Config, w: World, obs: Obs)
    requires Unrequested(w) && VolumeAvailable(cfg, w) && Gen(w) !in w.pods && !Recorded(w) && !obs.forbidden
    ensures var w' := Full(cfg, w, obs);
            && MayStart(w', Gen(w)) && w'.spec == Some(BuildRunSpec(w.run.status))
            && w'.run == w.run.(status := w.run.status.(podName := Some(Gen(w))))
            && w'.pods == w.pods[Gen(w) := Pod(PodPending, false, false)]
            && (w.pvc.Some? ==> w'.pvc == w.pvc && w'.ledger == w.ledger)
            && (w.pvc.None? ==>
                  && w'.pvc == Some(Pvc(w.run.status.phase != Pending, None, map[]))
                  && w'.ledger.volume == w.ledger.volume.(made := true, emptied := w.ledger.volume.worked))
  {
    hide Perform, Holds, RequestPlan, PrerequisitePlan, Generation, BuildRunSpec, Guarded;
    NotRequested(cfg, w, obs);
    PrerequisitesAreGuarded(cfg, w);
    var w1 := Perform(w, PrerequisitePlan(w));
    PerformThen(w, PrerequisitePlan(w), [CreatePod, RecordPod]);
    GuardedTwo(cfg, w1, CreatePod, RecordPod);
  }

  /** The recorded pod is gone, and so is the volume, but the phase is Pending. */
  lemma MissedInPending(cfg: Config, w: World, obs: Obs)
    requires Unrequested(w) && w.run.status.phase == Pending && w.pvc.None? && PastPodsGo(w) && PendingIsFirst(w)
    requires Recorded(w) && Gen(w) !in w.pods && cfg.maxRestarts >= 0
    ensures var w' := Full(cfg, w, obs);
            && Unrequested(w') && w'.pvc.Some? && Gen(w') !in w'.pods && !Recorded(w')
            && !Holds(w'.run.status, WorkspaceRestorePending)
            && w'.ledger.volume.emptied == w.ledger.volume.worked
  {
    hide Perform, Holds, RequestPlan, PrerequisitePlan, Generation, BuildRunSpec, Guarded, StatusAfter;
    NotRequested(cfg, w, obs);
    PrerequisitesAreGuarded(cfg, w);
    var w1 := Perform(w, PrerequisitePlan(w));
    PerformThen(w, PrerequisitePlan(w), [Restart]);
    GuardedOne(cfg, w1, Restart);
    FieldsAfter(w.run.status, Restart);
    ConditionsAfter(w.run.status, Restart);
  }

  /** A pod that is not told to restore starts on the emptied volume. */
  lemma StartIsSilent(cfg: Config, w: World, g: nat)
    requires MayStart(w, g) && Emptied(w) && !w.spec.value.restoreRequired
    ensures var e := PodStarts(g, Cloned(map[]), map[]);
            Possible(cfg, w, e) && SilentLoss(Happens(cfg, w, e))
  {
    hide Restored;
    var w' := Happens(cfg, w, PodStarts(g, Cloned(map[]), map[]));
    assert g in w'.pods && Started(w'.pods[g]);
  }

  /** From a loss while Pending, on to a harness on an emptied volume. */
  lemma PendingLossGoesSilent(cfg: Config, w: World, obs: Obs) returns (acts: seq<Action>)
    requires w.run.status.phase == Pending && w.pvc.None? && w.ledger.volume.worked
    requires PastPodsGo(w) && PendingIsFirst(w) && cfg.maxRestarts >= 0 && !obs.forbidden
    ensures Feasible(cfg, w, acts) && NoVanish(acts) && SilentLoss(After(cfg, w, acts))
  {
    hide Full, Plan, Guard, Holds, Generation, SilentLoss, Emptied, AfterStart, PastPodsGo, PendingIsFirst;
    var quiet := Env(Request(false, false, false));
    var w1 := Next(cfg, w, quiet);
    QuietChangesNothing(w, w1);
    if Gen(w) in w1.pods {
      var gone := Env(PodVanishes(Gen(w)));
      var w2 := Next(cfg, w1, gone);
      VanishedStaysSound(w1, w2);
      acts := FromEmptyPending(cfg, w2, obs);
      Prepend(cfg, w1, gone, acts);
      acts := [gone] + acts;
    } else {
      acts := FromEmptyPending(cfg, w1, obs);
    }
    Prepend(cfg, w, quiet, acts);
    acts := [quiet] + acts;
  }

  lemma QuietChangesNothing(w: World, w1: World)
    requires w1 == w.(run := w.run.(cancel := false, pause := false, resume := false))
    ensures PastPodsGo(w) ==> PastPodsGo(w1)
    ensures PendingIsFirst(w) ==> PendingIsFirst(w1)
  {
  }

  lemma VanishedStaysSound(w: World, w1: World)
    requires w1 == w.(pods := w.pods - {Gen(w)})
    ensures PastPodsGo(w) ==> PastPodsGo(w1)
    ensures PendingIsFirst(w) ==> PendingIsFirst(w1)
    ensures Gen(w1) == Gen(w) && Gen(w1) !in w1.pods
  {
  }

  lemma FromEmptyPending(cfg: Config, w: World, obs: Obs) returns (acts: seq<Action>)
    requires w.run.status.phase == Pending && w.pvc.None? && w.ledger.volume.worked && Gen(w) !in w.pods
    requires !w.run.cancel && !w.run.pause && PastPodsGo(w) && PendingIsFirst(w) && cfg.maxRestarts >= 0 && !obs.forbidden
    ensures Feasible(cfg, w, acts) && NoVanish(acts) && SilentLoss(After(cfg, w, acts))
  {
    hide Full, Plan, Guard, Holds, Generation, SilentLoss, AfterStart, Next;
    if Recorded(w) {
      MissedInPending(cfg, w, obs);
      var w1 := Full(cfg, w, obs);
      acts := StartOnEmptied(cfg, w1, obs);
      WholeIsFull(cfg, w, obs);
      Prepend(cfg, w, Whole(cfg, w, obs), acts);
      acts := [Whole(cfg, w, obs)] + acts;
    } else {
      acts := StartOnEmptied(cfg, w, obs);
    }
  }

  lemma StartOnEmptied(cfg: Config, w: World, obs: Obs) returns (acts: seq<Action>)
    requires Unrequested(w) && VolumeAvailable(cfg, w) && Gen(w) !in w.pods && !Recorded(w) && !obs.forbidden
    requires !Holds(w.run.status, WorkspaceRestorePending)
    requires if w.pvc.None? then w.ledger.volume.worked else w.ledger.volume.emptied
    ensures Feasible(cfg, w, acts) && NoVanish(acts) && SilentLoss(After(cfg, w, acts))
  {
    hide Full, Plan, Guard, Holds, Generation, SilentLoss, AfterStart, Recorded, Unrequested;
    StartsAnew(cfg, w, obs);
    var w1 := Full(cfg, w, obs);
    var start := Env(PodStarts(Gen(w), Cloned(map[]), map[]));
    StartIsSilent(cfg, w1, Gen(w));
    var none: seq<Action> := [];
    Prepend(cfg, w1, start, none);
    assert [start] + none == [start];
    WholeIsFull(cfg, w, obs);
    hide Next;
    Prepend(cfg, w, Whole(cfg, w, obs), [start]);
    acts := [Whole(cfg, w, obs)] + [start];
  }

  /** The exact condition. A volume on which a harness has worked goes away: unless
      another does so while Pending, a harness can come up on an emptied volume
      after this loss if and only if the stored phase is Pending. */
  lemma SilentExactlyWhenPending(cfg: Config, w0: World, acts: seq<Action>)
    requires Fresh(w0) && Feasible(cfg, w0, acts) && cfg.maxRestarts >= 0
    requires NoPendingLoss(cfg, w0, Events(cfg, w0, acts))
    requires Possible(cfg, After(cfg, w0, acts), PvcVanishes) && After(cfg, w0, acts).ledger.volume.worked
    ensures var w := After(cfg, w0, acts);
            var v := Happens(cfg, w, PvcVanishes);
            w.run.status.phase == Pending <==> CanGoSilent(cfg, v)
  {
    hide Plan, Guard, Apply, Generation, Holds, PastPodsGo, SpecIsCurrent, BlankIsMarked, RecoveryIsLater, PendingIsFirst, NoPendingLoss,
         Feasible, History, WorkIsKnown, SilentLoss, NoneStarted;
    var w := After(cfg, w0, acts);
    var v := Happens(cfg, w, PvcVanishes);
    var es := Events(cfg, w0, acts);
    ExecutionIsHistory(cfg, w0, acts);
    FreshStart(cfg, w0);
    SoundHistory(cfg, w0, es);
    PendingFirstHistory(cfg, w0, es);
    WorkKnownHistory(cfg, w0, es);
    SoundEvent(cfg, w, PvcVanishes);
    PendingFirstEvent(cfg, w, PvcVanishes);
    if w.run.status.phase == Pending {
      var obs := Obs(true, true, ExecFailed, map[], None, false);
      var more := PendingLossGoesSilent(cfg, v, obs);
      NoVanishNoLoss(cfg, v, more);
      NothingVanished(cfg, v, Events(cfg, v, more));
      assert GoesSilent(cfg, v, more);
    } else {
      WorkKnownEvent(cfg, w, PvcVanishes);
      forall more | Feasible(cfg, v, more) ensures !GoesSilent(cfg, v, more) {
        NeverSilent(cfg, v, more);
      }
    }
  }

  lemma FreshStart(cfg: Config, w: World)
    requires Fresh(w)
    ensures Sound(cfg, w) && PendingIsFirst(w) && WorkIsKnown(w) && NoneMade(w)
  {
  }

  /** This execution, without a loss while Pending, ends with a harness on an
      emptied volume. */
  ghost predicate GoesSilent(cfg: Config, w: World, acts: seq<Action>) {
    && Feasible(cfg, w, acts) && History(cfg, w, Events(cfg, w, acts))
    && NoPendingLoss(cfg, w, Events(cfg, w, acts)) && SilentLoss(After(cfg, w, acts))
  }

  ghost predicate CanGoSilent(cfg: Config, w: World) {
    exists acts :: GoesSilent(cfg, w, acts)
  }

  lemma NeverSilent(cfg: Config, w: World, acts: seq<Action>)
    requires Sound(cfg, w) && WorkIsKnown(w) && Feasible(cfg, w, acts)
    ensures !GoesSilent(cfg, w, acts)
  {
    hide Plan, Guard, Apply, Generation, Holds, PastPodsGo, SpecIsCurrent, RecoveryIsLater, NoPendingLoss, Feasible, History;
    ExecutionIsHistory(cfg, w, acts);
    SoundHistory(cfg, w, Events(cfg, w, acts));
    if NoPendingLoss(cfg, w, Events(cfg, w, acts)) {
      WorkKnownHistory(cfg, w, Events(cfg, w, acts));
    }
  }

  /** The failing run: a new run is admitted, its pod is made and works, and the pod
      fails and the volume goes before any reconcile has seen the pod; the phase is
      still Pending, and the loss goes silent. */
  lemma SilentLossHappens(cfg: Config, w0: World, obs: Obs) returns (acts: seq<Action>)
    requires Fresh(w0) && !w0.run.cancel && !w0.run.pause && cfg.maxRestarts >= 0 && !obs.forbidden
    ensures Feasible(cfg, w0, acts) && SilentLoss(After(cfg, w0, acts))
  {
    hide Full, Plan, Guard, Holds, Generation, SilentLoss, AfterStart, Next, PastPodsGo, PendingIsFirst, BuildRunSpec;
    Admitted(cfg, w0, obs);
    var w1 := Full(cfg, w0, obs);
    FreshGeneration(w0, w1);
    StartsAnew(cfg, w1, obs);
    var w2 := Full(cfg, w1, obs);
    assert w2.pods == map[0 := Pod(PodPending, false, false)];
    acts := WorkedAndLost(cfg, w2, obs);
    WholeIsFull(cfg, w1, obs);
    Prepend(cfg, w1, Whole(cfg, w1, obs), acts);
    acts := [Whole(cfg, w1, obs)] + acts;
    WholeIsFull(cfg, w0, obs);
    Prepend(cfg, w0, Whole(cfg, w0, obs), acts);
    acts := [Whole(cfg, w0, obs)] + acts;
  }

  lemma FreshGeneration(w0: World, w1: World)
    requires Fresh(w0) && w1 == w0.(run := w0.run.(status := WithPhase(w0.run.status, Pending)))
    ensures Gen(w1) == 0 && w1.pods == map[] && w1.pvc.None? && w1.run.status.restartCount == 0
    ensures !BuildRunSpec(w1.run.status).resume
    ensures forall w2: World | w2.run == w1.run.(status := w1.run.status.(podName := Some(0))) :: PendingIsFirst(w2) && Gen(w2) == 0
  {
  }

  lemma WorkedAndLost(cfg: Config, w: World, obs: Obs) returns (acts: seq<Action>)
    requires MayStart(w, 0) && w.pods == map[0 := Pod(PodPending, false, false)] && w.run.status.phase == Pending
    requires Gen(w) == 0 && PendingIsFirst(w) && !w.spec.value.resume && cfg.maxRestarts >= 0 && !obs.forbidden
    ensures Feasible(cfg, w, acts) && SilentLoss(After(cfg, w, acts))
  {
    hide Full, Plan, Guard, Holds, Generation, SilentLoss;
    var e1, e2, e3 := PodStarts(0, Cloned(map[]), map[]), PodEnds(0, PodFailed([])), PvcVanishes;
    var w1 := Happens(cfg, w, e1);
    assert Possible(cfg, w1, e2);
    var w2 := Happens(cfg, w1, e2);
    assert w2.pods.Keys == {0} && Possible(cfg, w2, e3);
    var w3 := Happens(cfg, w2, e3);
    assert w3.ledger.volume.worked && w3.pvc.None? && w3.run == w.run;
    SameStatusFirst(w, w3);
    acts := PendingLossGoesSilent(cfg, w3, obs);
    Prepend(cfg, w2, Env(e3), acts);
    acts := [Env(e3)] + acts;
    Prepend(cfg, w1, Env(e2), acts);
    acts := [Env(e2)] + acts;
    Prepend(cfg, w, Env(e1), acts);
    acts := [Env(e1)] + acts;
  }

  lemma SameStatusFirst(w: World, w': World)
    requires w'.run == w.run && PendingIsFirst(w) && w'.pods.Keys <= {0} && Gen(w) == 0
    ensures PendingIsFirst(w') && PastPodsGo(w')
  {
  }

  // ---- a volume missed that never was -------------------------------------------------------------

  /** Until a volume was made there is nothing, and only an aborted pause or a resume
      gets the run past Pending. */
  predicate NoneMade(w: World) {
    var st := w.run.status;
    !w.ledger.volume.made ==>
      && w.pvc.None? && w.pods == map[] && !Holds(st, PauseCheckpointReady) && st.phase != Paused && st.phase != Succeeded
      && (!w.ledger.volume.strayed ==>
            st.phase in {Unset, Pending, Pausing, Failed, Canceled} && !Holds(st, WorkspaceRestorePending))
      && (w.ledger.volume.strayed ==> !(st.phase in {Unset, Pending}))
  }

  lemma NoneMadeEvent(cfg: Config, w: World, e: Event)
    requires NoneMade(w) && Possible(cfg, w, e)
    ensures NoneMade(Happens(cfg, w, e))
  {
    hide Guard, Apply, Hydrated, Generation, Holds, BuildRunSpec;
    if e.Api? {
      NoneMadeWrite(cfg, w, e.x);
    }
  }

  lemma NoneMadeWrite(cfg: Config, w: World, x: Write)
    requires NoneMade(w) && Guard(cfg, w, x)
    ensures NoneMade(Apply(w, x))
  {
    hide Retryable, Budget, BuildRunSpec, StatusAfter, LedgerAfter, PodsAfter, Generation, Holds, Released, Recorded;
    ConditionsAfter(w.run.status, x);
    FieldsAfter(w.run.status, x);
    VolumeStoryAfter(w, x);
    PodsMadeByWrite(cfg, w, x);
  }

  lemma {:induction false} NoneMadeHistory(cfg: Config, w: World, es: seq<Event>)
    requires NoneMade(w) && History(cfg, w, es)
    ensures NoneMade(End(cfg, w, es))
    decreases |es|
  {
    hide NoneMade, Possible, Happens;
    if es != [] {
      NoneMadeEvent(cfg, w, es[0]);
      NoneMadeHistory(cfg, Happens(cfg, w, es[0]), es[1..]);
    }
  }

  /** The exact condition. Over every execution, as long as no volume was ever made:
      a reconcile takes the missing volume for a lost one if and only if the run was
      set going by an aborted pause or by a resume; a restore is pending only then. */
  lemma NeverMadeTakenForLost(cfg: Config, w0: World, acts: seq<Action>)
    requires Fresh(w0) && Feasible(cfg, w0, acts)
    ensures var w := After(cfg, w0, acts);
            !w.ledger.volume.made ==>
              && (Unrequested(w) && !Holds(w.run.status, WorkspaceRestorePending) ==> (VolumeLost(cfg, w) <==> w.ledger.volume.strayed))
              && (Holds(w.run.status, WorkspaceRestorePending) ==> w.ledger.volume.strayed)
  {
    hide Plan, Possible, Happens, Generation, Holds;
    ExecutionIsHistory(cfg, w0, acts);
    FreshStart(cfg, w0);
    NoneMadeHistory(cfg, w0, Events(cfg, w0, acts));
  }

  /** A pause asked for before the first volume was made, without storage: aborted
      into Running, and failed for a lost workspace by the next reconcile. */
  lemma PauseBeforeProvisioningFails(cfg: Config, w: World, obs: Obs)
    requires !cfg.storage && w.pvc.None? && w.run.status.phase in {Unset, Pending}
    requires w.run.pause && !w.run.cancel
    ensures var w1 := Full(cfg, w, obs);
            && w1.run.status.phase == Running && w1.pvc.None? && !w1.run.pause
            && Full(cfg, w1, obs).run.status.phase == Failed
  {
    hide Perform, Generation, Holds, StatusAfter, LedgerAfter;
    GuardedTwo(cfg, w, ClearPause, AbandonPause);
    FieldsAfter(w.run.status, AbandonPause);
    var w1 := Full(cfg, w, obs);
    NotRequested(cfg, w1, obs);
    GuardedOne(cfg, w1, Enter(Failed));
    GuardedTwo(cfg, w1, DeletePod, Enter(Failed));
    assert [DeletePod] + [Enter(Failed)] == [DeletePod, Enter(Failed)];
    FieldsAfter(w1.run.status, DeletePod);
    FieldsAfter(w1.run.status, Enter(Failed));
  }

  /** With storage and no executor the abort takes one reconcile more, and the
      volume that never was is charged as a loss and marked for restore. */
  lemma PauseWithoutExecutorIsCharged(cfg: Config, w: World, obs: Obs)
    requires cfg.storage && !cfg.executor && w.pvc.None? && w.pods == map[] && w.run.status.phase in {Unset, Pending}
    requires w.run.pause && !w.run.cancel && PendingIsFirst(w) && !Holds(w.run.status, PauseCheckpointReady)
    ensures var w1 := Full(cfg, w, obs);
            var w2 := Full(cfg, w1, obs);
            var w3 := Full(cfg, w2, obs);
            && w1.run.status.phase == Pausing && w2.run.status.phase == Running && w2.pvc.None?
            && w3.run.status.restartCount == w.run.status.restartCount + 1 && Holds(w3.run.status, WorkspaceRestorePending)
  {
    hide Perform, Generation, Holds, StatusAfter, LedgerAfter;
    var st := w.run.status;
    GuardedOne(cfg, w, BeginPause);
    FieldsAfter(st, BeginPause);
    ConditionsAfter(st, BeginPause);
    var w1 := Full(cfg, w, obs);
    GuardedTwo(cfg, w1, ClearPause, AbandonPause);
    FieldsAfter(w1.run.status, AbandonPause);
    ConditionsAfter(w1.run.status, AbandonPause);
    NotRequested(cfg, Full(cfg, w1, obs), obs);
    RecordedLoss(cfg, Full(cfg, w1, obs), obs);
  }

  lemma RecordedLoss(cfg: Config, w: World, obs: Obs)
    requires VolumeLost(cfg, w) && cfg.storage && w.pods == map[]
    ensures var w' := Full(cfg, w, obs);
            && w'.run.status.phase == Interrupted && Holds(w'.run.status, WorkspaceRestorePending) && w'.pvc.None?
            && w'.run.status.restartCount == w.run.status.restartCount + (if Holds(w.run.status, Resuming) then 0 else 1)
  {
    hide Perform, Generation, Holds, StatusAfter, LedgerAfter;
    NotRequested(cfg, w, obs);
    GuardedOne(cfg, w, RecordLoss);
    FieldsAfter(w.run.status, RecordLoss);
    ConditionsAfter(w.run.status, RecordLoss);
  }

  /** With both, the pause fails the run for its missing pod; a resume of that run
      marks the volume that never was for restore. */
  lemma ResumeBeforeProvisioningIsMarked(cfg: Config, w: World, obs: Obs)
    requires cfg.storage && cfg.executor && w.pvc.None? && w.pods == map[] && w.run.status.phase in {Unset, Pending}
    requires w.run.pause && !w.run.cancel && PendingIsFirst(w) && !Holds(w.run.status, PauseCheckpointReady)
    ensures var w1 := Full(cfg, w, obs);
            var w2 := Full(cfg, w1, obs);
            var w3 := Full(cfg, w2.(run := w2.run.(pause := false, resume := true)), obs);
            var w4 := Full(cfg, w3, obs);
            && w1.run.status.phase == Pausing && w2.run.status.phase == Failed && w3.run.status.phase == Interrupted
            && w4.pvc.None? && Holds(w4.run.status, WorkspaceRestorePending)
  {
    hide Full, Generation, Holds, PendingIsFirst;
    PauseFailsUnprovisioned(cfg, w, obs);
    var w2 := Full(cfg, Full(cfg, w, obs), obs);
    var v := w2.(run := w2.run.(pause := false, resume := true));
    ResumedUnprovisioned(cfg, v, obs);
    RecordedLoss(cfg, Full(cfg, v, obs), obs);
  }

  lemma PauseFailsUnprovisioned(cfg: Config, w: World, obs: Obs)
    requires cfg.storage && cfg.executor && w.pvc.None? && w.pods == map[] && w.run.status.phase in {Unset, Pending}
    requires w.run.pause && !w.run.cancel && PendingIsFirst(w) && !Holds(w.run.status, PauseCheckpointReady)
    ensures var w1 := Full(cfg, w, obs);
            var w2 := Full(cfg, w1, obs);
            && w1.run.status.phase == Pausing && w2.run.status.phase == Failed && w2.pvc.None? && w2.pods == map[]
            && !w2.run.cancel && !Holds(w2.run.status, WorkspaceRestorePending)
  {
    hide Perform, Generation, Holds, StatusAfter, LedgerAfter;
    var st := w.run.status;
    GuardedOne(cfg, w, BeginPause);
    FieldsAfter(st, BeginPause);
    ConditionsAfter(st, BeginPause);
    var w1 := Full(cfg, w, obs);
    GuardedOne(cfg, w1, Enter(Failed));
    FieldsAfter(w1.run.status, Enter(Failed));
    ConditionsAfter(w1.run.status, Enter(Failed));
  }

  lemma ResumedUnprovisioned(cfg: Config, v: World, obs: Obs)
    requires cfg.storage && v.run.status.phase == Failed && v.pvc.None? && v.pods == map[]
    requires v.run.resume && !v.run.cancel && !v.run.pause && !Holds(v.run.status, WorkspaceRestorePending)
    ensures var w3 := Full(cfg, v, obs);
            VolumeLost(cfg, w3) && w3.pods == map[] && w3.run.status.phase == Interrupted
  {
    hide Perform, Generation, Holds, StatusAfter, LedgerAfter;
    GuardedTwo(cfg, v, ClearResume, RecordResume);
    FieldsAfter(v.run.status, RecordResume);
    ConditionsAfter(v.run.status, RecordResume);
  }
}
