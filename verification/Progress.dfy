/** What comes of a run that is left to its reconciles. */
module Progress {
  import opened Basics
  import opened AgentRuns
  import opened Reconciliation
  import opened Runs
  import opened WorkspaceSafety
  import opened Outcomes

  /** One reconcile that nothing interrupts: it has at most five writes. */
  ghost function Reconciled(cfg: Config, w: World, obs: Obs): World {
    Next(cfg, w, Reconcile(obs, 5))
  }

  lemma Ends(cfg: Config, w: World, obs: Obs)
    ensures Outcome(cfg, w, obs, Reconciled(cfg, w, obs))
  {
    hide Outcome, Next;
    UninterruptedReconcile(cfg, w, obs, 5);
  }

  /** From any reachable state of a run that is not over, a cancel ends it Canceled
      with every pod gone or going. */
  lemma CancelEndsTheRun(cfg: Config, w0: World, acts: seq<Action>, obs: Obs)
    requires Fresh(w0) && Feasible(cfg, w0, acts)
    ensures var w := After(cfg, w0, acts);
            w.run.cancel && w.run.status.phase !in {Succeeded, Failed, Canceled} ==>
              var w' := Reconciled(cfg, w, obs);
              w'.run.status.phase == Canceled && forall g | g in w'.pods :: w'.pods[g].deleting
  {
    hide Next, Plan, Guard, Apply, Possible, Happens, PauseOutcome, SpecIsCurrent, BlankIsMarked, RecoveryIsLater;
    var w := After(cfg, w0, acts);
    ExecutionIsHistory(cfg, w0, acts);
    FreshIsSound(cfg, w0);
    SoundHistory(cfg, w0, Events(cfg, w0, acts));
    Ends(cfg, w, obs);
    AttemptIsGeneration(w.run.status);
  }

  /** The pod of the current attempt is there and not being deleted, nothing is asked
      for and the volume is there. */
  predicate Tended(w: World, phase: PodPhase) {
    var g := Attempt(w.run.status);
    !Asked(w) && w.pvc.Some? && g in w.pods && !w.pods[g].deleting && w.pods[g].phase == phase
  }

  /** Once the pod of the current attempt succeeded, two reconciles make the run
      Succeeded, one if the pod is on record. */
  lemma FinishedRunSucceeds(cfg: Config, w: World, obs: Obs, obs': Obs)
    requires Tended(w, PodSucceeded)
    ensures var w1 := Reconciled(cfg, w, obs);
            var w2 := Reconciled(cfg, w1, obs');
            w2.run.status.phase == Succeeded && Attempt(w2.run.status) == Attempt(w.run.status)
            && w2.pods == w.pods && w2.pvc == w.pvc
            && (w.run.status.podName == Some(Attempt(w.run.status)) ==> w1.run.status.phase == Succeeded)
  {
    hide Reconciled, PauseOutcome, GoneOutcome, RunningOutcome, MayHelpToRetry;
    Ends(cfg, w, obs);
    Ends(cfg, Reconciled(cfg, w, obs), obs');
  }

  /** A new run: two reconciles give it a volume, a pod of attempt 0 on record, and a
      RunSpec that asks for a fresh start. */
  lemma NewRunStarts(cfg: Config, w: World, obs: Obs, obs': Obs)
    requires Fresh(w) && !w.run.cancel && !w.run.pause && !obs'.forbidden
    ensures var w' := Reconciled(cfg, Reconciled(cfg, w, obs), obs');
            && w'.pods == map[0 := Pod(PodPending, false, false)] && w'.run.status.podName == Some(0)
            && w'.pvc == Some(Pvc(false, None, map[])) && w'.spec == Some(RunSpec(false, false, ""))
            && w'.run.status.phase == Pending
  {
    hide Reconciled, PauseOutcome, GoneOutcome, RunningOutcome, MayHelpToRetry;
    Ends(cfg, w, obs);
    Ends(cfg, Reconciled(cfg, w, obs), obs');
  }

  /** A paused or failed run that is resumed: two reconciles give the next attempt its
      pod, whose hydrate resumes on the volume that is there. */
  lemma ResumedRunStartsAgain(cfg: Config, w: World, obs: Obs, obs': Obs)
    requires w.run.resume && !w.run.cancel && !w.run.pause && w.run.status.phase in {Paused, Failed} && PastPodsGo(w)
    requires w.pvc.Some? && !RestoreIsPending(w.run.status) && !obs'.forbidden
    requires w.run.status.podName == None || w.run.status.podName.value <= Attempt(w.run.status)
    ensures var w' := Reconciled(cfg, Reconciled(cfg, w, obs), obs');
            var g := Attempt(w.run.status) + 1;
            && Attempt(w'.run.status) == g && !w'.run.resume && w'.run.status.phase == Interrupted
            && g in w'.pods && w'.pods[g] == Pod(PodPending, false, false) && w'.run.status.podName == Some(g)
            && (forall g' | g' in w'.pods && g' != g :: w'.pods[g'].deleting)
            && w'.pvc == w.pvc && w'.spec == Some(RunSpec(true, false, ""))
  {
    hide Reconciled, PauseOutcome, GoneOutcome, RunningOutcome, MayHelpToRetry;
    AttemptIsGeneration(w.run.status);
    Ends(cfg, w, obs);
    Ends(cfg, Reconciled(cfg, w, obs), obs');
  }
}
