/** The retry budget: how many restarts a run can be charged, and that a run
    whose pods keep failing or vanishing ends. */
module RetryBudget {
  import opened Basics
  import opened AgentRuns
  import opened Reconciliation
  import opened Runs
  import opened WorkspaceSafety
  import opened Generations

  /** The budget as far as it admits restarts at all. */
  function Allowance(cfg: Config): nat {
    if Budget(cfg) > 0 then Budget(cfg) else 0
  }

  /** Restarts within the current budget do not exceed it but for lost workspaces;
      restarts in all do not exceed one budget per manual resume and one more. */
  predicate WithinBudget(cfg: Config, w: World) {
    var rc, l := w.run.status.restartCount, w.ledger;
    && rc <= Allowance(cfg) + l.losses
    && l.restarts <= l.resumes * Allowance(cfg) + Min(rc, Allowance(cfg))
  }

  lemma LedgerFacts(w: World, x: Write)
    ensures var l, l' := w.ledger, LedgerAfter(w, x);
            && l'.restarts == l.restarts + (if x.Restart? then 1 else 0)
            && l'.losses == l.losses + (if x.RecordLoss? && !Holds(w.run.status, Resuming) then 1 else 0)
            && l'.resumes == l.resumes + (if x.RecordResume? then 1 else 0)
  {
    hide Holds, Generation, ProofReady;
  }

  lemma OneMore(n: nat, b: nat)
    ensures (n + 1) * b == n * b + b
  {
  }

  lemma BudgetWrite(cfg: Config, w: World, x: Write)
    requires Guard(cfg, w, x) && WithinBudget(cfg, w)
    ensures WithinBudget(cfg, Apply(w, x))
  {
    hide Retryable, BuildRunSpec, StatusAfter, PodsAfter, LedgerAfter, Generation, Holds, EnterGuard, Unrequested, Released, Recorded, VolumeLost;
    FieldsAfter(w.run.status, x);
    LedgerFacts(w, x);
    OneMore(w.ledger.resumes, Allowance(cfg));
    assert Apply(w, x).ledger == LedgerAfter(w, x);
  }

  lemma {:induction false} BudgetHistory(cfg: Config, w: World, es: seq<Event>)
    requires WithinBudget(cfg, w) && History(cfg, w, es)
    ensures WithinBudget(cfg, End(cfg, w, es))
    decreases |es|
  {
    hide Guard, Apply, AfterStart;
    if es != [] {
      if es[0].Api? {
        BudgetWrite(cfg, w, es[0].x);
      } else {
        OnlyTheOperatorWritesStatus(cfg, w, es[0]);
      }
      BudgetHistory(cfg, Happens(cfg, w, es[0]), es[1..]);
    }
  }

  lemma NothingSpent(cfg: Config, w: World)
    requires Fresh(w)
    ensures WithinBudget(cfg, w)
  {
    hide Generation;
  }

  /** Over every execution RestartCount stays within the budget plus the workspace
      losses ensurePVC charged without asking it, and the attempts of the whole
      run are bounded by its manual resumes and its losses. */
  lemma RestartsAreBounded(cfg: Config, w0: World, acts: seq<Action>)
    requires Fresh(w0) && Feasible(cfg, w0, acts)
    ensures var w := After(cfg, w0, acts);
            && w.run.status.restartCount <= Allowance(cfg) + w.ledger.losses
            && Gen(w) <= (w.ledger.resumes + 1) * Allowance(cfg) + w.ledger.losses + w.ledger.resumes
  {
    hide Possible, Happens, Plan, Generation, Feasible, History, Events, Runs.End, WithinBudget, Allowance, Fresh, After;
    ExecutionIsHistory(cfg, w0, acts);
    NothingSpent(cfg, w0);
    BudgetHistory(cfg, w0, Events(cfg, w0, acts));
    GenerationsAreAccounted(cfg, w0, acts);
    BoundsOf(cfg, After(cfg, w0, acts));
  }

  lemma BoundsOf(cfg: Config, w: World)
    requires WithinBudget(cfg, w) && Gen(w) == w.ledger.restarts + w.ledger.losses + w.ledger.resumes
    ensures w.run.status.restartCount <= Allowance(cfg) + w.ledger.losses
    ensures Gen(w) <= (w.ledger.resumes + 1) * Allowance(cfg) + w.ledger.losses + w.ledger.resumes
  {
    hide Generation, Allowance;
    OneMore(w.ledger.resumes, Allowance(cfg));
  }

  /** A lost workspace is charged whatever is left of the budget. */
  lemma LossIsChargedRegardless(cfg: Config, w: World, obs: Obs)
    requires VolumeLost(cfg, w) && cfg.storage && !Holds(w.run.status, Resuming)
    ensures Perform(w, Plan(cfg, w, obs)).run.status.restartCount == w.run.status.restartCount + 1
    ensures Perform(w, Plan(cfg, w, obs)).run.status.phase == Interrupted
  {
    hide Perform, Holds, Generation, RequestPlan, Unrequested, StatusAfter, PodsAfter, LedgerAfter;
    NotRequested(cfg, w, obs);
    assert [DeletePod] + [RecordLoss] == [DeletePod, RecordLoss];
    GuardedOne(cfg, w, RecordLoss);
    GuardedTwo(cfg, w, DeletePod, RecordLoss);
    FieldsAfter(w.run.status, RecordLoss);
    FieldsAfter(w.run.status, DeletePod);
  }

  // ---- a run whose pods keep failing ends ----------------------------------------------------

  predicate Up(p: Pod) {
    !p.deleting && (p.phase == PodPending || p.phase == PodRunning || p.phase == PodUnknown)
  }

  /** The next attempt's pod is still to be created, on a volume that is there or
      may be made. */
  predicate Waiting(cfg: Config, w: World) {
    Unrequested(w) && VolumeAvailable(cfg, w) && Gen(w) !in w.pods && !Recorded(w) && PastPodsGo(w)
  }

  /** The current attempt's pod is on record and up. */
  predicate Attempting(w: World) {
    Unrequested(w) && w.pvc.Some? && Gen(w) in w.pods && Recorded(w) && PastPodsGo(w) && Up(w.pods[Gen(w)])
  }

  /** A reconcile nothing interrupts. */
  function Full(cfg: Config, w: World, obs: Obs): World {
    Perform(w, Plan(cfg, w, obs))
  }

  /** What may go on during an attempt that is not yet lost: reconciles cut short
      anywhere, and the pod and the harness at work. */
  predicate Quiet(a: Action) {
    a.Env? ==> a.event.PodStarts? || a.event.HarnessWrites? || a.event.BucketMoves? || a.event.PodEnds?
  }

  ghost predicate QuietRun(cfg: Config, w: World, acts: seq<Action>)
    decreases |acts|
  {
    acts == [] ||
    (&& Quiet(acts[0]) && Enabled(cfg, w, acts[0])
     && Gen(w) in Next(cfg, w, acts[0]).pods && Up(Next(cfg, w, acts[0]).pods[Gen(w)])
     && QuietRun(cfg, Next(cfg, w, acts[0]), acts[1..]))
  }

  lemma {:induction false} QuietIsFeasible(cfg: Config, w: World, acts: seq<Action>)
    requires Attempting(w) && QuietRun(cfg, w, acts)
    ensures Feasible(cfg, w, acts)
    ensures var w' := After(cfg, w, acts);
            Attempting(w') && Gen(w') == Gen(w) && w'.run.status.restartCount == w.run.status.restartCount
    decreases |acts|
  {
    hide Next, Enabled, Attempting, Quiet, Up;
    if acts != [] {
      QuietStep(cfg, w, acts[0]);
      QuietIsFeasible(cfg, Next(cfg, w, acts[0]), acts[1..]);
    }
  }

  /** The writes a reconcile makes about a pod that is up. */
  predicate Tending(x: Write) {
    x.PutSpec? || x == Enter(Provisioning) || x.ClearRecovery? || x.Observe? || x.MarkRunning?
  }

  lemma TendingPlan(cfg: Config, w: World, obs: Obs)
    requires Attempting(w)
    ensures forall x | x in Plan(cfg, w, obs) :: Tending(x)
  {
    hide Holds, Generation, RequestPlan, BuildRunSpec, Scraped, PastPodsGo;
    NotRequested(cfg, w, obs);
  }

  lemma TendingWrite(w: World, x: Write)
    requires Attempting(w) && Tending(x)
    ensures var w' := Apply(w, x);
            Attempting(w') && Gen(w') == Gen(w) && w'.run.status.restartCount == w.run.status.restartCount && w'.pods == w.pods
  {
    hide Holds, Generation, StatusAfter, LedgerAfter, BuildRunSpec;
    FieldsAfter(w.run.status, x);
  }

  lemma {:induction false} TendingWrites(w: World, xs: seq<Write>)
    requires Attempting(w) && forall x | x in xs :: Tending(x)
    ensures var w' := Perform(w, xs);
            Attempting(w') && Gen(w') == Gen(w) && w'.run.status.restartCount == w.run.status.restartCount
    decreases |xs|
  {
    hide Attempting, Tending, Apply, Generation;
    if xs != [] {
      TendingWrite(w, xs[0]);
      TendingWrites(Apply(w, xs[0]), xs[1..]);
    }
  }

  lemma QuietStep(cfg: Config, w: World, a: Action)
    requires Attempting(w) && Quiet(a) && Enabled(cfg, w, a)
    requires Gen(w) in Next(cfg, w, a).pods && Up(Next(cfg, w, a).pods[Gen(w)])
    ensures var w' := Next(cfg, w, a);
            Attempting(w') && Gen(w') == Gen(w) && w'.run.status.restartCount == w.run.status.restartCount
  {
    hide Plan, Perform, Apply, Generation, Guard, Tending;
    if a.Reconcile? {
      TendingPlan(cfg, w, a.obs);
      TendingWrites(w, Written(cfg, w, a.obs, a.writes));
    }
  }

  /** One attempt from the creation of its pod to the notice of its loss: what goes
      on meanwhile, whether the pod vanishes or fails in a way that may be retried,
      and whether the operator dies between deleting a failed pod and charging. */
  datatype Attempt = Attempt(start: Obs, meanwhile: seq<Action>, failure: Option<seq<Termination>>, cut: bool, notice: Obs)

  ghost predicate Plays(cfg: Config, w: World, a: Attempt) {
    && !a.start.forbidden && Attempting(Full(cfg, w, a.start)) && QuietRun(cfg, Full(cfg, w, a.start), a.meanwhile)
    && (a.failure.Some? ==> Retryable(a.failure.value))
  }

  ghost function Lost(cfg: Config, w: World, a: Attempt): World
    requires Plays(cfg, w, a)
  {
    QuietIsFeasible(cfg, Full(cfg, w, a.start), a.meanwhile);
    var up := After(cfg, Full(cfg, w, a.start), a.meanwhile);
    if a.failure.Some? then up.(pods := WithPodPhase(up, Gen(up), PodFailed(a.failure.value)))
    else up.(pods := up.pods - {Gen(up)})
  }

  /** The operator dies right before the last write of its reconcile, and the pod it
      deleted goes away. */
  function CutShort(cfg: Config, w: World, obs: Obs): World {
    var plan := Plan(cfg, w, obs);
    var cut := Perform(w, if plan == [] then plan else plan[..|plan| - 1]);
    cut.(pods := cut.pods - {Gen(cut)})
  }

  ghost function Played(cfg: Config, w: World, a: Attempt): World
    requires Plays(cfg, w, a)
  {
    var lost := Lost(cfg, w, a);
    Full(cfg, if a.cut && a.failure.Some? && lost.run.status.restartCount < Budget(cfg) then CutShort(cfg, lost, a.notice) else lost, a.notice)
  }

  /** A waiting run gets its pod from one uninterrupted reconcile. */
  lemma WaitingStarts(cfg: Config, w: World, obs: Obs)
    requires Waiting(cfg, w) && !obs.forbidden
    ensures var w' := Full(cfg, w, obs);
            Attempting(w') && Gen(w') == Gen(w) && w'.run.status.restartCount == w.run.status.restartCount
  {
    hide Perform, Holds, RequestPlan, PrerequisitePlan, Guarded, Generation, LedgerAfter;
    NotRequested(cfg, w, obs);
    PrerequisitesAreGuarded(cfg, w);
    var w1 := Perform(w, PrerequisitePlan(w));
    PerformThen(w, PrerequisitePlan(w), [CreatePod, RecordPod]);
    GuardedTwo(cfg, w1, CreatePod, RecordPod);
    FieldsAfter(w.run.status, RecordPod);
  }

  /** The lost pod is on record: gone, or failed in a way that may be retried. */
  predicate LostPod(w: World) {
    && Unrequested(w) && w.pvc.Some? && Recorded(w) && PastPodsGo(w)
    && (Gen(w) !in w.pods || (!w.pods[Gen(w)].deleting && FailedForNow(w)))
  }

  lemma LossIsNoticed(cfg: Config, w: World, obs: Obs)
    requires LostPod(w)
    ensures var w' := Full(cfg, w, obs);
            if w.run.status.restartCount >= Budget(cfg) then
              w'.run.status.phase == Failed && w'.run.status.restartCount == w.run.status.restartCount
            else Waiting(cfg, w') && w'.run.status.restartCount == w.run.status.restartCount + 1
  {
    hide Perform, Holds, RequestPlan, PrerequisitePlan, Guarded, Generation, LedgerAfter, Retryable, Budget;
    NotRequested(cfg, w, obs);
    PrerequisitesAreGuarded(cfg, w);
    var w1 := Perform(w, PrerequisitePlan(w));
    var rest := PodPlan(cfg, w, obs);
    PerformThen(w, PrerequisitePlan(w), rest);
    GuardedOne(cfg, w1, Enter(Failed));
    GuardedOne(cfg, w1, Restart);
    GuardedTwo(cfg, w1, DeletePod, Restart);
    FieldsAfter(w.run.status, Restart);
    FieldsAfter(w.run.status, Enter(Failed));
  }

  /** A failed pod that was deleted but not charged is charged as a lost one. */
  lemma CutIsStillLost(cfg: Config, w: World, obs: Obs)
    requires LostPod(w) && Gen(w) in w.pods && w.run.status.restartCount < Budget(cfg)
    ensures var w' := CutShort(cfg, w, obs);
            LostPod(w') && w'.run.status.restartCount == w.run.status.restartCount
  {
    hide Perform, Holds, RequestPlan, PrerequisitePlan, Guarded, Generation, LedgerAfter, Retryable, Budget, StatusAfter;
    NotRequested(cfg, w, obs);
    PrerequisitesAreGuarded(cfg, w);
    var before := PrerequisitePlan(w);
    var w1 := Perform(w, before);
    assert (before + [DeletePod, Restart])[..|before| + 1] == before + [DeletePod];
    PerformThen(w, before, [DeletePod]);
    GuardedOne(cfg, w1, DeletePod);
    FieldsAfter(w1.run.status, DeletePod);
  }

  lemma AttemptEnds(cfg: Config, w: World, a: Attempt)
    requires Waiting(cfg, w) && Plays(cfg, w, a)
    ensures var w' := Played(cfg, w, a);
            if w.run.status.restartCount >= Budget(cfg) then
              w'.run.status.phase == Failed && w'.run.status.restartCount == w.run.status.restartCount
            else Waiting(cfg, w') && w'.run.status.restartCount == w.run.status.restartCount + 1
  {
    hide Full, CutShort, Holds, Generation, Retryable, Budget, Waiting;
    WaitingStarts(cfg, w, a.start);
    QuietIsFeasible(cfg, Full(cfg, w, a.start), a.meanwhile);
    var lost := Lost(cfg, w, a);
    if a.cut && a.failure.Some? && lost.run.status.restartCount < Budget(cfg) {
      CutIsStillLost(cfg, lost, a.notice);
      LossIsNoticed(cfg, CutShort(cfg, lost, a.notice), a.notice);
    } else {
      LossIsNoticed(cfg, lost, a.notice);
    }
  }

  /** Attempt after attempt, as long as the run is not over. */
  ghost predicate Campaign(cfg: Config, w: World, tries: seq<Attempt>)
    decreases |tries|
  {
    tries == [] || (!IsTerminal(w.run.status.phase) && Plays(cfg, w, tries[0]) && Campaign(cfg, Played(cfg, w, tries[0]), tries[1..]))
  }

  ghost function AfterTries(cfg: Config, w: World, tries: seq<Attempt>): World
    requires Campaign(cfg, w, tries)
    decreases |tries|
  {
    if tries == [] then w else AfterTries(cfg, Played(cfg, w, tries[0]), tries[1..])
  }

  /** A run that only ever loses its pods gets exactly the attempts the budget has
      left and one more, and is Failed after the last of them. */
  lemma {:induction false} FailingRunEnds(cfg: Config, w: World, tries: seq<Attempt>)
    requires Waiting(cfg, w) && Campaign(cfg, w, tries)
    ensures var left := Max(0, Budget(cfg) - w.run.status.restartCount);
            && |tries| <= left + 1
            && (AfterTries(cfg, w, tries).run.status.phase == Failed <==> |tries| == left + 1)
    decreases |tries|
  {
    hide Plays, Played, Budget, PastPodsGo, Recorded;
    if tries != [] {
      AttemptEnds(cfg, w, tries[0]);
      var w' := Played(cfg, w, tries[0]);
      if w.run.status.restartCount < Budget(cfg) {
        FailingRunEnds(cfg, w', tries[1..]);
      }
    }
  }

  /** From admission on: a new run whose pods only ever get lost is Failed after
      exactly one attempt more than its budget. */
  lemma NewFailingRunEnds(cfg: Config, w: World, admit: Obs, tries: seq<Attempt>)
    requires Fresh(w) && !w.run.cancel && !w.run.pause && Campaign(cfg, Full(cfg, w, admit), tries)
    ensures var left := Max(0, Budget(cfg));
            && |tries| <= left + 1
            && (AfterTries(cfg, Full(cfg, w, admit), tries).run.status.phase == Failed <==> |tries| == left + 1)
  {
    hide Campaign, AfterTries, Budget;
    Admitted(cfg, w, admit);
    FailingRunEnds(cfg, Full(cfg, w, admit), tries);
  }

  lemma Admitted(cfg: Config, w: World, obs: Obs)
    requires Fresh(w) && !w.run.cancel && !w.run.pause
    ensures var w' := Full(cfg, w, obs);
            && w' == w.(run := w.run.(status := WithPhase(w.run.status, Pending)))
            && Waiting(cfg, w') && w'.run.status.restartCount == 0
  {
    hide Perform;
    GuardedOne(cfg, w, Enter(Pending));
  }
}
