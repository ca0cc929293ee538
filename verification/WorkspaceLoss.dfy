/** What a lost workspace costs: nothing can go on without checkpoint storage,
    and with it the loss of pod and volume together is one charge. */
module WorkspaceLoss {
  import opened AgentRuns
  import opened Reconciliation
  import opened Runs
  import opened WorkspaceSafety
  import opened Generations
  import opened RetryBudget

  // ---- without checkpoint storage ---------------------------------------------------------

  /** The run left Pending, has no storage, and its volume is gone. */
  predicate Unusable(cfg: Config, w: World) {
    !cfg.storage && w.pvc.None? && !(w.run.status.phase in {Unset, Pending, Succeeded})
  }

  lemma UnusableEvent(cfg: Config, w: World, e: Event)
    requires Unusable(cfg, w) && Possible(cfg, w, e)
    ensures Unusable(cfg, Happens(cfg, w, e)) && Happens(cfg, w, e).pods.Keys <= w.pods.Keys
  {
    hide Retryable, Budget, BuildRunSpec, StatusAfter, LedgerAfter, Generation, Holds, AfterStart, Recorded;
    if e.Api? {
      FieldsAfter(w.run.status, e.x);
    }
  }

  lemma {:induction false} UnusableHistory(cfg: Config, w: World, es: seq<Event>)
    requires Unusable(cfg, w) && History(cfg, w, es)
    ensures Unusable(cfg, End(cfg, w, es)) && End(cfg, w, es).pods.Keys <= w.pods.Keys
    decreases |es|
  {
    hide Possible, Happens, Unusable;
    if es != [] {
      UnusableEvent(cfg, w, es[0]);
      UnusableHistory(cfg, Happens(cfg, w, es[0]), es[1..]);
    }
  }

  /** Without storage, once a run that left Pending has lost its volume, nothing
      the users ask for and no crash makes the operator create a volume or a pod
      again, and the run never succeeds. */
  lemma LostForGood(cfg: Config, w: World, acts: seq<Action>)
    requires Unusable(cfg, w) && Feasible(cfg, w, acts)
    ensures var w' := After(cfg, w, acts);
            w'.pvc.None? && w'.pods.Keys <= w.pods.Keys && !(w'.run.status.phase in {Unset, Pending, Succeeded})
  {
    hide Possible, Happens, Plan;
    ExecutionIsHistory(cfg, w, acts);
    UnusableHistory(cfg, w, Events(cfg, w, acts));
  }

  lemma {:induction false} AdmittedHistory(cfg: Config, w: World, es: seq<Event>)
    requires History(cfg, w, es) && !(w.run.status.phase in {Unset, Pending})
    ensures !(End(cfg, w, es).run.status.phase in {Unset, Pending})
    decreases |es|
  {
    hide Retryable, Budget, BuildRunSpec, StatusAfter, LedgerAfter, PodsAfter, Generation, Holds, AfterStart, Unrequested;
    if es != [] {
      if es[0].Api? {
        FieldsAfter(w.run.status, es[0].x);
      } else {
        OnlyTheOperatorWritesStatus(cfg, w, es[0]);
      }
      AdmittedHistory(cfg, Happens(cfg, w, es[0]), es[1..]);
    }
  }

  /** Pending is never entered again, so "not Pending" is a sound sign that the
      volume existed or was given up. */
  lemma PendingIsNeverReentered(cfg: Config, w: World, acts: seq<Action>)
    requires Feasible(cfg, w, acts) && !(w.run.status.phase in {Unset, Pending})
    ensures !(After(cfg, w, acts).run.status.phase in {Unset, Pending})
  {
    hide Possible, Happens, Plan;
    ExecutionIsHistory(cfg, w, acts);
    AdmittedHistory(cfg, w, Events(cfg, w, acts));
  }

  // ---- one incident, one charge --------------------------------------------------------------

  predicate NoRequests(w: World) {
    !w.run.cancel && !w.run.pause && !w.run.resume
  }

  predicate Working(w: World) {
    w.run.status.phase in {Provisioning, Running, Interrupted}
  }

  /** The attempt g with restart count r that the incident strikes: not charged yet. */
  predicate Before(g: nat, r: nat, w: World) {
    && Working(w) && Gen(w) == g && w.run.status.restartCount == r && Recorded(w)
    && !Holds(w.run.status, Resuming) && !Holds(w.run.status, WorkspaceRestorePending)
  }

  /** Charged: the one replacement is to come, is up, or is being taken down by
      ensurePVC and not, or no longer, on record. */
  predicate Charged(g: nat, r: nat, w: World) {
    var st := w.run.status;
    && Working(w) && Gen(w) == g + 1 && st.restartCount == r + 1
    && (Holds(st, Resuming) || Holds(st, WorkspaceRestorePending))
    && (Gen(w) in w.pods && !w.pods[Gen(w)].deleting ==> Up(w.pods[Gen(w)]))
    && (Recorded(w) ==> !Released(w) || (w.pvc.None? && !Holds(st, WorkspaceRestorePending)))
  }

  /** The run ended, with the charge or without it. */
  predicate Over(g: nat, r: nat, w: World) {
    IsTerminal(w.run.status.phase) && g <= Gen(w) <= g + 1 && w.run.status.restartCount - r == Gen(w) - g
  }

  predicate Incident(g: nat, r: nat, w: World) {
    && NoRequests(w) && PastPodsGo(w) && (forall o | o in w.ledger.observed :: o <= g)
    && (Before(g, r, w) || Charged(g, r, w) || Over(g, r, w))
  }

  // ---- what one reconcile does during the incident

  /** Writes about a pod or a volume that is there or may be made. */
  predicate Ordinary(x: Write) {
    || x.CreatePvc? || x.PutSpec? || x.CreatePod? || x.RecordPod? || x == Enter(Provisioning) || x == Enter(Failed) || x == Enter(Succeeded)
    || x.Observe? || x.MarkRunning? || x.ClearRecovery? || x.Restart?
  }

  lemma OrdinaryPlan(cfg: Config, w: World, obs: Obs)
    requires Unrequested(w) && VolumeAvailable(cfg, w)
    ensures forall x | x in Plan(cfg, w, obs) :: Ordinary(x) || (x.DeletePod? && FailedForNow(w))
    ensures DeletePod in Plan(cfg, w, obs) ==> RecordPod !in Plan(cfg, w, obs)
  {
    hide Holds, Generation, RequestPlan, BuildRunSpec, Scraped, Retryable, Budget;
    NotRequested(cfg, w, obs);
  }

  /** A pod that is already being deleted is put on record. */
  predicate LateRecord(w: World, x: Write) {
    x.RecordPod? && Gen(w) in w.pods && w.pods[Gen(w)].deleting
  }

  lemma ChargedWrite(cfg: Config, g: nat, r: nat, w: World, x: Write)
    requires NoRequests(w) && Charged(g, r, w) && VolumeAvailable(cfg, w)
    requires Guard(cfg, w, x) && (Ordinary(x) || x.DeletePod?) && !x.ClearRecovery? && !LateRecord(w, x)
    ensures Charged(g, r, Apply(w, x)) || Over(g, r, Apply(w, x))
    ensures VolumeAvailable(cfg, Apply(w, x))
  {
    hide Retryable, Budget, BuildRunSpec, StatusAfter, LedgerAfter, Generation, Holds;
    ConditionsAfter(w.run.status, x);
    FieldsAfter(w.run.status, x);
  }

  lemma BeforeWrite(cfg: Config, g: nat, r: nat, w: World, x: Write)
    requires NoRequests(w) && Before(g, r, w) && PastPodsGo(w) && VolumeAvailable(cfg, w)
    requires Guard(cfg, w, x) && (Ordinary(x) || x.DeletePod?)
    ensures Before(g, r, Apply(w, x)) || Charged(g, r, Apply(w, x)) || Over(g, r, Apply(w, x))
    ensures VolumeAvailable(cfg, Apply(w, x))
  {
    hide Retryable, Budget, BuildRunSpec, StatusAfter, LedgerAfter, PodsAfter, Generation, Holds, Released;
    ConditionsAfter(w.run.status, x);
    FieldsAfter(w.run.status, x);
    if x.Restart? {
      PodsAfterWrite(cfg, w, x);
    }
  }

  lemma IncidentWrite(cfg: Config, g: nat, r: nat, w: World, x: Write)
    requires Incident(g, r, w) && !Over(g, r, w) && VolumeAvailable(cfg, w)
    requires Guard(cfg, w, x) && (Ordinary(x) || x.DeletePod?) && !LateRecord(w, x)
    requires forall o | o in Apply(w, x).ledger.observed :: o <= g
    ensures Incident(g, r, Apply(w, x)) && VolumeAvailable(cfg, Apply(w, x))
  {
    hide Guard, PodsAfter, StatusAfter, LedgerAfter, Before, Charged, Over, PastPodsGo, VolumeAvailable, Generation, LateRecord;
    PastPodsWrite(cfg, w, x);
    if Before(g, r, w) {
      BeforeWrite(cfg, g, r, w, x);
    } else {
      ClearingIsSeen(g, r, w, x);
      ChargedWrite(cfg, g, r, w, x);
    }
  }

  lemma ClearingIsSeen(g: nat, r: nat, w: World, x: Write)
    requires Charged(g, r, w)
    ensures x.ClearRecovery? ==> g + 1 in Apply(w, x).ledger.observed
  {
    hide Holds, Generation, StatusAfter, PodsAfter;
  }

  lemma {:induction false} ObservedGrows(w: World, xs: seq<Write>)
    ensures w.ledger.observed <= Perform(w, xs).ledger.observed
    decreases |xs|
  {
    hide StatusAfter, PodsAfter, Holds, Generation, BuildRunSpec;
    if xs != [] {
      ObservingWrites(w, xs[0]);
      ObservedGrows(Apply(w, xs[0]), xs[1..]);
    }
  }

  lemma {:induction false} IncidentWrites(cfg: Config, g: nat, r: nat, w: World, xs: seq<Write>)
    requires Incident(g, r, w) && VolumeAvailable(cfg, w) && Guarded(cfg, w, xs)
    requires !Over(g, r, w) || xs == []
    requires forall x | x in xs :: Ordinary(x) || x.DeletePod?
    requires RecordPod in xs ==> DeletePod !in xs && (Gen(w) in w.pods ==> !w.pods[Gen(w)].deleting)
    requires forall o | o in Perform(w, xs).ledger.observed :: o <= g
    ensures Incident(g, r, Perform(w, xs))
    decreases |xs|
  {
    hide Guard, Apply, Ordinary, Before, Charged, PastPodsGo, NoRequests, VolumeAvailable, IsTerminal, Generation;
    if xs != [] {
      var w1 := Apply(w, xs[0]);
      if RecordPod in xs[1..] {
        NoneDeleted(cfg, w, xs[0]);
      }
      ObservedGrows(w1, xs[1..]);
      IncidentWrite(cfg, g, r, w, xs[0]);
      if xs[1..] != [] && Over(g, r, w1) {
        OverIsQuiet(cfg, w1, xs[1]);
      }
      IncidentWrites(cfg, g, r, w1, xs[1..]);
    }
  }

  /** Only a deletion leaves the current pod being deleted. */
  lemma NoneDeleted(cfg: Config, w: World, x: Write)
    requires Guard(cfg, w, x) && PastPodsGo(w) && !x.DeletePod?
    requires Gen(w) in w.pods ==> !w.pods[Gen(w)].deleting
    ensures Gen(Apply(w, x)) in Apply(w, x).pods ==> !Apply(w, x).pods[Gen(Apply(w, x))].deleting
  {
    hide Guard, Generation, StatusAfter, LedgerAfter, Holds, PodsAfter, Advances;
    GenerationAfter(w, x);
    PodsAfterWrite(cfg, w, x);
    NotMarked(w, x);
    assert Apply(w, x).pods == PodsAfter(w, x);
  }

  lemma NotMarked(w: World, x: Write)
    ensures !x.DeletePod? && !x.CreatePod? ==>
              forall g | g in PodsAfter(w, x) :: g in w.pods && PodsAfter(w, x)[g].deleting == w.pods[g].deleting
    ensures x.CreatePod? ==> Gen(w) in PodsAfter(w, x) && !PodsAfter(w, x)[Gen(w)].deleting
  {
    hide Generation;
  }

  lemma OverIsQuiet(cfg: Config, w: World, x: Write)
    requires IsTerminal(w.run.status.phase) && NoRequests(w) && (Ordinary(x) || x.DeletePod?)
    ensures !Guard(cfg, w, x)
  {
    hide Holds, Generation, BuildRunSpec, Retryable, Budget;
  }

  // ---- the reconcile that finds the volume gone

  lemma LossInBefore(cfg: Config, g: nat, r: nat, w: World)
    requires Before(g, r, w) && PastPodsGo(w) && cfg.storage
    ensures Before(g, r, Apply(w, DeletePod)) && PastPodsGo(Apply(w, DeletePod))
    ensures (Gen(w) in w.pods ==> w.pods[Gen(w)].deleting) ==> Charged(g, r, Apply(w, RecordLoss)) && PastPodsGo(Apply(w, RecordLoss))
  {
    hide StatusAfter, LedgerAfter, BuildRunSpec, Generation, Holds;
    ConditionsAfter(w.run.status, DeletePod);
    FieldsAfter(w.run.status, DeletePod);
    ConditionsAfter(w.run.status, RecordLoss);
    FieldsAfter(w.run.status, RecordLoss);
  }

  /** The charged loss found a second time: the replacement goes, its record too,
      nothing is charged. */
  lemma LossInCharged(cfg: Config, g: nat, r: nat, w: World)
    requires Charged(g, r, w) && PastPodsGo(w) && w.pvc.None? && !Holds(w.run.status, WorkspaceRestorePending)
    ensures Charged(g, r, Apply(w, DeletePod)) && PastPodsGo(Apply(w, DeletePod)) && Apply(w, DeletePod).pvc.None?
    ensures Charged(g, r, Apply(w, RecordLoss)) && PastPodsGo(Apply(w, RecordLoss))
    ensures !Holds(Apply(w, DeletePod).run.status, WorkspaceRestorePending)
  {
    hide StatusAfter, LedgerAfter, BuildRunSpec, Generation, Holds;
    ConditionsAfter(w.run.status, DeletePod);
    FieldsAfter(w.run.status, DeletePod);
    ConditionsAfter(w.run.status, RecordLoss);
    FieldsAfter(w.run.status, RecordLoss);
  }

  lemma PrefixOfLoss(cfg: Config, w: World, obs: Obs, n: nat)
    requires VolumeLost(cfg, w) && cfg.storage
    ensures var w' := Perform(w, Written(cfg, w, obs, n));
            || w' == w
            || (Gen(w) in w.pods && (w' == Apply(w, DeletePod) || w' == Apply(Apply(w, DeletePod), RecordLoss)))
            || (Gen(w) !in w.pods && w' == Apply(w, RecordLoss))
  {
    hide Perform, Apply, RequestPlan, VolumeAvailable, Unrequested, Generation;
    NotRequested(cfg, w, obs);
    GuardedOne(cfg, w, RecordLoss);
    GuardedOne(cfg, w, DeletePod);
    GuardedTwo(cfg, w, DeletePod, RecordLoss);
    var plan := Plan(cfg, w, obs);
    assert plan == if Gen(w) in w.pods then [DeletePod, RecordLoss] else [RecordLoss];
    var k := if n < |plan| then n else |plan|;
    assert Written(cfg, w, obs, n) == plan[..k];
    if k == 0 {
      assert plan[..0] == [];
    } else if k == 1 {
      assert plan[..1] == [plan[0]];
    } else {
      assert plan[..2] == plan;
    }
  }

  lemma LossReconciled(cfg: Config, g: nat, r: nat, w: World, obs: Obs, n: nat)
    requires Incident(g, r, w) && cfg.storage && VolumeLost(cfg, w)
    ensures Incident(g, r, Perform(w, Written(cfg, w, obs, n)))
  {
    hide Perform, Written, Apply, PastPodsGo, Generation, Holds, VolumeAvailable, Charged;
    var w' := Perform(w, Written(cfg, w, obs, n));
    PrefixOfLoss(cfg, w, obs, n);
    LossKeepsRest(w);
    if Before(g, r, w) {
      LossInBefore(cfg, g, r, w);
      LossInBefore(cfg, g, r, Apply(w, DeletePod));
    } else {
      LostMeansUnmarked(cfg, w);
      LossInCharged(cfg, g, r, w);
      LossInCharged(cfg, g, r, Apply(w, DeletePod));
    }
  }

  lemma LostMeansUnmarked(cfg: Config, w: World)
    requires VolumeLost(cfg, w) && cfg.storage
    ensures w.pvc.None? && !Holds(w.run.status, WorkspaceRestorePending)
  {
  }

  lemma LossKeepsRest(w: World)
    ensures forall v, x | v in [w, Apply(w, DeletePod)] && (x == DeletePod || x == RecordLoss) ::
              && Apply(v, x).ledger.observed == w.ledger.observed
              && Apply(v, x).run.cancel == w.run.cancel && Apply(v, x).run.pause == w.run.pause && Apply(v, x).run.resume == w.run.resume
    ensures Gen(w) in w.pods ==> Released(Apply(w, DeletePod))
  {
    hide Holds, Generation, StatusAfter;
    FieldsAfter(w.run.status, DeletePod);
  }

  // ---- the incident as a whole

  /** What belongs to the incident: reconciles cut short anywhere, and anything
      the cluster does but taking the replacement pod down; no user request. */
  ghost predicate Strikes(cfg: Config, g: nat, w: World, a: Action) {
    && Enabled(cfg, w, a)
    && (a.Env? ==> !a.event.Request?)
    && (a.Env? && g + 1 in w.pods && Up(w.pods[g + 1]) ==>
          g + 1 in Next(cfg, w, a).pods && Up(Next(cfg, w, a).pods[g + 1]))
  }

  /** This reconcile puts a pod on record that is already being deleted. */
  predicate RecordsLate(cfg: Config, w: World, a: Action) {
    a.Reconcile? && Gen(w) in w.pods && w.pods[Gen(w)].deleting && RecordPod in Written(cfg, w, a.obs, a.writes)
  }

  ghost predicate Striking(cfg: Config, g: nat, w: World, acts: seq<Action>)
    decreases |acts|
  {
    acts == [] || (Strikes(cfg, g, w, acts[0]) && !RecordsLate(cfg, w, acts[0]) && Striking(cfg, g, Next(cfg, w, acts[0]), acts[1..]))
  }

  lemma {:induction false} StrikingIsFeasible(cfg: Config, g: nat, w: World, acts: seq<Action>)
    requires Striking(cfg, g, w, acts)
    ensures Feasible(cfg, w, acts)
    decreases |acts|
  {
    hide Next, Enabled, RecordsLate, Up;
    if acts != [] {
      StrikingIsFeasible(cfg, g, Next(cfg, w, acts[0]), acts[1..]);
    }
  }

  lemma EnvironmentStrikes(cfg: Config, g: nat, r: nat, w: World, a: Action)
    requires a.Env? && Strikes(cfg, g, w, a) && Incident(g, r, w)
    ensures Incident(g, r, Next(cfg, w, a))
  {
    hide Holds, Generation, AfterStart, Guard, BuildRunSpec;
    OnlyTheOperatorWritesStatus(cfg, w, a.event);
    EventKeepsPods(cfg, w, a.event);
  }

  /** No event outside the operator makes a pod or takes back a deletion. */
  lemma EventKeepsPods(cfg: Config, w: World, e: Event)
    requires Possible(cfg, w, e) && !e.Api?
    ensures var w' := Happens(cfg, w, e);
            && w'.pods.Keys <= w.pods.Keys && (forall g | g in w'.pods :: w.pods[g].deleting ==> w'.pods[g].deleting)
            && (!e.PvcVanishes? ==> w'.pvc.Some? == w.pvc.Some?) && (e.PvcVanishes? ==> w'.pvc.None?)
            && (!e.Request? ==> w'.run == w.run)
  {
    hide Guard;
  }

  lemma ReconcileStrikes(cfg: Config, g: nat, r: nat, w: World, a: Action)
    requires cfg.storage && Incident(g, r, w) && a.Reconcile? && !RecordsLate(cfg, w, a)
    requires forall o | o in Perform(w, Written(cfg, w, a.obs, a.writes)).ledger.observed :: o <= g
    ensures Incident(g, r, Perform(w, Written(cfg, w, a.obs, a.writes)))
  {
    hide Perform, PastPodsGo, Generation, Holds, VolumeAvailable, Guarded, Ordinary, FailedForNow, Plan, Charged, Before;
    var obs, n := a.obs, a.writes;
    var w' := Perform(w, Written(cfg, w, obs, n));
    if Over(g, r, w) {
      OverPlansNothing(cfg, w, obs);
      GuardedOne(cfg, w, DeletePod);
    } else {
      WorkingIsUnrequested(g, r, w);
      if VolumeAvailable(cfg, w) {
        PlanIsGuarded(cfg, w, obs);
        OrdinaryPlan(cfg, w, obs);
        var plan := Plan(cfg, w, obs);
        if n < |plan| {
          GuardedPrefix(cfg, w, plan, n);
        }
        IncidentWrites(cfg, g, r, w, Written(cfg, w, obs, n));
      } else {
        LossReconciled(cfg, g, r, w, obs, n);
      }
    }
  }

  lemma WorkingIsUnrequested(g: nat, r: nat, w: World)
    requires NoRequests(w) && (Before(g, r, w) || Charged(g, r, w))
    ensures Unrequested(w) && w.run.status.phase != Pending
  {
    hide Holds, Generation;
  }

  lemma OverPlansNothing(cfg: Config, w: World, obs: Obs)
    requires IsTerminal(w.run.status.phase) && NoRequests(w)
    ensures Plan(cfg, w, obs) == []
  {
  }

  lemma {:induction false} IncidentRuns(cfg: Config, g: nat, r: nat, w: World, acts: seq<Action>)
    requires cfg.storage && Incident(g, r, w) && Striking(cfg, g, w, acts) && Feasible(cfg, w, acts)
    requires forall o | o in After(cfg, w, acts).ledger.observed :: o <= g
    ensures Incident(g, r, After(cfg, w, acts))
    decreases |acts|
  {
    hide Next, Before, Charged, Over, PastPodsGo, NoRequests, Strikes, RecordsLate, Enabled;
    if acts != [] {
      var w1 := Next(cfg, w, acts[0]);
      ObservedOnlyGrows(cfg, w1, acts[1..]);
      StrikeStep(cfg, g, r, w, acts[0]);
      IncidentRuns(cfg, g, r, w1, acts[1..]);
    }
  }

  lemma StrikeStep(cfg: Config, g: nat, r: nat, w: World, a: Action)
    requires cfg.storage && Incident(g, r, w) && Strikes(cfg, g, w, a) && !RecordsLate(cfg, w, a)
    requires forall o | o in Next(cfg, w, a).ledger.observed :: o <= g
    ensures Incident(g, r, Next(cfg, w, a))
  {
    hide Incident, Perform, Written, Happens;
    if a.Env? {
      EnvironmentStrikes(cfg, g, r, w, a);
    } else {
      ReconcileStrikes(cfg, g, r, w, a);
    }
  }

  lemma ObservedOnlyGrows(cfg: Config, w: World, acts: seq<Action>)
    requires Feasible(cfg, w, acts)
    ensures w.ledger.observed <= After(cfg, w, acts).ledger.observed
  {
    hide Possible, Happens, Plan, Generation;
    ExecutionIsHistory(cfg, w, acts);
    GenerationHistory(cfg, w, Events(cfg, w, acts));
  }

  /** The loss of a working run's pod and of its volume, in either order, together,
      repeatedly, with the operator dying anywhere and deletions taking their time,
      is charged at most once until the replacement is seen Running, unless a
      reconcile puts a pod on record that is already being deleted: generation and
      RestartCount move together, by at most one, and every pod that exists belongs
      to the struck attempt or its one replacement. */
  lemma OneIncidentOneCharge(cfg: Config, w: World, acts: seq<Action>)
    requires cfg.storage && NoRequests(w) && PastPodsGo(w) && Before(Gen(w), w.run.status.restartCount, w)
    requires forall o | o in w.ledger.observed :: o <= Gen(w)
    requires Striking(cfg, Gen(w), w, acts) && Feasible(cfg, w, acts)
    requires forall o | o in After(cfg, w, acts).ledger.observed :: o <= Gen(w)
    ensures var w' := After(cfg, w, acts);
            && Gen(w) <= Gen(w') <= Gen(w) + 1
            && w'.run.status.restartCount - w.run.status.restartCount == Gen(w') - Gen(w)
            && forall g | g in w'.pods :: g <= Gen(w) + 1
  {
    hide Striking, Feasible, After, Generation, Working, Recorded, Holds;
    IncidentRuns(cfg, Gen(w), w.run.status.restartCount, w, acts);
    GenerationBound(Gen(w), w.run.status.restartCount, After(cfg, w, acts));
  }

  /** The other half: once charged, a reconcile that puts a pod on record that is
      already being deleted leads to a second charge, as soon as that pod is gone
      and a reconcile gets through, as long as there is budget. */
  lemma LateRecordIsChargedAgain(cfg: Config, g: nat, r: nat, w: World, a: Action, obs: Obs)
    requires NoRequests(w) && Charged(g, r, w) && RecordsLate(cfg, w, a) && Enabled(cfg, w, a) && r + 1 < Budget(cfg)
    ensures var w1 := Next(cfg, w, a);
            && Gen(w1) in w1.pods
            && var w2 := w1.(pods := w1.pods - {Gen(w1)});
               var w3 := Full(cfg, w2, obs);
               Gen(w3) == g + 2 && w3.run.status.restartCount == r + 2
  {
    hide Full, Generation, Holds, Budget, Plan, Perform;
    WorkingIsUnrequested(g, r, w);
    LatePlan(cfg, w, a.obs, a.writes);
    var w1 := Next(cfg, w, a);
    var w2 := w1.(pods := w1.pods - {Gen(w1)});
    SlowEnd(cfg, w2, obs);
  }

  /** Such a reconcile gets through everything: it makes what is missing and ends
      with the record. */
  lemma LatePlan(cfg: Config, w: World, obs: Obs, n: nat)
    requires Unrequested(w) && NoRequests(w) && w.run.status.phase != Pending && Gen(w) in w.pods
    requires RecordPod in Written(cfg, w, obs, n)
    ensures var w1 := Perform(w, Written(cfg, w, obs, n));
            && w1.run == w.run.(status := StatusAfter(w.run.status, RecordPod)) && w1.pods == w.pods && w1.pvc.Some?
            && Gen(w1) == Gen(w) && Recorded(w1) && w1.run.status.restartCount == w.run.status.restartCount
            && w1.run.status.phase == w.run.status.phase
  {
    hide Plan, Perform, Holds, Generation, PrerequisitePlan, LedgerAfter, VolumeAvailable;
    LatePlanIs(cfg, w, obs);
    var before := PrerequisitePlan(w);
    PrerequisitesAreGuarded(cfg, w);
    NoRecordBefore(w);
    var w1 := Perform(w, before);
    WrittenIsAll(before, n);
    PerformThen(w, before, [RecordPod]);
    GuardedOne(cfg, w1, RecordPod);
    FieldsAfter(w.run.status, RecordPod);
  }

  lemma LatePlanIs(cfg: Config, w: World, obs: Obs)
    requires Unrequested(w) && Gen(w) in w.pods && RecordPod in Plan(cfg, w, obs)
    ensures VolumeAvailable(cfg, w) && Plan(cfg, w, obs) == PrerequisitePlan(w) + [RecordPod]
  {
    hide RequestPlan, PrerequisitePlan, Generation, Holds, LossPlan, PodStatePlan, VolumeAvailable;
    NotRequested(cfg, w, obs);
    NoRecordInLoss(cfg, w);
    NoRecordBefore(w);
    RecordIsAlone(cfg, w, obs);
  }

  lemma RecordIsAlone(cfg: Config, w: World, obs: Obs)
    requires Gen(w) in w.pods
    ensures RecordPod in PodStatePlan(cfg, w, obs) ==> PodStatePlan(cfg, w, obs) == [RecordPod]
  {
    hide Generation, Holds, Scraped, Retryable, Budget;
  }

  lemma NoRecordInLoss(cfg: Config, w: World)
    ensures RecordPod !in LossPlan(cfg, w)
  {
  }

  lemma NoRecordBefore(w: World)
    ensures RecordPod !in PrerequisitePlan(w)
  {
    hide BuildRunSpec;
  }

  lemma WrittenIsAll(before: seq<Write>, n: nat)
    requires RecordPod !in before
    ensures var plan := before + [RecordPod];
            RecordPod in (if n < |plan| then plan[..n] else plan) ==> (if n < |plan| then plan[..n] else plan) == plan
  {
    if n <= |before| {
      assert (before + [RecordPod])[..n] == before[..n];
    }
  }

  lemma GenerationBound(g: nat, r: nat, w: World)
    requires Incident(g, r, w)
    ensures Before(g, r, w) || Charged(g, r, w) ==> g <= Gen(w) <= g + 1
  {
  }

  /** And it is charged: the first reconcile that is not cut short after the pod or
      the volume is gone advances both counters, as long as a pod loss finds
      budget left. */
  lemma TheIncidentIsCharged(cfg: Config, w: World, obs: Obs)
    requires cfg.storage && NoRequests(w) && PastPodsGo(w) && Before(Gen(w), w.run.status.restartCount, w)
    requires w.pvc.None? || (LostPod(w) && w.run.status.restartCount < Budget(cfg))
    ensures Gen(Full(cfg, w, obs)) == Gen(w) + 1
    ensures Full(cfg, w, obs).run.status.restartCount == w.run.status.restartCount + 1
  {
    hide Plan, Perform, Generation, Holds, LostPod, Waiting;
    if w.pvc.None? {
      LossIsChargedRegardless(cfg, w, obs);
    } else {
      LossIsNoticed(cfg, w, obs);
    }
    ChargeAdvances(cfg, w, obs);
  }

  lemma {:induction false} ChargesAgree(w: World, xs: seq<Write>)
    requires forall x | x in xs :: !x.RecordResume?
    ensures Gen(Perform(w, xs)) - Gen(w) == Perform(w, xs).run.status.restartCount - w.run.status.restartCount
    decreases |xs|
  {
    hide Generation, Holds, StatusAfter, LedgerAfter, PodsAfter, BuildRunSpec;
    if xs != [] {
      FieldsAfter(w.run.status, xs[0]);
      ChargesAgree(Apply(w, xs[0]), xs[1..]);
    }
  }

  lemma ChargeAdvances(cfg: Config, w: World, obs: Obs)
    requires NoRequests(w)
    ensures Gen(Full(cfg, w, obs)) - Gen(w) == Full(cfg, w, obs).run.status.restartCount - w.run.status.restartCount
  {
    hide Perform, Generation, Holds, BuildRunSpec, Retryable, Budget, Scraped, Reaches, Complete;
    ChargesAgree(w, Plan(cfg, w, obs));
  }

  /** A run in which that happens: the pod that ensurePVC deletes lingers into the
      next reconcile, which puts it on record again, and its end is charged as a
      second interruption of the same incident. */
  lemma SlowDeletionChargesTwice(cfg: Config, w: World, obs: Obs)
    requires cfg.storage && NoRequests(w) && Working(w) && w.pvc.None? && w.run.status.restartCount < Budget(cfg)
    requires Gen(w) in w.pods && Recorded(w) && Holds(w.run.status, Resuming) && !Holds(w.run.status, WorkspaceRestorePending)
    ensures var w1 := Full(cfg, w, obs);
            var w2 := Full(cfg, w1, obs);
            var w3 := w2.(pods := w2.pods - {Gen(w2)});
            var w4 := Full(cfg, w3, obs);
            && Gen(w1) == Gen(w2) == Gen(w) && w1.run.status.restartCount == w.run.status.restartCount
            && Gen(w4) == Gen(w) + 1 && w4.run.status.restartCount == w.run.status.restartCount + 1
  {
    hide Full, Generation, Holds, Budget;
    var w1 := Full(cfg, w, obs);
    SlowLoss(cfg, w, obs);
    var w2 := Full(cfg, w1, obs);
    SlowRecord(cfg, w1, obs);
    var w3 := w2.(pods := w2.pods - {Gen(w2)});
    SlowEnd(cfg, w3, obs);
  }

  lemma SlowLoss(cfg: Config, w: World, obs: Obs)
    requires cfg.storage && NoRequests(w) && Working(w) && w.pvc.None?
    requires Gen(w) in w.pods && Holds(w.run.status, Resuming) && !Holds(w.run.status, WorkspaceRestorePending)
    ensures var w1 := Full(cfg, w, obs);
            && NoRequests(w1) && Working(w1) && w1.pvc.None? && Gen(w1) == Gen(w) && Gen(w1) in w1.pods && w1.pods[Gen(w1)].deleting
            && w1.run.status.restartCount == w.run.status.restartCount && !Recorded(w1)
            && Holds(w1.run.status, WorkspaceRestorePending)
  {
    hide Perform, Holds, Generation, RequestPlan, StatusAfter, LedgerAfter;
    NotRequested(cfg, w, obs);
    GuardedTwo(cfg, w, DeletePod, RecordLoss);
    assert [DeletePod] + [RecordLoss] == [DeletePod, RecordLoss];
    FieldsAfter(w.run.status, DeletePod);
    FieldsAfter(w.run.status, RecordLoss);
    ConditionsAfter(w.run.status, RecordLoss);
  }

  lemma SlowRecord(cfg: Config, w: World, obs: Obs)
    requires cfg.storage && NoRequests(w) && Working(w) && w.pvc.None?
    requires Gen(w) in w.pods && !Recorded(w) && Holds(w.run.status, WorkspaceRestorePending)
    ensures var w1 := Full(cfg, w, obs);
            && NoRequests(w1) && Working(w1) && w1.pvc.Some? && Gen(w1) == Gen(w) && Recorded(w1)
            && w1.run.status.restartCount == w.run.status.restartCount
  {
    hide Perform, Holds, Generation, RequestPlan, StatusAfter, LedgerAfter, PrerequisitePlan;
    NotRequested(cfg, w, obs);
    PrerequisitesAreGuarded(cfg, w);
    var w1 := Perform(w, PrerequisitePlan(w));
    PerformThen(w, PrerequisitePlan(w), [RecordPod]);
    GuardedOne(cfg, w1, RecordPod);
    FieldsAfter(w.run.status, RecordPod);
  }

  lemma SlowEnd(cfg: Config, w: World, obs: Obs)
    requires NoRequests(w) && Working(w) && w.pvc.Some? && Recorded(w) && Gen(w) !in w.pods
    requires w.run.status.restartCount < Budget(cfg)
    ensures var w1 := Full(cfg, w, obs);
            Gen(w1) == Gen(w) + 1 && w1.run.status.restartCount == w.run.status.restartCount + 1
  {
    hide Perform, Holds, Generation, RequestPlan, StatusAfter, LedgerAfter, PrerequisitePlan, Budget;
    NotRequested(cfg, w, obs);
    PrerequisitesAreGuarded(cfg, w);
    var w1 := Perform(w, PrerequisitePlan(w));
    PerformThen(w, PrerequisitePlan(w), [Restart]);
    GuardedOne(cfg, w1, Restart);
    FieldsAfter(w.run.status, Restart);
  }

  /** The other side of safety: with storage, after pod and volume are gone, two
      reconciles that nothing interrupts bring up a pod of the next attempt on a
      blank volume, ordered to resume with a mandatory restore. */
  lemma LostWorkspaceIsRecovered(cfg: Config, w: World, obs: Obs, obs': Obs)
    requires cfg.storage && NoRequests(w) && Working(w) && PastPodsGo(w)
    requires w.pvc.None? && Gen(w) !in w.pods && Recorded(w) && !obs'.forbidden
    requires !Holds(w.run.status, Resuming) && !Holds(w.run.status, WorkspaceRestorePending)
    ensures var w1 := Full(cfg, w, obs);
            var w2 := Full(cfg, w1, obs');
            && Gen(w2) == Gen(w) + 1 && Blank(w2) && w2.pvc.value.disk == map[] && MayStart(w2, Gen(w2))
            && w2.spec.value.resume && w2.spec.value.restoreRequired
  {
    hide Full, Generation, Holds;
    LossRecorded(cfg, w, obs);
    ReplacementCreated(cfg, Full(cfg, w, obs), obs');
  }

  lemma LossRecorded(cfg: Config, w: World, obs: Obs)
    requires cfg.storage && NoRequests(w) && Working(w) && PastPodsGo(w) && w.pvc.None? && Gen(w) !in w.pods && Recorded(w)
    requires !Holds(w.run.status, Resuming) && !Holds(w.run.status, WorkspaceRestorePending)
    ensures var w1 := Full(cfg, w, obs);
            && NoRequests(w1) && w1.run.status.phase == Interrupted && w1.pvc.None? && Gen(w1) == Gen(w) + 1
            && Gen(w1) !in w1.pods && !Recorded(w1)
            && Holds(w1.run.status, WorkspaceRestorePending)
  {
    hide Perform, Generation, Holds, StatusAfter, LedgerAfter, RequestPlan;
    NotRequested(cfg, w, obs);
    GuardedOne(cfg, w, RecordLoss);
    ConditionsAfter(w.run.status, RecordLoss);
    FieldsAfter(w.run.status, RecordLoss);
  }

  lemma ReplacementCreated(cfg: Config, w: World, obs: Obs)
    requires cfg.storage && NoRequests(w) && w.run.status.phase == Interrupted && w.pvc.None?
    requires Gen(w) > 0 && Gen(w) !in w.pods && !Recorded(w) && Holds(w.run.status, WorkspaceRestorePending) && !obs.forbidden
    ensures var w2 := Full(cfg, w, obs);
            && Gen(w2) == Gen(w) && Blank(w2) && w2.pvc.value.disk == map[] && MayStart(w2, Gen(w2))
            && w2.spec.value.resume && w2.spec.value.restoreRequired
  {
    hide Perform, Generation, Holds, StatusAfter, LedgerAfter, RequestPlan;
    NotRequested(cfg, w, obs);
    var w1 := Apply(w, CreatePvc);
    FieldsAfter(w.run.status, CreatePvc);
    PrerequisitesAreGuarded(cfg, w);
    var ready := Perform(w, PrerequisitePlan(w));
    GuardedOne(cfg, w, CreatePvc);
    GuardedTwo(cfg, w, CreatePvc, PutSpec);
    var none: seq<Write> := [];
    assert [CreatePvc] + none == [CreatePvc] && [CreatePvc] + [PutSpec] == [CreatePvc, PutSpec];
    assert ready.pvc == w1.pvc;
    PerformThen(w, PrerequisitePlan(w), [CreatePod, RecordPod]);
    GuardedTwo(cfg, ready, CreatePod, RecordPod);
    FieldsAfter(ready.run.status, CreatePod);
    FieldsAfter(ready.run.status, RecordPod);
  }
}
