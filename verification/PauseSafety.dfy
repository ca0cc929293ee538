/** Durable pause: the pod goes only on a stored proof, and from then until the
    resumed pod is seen Running the recorded checkpoint is the one restored. */
module PauseSafety {
  import opened Basics
  import opened Archives
  import opened Checkpoints
  import opened AgentRuns
  import opened Hydration
  import opened Reconciliation
  import opened Runs
  import opened WorkspaceSafety
  import opened Generations

  /** A resume from a pause is still waiting for its pod to be seen Running. */
  predicate ResumeIsPending(w: World) {
    Holds(w.run.status, PauseResumePending)
  }

  predicate PauseIsProven(cfg: Config, w: World) {
    var st := w.run.status;
    && (ResumeIsPending(w) ==> ProofReady(st) && cfg.storage && Holds(st, Resuming))
    && (st.phase == Paused ==> ProofReady(st) && cfg.storage)
    && (st.phase == Pausing ==> cfg.storage)
  }

  /** The recorded checkpoint was taken in this pausing episode, with the harness
      quiesced first. */
  predicate Earned(w: World) {
    var e := w.ledger.episode;
    e.quiesced && e.taken.Some? && e.committed == e.taken == w.run.status.lastCheckpoint && e.taken.value.uri != ""
  }

  /** The proof of an episode is its own unless there was one when it began, and
      then it takes none of its own. */
  predicate ProofIsEarned(w: World) {
    var st := w.run.status;
    st.phase == Pausing || st.phase == Paused ==>
      if w.ledger.episode.readyAtEntry then ProofReady(st) && w.ledger.episode.taken.None?
      else ProofReady(st) ==> Earned(w)
  }

  ghost predicate Sound(cfg: Config, w: World) {
    PauseIsProven(cfg, w) && ProofIsEarned(w)
  }

  lemma ProvenWrite(cfg: Config, w: World, x: Write)
    requires Guard(cfg, w, x) && PauseIsProven(cfg, w)
    ensures PauseIsProven(cfg, Apply(w, x))
  {
    hide Retryable, Budget, BuildRunSpec, StatusAfter, PodsAfter, LedgerAfter, Generation, Holds;
    ConditionsAfter(w.run.status, x);
    FieldsAfter(w.run.status, x);
  }

  lemma EpisodeAfter(w: World, x: Write)
    ensures var e, e' := w.ledger.episode, LedgerAfter(w, x).episode;
            && e'.readyAtEntry == (if x.BeginPause? then ProofReady(w.run.status) else e.readyAtEntry)
            && e'.quiesced == (if x.BeginPause? then false else if x.Quiesce? then true else e.quiesced)
            && e'.taken == (if x.BeginPause? then None else if x.TakeCheckpoint? then x.proof else e.taken)
            && e'.committed == (if x.BeginPause? then None else if x.CommitProof? then Some(x.ref) else e.committed)
  {
    hide Holds, Generation;
  }

  lemma EarnedWrite(cfg: Config, w: World, x: Write)
    requires Guard(cfg, w, x) && PauseIsProven(cfg, w) && ProofIsEarned(w)
    ensures ProofIsEarned(Apply(w, x))
  {
    hide Retryable, Budget, BuildRunSpec, StatusAfter, PodsAfter, LedgerAfter, Generation, Holds;
    ConditionsAfter(w.run.status, x);
    FieldsAfter(w.run.status, x);
    EpisodeAfter(w, x);
    assert Apply(w, x).ledger == LedgerAfter(w, x);
  }

  lemma SoundEvent(cfg: Config, w: World, e: Event)
    requires Sound(cfg, w) && Possible(cfg, w, e)
    ensures Sound(cfg, Happens(cfg, w, e))
  {
    hide Guard, Apply, AfterStart, Generation, Holds;
    if e.Api? {
      ProvenWrite(cfg, w, e.x);
      EarnedWrite(cfg, w, e.x);
    } else {
      OnlyTheOperatorWritesStatus(cfg, w, e);
    }
  }

  lemma {:induction false} SoundHistory(cfg: Config, w: World, es: seq<Event>)
    requires Sound(cfg, w) && History(cfg, w, es)
    ensures Sound(cfg, End(cfg, w, es))
    decreases |es|
  {
    hide Sound, Possible, Happens;
    if es != [] {
      SoundEvent(cfg, w, es[0]);
      SoundHistory(cfg, Happens(cfg, w, es[0]), es[1..]);
    }
  }

  /** Over every execution, unless the user cancels: a reconcile of a pausing run
      that would remove the pod does that and nothing more, on a stored proof;
      the proof was earned in this episode unless it was already there when the
      episode began; and no further checkpoint is taken once it is stored. */
  lemma PauseRemovesOnlyOnProof(cfg: Config, w0: World, acts: seq<Action>, obs: Obs)
    requires Fresh(w0) && Feasible(cfg, w0, acts)
    ensures var w := After(cfg, w0, acts);
            w.run.status.phase == Pausing && !w.run.cancel ==>
              && (DeletePod in Plan(cfg, w, obs) ==>
                    && Plan(cfg, w, obs) == [DeletePod]
                    && ProofReady(w.run.status)
                    && (Earned(w) <==> !w.ledger.episode.readyAtEntry))
              && (ProofReady(w.run.status) ==>
                    Plan(cfg, w, obs) == if Gen(w) in w.pods then [DeletePod] else [ClearPause, Enter(Paused)])
  {
    hide Possible, Happens, Holds, Generation, PodPlan, LossPlan, PrerequisitePlan, PublishPlan;
    ExecutionIsHistory(cfg, w0, acts);
    FreshIsProven(cfg, w0);
    SoundHistory(cfg, w0, Events(cfg, w0, acts));
    PublishDeletesNothing(cfg, After(cfg, w0, acts), obs);
  }

  lemma PublishDeletesNothing(cfg: Config, w: World, obs: Obs)
    ensures DeletePod !in PublishPlan(cfg, w, obs)
  {
    hide Generation;
  }

  /** A pausing run leaves only to Paused, Running, Failed or Canceled, with both
      counters as they were; to Paused only with a proof and no live pod left. */
  lemma PausingLeavesCleanly(cfg: Config, w0: World, acts: seq<Action>, e: Event)
    requires Fresh(w0) && Feasible(cfg, w0, acts)
    requires Possible(cfg, After(cfg, w0, acts), e)
    ensures var w := After(cfg, w0, acts);
            var w' := Happens(cfg, w, e);
            w.run.status.phase == Pausing ==>
              && w'.run.status.phase in {Pausing, Paused, Running, Failed, Canceled}
              && Gen(w') == Gen(w) && w'.run.status.restartCount == w.run.status.restartCount
              && (w'.run.status.phase == Paused ==> ProofReady(w.run.status) && forall g | g in w'.pods :: w'.pods[g].deleting)
  {
    hide Plan, Holds, Guard, Happens, Generation;
    var w := After(cfg, w0, acts);
    ExecutionIsHistory(cfg, w0, acts);
    FreshIsSound(cfg, w0);
    WorkspaceSafety.SoundHistory(cfg, w0, Events(cfg, w0, acts));
    if w.run.status.phase == Pausing {
      LeavingPause(cfg, w, e);
    }
  }

  lemma LeavingPause(cfg: Config, w: World, e: Event)
    requires Possible(cfg, w, e) && w.run.status.phase == Pausing && PastPodsGo(w)
    ensures var w' := Happens(cfg, w, e);
            && w'.run.status.phase in {Pausing, Paused, Running, Failed, Canceled}
            && Gen(w') == Gen(w) && w'.run.status.restartCount == w.run.status.restartCount
            && (w'.run.status.phase == Paused ==> ProofReady(w.run.status) && forall g | g in w'.pods :: w'.pods[g].deleting)
  {
    hide Retryable, Budget, BuildRunSpec, StatusAfter, LedgerAfter, Generation, Holds, AfterStart;
    if e.Api? {
      FieldsAfter(w.run.status, e.x);
    } else {
      OnlyTheOperatorWritesStatus(cfg, w, e);
    }
  }

  // ---- the pinned checkpoint ------------------------------------------------------------------

  /** From the commit of a pause proof until the resumed pod is seen Running, or
      the run is canceled. */
  predicate Held(w: World) {
    var st := w.run.status;
    (st.phase == Pausing && ProofReady(st)) || st.phase == Paused || ResumeIsPending(w) || st.phase == Canceled
  }

  lemma HeldWrite(cfg: Config, w: World, x: Write)
    requires Guard(cfg, w, x) && PauseIsProven(cfg, w) && Held(w)
    requires !x.ClearRecovery?
    ensures Held(Apply(w, x)) && Apply(w, x).run.status.lastCheckpoint == w.run.status.lastCheckpoint
  {
    hide Retryable, Budget, BuildRunSpec, StatusAfter, PodsAfter, LedgerAfter, Generation, Holds;
    ConditionsAfter(w.run.status, x);
    FieldsAfter(w.run.status, x);
  }

  /** Clearing the recovery conditions puts a new generation among the observed. */
  lemma ClearingObserves(cfg: Config, w: World, x: Write)
    requires Guard(cfg, w, x) && PauseIsProven(cfg, w) && ObservedIsKept(w) && Held(w) && x.ClearRecovery?
    ensures Apply(w, x).ledger.observed != w.ledger.observed
  {
    hide Retryable, Budget, BuildRunSpec, StatusAfter, PodsAfter, Generation, Holds;
    assert Gen(w) in Apply(w, x).ledger.observed;
  }

  lemma HeldEvent(cfg: Config, w: World, e: Event)
    requires Possible(cfg, w, e) && PauseIsProven(cfg, w) && ObservedIsKept(w) && Held(w)
    requires Happens(cfg, w, e).ledger.observed == w.ledger.observed
    ensures Held(Happens(cfg, w, e))
    ensures Happens(cfg, w, e).run.status.lastCheckpoint == w.run.status.lastCheckpoint
  {
    hide Guard, Apply, AfterStart, Generation, Holds;
    if !e.Api? {
      OnlyTheOperatorWritesStatus(cfg, w, e);
    } else if e.x.ClearRecovery? {
      ClearingObserves(cfg, w, e.x);
    } else {
      HeldWrite(cfg, w, e.x);
    }
  }

  lemma {:induction false} HeldHistory(cfg: Config, w: World, es: seq<Event>)
    requires History(cfg, w, es) && Sound(cfg, w) && ObservedIsKept(w) && Held(w)
    requires End(cfg, w, es).ledger.observed == w.ledger.observed
    ensures Held(End(cfg, w, es)) && End(cfg, w, es).run.status.lastCheckpoint == w.run.status.lastCheckpoint
    decreases |es|
  {
    hide Possible, Happens, Held, ObservedIsKept, PauseIsProven, ProofIsEarned;
    if es != [] {
      var w1 := Happens(cfg, w, es[0]);
      GenerationStep(cfg, w, es[0]);
      GenerationHistory(cfg, w1, es[1..]);
      SoundEvent(cfg, w, es[0]);
      ObservedEvent(cfg, w, es[0]);
      HeldEvent(cfg, w, es[0]);
      HeldHistory(cfg, w1, es[1..]);
    }
  }

  /** A start on a blank volume while a resume is pending: the pinned checkpoint
      or nothing. */
  lemma PinnedStart(cfg: Config, v: World, g: nat, clone: CloneOutcome, left: Tree)
    requires WorkspaceSafety.Sound(cfg, v) && Sound(cfg, v)
    requires ResumeIsPending(v) && MayStart(v, g) && Blank(v)
    ensures v.run.status.lastCheckpoint.Some?
    ensures var key := v.run.status.lastCheckpoint.value.uri;
            var v' := AfterStart(cfg, v, g, clone, left);
            && v.spec == Some(RunSpec(true, true, key))
            && (Started(v'.pods[g]) && key != "" ==>
                  Valid(v.bucket, key) && v'.pvc.value.restored == Some(Loading(v.bucket, key)))
  {
    hide AfterStart, Valid, Loading, Unpacked, Holds;
    StartRestores(cfg, v, g, clone, left);
    var key := v.run.status.lastCheckpoint.value.uri;
    if key != "" {
      ExplicitLoadNeverFallsBack(v.bucket, key);
    }
  }

  lemma FreshIsProven(cfg: Config, w: World)
    requires Fresh(w)
    ensures Sound(cfg, w) && ObservedIsKept(w)
  {
  }

  /** From the commit of a pause proof and until the resumed pod is seen Running,
      whatever happens in between, the recorded checkpoint stays the same. A pod
      of the resumed run that starts on a lost and re-made volume starts on
      exactly that checkpoint, loaded from the key that was recorded. */
  lemma ResumeRestoresThePausedCheckpoint(cfg: Config, w0: World, before: seq<Action>, after: seq<Action>,
                                          g: nat, clone: CloneOutcome, left: Tree)
    requires Fresh(w0) && Feasible(cfg, w0, before)
    requires Held(After(cfg, w0, before)) && Feasible(cfg, After(cfg, w0, before), after)
    requires After(cfg, After(cfg, w0, before), after).ledger.observed == After(cfg, w0, before).ledger.observed
    ensures var w := After(cfg, w0, before);
            var v := After(cfg, w, after);
            && v.run.status.lastCheckpoint == w.run.status.lastCheckpoint
            && (ResumeIsPending(v) && MayStart(v, g) && Blank(v) ==>
                  && w.run.status.lastCheckpoint.Some?
                  && var key := w.run.status.lastCheckpoint.value.uri;
                     var v' := AfterStart(cfg, v, g, clone, left);
                     && v.spec == Some(RunSpec(true, true, key))
                     && (Started(v'.pods[g]) && key != "" ==>
                           Valid(v.bucket, key) && v'.pvc.value.restored == Some(Loading(v.bucket, key))))
  {
    hide Plan, Possible, Happens, Valid, Loading, Hydrated, PauseIsProven, ProofIsEarned, ObservedIsKept, Held,
         PastPodsGo, SpecIsCurrent, BlankIsMarked, RecoveryIsLater;
    var w := After(cfg, w0, before);
    var es, es' := Events(cfg, w0, before), Events(cfg, w, after);
    ExecutionIsHistory(cfg, w0, before);
    ExecutionIsHistory(cfg, w, after);
    FreshIsProven(cfg, w0);
    FreshIsSound(cfg, w0);
    SoundHistory(cfg, w0, es);
    ObservedHistory(cfg, w0, es);
    HeldHistory(cfg, w, es');
    SoundHistory(cfg, w, es');
    WorkspaceSafety.SoundHistory(cfg, w0, es);
    WorkspaceSafety.SoundHistory(cfg, w, es');
    var v := After(cfg, w, after);
    if ResumeIsPending(v) && MayStart(v, g) && Blank(v) {
      PinnedStart(cfg, v, g, clone, left);
    }
  }

  // ---- one proof for the whole run --------------------------------------------------------------

  /** Writes and execs that take or store a pause checkpoint. */
  predicate TakesProof(e: Event) {
    e.Api? && (e.x.Quiesce? || e.x.TakeCheckpoint? || e.x.CommitProof?)
  }

  lemma ProofStays(cfg: Config, w: World, e: Event)
    requires Possible(cfg, w, e) && ProofReady(w.run.status)
    ensures !TakesProof(e) && (cfg.storage ==> ProofReady(Happens(cfg, w, e).run.status))
  {
    hide Retryable, Budget, BuildRunSpec, StatusAfter, PodsAfter, LedgerAfter, Generation, Holds, AfterStart, Unrequested, Released, Recorded;
    if e.Api? {
      ConditionsAfter(w.run.status, e.x);
      FieldsAfter(w.run.status, e.x);
    } else {
      OnlyTheOperatorWritesStatus(cfg, w, e);
    }
  }

  lemma {:induction false} NoFurtherProof(cfg: Config, w: World, es: seq<Event>)
    requires History(cfg, w, es) && (cfg.storage ==> ProofReady(w.run.status))
    ensures forall i | 0 <= i < |es| :: !TakesProof(es[i])
    decreases |es|
  {
    hide Happens, ProofReady, TakesProof;
    if es != [] {
      if cfg.storage {
        ProofStays(cfg, w, es[0]);
      } else {
        NoProofWithoutStorage(cfg, w, es[0]);
      }
      NoFurtherProof(cfg, Happens(cfg, w, es[0]), es[1..]);
      forall i | 0 <= i < |es| ensures !TakesProof(es[i]) {
        assert i > 0 ==> es[i] == es[1..][i - 1];
      }
    }
  }

  lemma NoProofWithoutStorage(cfg: Config, w: World, e: Event)
    requires Possible(cfg, w, e) && !cfg.storage
    ensures !TakesProof(e)
  {
    hide Retryable, Budget, BuildRunSpec, Generation, Holds;
  }

  /** Over every execution: once a pause proof is stored, no harness is quiesced and
      no pause checkpoint is taken again for this run, in this pause or a later one. */
  lemma OneProofPerRun(cfg: Config, w: World, acts: seq<Action>)
    requires Feasible(cfg, w, acts) && ProofReady(w.run.status)
    ensures forall e | e in Events(cfg, w, acts) :: !TakesProof(e)
  {
    hide Possible, Happens, Plan, ProofReady, TakesProof;
    ExecutionIsHistory(cfg, w, acts);
    NoFurtherProof(cfg, w, Events(cfg, w, acts));
  }
}
