/** Attempt generations: they never decrease, count exactly what was charged or
    resumed, and are not reused once their pod was seen Running. */
module Generations {
  import opened AgentRuns
  import opened Reconciliation
  import opened Runs
  import opened WorkspaceSafety

  /** Attempts begun after the first one. */
  function Begun(l: Ledger): nat {
    l.restarts + l.losses + l.resumes
  }

  lemma BegunAfter(cfg: Config, w: World, x: Write)
    ensures Begun(LedgerAfter(w, x)) == Begun(w.ledger) + (if Advances(w, x) then 1 else 0)
  {
    hide Holds, Generation, ProofReady;
  }

  lemma GenerationStep(cfg: Config, w: World, e: Event)
    requires Possible(cfg, w, e)
    ensures var w' := Happens(cfg, w, e);
            && Gen(w) <= Gen(w') <= Gen(w) + 1
            && Gen(w') - Gen(w) == Begun(w'.ledger) - Begun(w.ledger)
            && w.ledger.observed <= w'.ledger.observed
  {
    hide Guard, PodsAfter, StatusAfter, Generation, BuildRunSpec, Advances;
    if e.Api? {
      GenerationAfter(w, e.x);
      BegunAfter(cfg, w, e.x);
      assert Happens(cfg, w, e).ledger == LedgerAfter(w, e.x);
    } else {
      OnlyTheOperatorWritesStatus(cfg, w, e);
    }
  }

  lemma {:induction false} GenerationHistory(cfg: Config, w: World, es: seq<Event>)
    requires History(cfg, w, es)
    ensures var w' := End(cfg, w, es);
            && Gen(w) <= Gen(w')
            && Gen(w') - Gen(w) == Begun(w'.ledger) - Begun(w.ledger)
            && w.ledger.observed <= w'.ledger.observed
    decreases |es|
  {
    hide Possible, Happens, Generation, Begun;
    if es != [] {
      GenerationStep(cfg, w, es[0]);
      GenerationHistory(cfg, Happens(cfg, w, es[0]), es[1..]);
    }
  }

  /** From any stored object, those that predate the field included, the
      generation never goes down, no write raises it by more than one, and it
      grows by exactly the restarts charged and the manual resumes committed. */
  lemma GenerationsAreAccounted(cfg: Config, w: World, acts: seq<Action>)
    requires Feasible(cfg, w, acts)
    ensures var w' := After(cfg, w, acts);
            && Gen(w) <= Gen(w')
            && Gen(w') - Gen(w) == Begun(w'.ledger) - Begun(w.ledger)
            && (Fresh(w) ==> Gen(w') == w'.ledger.restarts + w'.ledger.losses + w'.ledger.resumes)
  {
    hide Possible, Happens, Plan;
    ExecutionIsHistory(cfg, w, acts);
    GenerationHistory(cfg, w, Events(cfg, w, acts));
  }

  // ---- no reuse ------------------------------------------------------------------------------

  /** A generation seen Running is past, or current with its pod on record and no
      recovery under way. */
  predicate ObservedIsKept(w: World) {
    forall g | g in w.ledger.observed ::
      g < Gen(w) || (g == Gen(w) && Recorded(w) && !Holds(w.run.status, Resuming))
  }

  lemma RecordAfterWrite(cfg: Config, w: World, x: Write)
    requires Guard(cfg, w, x) && !Advances(w, x)
    ensures Recorded(w) && !Holds(w.run.status, Resuming)
        ==> Recorded(Apply(w, x)) && !Holds(Apply(w, x).run.status, Resuming)
    ensures x.ClearRecovery? || x.Observe? ==> Recorded(Apply(w, x)) && !Holds(Apply(w, x).run.status, Resuming)
  {
    hide Retryable, EnterGuard, Budget, BuildRunSpec, StatusAfter, PodsAfter, LedgerAfter, Generation, Holds;
    ConditionsAfter(w.run.status, x);
    FieldsAfter(w.run.status, x);
  }

  lemma ObservedWrite(cfg: Config, w: World, x: Write)
    requires Guard(cfg, w, x) && ObservedIsKept(w)
    ensures ObservedIsKept(Apply(w, x))
  {
    hide Guard, PodsAfter, StatusAfter, Generation, BuildRunSpec, Advances, Holds, Recorded;
    GenerationAfter(w, x);
    if !Advances(w, x) {
      RecordAfterWrite(cfg, w, x);
    }
    assert Apply(w, x).ledger == LedgerAfter(w, x);
    ObservingWrites(w, x);
  }

  lemma ObservingWrites(w: World, x: Write)
    ensures LedgerAfter(w, x).observed == w.ledger.observed + (if x.ClearRecovery? || x.Observe? then {Gen(w)} else {})
    ensures x.ClearRecovery? || x.Observe? ==> !Advances(w, x)
  {
    hide Generation, Holds, ProofReady;
  }

  lemma ObservedEvent(cfg: Config, w: World, e: Event)
    requires Possible(cfg, w, e) && ObservedIsKept(w)
    ensures ObservedIsKept(Happens(cfg, w, e))
  {
    hide Guard, Apply, AfterStart, Generation, Holds;
    if e.Api? {
      ObservedWrite(cfg, w, e.x);
    } else {
      OnlyTheOperatorWritesStatus(cfg, w, e);
    }
  }

  lemma {:induction false} ObservedHistory(cfg: Config, w: World, es: seq<Event>)
    requires ObservedIsKept(w) && History(cfg, w, es)
    ensures ObservedIsKept(End(cfg, w, es))
    decreases |es|
  {
    hide Possible, Happens, ObservedIsKept;
    if es != [] {
      ObservedEvent(cfg, w, es[0]);
      ObservedHistory(cfg, Happens(cfg, w, es[0]), es[1..]);
    }
  }

  /** Once the pod of an attempt was seen Running, no pod of that attempt or an
      earlier one is created again, wherever the operator died in between. */
  lemma NoAttemptIsReused(cfg: Config, w0: World, acts: seq<Action>)
    requires Fresh(w0) && Feasible(cfg, w0, acts)
    ensures var w := After(cfg, w0, acts);
            Guard(cfg, w, CreatePod) ==> Gen(w) in Apply(w, CreatePod).pods && forall g | g in w.ledger.observed :: g < Gen(w)
  {
    hide Possible, Happens, Plan, Generation, Holds, BuildRunSpec;
    ExecutionIsHistory(cfg, w0, acts);
    ObservedHistory(cfg, w0, Events(cfg, w0, acts));
  }
}
