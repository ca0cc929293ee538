/** What is on a surviving volume is what the next attempt finds. */
module WorkspaceContents {
  import opened Archives
  import opened AgentRuns
  import opened Hydration
  import opened Reconciliation
  import opened Runs
  import opened WorkspaceSafety
  import opened Outcomes

  /** Nothing that is meant to change what is on the volume: no harness writes, the
      volume does not go away, and a hydrate runs only for a later attempt with no
      restore pending. */
  predicate LeavesAlone(w: World, e: Event) {
    && !e.HarnessWrites? && !e.PvcVanishes?
    && (e.PodStarts? || e.HydrateDies? ==> Attempt(w.run.status) > 0 && !RestoreIsPending(w.run.status))
  }

  ghost predicate AllLeaveAlone(cfg: Config, w: World, es: seq<Event>)
    decreases |es|
  {
    es == [] || (Possible(cfg, w, es[0]) && LeavesAlone(w, es[0]) && AllLeaveAlone(cfg, Happens(cfg, w, es[0]), es[1..]))
  }

  /** A start of a later attempt without a pending restore changes nothing on the
      volume, whatever the cloning would have given. */
  lemma LaterStartKeepsTheDisk(cfg: Config, w: World, g: nat, clone: CloneOutcome, left: Tree)
    requires SpecIsCurrent(w) && MayStart(w, g) && Attempt(w.run.status) > 0 && !RestoreIsPending(w.run.status)
    ensures var w' := AfterStart(cfg, w, g, clone, left);
            w'.pvc == w.pvc && w'.pods[g].phase == PodRunning
    ensures w.spec.value.resume && !w.spec.value.restoreRequired
  {
    hide Restored;
    SpecIs(w.run.status);
  }

  lemma DiskAfter(cfg: Config, w: World, e: Event)
    requires SpecIsCurrent(w) && Possible(cfg, w, e) && LeavesAlone(w, e) && w.pvc.Some?
    ensures Happens(cfg, w, e).pvc == w.pvc
  {
    hide AfterStart, SpecIsCurrent, BuildRunSpec;
    if e.PodStarts? {
      LaterStartKeepsTheDisk(cfg, w, e.g, e.clone, e.left);
    } else if e.HydrateDies? {
      LaterStartKeepsTheDisk(cfg, w, e.g, CloneFailed, e.left);
    }
  }

  lemma {:induction false} DiskOver(cfg: Config, w: World, es: seq<Event>)
    requires Sound(cfg, w) && History(cfg, w, es) && AllLeaveAlone(cfg, w, es) && w.pvc.Some?
    ensures End(cfg, w, es).pvc == w.pvc
    decreases |es|
  {
    hide Possible, Happens, LeavesAlone, SpecIsCurrent, PastPodsGo, BlankIsMarked, RecoveryIsLater;
    if es != [] {
      DiskAfter(cfg, w, es[0]);
      SoundEvent(cfg, w, es[0]);
      DiskOver(cfg, Happens(cfg, w, es[0]), es[1..]);
    }
  }

  /** Over every execution: from any moment, say the last write of a harness, on to
      the next one, through restarts, pauses, resumes and operator crashes, whatever
      hydrates run in between for later attempts with no restore pending: the volume
      holds exactly what it held. */
  lemma WorkspaceIsKept(cfg: Config, w0: World, before: seq<Action>, since: seq<Action>)
    requires Fresh(w0) && Feasible(cfg, w0, before) && After(cfg, w0, before).pvc.Some?
    requires Feasible(cfg, After(cfg, w0, before), since)
    requires AllLeaveAlone(cfg, After(cfg, w0, before), Events(cfg, After(cfg, w0, before), since))
    ensures After(cfg, After(cfg, w0, before), since).pvc == After(cfg, w0, before).pvc
  {
    hide Possible, Happens, Plan, Sound, LeavesAlone;
    var w := After(cfg, w0, before);
    ExecutionIsHistory(cfg, w0, before);
    FreshIsSound(cfg, w0);
    SoundHistory(cfg, w0, Events(cfg, w0, before));
    ExecutionIsHistory(cfg, w, since);
    DiskOver(cfg, w, Events(cfg, w, since));
  }
}
