/** `internal/controller/agentrun_controller.go`: the reconciler as the code has
    it, working on an in-memory copy of the object and writing to an API server
    at which any call may fail or be the last one before the operator dies. */
module Controller {
  import opened Basics
  import opened Checkpoints
  import opened AgentRuns
  import opened Reconciliation
  import Outcomes

  datatype VolumeResult = VolumeReady | WorkspaceLost | WorkspaceRestoring | VolumeError

  /** How the API server answers a call, or that the operator dies during it; and
      whether the call took effect all the same. */
  datatype Answer = Answer(ok: bool, applied: bool)

  datatype PodResult = Found | Disappeared | Forbidden | PodError

  class Reconciler {
    const cfg: Config

    // What the cluster holds for this run.
    var stored: AgentRun
    var pods: map<nat, Pod>
    var pvc: Option<Pvc>
    var spec: Option<RunSpec>
    var bucket: Objects

    /** The copy the operator reads and edits before writing it back. */
    var run: AgentRun

    /** The answers to the calls to come; without one a call works. */
    var answers: seq<Answer>

    ghost var ledger: Ledger
    ghost var log: seq<Write>

    /** Every call to come works. */
    ghost predicate Smooth()
      reads this
    {
      forall i | 0 <= i < |answers| :: answers[i].ok
    }

    ghost function View(): World
      reads this
    {
      World(stored, pods, pvc, spec, bucket, ledger)
    }

    /** This reconcile wrote a prefix of the plan, all of it if ok. */
    ghost predicate Did(before: World, prior: seq<Write>, plan: seq<Write>, ok: bool)
      reads this
    {
      Followed(before, prior, plan, log, View(), ok) && (ok ==> run == stored)
    }

    constructor (cfg: Config, w: World, answers: seq<Answer>)
      ensures this.cfg == cfg && View() == w && log == [] && this.answers == answers
    {
      this.cfg, this.answers := cfg, answers;
      stored, pods, pvc, spec, bucket, run := w.run, w.pods, w.pvc, w.spec, w.bucket, w.run;
      ledger, log := w.ledger, [];
    }

    // ---- calls to the API server ---------------------------------------------------

    method Call() returns (a: Answer)
      modifies `answers
      ensures old(Smooth()) ==> a.ok && Smooth()
    {
      if answers == [] {
        return Answer(true, true);
      }
      a := answers[0];
      answers := answers[1..];
    }

    /** Status().Update. */
    method UpdateStatus(ghost x: Write) returns (ok: bool)
      requires Apply(View(), x) == View().(run := stored.(status := run.status), ledger := LedgerAfter(View(), x))
      requires run == stored.(status := run.status)
      modifies `stored, `ledger, `log, `answers
      ensures Did(old(View()), old(log), [x], ok)
      ensures old(Smooth()) ==> ok && Smooth()
    {
      ghost var w := View();
      OneWrite(w, log, x);
      var a := Call();
      ok := a.ok;
      if ok || a.applied {
        stored, ledger, log := run, LedgerAfter(w, x), log + [x];
      }
    }

    /** Update of the annotations. */
    method Update(ghost x: Write) returns (ok: bool)
      requires x == ClearPause || x == ClearResume
      requires Apply(View(), x) == View().(run := run)
      modifies `stored, `log, `answers
      ensures Did(old(View()), old(log), [x], ok)
      ensures old(Smooth()) ==> ok && Smooth()
    {
      ghost var w := View();
      OneWrite(w, log, x);
      var a := Call();
      ok := a.ok;
      if ok || a.applied {
        stored, log := run, log + [x];
      }
    }

    /** Delete of the current pod, which was found. */
    method DeletePodCall() returns (ok: bool)
      requires run == stored && Generation(run.status) in pods
      modifies `pods, `log, `answers
      ensures Did(old(View()), old(log), [DeletePod], ok)
      ensures old(Smooth()) ==> ok && Smooth()
    {
      ghost var w := View();
      OneWrite(w, log, DeletePod);
      var a := Call();
      ok := a.ok;
      if ok || a.applied {
        var g := Generation(run.status);
        pods, log := pods[g := pods[g].(deleting := true)], log + [DeletePod];
      }
    }

    method CreatePodCall() returns (ok: bool)
      requires run == stored
      modifies `pods, `log, `answers
      ensures Did(old(View()), old(log), [CreatePod], ok)
      ensures old(Smooth()) ==> ok && Smooth()
    {
      ghost var w := View();
      OneWrite(w, log, CreatePod);
      var a := Call();
      ok := a.ok;
      if ok || a.applied {
        pods, log := pods[Generation(run.status) := Pod(PodPending, false, false)], log + [CreatePod];
      }
    }

    method CreateWorkspacePVC() returns (ok: bool)
      requires run == stored
      modifies `pvc, `ledger, `log, `answers
      ensures Did(old(View()), old(log), [CreatePvc], ok)
      ensures old(Smooth()) ==> ok && Smooth()
    {
      ghost var w := View();
      OneWrite(w, log, CreatePvc);
      var a := Call();
      ok := a.ok;
      if ok || a.applied {
        pvc, ledger, log := Some(Pvc(stored.status.phase != Pending, None, map[])), LedgerAfter(w, CreatePvc), log + [CreatePvc];
      }
    }

    /** ensureRunSpec: CreateOrUpdate writes only a change. */
    method EnsureRunSpec() returns (ok: bool)
      requires run == stored
      modifies `spec, `log, `answers
      ensures Did(old(View()), old(log), if old(spec) == Some(BuildRunSpec(old(run.status))) then [] else [PutSpec], ok)
      ensures old(Smooth()) ==> ok && Smooth()
    {
      ghost var w := View();
      OneWrite(w, log, PutSpec);
      FollowedNothing(w, log, []);
      var desired := BuildRunSpec(run.status);
      if spec == Some(desired) {
        return true;
      }
      var a := Call();
      ok := a.ok;
      if ok || a.applied {
        spec, log := Some(desired), log + [PutSpec];
      }
    }

    // ---- execs into the pod -----------------------------------------------------------

    /** quiesce or unquiesce, and whether the operator lives to see how it went. */
    method Execute(ghost x: Write, quiesced: bool, works: bool) returns (alive: bool, worked: bool)
      requires x == if quiesced then Quiesce else Unquiesce
      requires run == stored && Generation(run.status) in pods
      modifies `pods, `ledger, `log, `answers
      ensures worked <==> Reaches(old(View()), works)
      ensures worked ==> Did(old(View()), old(log), [x], alive)
      ensures old(Smooth()) ==> alive && Smooth()
      ensures !worked ==> View() == old(View()) && log == old(log)
    {
      ghost var w := View();
      OneWrite(w, log, x);
      var a := Call();
      alive := a.ok;
      var g := Generation(run.status);
      worked := works && pods[g].phase == PodRunning;
      if worked {
        pods, ledger, log := pods[g := pods[g].(quiesced := quiesced)], LedgerAfter(w, x), log + [x];
      }
    }

    /** checkpoint-once; None when the exec fails. */
    method ExecuteCheckpoint(once: Once, published: Objects) returns (alive: bool)
      requires run == stored
      modifies `bucket, `ledger, `log, `answers
      ensures Did(old(View()), old(log),
                  [TakeCheckpoint(published, if once.Printed? && Complete(once.proof) then Some(once.proof.ref) else None)], alive)
      ensures old(Smooth()) ==> alive && Smooth()
    {
      ghost var w := View();
      ghost var x := TakeCheckpoint(published, if once.Printed? && Complete(once.proof) then Some(once.proof.ref) else None);
      OneWrite(w, log, x);
      var a := Call();
      alive := a.ok;
      bucket, ledger, log := published, LedgerAfter(w, x), log + [x];
    }

    // ---- phases ------------------------------------------------------------------------

    /** setPhase. */
    method SetPhase(p: Phase) returns (ok: bool)
      requires run == stored
      modifies `stored, `run, `ledger, `log, `answers
      ensures Did(old(View()), old(log), [Enter(p)], ok)
      ensures old(Smooth()) ==> ok && Smooth()
    {
      run := run.(status := WithPhase(run.status, p));
      ok := UpdateStatus(Enter(p));
    }

    /** setPhaseIfChanged. */
    method SetPhaseIfChanged(p: Phase) returns (ok: bool)
      requires run == stored
      modifies `stored, `run, `ledger, `log, `answers
      ensures Did(old(View()), old(log), EnterIfChanged(old(View()), p), ok)
      ensures old(Smooth()) ==> ok && Smooth()
    {
      if run.status.phase == p {
        FollowedNothing(View(), log, []);
        return true;
      }
      ok := SetPhase(p);
    }

    /** deleteCurrentPod. */
    method DeleteCurrentPod() returns (ok: bool)
      requires run == stored
      modifies `pods, `log, `answers
      ensures Did(old(View()), old(log), DeleteThen(old(View()), []), ok)
      ensures old(Smooth()) ==> ok && Smooth()
    {
      if Generation(run.status) !in pods {
        FollowedNothing(View(), log, []);
        return true;
      }
      assert [DeletePod] + [] == [DeletePod];
      ok := DeletePodCall();
    }

    /** cancel. */
    method Cancel() returns (ok: bool)
      requires run == stored
      modifies this
      ensures Did(old(View()), old(log), CancelPlan(old(View())), ok)
      ensures old(Smooth()) ==> ok && Smooth()
    {
      hide Apply, Perform;
      ghost var w, l := View(), log;
      ok := DeleteCurrentPod();
      DeletedThen(w, [Enter(Canceled)]);
      FollowedLoose(w, l, DeleteThen(w, []), [Enter(Canceled)], log, View(), ok);
      if ok {
        ghost var w1, l1 := View(), log;
        ok := SetPhase(Canceled);
        FollowedOn(w, l, DeleteThen(w, []), l1, w1, [Enter(Canceled)], log, View(), ok);
      }
    }

    // ---- pause ---------------------------------------------------------------------------

    /** abortPause; `pod` when the caller found one. */
    method AbortPause(pod: bool, obs: Obs) returns (ok: bool)
      requires run == stored
      requires pod ==> Generation(run.status) in pods
      modifies this
      ensures Did(old(View()), old(log), AbortPlan(cfg, old(View()), pod, obs), ok)
      ensures old(Smooth()) ==> ok && Smooth()
    {
      hide Apply, Perform, Followed;
      ghost var w, l := View(), log;
      ghost var tail := [ClearPause, AbandonPause];
      if pod && cfg.executor {
        var alive, worked := Execute(Unquiesce, false, obs.unquiesce);
        FollowedNothing(w, l, tail);
        if worked {
          assert [Unquiesce] + tail == [Unquiesce, ClearPause, AbandonPause];
          FollowedLoose(w, l, [Unquiesce], tail, log, View(), alive);
        }
        if !alive {
          return false;
        }
        ghost var w1, l1 := View(), log;
        ok := GiveUp();
        if worked {
          FollowedOn(w, l, [Unquiesce], l1, w1, tail, log, View(), ok);
        }
      } else {
        ok := GiveUp();
      }
    }

    /** abortPause from the clearing of the annotation on. */
    method GiveUp() returns (ok: bool)
      requires run == stored
      modifies this
      ensures Did(old(View()), old(log), [ClearPause, AbandonPause], ok)
      ensures old(Smooth()) ==> ok && Smooth()
    {
      ghost var w, l := View(), log;
      run := run.(pause := false);
      ok := Update(ClearPause);
      assert [ClearPause] + [AbandonPause] == [ClearPause, AbandonPause];
      FollowedLoose(w, l, [ClearPause], [AbandonPause], log, View(), ok);
      if ok {
        ghost var w1, l1 := View(), log;
        run := run.(status := SetCondition(SetCondition(run.status.(phase := Running), PauseCheckpointReady, false), Ready, true));
        ok := UpdateStatus(Reconciliation.AbandonPause);
        FollowedOn(w, l, [ClearPause], l1, w1, [AbandonPause], log, View(), ok);
      }
    }
    /** publishPauseCheckpoint. */
    method PublishPauseCheckpoint(obs: Obs) returns (ok: bool)
      requires run == stored
      modifies this
      ensures Did(old(View()), old(log), PublishPlan(cfg, old(View()), obs), ok)
      ensures old(Smooth()) ==> ok && Smooth()
    {
      hide Apply, Perform, Followed, Complete;
      ghost var w, l := View(), log;
      if !cfg.executor {
        ok := AbortPause(false, obs);
        return;
      }
      if Generation(run.status) !in pods {
        ok := SetPhase(Failed);
        return;
      }
      var alive, worked := Execute(Quiesce, true, obs.quiesce);
      if !worked {
        if !alive {
          FollowedNothing(w, l, PublishPlan(cfg, w, obs));
          return false;
        }
        ok := AbortPause(true, obs);
        return;
      }
      if !alive {
        FollowedLoose(w, l, [Quiesce], ProofPlan(cfg, w, obs), log, View(), false);
        return false;
      }
      ghost var w1, l1 := View(), log;
      FollowedOne(w, l, Quiesce, l1, w1);
      QuiescedStill(cfg, w, obs);
      ok := ProveOrAbort(obs);
      FollowedOn(w, l, [Quiesce], l1, w1, ProofPlan(cfg, w, obs), log, View(), ok);
    }

    /** publishPauseCheckpoint once the harness is quiesced. */
    method ProveOrAbort(obs: Obs) returns (ok: bool)
      requires run == stored && Generation(run.status) in pods
      modifies this
      ensures Did(old(View()), old(log), ProofPlan(cfg, old(View()), obs), ok)
      ensures old(Smooth()) ==> ok && Smooth()
    {
      hide Apply, Perform, Followed;
      ghost var w, l := View(), log;
      ghost var taken := TakeCheckpoint(obs.published, if obs.once.Printed? && Complete(obs.once.proof) then Some(obs.once.proof.ref) else None);
      ghost var rest := ProofPlan(cfg, w, obs)[1..];
      ok := ExecuteCheckpoint(obs.once, obs.published);
      FollowedLoose(w, l, [taken], rest, log, View(), ok);
      assert [taken] + rest == ProofPlan(cfg, w, obs);
      if !ok {
        return;
      }
      ghost var w1, l1 := View(), log;
      if obs.once.ExecFailed? || obs.once.proof.Garbled? || !Complete(obs.once.proof) {
        ok := AbortPause(true, obs);
        FollowedOne(w, l, taken, l1, w1);
        TakenLeaves(w, taken);
        SameAbort(cfg, w, w1, obs);
      } else {
        var p := obs.once.proof;
        run := run.(status := SetCondition(run.status.(lastCheckpoint := Some(p.ref)), PauseCheckpointReady, true));
        if p.warning {
          run := run.(status := SetCondition(run.status, CheckpointRetention, false));
        }
        ok := StoreProof(p);
      }
      FollowedOn(w, l, [taken], l1, w1, rest, log, View(), ok);
    }

    method StoreProof(p: Proof) returns (ok: bool)
      requires p.Proof? && run == stored.(status := StatusAfter(stored.status, CommitProof(p.ref, p.warning)))
      modifies this
      ensures Did(old(View()), old(log), [CommitProof(p.ref, p.warning)], ok)
      ensures old(Smooth()) ==> ok && Smooth()
    {
      ok := UpdateStatus(CommitProof(p.ref, p.warning));
    }

    /** removeCheckpointedPod. */
    method RemoveCheckpointedPod() returns (ok: bool)
      requires run == stored
      modifies this
      ensures Did(old(View()), old(log), RemovePlan(old(View())), ok)
      ensures old(Smooth()) ==> ok && Smooth()
    {
      hide Apply, Perform, Followed;
      ghost var w, l := View(), log;
      if Generation(run.status) in pods {
        ok := DeletePodCall();
        return;
      }
      assert [ClearPause] + [Enter(Paused)] == [ClearPause, Enter(Paused)];
      ok := ClearPauseRequest();
      FollowedLoose(w, l, [ClearPause], [Enter(Paused)], log, View(), ok);
      if ok {
        ghost var w1, l1 := View(), log;
        ok := SetPhase(Paused);
        FollowedOn(w, l, [ClearPause], l1, w1, [Enter(Paused)], log, View(), ok);
      }
    }

    method ClearPauseRequest() returns (ok: bool)
      requires run == stored
      modifies this
      ensures Did(old(View()), old(log), [ClearPause], ok)
      ensures old(Smooth()) ==> ok && Smooth()
    {
      run := run.(pause := false);
      ok := Update(ClearPause);
    }

    /** pause. */
    method Pause(obs: Obs) returns (ok: bool)
      requires run == stored
      modifies this
      ensures Did(old(View()), old(log), PausePlan(cfg, old(View()), obs), ok)
      ensures old(Smooth()) ==> ok && Smooth()
    {
      hide Perform, Followed;
      if !cfg.storage {
        ok := AbortPause(false, obs);
      } else if run.status.phase != Pausing {
        run := run.(status := SetCondition(run.status.(phase := Pausing), Ready, false));
        ok := UpdateStatus(BeginPause);
      } else if !Holds(run.status, PauseCheckpointReady) || run.status.lastCheckpoint.None? {
        ok := PublishPauseCheckpoint(obs);
      } else {
        ok := RemoveCheckpointedPod();
      }
    }

    // ---- resume ----------------------------------------------------------------------------

    /** resume. */
    method ResumeRun() returns (ok: bool)
      requires run == stored
      modifies this
      ensures Did(old(View()), old(log), ResumePlan(old(View())), ok)
      ensures old(Smooth()) ==> ok && Smooth()
    {
      hide Apply, Perform, Followed;
      ghost var w, l := View(), log;
      var wasPaused := run.status.phase == Paused;
      ghost var rest := [ClearResume, RecordResume];
      assert [ClearResume] + [RecordResume] == rest;
      ok := DeleteCurrentPod();
      DeletedThen(w, rest);
      FollowedLoose(w, l, DeleteThen(w, []), rest, log, View(), ok);
      if !ok {
        return;
      }
      ghost var w1, l1 := View(), log;
      ok := ClearResumeRequest();
      FollowedLoose(w1, l1, [ClearResume], [RecordResume], log, View(), ok);
      if ok {
        ghost var w2, l2 := View(), log;
        ok := StoreResume(wasPaused);
        FollowedOn(w1, l1, [ClearResume], l2, w2, [RecordResume], log, View(), ok);
      }
      FollowedOn(w, l, DeleteThen(w, []), l1, w1, rest, log, View(), ok);
    }

    method ClearResumeRequest() returns (ok: bool)
      requires run == stored
      modifies this
      ensures Did(old(View()), old(log), [ClearResume], ok)
      ensures old(Smooth()) ==> ok && Smooth()
      ensures run.status == old(run.status)
    {
      run := run.(resume := false);
      ok := Update(ClearResume);
    }

    /** resume from the advance of the attempt on. */
    method StoreResume(wasPaused: bool) returns (ok: bool)
      requires run == stored && wasPaused == (run.status.phase == Paused)
      modifies this
      ensures Did(old(View()), old(log), [RecordResume], ok)
      ensures old(Smooth()) ==> ok && Smooth()
    {
      var st := Advanced(run.status);
      if !wasPaused {
        st := st.(restartCount := 0);
      }
      if wasPaused {
        st := SetCondition(st, PauseResumePending, true);
      }
      st := st.(phase := Interrupted);
      st := SetCondition(st, Resumed, true);
      st := SetCondition(st, Resuming, true);
      run := run.(status := st);
      ok := UpdateStatus(RecordResume);
    }

    /** handleRequestedTransition: handled unless it lets the reconcile go on. */
    method HandleRequestedTransition(obs: Obs) returns (handled: bool, ok: bool)
      requires run == stored
      modifies this
      ensures handled <==> RequestPlan(cfg, old(View()), obs).Some?
      ensures handled ==> Did(old(View()), old(log), RequestPlan(cfg, old(View()), obs).value, ok)
      ensures old(Smooth()) ==> ok && Smooth()
      ensures !handled ==> ok && View() == old(View()) && log == old(log) && run == stored
    {
      hide Apply, Perform, Followed, CancelPlan, ResumePlan, PausePlan;
      ghost var w, l := View(), log;
      FollowedNothing(w, l, []);
      handled, ok := true, true;
      if run.status.phase == Paused {
        if run.cancel {
          ok := Cancel();
        } else if run.resume {
          ok := ResumeRun();
        }
      } else if IsTerminal(run.status.phase) {
        if run.status.phase == Failed && run.resume {
          ok := ResumeRun();
        }
      } else if run.cancel {
        ok := Cancel();
      } else if run.status.phase == Pausing || run.pause {
        ok := Pause(obs);
      } else if run.status.phase == Unset {
        ok := SetPhase(Pending);
      } else {
        handled := false;
      }
    }

    // ---- the volume ---------------------------------------------------------------------------

    /** The write ensurePVC itself makes; the caller deals with a lost workspace. */
    ghost function VolumePlan(w: World): seq<Write> {
      if w.pvc.Some? then []
      else if VolumeAvailable(cfg, w) then [CreatePvc]
      else if !cfg.storage then []
      else DeleteThen(w, [RecordLoss])
    }

    /** ensurePVC. */
    method EnsurePVC() returns (r: VolumeResult)
      requires run == stored
      modifies this
      ensures Did(old(View()), old(log), VolumePlan(old(View())), r != VolumeError)
      ensures old(Smooth()) ==> r != VolumeError && Smooth()
      ensures r == VolumeReady ==> VolumeAvailable(cfg, old(View()))
      ensures r == VolumeError ==> VolumeAvailable(cfg, old(View())) || cfg.storage
      ensures r == WorkspaceLost ==> !VolumeAvailable(cfg, old(View())) && !cfg.storage
      ensures r == WorkspaceRestoring ==> !VolumeAvailable(cfg, old(View())) && cfg.storage
    {
      hide Apply, Perform, Followed;
      ghost var w, l := View(), log;
      FollowedNothing(w, l, VolumePlan(w));
      if pvc.Some? {
        return VolumeReady;
      }
      if run.status.phase == Pending {
        var ok := CreateWorkspacePVC();
        return if ok then VolumeReady else VolumeError;
      }
      if !cfg.storage {
        return WorkspaceLost;
      }
      if Holds(run.status, WorkspaceRestorePending) {
        var ok := CreateWorkspacePVC();
        return if ok then VolumeReady else VolumeError;
      }
      var deleted := DeleteCurrentPod();
      DeletedThen(w, [RecordLoss]);
      FollowedLoose(w, l, DeleteThen(w, []), [RecordLoss], log, View(), deleted);
      if !deleted {
        return VolumeError;
      }
      ghost var w1, l1 := View(), log;
      var ok := StoreLoss();
      FollowedOn(w, l, DeleteThen(w, []), l1, w1, [RecordLoss], log, View(), ok);
      r := if ok then WorkspaceRestoring else VolumeError;
    }

    /** ensurePVC from the accounting of the loss on. */
    method StoreLoss() returns (ok: bool)
      requires run == stored
      modifies this
      ensures Did(old(View()), old(log), [RecordLoss], ok)
      ensures old(Smooth()) ==> ok && Smooth()
    {
      var st := run.status;
      if !Holds(st, Resuming) {
        st := Advanced(st);
        st := st.(restartCount := st.restartCount + 1);
      } else {
        st := st.(podName := None);
      }
      st := st.(phase := Interrupted);
      st := SetCondition(st, WorkspaceRestorePending, true);
      run := run.(status := st);
      ok := UpdateStatus(RecordLoss);
    }

    /** ensurePrerequisites. */
    method EnsurePrerequisites() returns (handled: bool, ok: bool)
      requires run == stored
      modifies this
      ensures ok ==> (handled <==> !VolumeAvailable(cfg, old(View())))
      ensures !ok ==> handled
      ensures Did(old(View()), old(log),
                  if VolumeAvailable(cfg, old(View())) then PrerequisitePlan(old(View())) else LossPlan(cfg, old(View())), ok)
      ensures old(Smooth()) ==> ok && Smooth()
      ensures ok && !handled ==> run == old(run) && pods == old(pods)
    {
      hide Apply, Perform, Followed, Holds, BuildRunSpec;
      ghost var w, l := View(), log;
      ghost var rest := if w.spec == Some(BuildRunSpec(w.run.status)) then [] else [PutSpec];
      var r := EnsurePVC();
      ghost var w1, l1 := View(), log;
      FollowedLoose(w, l, VolumePlan(w), rest, l1, w1, r != VolumeError);
      match r {
        case VolumeError => return true, false;
        case WorkspaceRestoring => return true, true;
        case WorkspaceLost =>
          FollowedNone(w, l, l1, w1);
          ok := FailLost();
          return true, ok;
        case VolumeReady =>
      }
      FollowedVolume(w, l, l1, w1);
      ok := EnsureRunSpec();
      FollowedOn(w, l, VolumePlan(w), l1, w1, rest, log, View(), ok);
      handled := !ok;
    }

    /** What ensurePrerequisites does about a workspace that is lost for good. */
    method FailLost() returns (ok: bool)
      requires run == stored
      modifies this
      ensures Did(old(View()), old(log), DeleteThen(old(View()), [Enter(Failed)]), ok)
      ensures old(Smooth()) ==> ok && Smooth()
    {
      hide Apply, Perform, Followed;
      ghost var w, l := View(), log;
      ok := DeleteCurrentPod();
      DeletedThen(w, [Enter(Failed)]);
      FollowedLoose(w, l, DeleteThen(w, []), [Enter(Failed)], log, View(), ok);
      if ok {
        ghost var w1, l1 := View(), log;
        ok := SetPhase(Failed);
        FollowedOn(w, l, DeleteThen(w, []), l1, w1, [Enter(Failed)], log, View(), ok);
      }
    }

    // ---- the pod --------------------------------------------------------------------------------

    /** ensurePod; admission may forbid the pod for good. */
    method EnsurePod(forbidden: bool) returns (r: PodResult)
      requires run == stored
      modifies `pods, `log, `answers
      ensures Did(old(View()), old(log), if NeedsPod(old(View())) && !forbidden then [CreatePod] else [], r != PodError)
      ensures old(Smooth()) ==> r != PodError && Smooth()
      ensures r == Disappeared ==> Gen(old(View())) !in old(pods) && Recorded(old(View()))
      ensures r == Forbidden ==> NeedsPod(old(View())) && forbidden
      ensures r == Found && NeedsPod(old(View())) ==> !forbidden
      ensures r == Found ==> Gen(old(View())) in pods
      ensures r == Found && Recorded(old(View())) ==> Gen(old(View())) in old(pods)
      ensures r == PodError ==> NeedsPod(old(View())) && !forbidden
    {
      hide Apply, Perform, Followed;
      ghost var w, l := View(), log;
      FollowedNothing(w, l, []);
      if Generation(run.status) in pods {
        return Found;
      }
      if run.status.podName == Some(Generation(run.status)) {
        return Disappeared;
      }
      if forbidden {
        return Forbidden;
      }
      var ok := CreatePodCall();
      if !ok {
        return PodError;
      }
      FollowedOne(w, l, CreatePod, log, View());
      CreatedIsThere(w);
      r := Found;
    }

    /** clearRecoveryConditions, or the bare observation when there is nothing to clear. */
    method ClearRecoveryConditions() returns (ok: bool)
      requires run == stored
      modifies this
      ensures Did(old(View()), old(log), [if Recovering(old(run.status)) then ClearRecovery else Observe], ok)
      ensures old(Smooth()) ==> ok && Smooth()
      ensures ok ==> run == old(run).(status := StatusAfter(old(run.status), if Recovering(old(run.status)) then ClearRecovery else Observe))
    {
      hide Holds, Followed, Perform;
      var changed := false;
      var st := run.status;
      LoweredApart(st);
      if Holds(st, WorkspaceRestorePending) {
        st, changed := SetCondition(st, WorkspaceRestorePending, false), true;
      }
      if Holds(st, Resuming) {
        st, changed := SetCondition(st, Resuming, false), true;
      }
      if Holds(st, PauseResumePending) {
        st, changed := SetCondition(st, PauseResumePending, false), true;
      }
      if changed {
        run := run.(status := st);
        ok := StoreCleared();
      } else {
        ok := NoteObserved();
      }
    }

    method StoreCleared() returns (ok: bool)
      requires run == stored.(status := StatusAfter(stored.status, ClearRecovery))
      modifies this
      ensures Did(old(View()), old(log), [ClearRecovery], ok) && run == old(run)
      ensures old(Smooth()) ==> ok && Smooth()
    {
      hide Holds, Lowered;
      ok := UpdateStatus(ClearRecovery);
    }

    /** Nothing is written: only the history notes that the pod was seen Running. */
    method NoteObserved() returns (ok: bool)
      requires run == stored
      modifies this
      ensures Did(old(View()), old(log), [Observe], ok) && ok && run == old(run)
      ensures old(Smooth()) ==> ok && Smooth()
    {
      OneWrite(View(), log, Observe);
      ledger, log := LedgerAfter(View(), Observe), log + [Observe];
      ok := true;
    }

    /** The Running case of reconcilePodState. */
    method ReconcileRunningPod(obs: Obs) returns (ok: bool)
      requires run == stored
      modifies this
      ensures Did(old(View()), old(log), RunningPlan(old(View()), obs), ok)
      ensures old(Smooth()) ==> ok && Smooth()
    {
      hide Apply, Perform, Followed, Holds, Lowered, Recovering;
      ghost var w, l := View(), log;
      ghost var first := if Recovering(run.status) then ClearRecovery else Observe;
      ghost var rest := RunningPlan(w, obs)[1..];
      LoweredFacts(run.status);
      ok := ClearRecoveryConditions();
      FollowedLoose(w, l, [first], rest, log, View(), ok);
      assert [first] + rest == RunningPlan(w, obs);
      if ok {
        ghost var w1, l1 := View(), log;
        ok := ProjectRunning(obs);
        FollowedOn(w, l, [first], l1, w1, rest, log, View(), ok);
      }
    }

    /** What the Running case stores beyond the cleared conditions. */
    method ProjectRunning(obs: Obs) returns (ok: bool)
      requires run == stored
      modifies this
      ensures var st := old(run.status);
              var scraped := Scraped(st, obs.scraped);
              Did(old(View()), old(log), if scraped.Some? || st.phase != Running then [MarkRunning(scraped)] else [], ok)
      ensures old(Smooth()) ==> ok && Smooth()
    {
      hide Apply, Perform, Followed;
      FollowedNothing(View(), log, []);
      var scraped := Scraped(run.status, obs.scraped);
      var changed := scraped.Some?;
      if changed {
        run := run.(status := run.status.(lastCheckpoint := scraped));
      }
      if run.status.phase != Running {
        run := run.(status := SetCondition(run.status.(phase := Running), Ready, true));
        changed := true;
      }
      ok := true;
      if changed {
        ok := StoreRunning(scraped);
      }
    }

    method StoreRunning(scraped: Option<CheckpointRef>) returns (ok: bool)
      requires run == stored.(status := StatusAfter(stored.status, MarkRunning(scraped)))
      modifies this
      ensures Did(old(View()), old(log), [MarkRunning(scraped)], ok)
      ensures old(Smooth()) ==> ok && Smooth()
    {
      ok := UpdateStatus(MarkRunning(scraped));
    }

    /** reconcilePodState. */
    method ReconcilePodState(obs: Obs) returns (ok: bool)
      requires run == stored && Generation(run.status) in pods
      modifies this
      ensures Did(old(View()), old(log), PodStatePlan(cfg, old(View()), obs), ok)
      ensures old(Smooth()) ==> ok && Smooth()
    {
      hide Perform, Followed, RunningPlan, FailurePlan;
      var g := Generation(run.status);
      FollowedNothing(View(), log, []);
      if run.status.podName != Some(g) {
        run := run.(status := run.status.(podName := Some(g)));
        ok := UpdateStatus(RecordPod);
        return;
      }
      if pods[g].deleting {
        return true;
      }
      match pods[g].phase {
        case PodPending => ok := SetPhaseIfChanged(Provisioning);
        case PodRunning => ok := ReconcileRunningPod(obs);
        case PodSucceeded => ok := SetPhaseIfChanged(Succeeded);
        case PodFailed(containers) => ok := HandlePodFailure(containers);
        case PodUnknown => ok := true;
      }
    }

    /** The status write handleMissingPod and handlePodFailure share. */
    method StoreRestart() returns (ok: bool)
      requires run == stored
      modifies this
      ensures Did(old(View()), old(log), [Restart], ok)
      ensures old(Smooth()) ==> ok && Smooth()
    {
      var st := Advanced(run.status);
      st := st.(restartCount := st.restartCount + 1);
      st := st.(phase := Interrupted);
      run := run.(status := SetCondition(st, Resuming, true));
      ok := UpdateStatus(Restart);
    }

    /** handleMissingPod. */
    method HandleMissingPod() returns (ok: bool)
      requires run == stored
      modifies this
      ensures Did(old(View()), old(log), MissingPodPlan(cfg, old(View())), ok)
      ensures old(Smooth()) ==> ok && Smooth()
    {
      hide Apply, Perform, Followed;
      var max := cfg.maxRestarts;
      if max == 0 {
        max := 5;
      }
      if run.status.restartCount >= max {
        ok := SetPhase(Failed);
        return;
      }
      ok := StoreRestart();
    }

    /** handlePodFailure. */
    method HandlePodFailure(containers: seq<Termination>) returns (ok: bool)
      requires run == stored && Generation(run.status) in pods
      modifies this
      ensures Did(old(View()), old(log), FailurePlan(cfg, old(View()), containers), ok)
      ensures old(Smooth()) ==> ok && Smooth()
    {
      hide Apply, Perform, Followed;
      var retryable := ClassifyTermination(containers);
      var max := cfg.maxRestarts;
      if max == 0 {
        max := 5;
      }
      if !retryable || run.status.restartCount >= max {
        ok := SetPhase(Failed);
        return;
      }
      ghost var w, l := View(), log;
      ok := DeletePodCall();
      FollowedLoose(w, l, [DeletePod], [Restart], log, View(), ok);
      assert [DeletePod] + [Restart] == [DeletePod, Restart];
      if ok {
        ghost var w1, l1 := View(), log;
        ok := StoreRestart();
        FollowedOn(w, l, [DeletePod], l1, w1, [Restart], log, View(), ok);
      }
    }

    // ---- Reconcile ---------------------------------------------------------------------------------

    /** Reconcile from ensurePod on. */
    method ReconcilePod(obs: Obs) returns (ok: bool)
      requires run == stored
      modifies this
      ensures Did(old(View()), old(log), PodPlan(cfg, old(View()), obs), ok)
      ensures old(Smooth()) ==> ok && Smooth()
    {
      hide Apply, Perform, Followed, PodStatePlan, MissingPodPlan;
      ghost var w, l := View(), log;
      var r := EnsurePod(obs.forbidden);
      ghost var w1, l1 := View(), log;
      if r == PodError {
        assert [CreatePod] + [RecordPod] == [CreatePod, RecordPod];
        FollowedLoose(w, l, [CreatePod], [RecordPod], log, View(), false);
        return false;
      }
      if r == Forbidden {
        FollowedNone(w, l, l1, w1);
        ok := SetPhase(Failed);
        return;
      }
      if r == Disappeared {
        FollowedNone(w, l, l1, w1);
        ok := HandleMissingPod();
        return;
      }
      CreatedIsThere(w);
      ok := ReconcilePodState(obs);
      if NeedsPod(w) {
        FollowedOne(w, l, CreatePod, l1, w1);
        CreatedIsRecorded(cfg, w, obs);
        FollowedOn(w, l, [CreatePod], l1, w1, [RecordPod], log, View(), ok);
        assert [CreatePod] + [RecordPod] == [CreatePod, RecordPod];
      } else {
        FollowedNone(w, l, l1, w1);
      }
    }

    /** Reconcile: it carries out its plan, or a prefix of it when a call fails or
        the operator dies, and touches nothing else; when nothing fails, the run is
        left as Outcomes.Outcome says. */
    method Reconcile(obs: Obs) returns (ok: bool)
      modifies this
      ensures Did(old(View()), old(log), Plan(cfg, old(View()), obs), ok)
      ensures old(Smooth()) ==> ok && Smooth()
      ensures ok ==> Outcomes.Outcome(cfg, old(View()), obs, View())
    {
      hide Apply, Perform, Followed, RequestPlan, PrerequisitePlan, LossPlan, PodPlan, VolumeAvailable, Plan, Outcomes.Outcome;
      ok := ReconcileRun(obs);
      if ok {
        CarriedOut(cfg, old(View()), obs, old(log), log, View());
      }
    }

    method ReconcileRun(obs: Obs) returns (ok: bool)
      modifies this
      ensures Did(old(View()), old(log), Plan(cfg, old(View()), obs), ok)
      ensures old(Smooth()) ==> ok && Smooth()
    {
      hide Apply, Perform, Followed, RequestPlan, PrerequisitePlan, LossPlan, PodPlan, VolumeAvailable;
      ghost var w, l := View(), log;
      var got := Call();
      if !got.ok {
        FollowedNothing(w, l, Plan(cfg, w, obs));
        return false;
      }
      run := stored;
      var handled;
      handled, ok := HandleRequestedTransition(obs);
      if handled {
        return;
      }
      handled, ok := EnsurePrerequisites();
      if VolumeAvailable(cfg, w) {
        FollowedLoose(w, l, PrerequisitePlan(w), PodPlan(cfg, w, obs), log, View(), ok);
      }
      if handled {
        return;
      }
      ghost var w1, l1 := View(), log;
      SamePods(cfg, w, w1, obs);
      ok := ReconcilePod(obs);
      FollowedOn(w, l, PrerequisitePlan(w), l1, w1, PodPlan(cfg, w, obs), log, View(), ok);
    }
  }

  /** A plan carried out to its end leaves everything as it should be. */
  lemma CarriedOut(cfg: Config, w: World, obs: Obs, l: seq<Write>, log: seq<Write>, now: World)
    requires Followed(w, l, Plan(cfg, w, obs), log, now, true)
    ensures Outcomes.Outcome(cfg, w, obs, now)
  {
    hide Plan, Perform, Outcomes.Outcome;
    Outcomes.ReconcileEnds(cfg, w, obs);
    assert log[|l|..] == Plan(cfg, w, obs);
  }

  /** classifyTermination: the first container that did not exit 0 decides. */
  method ClassifyTermination(containers: seq<Termination>) returns (retryable: bool)
    ensures retryable == Retryable(containers)
    ensures retryable <==> Outcomes.MayHelpToRetry(containers)
  {
    Outcomes.RetryableExactly(containers);
    var i := 0;
    while i < |containers|
      invariant i <= |containers|
      invariant Retryable(containers) == Retryable(containers[i..])
    {
      var t := containers[i];
      if t.code != 0 {
        return t.oom || t.code == EXIT_RETRYABLE;
      }
      assert containers[i..][1..] == containers[i + 1..];
      i := i + 1;
    }
    retryable := true;
  }

  /** One write, issued or not. */
  lemma OneWrite(w: World, log: seq<Write>, x: Write)
    ensures Followed(w, log, [x], log + [x], Apply(w, x), true)
    ensures Followed(w, log, [x], log + [x], Apply(w, x), false)
    ensures Followed(w, log, [x], log, w, false)
  {
    hide Apply;
    assert (log + [x])[|log|..] == [x] && log[|log|..] == [];
    assert [x][1..] == [];
    assert Perform(Apply(w, x), []) == Apply(w, x);
  }

  lemma DeletedThen(w: World, rest: seq<Write>)
    ensures DeleteThen(w, []) + rest == DeleteThen(w, rest)
  {
    assert [DeletePod] + [] == [DeletePod];
  }

  lemma FollowedOne(w: World, l: seq<Write>, x: Write, log: seq<Write>, now: World)
    requires Followed(w, l, [x], log, now, true)
    ensures now == Apply(w, x)
  {
    hide Apply;
    assert log[|l|..] == [x];
    GuardedOne(Config(false, false, 0, false), w, x);
  }

  /** The three conditions are cleared independently. */
  lemma LoweredApart(st: Status)
    ensures forall c, c', v | c != c' :: Holds(SetCondition(st, c, v), c') == Holds(st, c')
    ensures forall c, c', c'', v, v' | c != c'' && c' != c'' ::
              Holds(SetCondition(SetCondition(st, c, v), c', v'), c'') == Holds(st, c'')
  {
  }

  lemma FollowedNone(w: World, l: seq<Write>, log: seq<Write>, now: World)
    requires Followed(w, l, [], log, now, true)
    ensures now == w && log == l
  {
  }

  lemma TakenLeaves(w: World, x: Write)
    requires x.TakeCheckpoint?
    ensures Apply(w, x).run == w.run && Apply(w, x).pods == w.pods
  {
  }

  lemma FollowedVolume(w: World, l: seq<Write>, log: seq<Write>, now: World)
    requires Followed(w, l, if w.pvc.Some? then [] else [CreatePvc], log, now, true)
    ensures now.run == w.run && now.pods == w.pods && now.spec == w.spec
  {
    assert log[|l|..] == if w.pvc.Some? then [] else [CreatePvc];
    GuardedOne(Config(false, false, 0, false), w, CreatePvc);
  }

  lemma CreatedIsThere(w: World)
    ensures Apply(w, CreatePod).run == w.run && Gen(w) in Apply(w, CreatePod).pods
  {
    hide Generation;
  }

  lemma CreatedIsRecorded(cfg: Config, w: World, obs: Obs)
    requires NeedsPod(w)
    ensures Gen(w) in Apply(w, CreatePod).pods && PodStatePlan(cfg, Apply(w, CreatePod), obs) == [RecordPod]
  {
    hide Generation;
  }
}
