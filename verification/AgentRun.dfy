/** The AgentRun resource (`api/v1alpha1/agentrun_types.go`), the attempt
    counters of `internal/controller/pod.go`, and the cluster state one run owns. */
module AgentRuns {
  import opened Basics
  import opened Archives
  import opened Checkpoints

  datatype Phase = Unset | Pending | Provisioning | Running | Pausing | Paused | Interrupted | Succeeded | Failed | Canceled

  datatype Condition = Ready | WorkspaceRestorePending | Resuming | PauseResumePending | PauseCheckpointReady | Resumed | CheckpointRetention

  datatype CheckpointRef = CheckpointRef(id: string, uri: string, sha256: string, at: int)

  /** Pod names are the run's name and a generation; only the generation is kept. */
  datatype Status = Status(phase: Phase, podName: Option<nat>, attemptGeneration: nat, restartCount: nat,
                           lastCheckpoint: Option<CheckpointRef>, conditions: map<Condition, bool>)

  /** The stored object: its status and the three request annotations. */
  datatype AgentRun = AgentRun(status: Status, cancel: bool, pause: bool, resume: bool)

  // ---- pod.go -----------------------------------------------------------------

  /** attemptGeneration: objects written before the field existed count by their
      restarts. */
  function Generation(st: Status): nat {
    if st.attemptGeneration > st.restartCount then st.attemptGeneration else st.restartCount
  }

  /** advanceAttempt. */
  function Advanced(st: Status): Status {
    st.(attemptGeneration := Generation(st) + 1)
  }

  // ---- conditions ---------------------------------------------------------------

  /** A condition is present and True. */
  predicate Holds(st: Status, c: Condition) {
    c in st.conditions && st.conditions[c]
  }

  function SetCondition(st: Status, c: Condition, v: bool): Status {
    st.(conditions := st.conditions[c := v])
  }

  predicate IsTerminal(p: Phase) {
    p == Succeeded || p == Failed || p == Canceled
  }

  predicate ReadyStatus(p: Phase) {
    p == Running || p == Succeeded
  }

  /** setPhase's status. */
  function WithPhase(st: Status, p: Phase): Status {
    SetCondition(st.(phase := p), Ready, ReadyStatus(p))
  }

  // ---- pods and the workspace ------------------------------------------------------

  /** A terminated container: its exit code and whether the kernel killed it. */
  datatype Termination = Termination(code: int, oom: bool)

  const EXIT_ERROR := 1
  const EXIT_RETRYABLE := 75

  datatype PodPhase = PodPending | PodRunning | PodSucceeded | PodFailed(containers: seq<Termination>) | PodUnknown

  /** `quiesced`: the harness process is stopped by a signal. */
  datatype Pod = Pod(phase: PodPhase, deleting: bool, quiesced: bool)

  /** classifyTermination's verdict: the first container that failed decides. */
  predicate Retryable(containers: seq<Termination>) {
    containers == [] ||
    (if containers[0].code == 0 then Retryable(containers[1..])
     else containers[0].oom || containers[0].code == EXIT_RETRYABLE)
  }

  /** The container of this pod has started and may still be alive. */
  predicate Started(p: Pod) {
    p.phase == PodRunning || p.phase == PodUnknown
  }

  /** The volume: created after the run left Pending or not, the checkpoint last
      unarchived into it by a hydrate that finished, and what is on it. */
  datatype Pvc = Pvc(recreated: bool, restored: Option<Loaded>, disk: Tree)

  /** The fields of the RunSpec that decide how hydrate behaves. */
  datatype RunSpec = RunSpec(resume: bool, restoreRequired: bool, restoreCheckpoint: string)

  /** Operator configuration, constant over a run. `storage` is
      checkpointMountEnabled, `clones` that a repository and a way to reach it
      are configured. */
  datatype Config = Config(storage: bool, executor: bool, maxRestarts: int, clones: bool)

  function Budget(cfg: Config): int {
    if cfg.maxRestarts == 0 then 5 else cfg.maxRestarts
  }

  /** One Pausing episode: whether the proof condition was already True when it
      began, and what has been done in it since. */
  datatype Episode = Episode(readyAtEntry: bool, quiesced: bool, taken: Option<CheckpointRef>, committed: Option<CheckpointRef>)

  /** The volumes of the run so far: one was made; a harness was started on one;
      the latest was made after that and has had nothing restored into it; and the
      run was set going by an aborted pause or a resume before any was made. */
  datatype VolumeStory = VolumeStory(made: bool, worked: bool, emptied: bool, strayed: bool)

  /** History the properties talk about: automatic restarts after a failed or
      vanished pod, restarts charged for a lost workspace, manual resumes, the
      generations whose pod was observed Running, and the volumes. */
  datatype Ledger = Ledger(restarts: nat, losses: nat, resumes: nat, observed: set<nat>, episode: Episode, volume: VolumeStory)

  datatype World = World(run: AgentRun, pods: map<nat, Pod>, pvc: Option<Pvc>, spec: Option<RunSpec>, bucket: Objects, ledger: Ledger)

  /** buildRunSpec. */
  function BuildRunSpec(st: Status): RunSpec {
    var restore := Holds(st, WorkspaceRestorePending);
    RunSpec(Generation(st) > 0, restore,
            if restore && st.lastCheckpoint.Some? && Holds(st, PauseResumePending) then st.lastCheckpoint.value.uri else "")
  }

  /** A freshly admitted object: nothing written by the operator yet. */
  ghost predicate Fresh(w: World) {
    && w.run.status == Status(Unset, None, 0, 0, None, map[])
    && w.pods == map[] && w.pvc == None && w.spec == None
    && w.ledger == Ledger(0, 0, 0, {}, Episode(false, false, None, None), VolumeStory(false, false, false, false))
  }
}
