/** Executions: reconciles that may die after any write, interleaved with what
    the cluster, the pods and the users do. */
module Runs {
  import opened Basics
  import opened Archives
  import opened Checkpoints
  import opened AgentRuns
  import opened Hydration
  import opened Reconciliation

  /** One atomic event. `left` is what a hydrate that did not finish leaves on
      the volume; one that has nothing to do there leaves it as it is. */
  datatype Event =
    | Api(x: Write)
    | PodStarts(g: nat, clone: CloneOutcome, left: Tree)
    | HydrateDies(g: nat, left: Tree)
    | PodFails(g: nat, containers: seq<Termination>)
    | PodEnds(g: nat, phase: PodPhase)
    | PodVanishes(g: nat)
    | PodDeleted(g: nat)
    | PvcVanishes
    | Request(cancel: bool, pause: bool, resume: bool)
    | BucketMoves(objects: Objects)
    | HarnessWrites(disk: Tree)

  predicate MayStart(w: World, g: nat) {
    g in w.pods && w.pods[g].phase == PodPending && !w.pods[g].deleting && w.pvc.Some? && w.spec.Some?
  }

  /** No container that mounts the volume is up. */
  ghost predicate NoneStarted(w: World) {
    forall g | g in w.pods :: !Started(w.pods[g])
  }

  /** What the cluster allows. A volume goes away only when no started pod holds it. */
  ghost predicate Possible(cfg: Config, w: World, e: Event) {
    match e
    case Api(x) => Guard(cfg, w, x)
    case PodStarts(g, _, _) => MayStart(w, g)
    case HydrateDies(g, left) =>
      MayStart(w, g) && (w.spec.value.resume && !w.spec.value.restoreRequired ==> left == w.pvc.value.disk)
    case PodFails(g, _) => g in w.pods && w.pods[g].phase == PodPending
    case PodEnds(g, phase) => g in w.pods && Started(w.pods[g]) && phase != PodPending
    case PodVanishes(g) => g in w.pods
    case PodDeleted(g) => g in w.pods
    case PvcVanishes => w.pvc.Some? && NoneStarted(w)
    case HarnessWrites(_) => w.pvc.Some?
    case _ => true
  }

  function WithPodPhase(w: World, g: nat, phase: PodPhase): map<nat, Pod>
    requires g in w.pods
  {
    w.pods[g := w.pods[g].(phase := phase)]
  }

  /** The hydrate container runs to its end and, if it worked, the harness starts. */
  ghost function AfterStart(cfg: Config, w: World, g: nat, clone: CloneOutcome, left: Tree): World
    requires MayStart(w, g)
  {
    var v := w.pvc.value;
    match Hydrated(cfg, w.spec.value, w.bucket, v.disk, clone)
    case Prepared(disk, restored) =>
      w.(pods := WithPodPhase(w, g, PodRunning),
         pvc := Some(v.(disk := disk, restored := if restored.Some? then restored else v.restored)),
         ledger := w.ledger.(volume := w.ledger.volume.(worked := true, emptied := w.ledger.volume.emptied && restored.None?)))
    case Exited(code) =>
      w.(pods := WithPodPhase(w, g, PodFailed([Termination(code, false)])), pvc := Some(v.(disk := left)))
  }

  ghost function Happens(cfg: Config, w: World, e: Event): World
    requires Possible(cfg, w, e)
  {
    match e
    case Api(x) => Apply(w, x)
    case PodStarts(g, clone, left) => AfterStart(cfg, w, g, clone, left)
    case HydrateDies(g, left) =>
      w.(pods := WithPodPhase(w, g, PodFailed([])), pvc := Some(w.pvc.value.(disk := left)))
    case PodFails(g, containers) => w.(pods := WithPodPhase(w, g, PodFailed(containers)))
    case PodEnds(g, phase) => w.(pods := WithPodPhase(w, g, phase))
    case PodVanishes(g) => w.(pods := w.pods - {g})
    case PodDeleted(g) => w.(pods := w.pods[g := w.pods[g].(deleting := true)])
    case PvcVanishes => w.(pvc := None)
    case Request(c, p, r) => w.(run := w.run.(cancel := c, pause := p, resume := r))
    case BucketMoves(objects) => w.(bucket := objects)
    case HarnessWrites(disk) => w.(pvc := Some(w.pvc.value.(disk := disk)))
  }

  // ---- executions ----------------------------------------------------------------------

  /** A reconcile that gets through `writes` of its writes, or anything else. */
  datatype Action = Reconcile(obs: Obs, writes: nat) | Env(event: Event)

  ghost predicate Enabled(cfg: Config, w: World, a: Action) {
    a.Env? ==> !a.event.Api? && Possible(cfg, w, a.event)
  }

  /** The writes of a reconcile that stops after n of them. */
  function Written(cfg: Config, w: World, obs: Obs, n: nat): seq<Write> {
    var plan := Plan(cfg, w, obs);
    if n < |plan| then plan[..n] else plan
  }

  ghost function Next(cfg: Config, w: World, a: Action): World
    requires Enabled(cfg, w, a)
  {
    match a
    case Reconcile(obs, n) => Perform(w, Written(cfg, w, obs, n))
    case Env(e) => Happens(cfg, w, e)
  }

  ghost predicate Feasible(cfg: Config, w: World, acts: seq<Action>)
    decreases |acts|
  {
    acts == [] || (Enabled(cfg, w, acts[0]) && Feasible(cfg, Next(cfg, w, acts[0]), acts[1..]))
  }

  ghost function After(cfg: Config, w: World, acts: seq<Action>): World
    requires Feasible(cfg, w, acts)
    decreases |acts|
  {
    if acts == [] then w else After(cfg, Next(cfg, w, acts[0]), acts[1..])
  }

  // ---- executions as histories of atomic events ---------------------------------------------

  ghost predicate History(cfg: Config, w: World, es: seq<Event>)
    decreases |es|
  {
    es == [] || (Possible(cfg, w, es[0]) && History(cfg, Happens(cfg, w, es[0]), es[1..]))
  }

  ghost function End(cfg: Config, w: World, es: seq<Event>): World
    requires History(cfg, w, es)
    decreases |es|
  {
    if es == [] then w else End(cfg, Happens(cfg, w, es[0]), es[1..])
  }

  lemma {:induction false} HistoryThen(cfg: Config, w: World, es: seq<Event>, more: seq<Event>)
    requires History(cfg, w, es) && History(cfg, End(cfg, w, es), more)
    ensures History(cfg, w, es + more) && End(cfg, w, es + more) == End(cfg, End(cfg, w, es), more)
    decreases |es|
  {
    hide Possible, Happens;
    if es == [] {
      assert es + more == more;
    } else {
      assert (es + more)[1..] == es[1..] + more;
      HistoryThen(cfg, Happens(cfg, w, es[0]), es[1..], more);
    }
  }

  function Calls(xs: seq<Write>): (es: seq<Event>)
    ensures |es| == |xs| && forall i | 0 <= i < |xs| :: es[i] == Api(xs[i])
  {
    seq(|xs|, i requires 0 <= i < |xs| => Api(xs[i]))
  }

  lemma {:induction false} WritesAreHistory(cfg: Config, w: World, xs: seq<Write>)
    requires Guarded(cfg, w, xs)
    ensures History(cfg, w, Calls(xs)) && End(cfg, w, Calls(xs)) == Perform(w, xs)
    decreases |xs|
  {
    hide Guard, Apply;
    if xs != [] {
      assert Calls(xs)[1..] == Calls(xs[1..]);
      WritesAreHistory(cfg, Apply(w, xs[0]), xs[1..]);
    }
  }

  lemma {:induction false} GuardedPrefix(cfg: Config, w: World, xs: seq<Write>, n: nat)
    requires Guarded(cfg, w, xs) && n <= |xs|
    ensures Guarded(cfg, w, xs[..n])
    decreases |xs|
  {
    hide Guard, Apply;
    if n > 0 {
      GuardedPrefix(cfg, Apply(w, xs[0]), xs[1..], n - 1);
      assert xs[..n][1..] == xs[1..][..n - 1];
    }
  }

  ghost function Events(cfg: Config, w: World, acts: seq<Action>): seq<Event>
    requires Feasible(cfg, w, acts)
    decreases |acts|
  {
    if acts == [] then []
    else
      (match acts[0]
       case Reconcile(obs, n) => Calls(Written(cfg, w, obs, n))
       case Env(e) => [e]) + Events(cfg, Next(cfg, w, acts[0]), acts[1..])
  }

  /** However the reconciles are cut short, an execution is a history in which the
      operator issues every write under its guard. */
  lemma {:induction false} ExecutionIsHistory(cfg: Config, w: World, acts: seq<Action>)
    requires Feasible(cfg, w, acts)
    ensures History(cfg, w, Events(cfg, w, acts)) && End(cfg, w, Events(cfg, w, acts)) == After(cfg, w, acts)
    decreases |acts|
  {
    hide Guard, Apply, Guarded, Plan, Perform, Calls;
    if acts != [] {
      var w' := Next(cfg, w, acts[0]);
      ExecutionIsHistory(cfg, w', acts[1..]);
      var rest := Events(cfg, w', acts[1..]);
      match acts[0] {
        case Reconcile(obs, n) =>
          var plan := Plan(cfg, w, obs);
          PlanIsGuarded(cfg, w, obs);
          if n < |plan| {
            GuardedPrefix(cfg, w, plan, n);
          }
          WritesAreHistory(cfg, w, Written(cfg, w, obs, n));
          HistoryThen(cfg, w, Calls(Written(cfg, w, obs, n)), rest);
        case Env(e) =>
          OneEvent(cfg, w, e);
          HistoryThen(cfg, w, [e], rest);
      }
    }
  }

  lemma OneEvent(cfg: Config, w: World, e: Event)
    requires Possible(cfg, w, e)
    ensures History(cfg, w, [e]) && End(cfg, w, [e]) == Happens(cfg, w, e)
  {
    hide Possible, Happens;
    assert [e][1..] == [];
    assert End(cfg, Happens(cfg, w, e), []) == Happens(cfg, w, e);
  }

  /** Only the operator writes the status. */
  lemma OnlyTheOperatorWritesStatus(cfg: Config, w: World, e: Event)
    requires Possible(cfg, w, e) && !e.Api?
    ensures Happens(cfg, w, e).run.status == w.run.status
    ensures Happens(cfg, w, e).ledger == w.ledger.(volume := Happens(cfg, w, e).ledger.volume)
    ensures !e.PodStarts? ==> Happens(cfg, w, e).ledger == w.ledger
    ensures Happens(cfg, w, e).spec == w.spec
  {
    hide Hydrated, Guard;
  }
}
