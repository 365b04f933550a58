/**
  The start protocol of scripts/dev/cri_stack.py as a state machine: any number of
  _start_component runs, each inside its component lock, interleaved with unlocked removals
  and with an environment that changes container states at will.

  A step is one runtime command or one listing.  Commands may fail before or after they took
  effect, and a run may be cut short at any point; its lock is then released like on any exit.
 */
module CriProtocol {
  import opened Options
  import opened CriWorld

  const POLLS: nat := 30

  /** `seconds` is the length of the stability window; without one it is 0. */
  datatype Config = Config(key: Key, rollout: string, recreate: bool, seconds: nat)

  datatype Outcome =
    | Reused(pod: nat)
    | Started(pod: nat)
    | Handoff(from: nat, to: nat)
    | FailedUnstable
    | FailedNotRunning
    | Raised
  {
    // The three exits that come right after _remove_pod.
    predicate DropsPod() {
      FailedUnstable? || FailedNotRunning? || Raised?
    }
  }

  datatype InspectReport = NoOutput | Unparsable | Says(state: CtrState)

  datatype Pc =
    | WaitLock
    | Find
    | Check(pod: nat, rollout: Option<string>)
    | StopOld(pod: nat)
    | DropOld(pod: nat)
    | Image
    | RunSandbox
    | Create(pod: nat)
    | Start(pod: nat, ctr: nat)
    | Poll(pod: nat, ctr: nat, left: nat)
    | Window(pod: nat, ctr: nat, clock: nat, deadline: nat)
    | Debounce(pod: nat, ctr: nat, clock: nat, deadline: nat)
    | Inspect(pod: nat, ctr: nat, clock: nat, deadline: nat)
    | Reported(pod: nat, ctr: nat, clock: nat, deadline: nat, report: InspectReport)
    | Elsewhere(pod: nat, ctr: nat)
    | StopNew(pod: nat, after: Outcome)
    | DropNew(pod: nat, after: Outcome)
    | Exit(outcome: Outcome)
    | Done(outcome: Outcome)

  function ConfigLabels(cfg: Config): Labels {
    Labels(Some(cfg.key.profile), Some(cfg.key.component), if cfg.rollout == "" then None else Some(cfg.rollout))
  }

  // The reuse test after a running container was found and no recreation was asked for.
  predicate RolloutAccepts(cfg: Config, current: Option<string>) {
    cfg.rollout == "" || current == Some(cfg.rollout)
  }

  // The report _start_component reads may be missing or garbled, but never names a wrong state.
  predicate CouldReport(w: World, c: nat, r: InspectReport) {
    r.Says? ==> c in w.ctrs && w.ctrs[c].state == r.state
  }

  predicate KeepsWaiting(r: InspectReport) {
    r == NoOutput || r == Says(Running) || r == Says(Created)
  }

  // Back at the head of the window's loop, which reads the clock
  predicate LoopsFrom(pc': Pc, p: nat, c: nat, earliest: nat, deadline: nat) {
    pc'.Window? && pc' == Window(p, c, pc'.clock, deadline) && earliest <= pc'.clock
  }

  // One step of _start_component_unlocked, from (pc, w) to (pc', w').
  ghost predicate RunStep(cfg: Config, pc: Pc, w: World, pc': Pc, w': World) {
    match pc
    case WaitLock => false
    case Find =>
      && w' == w
      && (|| pc' == Exit(Raised)
          || (NoPod(w, cfg.key) && pc' == Image)
          || exists p :: p in w.pods && Matches(w.pods[p], cfg.key) && pc' == Check(p, w.pods[p].rollout))
    case Check(p, current) =>
      && w' == w
      && (|| pc' == Exit(Raised)
          || pc' == if RunningIn(w, p, cfg.key.component) && !cfg.recreate && RolloutAccepts(cfg, current)
                    then Exit(Reused(p)) else StopOld(p))
    case StopOld(p) =>
      (w' == w || w' == StopPod(w, p)) && (pc' == Exit(Raised) || (pc' == DropOld(p) && w' == StopPod(w, p)))
    case DropOld(p) =>
      (w' == w || w' == DropPod(w, p)) && (pc' == Exit(Raised) || (pc' == Image && w' == DropPod(w, p)))
    case Image =>
      w' == w && (pc' == Exit(Raised) || pc' == RunSandbox)
    case RunSandbox =>
      && (w' == w || w' == RunPod(w, ConfigLabels(cfg)))
      && (pc' == Exit(Raised) || (pc' == Create(w.next) && w' == RunPod(w, ConfigLabels(cfg))))
    case Create(p) =>
      if p in w.pods then
        && (w' == w || w' == CreateCtr(w, p, ConfigLabels(cfg)))
        && (|| pc' == Exit(Raised)
            || pc' == StopNew(p, Raised)
            || (pc' == Start(p, w.next) && w' == CreateCtr(w, p, ConfigLabels(cfg))))
      else
        w' == w && (pc' == Exit(Raised) || pc' == StopNew(p, Raised))
    case Start(p, c) =>
      if c in w.ctrs then
        (w' == w || w' == StartCtr(w, c)) && (pc' == Exit(Raised) || (pc' == Poll(p, c, POLLS) && w' == StartCtr(w, c)))
      else
        w' == w && pc' == Exit(Raised)
    case Poll(p, c, left) =>
      && w' == w
      && (|| pc' == Exit(Raised)
          || if left == 0 then pc' == StopNew(p, FailedNotRunning)
             else if !RunningIn(w, p, cfg.key.component) then pc' == Poll(p, c, left - 1)
             else if cfg.seconds == 0 then pc' == Exit(Started(p))
             else pc'.Window? && pc' == Window(p, c, pc'.clock, pc'.clock + 1000 * cfg.seconds))
    case Window(p, c, clock, deadline) =>
      && w' == w
      && (|| pc' == Exit(Raised)
          || if deadline <= clock then pc' == Exit(Started(p))
             else if RunningIn(w, p, cfg.key.component) then LoopsFrom(pc', p, c, clock + 200, deadline)
             else pc'.Debounce? && pc' == Debounce(p, c, pc'.clock, deadline) && clock + 500 <= pc'.clock)
    case Debounce(p, c, clock, deadline) =>
      && w' == w
      && (|| pc' == Exit(Raised)
          || if RunningIn(w, p, cfg.key.component) then LoopsFrom(pc', p, c, clock, deadline)
             else pc' == Inspect(p, c, clock, deadline))
    case Inspect(p, c, clock, deadline) =>
      && w' == w
      && (|| pc' == Exit(Raised)
          || (pc'.Reported? && CouldReport(w, c, pc'.report) && pc' == Reported(p, c, clock, deadline, pc'.report)))
    case Reported(p, c, clock, deadline, r) =>
      && w' == w
      && (|| pc' == Exit(Raised)
          || if KeepsWaiting(r) then LoopsFrom(pc', p, c, clock + 200, deadline) else pc' == Elsewhere(p, c))
    case Elsewhere(p, c) =>
      && w' == w
      && (|| pc' == Exit(Raised)
          || (pc' == StopNew(p, FailedUnstable) && forall q :: !RunningElsewhere(w, cfg.key, p, q))
          || exists q :: RunningElsewhere(w, cfg.key, p, q) && pc' == Exit(Handoff(p, q)))
    case StopNew(p, after) =>
      (w' == w || w' == StopPod(w, p)) && (pc' == Exit(Raised) || (pc' == DropNew(p, after) && w' == StopPod(w, p)))
    case DropNew(p, after) =>
      (w' == w || w' == DropPod(w, p)) && (pc' == Exit(Raised) || (pc' == Exit(after) && w' == DropPod(w, p)))
    case Exit(_) => false
    case Done(_) => false
  }

  // What a run knows

  // If the pod p is still there, it is the component's only pod; if it is gone, an unlocked
  // removal took it and the component has no pod.
  ghost predicate OnlyPod(w: World, downed: set<nat>, k: Key, p: nat) {
    && p < w.next
    && Sole(w, k, p)
    && (if p in w.pods then Matches(w.pods[p], k) else p in downed)
  }

  predicate Carries(w: World, p: nat, rollout: Option<string>) {
    p in w.pods ==> w.pods[p].rollout == rollout
  }

  ghost predicate OwnPod(cfg: Config, w: World, downed: set<nat>, p: nat) {
    OnlyPod(w, downed, cfg.key, p) && Carries(w, p, ConfigLabels(cfg).rollout)
  }

  ghost predicate RunInv(cfg: Config, pc: Pc, w: World, downed: set<nat>) {
    match pc
    case Check(p, r) => OnlyPod(w, downed, cfg.key, p) && Carries(w, p, r)
    case StopOld(p) => OnlyPod(w, downed, cfg.key, p)
    case DropOld(p) => OnlyPod(w, downed, cfg.key, p)
    case Image => NoPod(w, cfg.key)
    case RunSandbox => NoPod(w, cfg.key)
    case Create(p) => OwnPod(cfg, w, downed, p)
    case Start(p, c) => OwnPod(cfg, w, downed, p) && c < w.next && (c in w.ctrs ==> w.ctrs[c].pod == p)
    case Poll(p, c, _) => OwnPod(cfg, w, downed, p)
    case Window(p, _, _, _) => OwnPod(cfg, w, downed, p)
    case Debounce(p, _, _, _) => OwnPod(cfg, w, downed, p)
    case Inspect(p, _, _, _) => OwnPod(cfg, w, downed, p)
    case Reported(p, _, _, _, _) => OwnPod(cfg, w, downed, p)
    case Elsewhere(p, c) => OwnPod(cfg, w, downed, p)
    case StopNew(p, after) => OwnPod(cfg, w, downed, p) && after.DropsPod()
    case DropNew(p, after) => OwnPod(cfg, w, downed, p) && after.DropsPod()
    case Exit(o) => ExitFact(cfg, o, w, downed)
    case _ => true
  }

  // What holds at the moment the run leaves its critical section.
  ghost predicate ExitFact(cfg: Config, o: Outcome, w: World, downed: set<nat>) {
    match o
    case Reused(p) => OnlyPod(w, downed, cfg.key, p) && (cfg.rollout != "" ==> Carries(w, p, Some(cfg.rollout)))
    case Started(p) => OwnPod(cfg, w, downed, p)
    case Handoff(_, _) => false
    case FailedUnstable => NoPod(w, cfg.key)
    case FailedNotRunning => NoPod(w, cfg.key)
    case Raised => true
  }

  // A component's own step changes the store only at the component's pods.
  lemma StepTouchesOnlyItsKey(cfg: Config, pc: Pc, w: World, pc': Pc, w': World, downed: set<nat>)
    requires WellFormed(w) && RunInv(cfg, pc, w, downed) && RunStep(cfg, pc, w, pc', w')
    ensures WellFormed(w') && Continues(w, w') && TouchesOnly(w, w', cfg.key)
  {
    hide RunningIn, RunningElsewhere, Sole, NoPod;
    match pc
    case StopOld(p) => StopPodKeeps(w, p);
    case DropOld(p) => DropPodKeeps(w, p);
    case RunSandbox => RunPodKeeps(w, ConfigLabels(cfg), cfg.key);
    case Create(p) => if p in w.pods { CreateCtrKeeps(w, p, ConfigLabels(cfg), cfg.key); }
    case Start(p, c) => if c in w.ctrs { StartCtrKeeps(w, c, cfg.key); }
    case StopNew(p, _) => StopPodKeeps(w, p);
    case DropNew(p, _) => DropPodKeeps(w, p);
    case _ =>
  }

  // The pod a lookup returns is the component's only pod.
  lemma FoundPodIsOnly(w: World, downed: set<nat>, k: Key, p: nat)
    requires WellFormed(w) && AtMostOne(w) && PodMatches(w, p, k)
    ensures OnlyPod(w, downed, k, p)
  {
  }

  lemma DroppedPodLeavesNone(w: World, downed: set<nat>, k: Key, p: nat)
    requires OnlyPod(w, downed, k, p)
    ensures NoPod(DropPod(w, p), k)
  {
  }

  lemma StoppedPodStaysOnly(w: World, downed: set<nat>, k: Key, p: nat)
    requires OnlyPod(w, downed, k, p)
    ensures OnlyPod(StopPod(w, p), downed, k, p)
  {
  }

  lemma NewPodIsOwn(cfg: Config, w: World, downed: set<nat>)
    requires WellFormed(w) && NoPod(w, cfg.key)
    ensures OwnPod(cfg, RunPod(w, ConfigLabels(cfg)), downed, w.next)
  {
  }

  // A container with the component's labels sits in the component's only pod.
  lemma NoHandoff(w: World, downed: set<nat>, k: Key, p: nat, q: nat)
    requires WellFormed(w) && OnlyPod(w, downed, k, p)
    ensures !RunningElsewhere(w, k, p, q)
  {
  }

  lemma CreatedCtrStaysOwn(cfg: Config, w: World, downed: set<nat>, p: nat)
    requires WellFormed(w) && OwnPod(cfg, w, downed, p)
    ensures OwnPod(cfg, CreateCtr(w, p, ConfigLabels(cfg)), downed, p)
  {
  }

  lemma StartedCtrStaysOwn(cfg: Config, w: World, downed: set<nat>, p: nat, c: nat)
    requires OwnPod(cfg, w, downed, p) && c in w.ctrs
    ensures OwnPod(cfg, StartCtr(w, c), downed, p)
  {
  }

  predicate Early(pc: Pc) {
    pc.Find? || pc.Check? || pc.StopOld? || pc.DropOld? || pc.Image? || pc.RunSandbox?
  }

  lemma EarlyStepKeepsRunInv(cfg: Config, pc: Pc, w: World, pc': Pc, w': World, downed: set<nat>)
    requires Early(pc)
    requires WellFormed(w) && AtMostOne(w) && RunInv(cfg, pc, w, downed) && RunStep(cfg, pc, w, pc', w')
    ensures RunInv(cfg, pc', w', downed)
  {
    match pc
    case Find => if pc'.Check? { FoundPodIsOnly(w, downed, cfg.key, pc'.pod); }
    case Check(p, r) => hide Sole;
    case StopOld(p) => hide Sole; StoppedPodStaysOnly(w, downed, cfg.key, p);
    case DropOld(p) => hide Sole, NoPod; DroppedPodLeavesNone(w, downed, cfg.key, p);
    case Image => hide NoPod;
    case RunSandbox => hide OwnPod; NewPodIsOwn(cfg, w, downed);
  }

  lemma LateStepKeepsRunInv(cfg: Config, pc: Pc, w: World, pc': Pc, w': World, downed: set<nat>)
    requires !Early(pc)
    requires WellFormed(w) && RunInv(cfg, pc, w, downed) && RunStep(cfg, pc, w, pc', w')
    ensures RunInv(cfg, pc', w', downed)
  {
    hide WellFormed, RunningIn, RunningElsewhere, OnlyPod, NoPod;
    match pc
    case Create(p) => CreatedCtrStaysOwn(cfg, w, downed, p);
    case Elsewhere(p, c) => forall q { NoHandoff(w, downed, cfg.key, p, q); }
    case StopNew(p, _) => StoppedPodStaysOnly(w, downed, cfg.key, p);
    case DropNew(p, _) => DroppedPodLeavesNone(w, downed, cfg.key, p);
    case Start(p, c) => if c in w.ctrs { StartedCtrStaysOwn(cfg, w, downed, p, c); }
    case _ =>
  }

  lemma StepKeepsRunInv(cfg: Config, pc: Pc, w: World, pc': Pc, w': World, downed: set<nat>)
    requires WellFormed(w) && AtMostOne(w) && RunInv(cfg, pc, w, downed) && RunStep(cfg, pc, w, pc', w')
    ensures RunInv(cfg, pc', w', downed)
  {
    hide *;
    if Early(pc) {
      EarlyStepKeepsRunInv(cfg, pc, w, pc', w', downed);
    } else {
      LateStepKeepsRunInv(cfg, pc, w, pc', w', downed);
    }
  }

  lemma StepKeepsAtMostOne(cfg: Config, pc: Pc, w: World, pc': Pc, w': World, downed: set<nat>)
    requires WellFormed(w) && AtMostOne(w) && RunInv(cfg, pc, w, downed) && RunStep(cfg, pc, w, pc', w')
    ensures AtMostOne(w')
  {
  }

  // Runs that nobody disturbs

  datatype Snapshot = Snapshot(pc: Pc, w: World)

  // The steps of one undisturbed run, from its first look at the store on.
  ghost predicate SoloRun(cfg: Config, t: seq<Snapshot>) {
    && |t| > 0
    && t[0].pc == Find
    && WellFormed(t[0].w) && AtMostOne(t[0].w)
    && forall i :: 0 <= i < |t| - 1 ==> RunStep(cfg, t[i].pc, t[i].w, t[i + 1].pc, t[i + 1].w)
  }

  // Starting a component that runs with an accepted rollout, without asking for recreation,
  // changes nothing; unless it is cut short, the run reports reuse of the pod.
  lemma {:induction false} RepeatedStartChangesNothing(cfg: Config, t: seq<Snapshot>, p: nat, i: nat)
    requires SoloRun(cfg, t) && i < |t|
    requires PodMatches(t[0].w, p, cfg.key) && RunningIn(t[0].w, p, cfg.key.component)
    requires !cfg.recreate && RolloutAccepts(cfg, t[0].w.pods[p].rollout)
    ensures t[i].w == t[0].w
    ensures t[i].pc == Find || t[i].pc == Check(p, t[0].w.pods[p].rollout)
         || t[i].pc == Exit(Reused(p)) || t[i].pc == Exit(Raised)
  {
    if i > 0 {
      RepeatedStartChangesNothing(cfg, t, p, i - 1);
      assert RunStep(cfg, t[i - 1].pc, t[i - 1].w, t[i - 1 + 1].pc, t[i - 1 + 1].w);
      FoundPodIsOnly(t[0].w, {}, cfg.key, p);
    }
  }

  predicate Removing(pc: Pc, p: nat) {
    pc == Find || (pc.Check? && pc.pod == p) || pc == StopOld(p) || pc == DropOld(p)
  }

  // A pod of the component without a running container, such as one leaked by a failing create or
  // start, never survives the next start: the run is still busy removing it, or was cut short
  // while doing so, or the pod is gone for good.
  lemma {:induction false} LeakedPodIsRemoved(cfg: Config, t: seq<Snapshot>, p: nat, i: nat)
    requires SoloRun(cfg, t) && i < |t|
    requires PodMatches(t[0].w, p, cfg.key) && !RunningIn(t[0].w, p, cfg.key.component)
    ensures RunInv(cfg, t[i].pc, t[i].w, {}) && WellFormed(t[i].w) && AtMostOne(t[i].w) && p < t[i].w.next
    ensures Removing(t[i].pc, p) || t[i].pc == Exit(Raised) || p !in t[i].w.pods
    ensures t[i].pc == Find || t[i].pc.Check? ==> t[i].w == t[0].w
  {
    if i == 0 {
      FoundPodIsOnly(t[0].w, {}, cfg.key, p);
    } else {
      LeakedPodIsRemoved(cfg, t, p, i - 1);
      var a, b := t[i - 1], t[i];
      assert RunStep(cfg, a.pc, a.w, t[i - 1 + 1].pc, t[i - 1 + 1].w);
      StepTouchesOnlyItsKey(cfg, a.pc, a.w, b.pc, b.w, {});
      StepKeepsRunInv(cfg, a.pc, a.w, b.pc, b.w, {});
      StepKeepsAtMostOne(cfg, a.pc, a.w, b.pc, b.w, {});
      LeakStep(cfg, a, b, t[0].w, p);
    }
  }

  lemma LeakStep(cfg: Config, a: Snapshot, b: Snapshot, w0: World, p: nat)
    requires WellFormed(w0) && AtMostOne(w0)
    requires PodMatches(w0, p, cfg.key) && !RunningIn(w0, p, cfg.key.component)
    requires RunStep(cfg, a.pc, a.w, b.pc, b.w) && Continues(a.w, b.w) && p < a.w.next
    requires Removing(a.pc, p) || a.pc == Exit(Raised) || p !in a.w.pods
    requires a.pc == Find || a.pc.Check? ==> a.w == w0
    ensures Removing(b.pc, p) || b.pc == Exit(Raised) || p !in b.w.pods
    ensures b.pc == Find || b.pc.Check? ==> b.w == w0
  {
    hide WellFormed, AtMostOne, RunningIn, RunningElsewhere;
    FoundPodIsOnly(w0, {}, cfg.key, p);
  }
}
