/**
  Every interleaving of start runs and removals over one pod store.

  Any number of processes may appear at any time.  A start run waits for its component lock, steps
  through CriProtocol, and releases the lock on every exit.  Two commands remove pods without a lock: down-profile
  all those of its profile, and up-postgres with reset-data, before its own locked start, that of its component.
 */
module CriInterleaving {
  import opened Options
  import opened CriWorld
  import opened CriProtocol

  datatype DownPc = ListPods | Next(todo: set<nat>) | Drop(pod: nat, todo: set<nat>) | Finished

  /** What an unlocked removal is about: a profile (down-profile), or one component of it (the reset). */
  datatype Scope = Scope(profile: string, component: Option<string>)

  datatype Proc = Starter(cfg: Config, pc: Pc) | Downer(scope: Scope, dpc: DownPc)

  /** `downed` collects the pods that unlocked removals removed; no code reads it. */
  datatype State = State(w: World, lock: map<Key, nat>, procs: map<nat, Proc>, downed: set<nat>)

  predicate InScope(l: Labels, scope: Scope) {
    l.profile == Some(scope.profile) && (scope.component.Some? ==> l.component == scope.component)
  }

  predicate Reaches(scope: Scope, k: Key) {
    scope.profile == k.profile && (scope.component.Some? ==> scope.component.value == k.component)
  }

  function ScopePods(w: World, scope: Scope): set<nat> {
    set p | p in w.pods && InScope(w.pods[p], scope)
  }

  // One step of an unlocked removal: list once, then stop and remove the listed pods one by one.  The reset removes
  // the one pod of its component that it finds, and AtMostOne says that there is no other.
  ghost predicate DownStep(scope: Scope, d: DownPc, w: World, d': DownPc, w': World) {
    match d
    case ListPods => w' == w && (d' == Finished || d' == Next(ScopePods(w, scope)))
    case Next(todo) =>
      || (w' == w && d' == Finished)
      || exists p :: p in todo && w' == StopPod(w, p) && (d' == Finished || d' == Drop(p, todo - {p}))
    case Drop(p, todo) =>
      || (w' == w && d' == Finished)
      || (w' == DropPod(w, p) && (d' == Finished || d' == Next(todo)))
    case Finished => false
  }

  predicate Holding(pc: Pc) {
    !pc.WaitLock? && !pc.Done?
  }

  ghost predicate StarterStep(s: State, s': State, id: nat, cfg: Config, pc: Pc) {
    match pc
    case WaitLock =>
      && s'.w == s.w
      && (|| (s'.lock == s.lock && s'.procs == s.procs[id := Starter(cfg, Done(Raised))])
          || (&& cfg.key !in s.lock
              && s'.lock == s.lock[cfg.key := id]
              && s'.procs == s.procs[id := Starter(cfg, Find)]))
    case Exit(o) =>
      s'.w == s.w && s'.lock == s.lock - {cfg.key} && s'.procs == s.procs[id := Starter(cfg, Done(o))]
    case _ =>
      && s'.lock == s.lock
      && exists pc' :: RunStep(cfg, pc, s.w, pc', s'.w) && s'.procs == s.procs[id := Starter(cfg, pc')]
  }

  predicate AtStart(p: Proc) {
    if p.Starter? then p.pc == WaitLock else p.dpc == ListPods
  }

  ghost predicate ProcStep(s: State, s': State, id: nat) {
    if id !in s.procs then
      && s'.w == s.w && s'.lock == s.lock && s'.downed == s.downed
      && exists p :: AtStart(p) && s'.procs == s.procs[id := p]
    else
      match s.procs[id]
      case Starter(cfg, pc) => s'.downed == s.downed && StarterStep(s, s', id, cfg, pc)
      case Downer(scope, d) =>
        && s'.lock == s.lock
        && s'.downed == s.downed + (s.w.pods.Keys - s'.w.pods.Keys)
        && exists d' :: DownStep(scope, d, s.w, d', s'.w) && s'.procs == s.procs[id := Downer(scope, d')]
  }

  // Containers change state on their own; they neither appear nor vanish nor move.
  ghost predicate EnvStep(s: State, s': State) {
    && s' == s.(w := s'.w)
    && s'.w == s.w.(ctrs := s'.w.ctrs)
    && s'.w.ctrs.Keys == s.w.ctrs.Keys
    && forall c :: c in s.w.ctrs ==> s'.w.ctrs[c] == s.w.ctrs[c].(state := s'.w.ctrs[c].state)
  }

  ghost predicate Step(s: State, s': State) {
    EnvStep(s, s') || exists id :: ProcStep(s, s', id)
  }

  // A consistent store with at most one pod per component, and nobody at work yet.
  ghost predicate Init(s: State) {
    WellFormed(s.w) && AtMostOne(s.w) && s.lock == map[] && s.procs == map[] && s.downed == {}
  }

  ghost predicate DownInv(scope: Scope, d: DownPc, w: World) {
    match d
    case Next(todo) => forall p :: p in todo ==> MayRemove(w, p, scope)
    case Drop(q, todo) => MayRemove(w, q, scope) && forall p :: p in todo ==> MayRemove(w, p, scope)
    case _ => true
  }

  predicate MayRemove(w: World, p: nat, scope: Scope) {
    p < w.next && (p in w.pods ==> InScope(w.pods[p], scope))
  }

  ghost predicate ProcInv(s: State, id: nat)
    requires id in s.procs
  {
    match s.procs[id]
    case Starter(cfg, pc) =>
      && (Holding(pc) ==> cfg.key in s.lock && s.lock[cfg.key] == id)
      && RunInv(cfg, pc, s.w, s.downed)
    case Downer(scope, d) => DownInv(scope, d, s.w)
  }

  ghost predicate LockInv(s: State) {
    forall k :: k in s.lock ==>
      && s.lock[k] in s.procs
      && s.procs[s.lock[k]].Starter?
      && s.procs[s.lock[k]].cfg.key == k
      && Holding(s.procs[s.lock[k]].pc)
  }

  ghost predicate Inv(s: State) {
    && WellFormed(s.w)
    && AtMostOne(s.w)
    && DownedAreGone(s.w, s.downed)
    && LockInv(s)
    && forall id :: id in s.procs ==> ProcInv(s, id)
  }

  predicate DownedAreGone(w: World, downed: set<nat>) {
    forall p :: p in downed ==> p < w.next && p !in w.pods
  }

  // What a run holding the lock of k can rely on while others step.
  ghost predicate Rely(k: Key, w: World, w': World, downed: set<nat>, downed': set<nat>) {
    && Continues(w, w')
    && downed <= downed'
    && (forall p :: p in w'.pods && Matches(w'.pods[p], k) ==> p in w.pods)
    && (forall p :: p in w.pods && Matches(w.pods[p], k) && p !in w'.pods ==> p in downed')
  }

  lemma NoPodIsStable(k: Key, w: World, w': World, downed: set<nat>, downed': set<nat>)
    requires Rely(k, w, w', downed, downed') && NoPod(w, k)
    ensures NoPod(w', k)
  {
  }

  lemma OnlyPodIsStable(k: Key, w: World, w': World, downed: set<nat>, downed': set<nat>, p: nat)
    requires Rely(k, w, w', downed, downed') && OnlyPod(w, downed, k, p)
    ensures OnlyPod(w', downed', k, p)
    ensures forall r :: Carries(w, p, r) ==> Carries(w', p, r)
  {
  }

  lemma RunInvIsStable(cfg: Config, pc: Pc, w: World, w': World, downed: set<nat>, downed': set<nat>)
    requires Rely(cfg.key, w, w', downed, downed') && RunInv(cfg, pc, w, downed)
    ensures RunInv(cfg, pc, w', downed')
  {
    assert Continues(w, w');
    forall p | OnlyPod(w, downed, cfg.key, p)
      ensures OnlyPod(w', downed', cfg.key, p) && forall r :: Carries(w, p, r) ==> Carries(w', p, r)
    {
      OnlyPodIsStable(cfg.key, w, w', downed, downed', p);
    }
    if NoPod(w, cfg.key) {
      NoPodIsStable(cfg.key, w, w', downed, downed');
    }
    hide Rely, OnlyPod, NoPod, Carries;
  }

  lemma DownInvIsStable(scope: Scope, d: DownPc, w: World, w': World)
    requires Continues(w, w') && DownInv(scope, d, w)
    ensures DownInv(scope, d, w')
  {
  }

  lemma OtherComponentsRely(k: Key, k2: Key, w: World, w': World, downed: set<nat>)
    requires Continues(w, w') && TouchesOnly(w, w', k) && k != k2
    ensures Rely(k2, w, w', downed, downed)
  {
  }

  lemma DownStepKeeps(scope: Scope, d: DownPc, w: World, d': DownPc, w': World, downed: set<nat>)
    requires WellFormed(w) && AtMostOne(w) && DownInv(scope, d, w) && DownStep(scope, d, w, d', w')
    ensures WellFormed(w') && AtMostOne(w') && DownInv(scope, d', w')
    ensures forall k :: Rely(k, w, w', downed, downed + (w.pods.Keys - w'.pods.Keys))
  {
    match d
    case ListPods =>
    case Next(todo) =>
      if w' != w || d' != Finished {
        var p :| p in todo && w' == StopPod(w, p) && (d' == Finished || d' == Drop(p, todo - {p}));
        StopPodKeeps(w, p);
      }
    case Drop(p, todo) =>
      DropPodKeeps(w, p);
    case Finished =>
  }

  // Preservation, one kind of step at a time

  // A process other than id keeps its invariant when its component's pods are relied on as they are.
  lemma ProcInvIsStable(s: State, s': State, id: nat)
    requires id in s.procs && id in s'.procs && s'.procs[id] == s.procs[id] && ProcInv(s, id)
    requires Continues(s.w, s'.w)
    requires s.procs[id].Starter? && Holding(s.procs[id].pc) ==>
               && Rely(s.procs[id].cfg.key, s.w, s'.w, s.downed, s'.downed)
               && s.procs[id].cfg.key in s'.lock && s'.lock[s.procs[id].cfg.key] == id
    ensures ProcInv(s', id)
  {
    hide Continues, Rely;
    match s.procs[id]
    case Starter(cfg, pc) => if Holding(pc) { RunInvIsStable(cfg, pc, s.w, s'.w, s.downed, s'.downed); }
    case Downer(scope, d) => DownInvIsStable(scope, d, s.w, s'.w);
  }

  // Two processes never hold the lock of the same component.
  lemma MutualExclusion(s: State, id: nat, id2: nat)
    requires Inv(s) && id in s.procs && id2 in s.procs
    requires s.procs[id].Starter? && s.procs[id2].Starter? && s.procs[id].cfg.key == s.procs[id2].cfg.key
    requires Holding(s.procs[id].pc) && Holding(s.procs[id2].pc)
    ensures id == id2
  {
    assert ProcInv(s, id) && ProcInv(s, id2);
  }

  lemma EnvStepKeepsInv(s: State, s': State)
    requires Inv(s) && EnvStep(s, s')
    ensures Inv(s')
  {
    assert WellFormed(s'.w);
    assert forall k :: Rely(k, s.w, s'.w, s.downed, s'.downed);
    forall id | id in s'.procs
      ensures ProcInv(s', id)
    {
      assert ProcInv(s, id);
      hide Rely, WellFormed, AtMostOne, LockInv;
      ProcInvIsStable(s, s', id);
    }
  }

  lemma DownerStepKeepsInv(s: State, s': State, id: nat)
    requires Inv(s) && id in s.procs && s.procs[id].Downer? && ProcStep(s, s', id)
    ensures Inv(s')
  {
    var scope, d := s.procs[id].scope, s.procs[id].dpc;
    var d' :| DownStep(scope, d, s.w, d', s'.w) && s'.procs == s.procs[id := Downer(scope, d')];
    assert ProcInv(s, id);
    hide WellFormed, AtMostOne, DownStep, Rely;
    DownStepKeeps(scope, d, s.w, d', s'.w, s.downed);
    RelyContinues(s, s', Key("", ""));
    assert DownedAreGone(s'.w, s'.downed);
    LocksStay(s, s', id, Downer(scope, d'));
    hide LockInv, DownedAreGone;
    forall id2 | id2 in s'.procs && id2 != id
      ensures ProcInv(s', id2)
    {
      assert ProcInv(s, id2);
      ProcInvIsStable(s, s', id2);
    }
  }

  lemma RelyContinues(s: State, s': State, k: Key)
    requires Rely(k, s.w, s'.w, s.downed, s'.downed)
    ensures Continues(s.w, s'.w)
  {
  }

  lemma SpawnKeepsInv(s: State, s': State, id: nat)
    requires Inv(s) && id !in s.procs && ProcStep(s, s', id)
    ensures Inv(s')
  {
    hide WellFormed, AtMostOne;
    forall id2 | id2 in s'.procs
      ensures ProcInv(s', id2)
    {
      assert id2 != id ==> ProcInv(s, id2);
    }
  }

  // Taking or giving back a lock.
  lemma LockStepKeepsInv(s: State, s': State, id: nat, cfg: Config, pc: Pc)
    requires Inv(s) && id in s.procs && s.procs[id] == Starter(cfg, pc) && (pc.WaitLock? || pc.Exit?)
    requires ProcStep(s, s', id)
    ensures Inv(s')
  {
    hide WellFormed, AtMostOne, RunInv;
    assert ProcInv(s, id);
    forall id2 | id2 in s'.procs
      ensures ProcInv(s', id2)
    {
      assert id2 != id ==> ProcInv(s, id2);
      if id2 == id { NewPcHolds(s'.procs[id].cfg, s'.procs[id].pc, s'.w, s'.downed); }
    }
  }

  lemma NewPcHolds(cfg: Config, pc: Pc, w: World, downed: set<nat>)
    requires pc.Find? || pc.Done?
    ensures RunInv(cfg, pc, w, downed)
  {
  }

  lemma RunStepKeepsInv(s: State, s': State, id: nat, cfg: Config, pc: Pc)
    requires Inv(s) && id in s.procs && s.procs[id] == Starter(cfg, pc) && !pc.WaitLock? && !pc.Exit?
    requires ProcStep(s, s', id)
    ensures Inv(s')
  {
    hide WellFormed, AtMostOne, RunInv, RunStep, TouchesOnly, Continues, DownedAreGone;
    assert ProcInv(s, id);
    var pc' :| RunStep(cfg, pc, s.w, pc', s'.w) && s'.procs == s.procs[id := Starter(cfg, pc')];
    RunStepStaysHolding(cfg, pc, s.w, pc', s'.w);
    StepTouchesOnlyItsKey(cfg, pc, s.w, pc', s'.w, s.downed);
    StepKeepsRunInv(cfg, pc, s.w, pc', s'.w, s.downed);
    StepKeepsAtMostOne(cfg, pc, s.w, pc', s'.w, s.downed);
    OthersKeepTheirInv(s, s', id, cfg.key);
    DownedStayGone(s.w, s'.w, s.downed);
    LocksStay(s, s', id, Starter(cfg, pc'));
    hide LockInv;
  }

  lemma LocksStay(s: State, s': State, id: nat, p: Proc)
    requires LockInv(s) && id in s.procs && s'.lock == s.lock && s'.procs == s.procs[id := p]
    requires if p.Starter? then s.procs[id].Starter? && p.cfg == s.procs[id].cfg && Holding(p.pc)
             else s.procs[id].Downer?
    ensures LockInv(s')
  {
  }

  lemma DownedStayGone(w: World, w': World, downed: set<nat>)
    requires Continues(w, w') && DownedAreGone(w, downed)
    ensures DownedAreGone(w', downed)
  {
  }

  // Processes of other components survive any step that touches only the pods of k.
  lemma OthersKeepTheirInv(s: State, s': State, id: nat, k: Key)
    requires Inv(s) && id in s.procs && s.procs[id].Starter? && Holding(s.procs[id].pc) && s.procs[id].cfg.key == k
    requires s'.lock == s.lock && s'.downed == s.downed && s'.procs.Keys == s.procs.Keys
    requires forall id2 :: id2 in s.procs && id2 != id ==> s'.procs[id2] == s.procs[id2]
    requires Continues(s.w, s'.w) && TouchesOnly(s.w, s'.w, k)
    ensures forall id2 :: id2 in s'.procs && id2 != id ==> ProcInv(s', id2)
  {
    forall id2 | id2 in s'.procs && id2 != id
      ensures ProcInv(s', id2)
    {
      assert ProcInv(s, id2);
      hide WellFormed, AtMostOne, RunInv, TouchesOnly, Continues, Rely, LockInv;
      if s.procs[id2].Starter? && Holding(s.procs[id2].pc) {
        if s.procs[id2].cfg.key == k {
          MutualExclusion(s, id, id2);
        } else {
          OtherComponentsRely(k, s.procs[id2].cfg.key, s.w, s'.w, s.downed);
        }
      }
      ProcInvIsStable(s, s', id2);
    }
  }

  lemma RunStepStaysHolding(cfg: Config, pc: Pc, w: World, pc': Pc, w': World)
    requires RunStep(cfg, pc, w, pc', w')
    ensures Holding(pc) && Holding(pc') && !pc'.WaitLock?
  {
  }

  lemma StepKeepsInv(s: State, s': State)
    requires Inv(s) && Step(s, s')
    ensures Inv(s')
  {
    hide Inv, WellFormed, AtMostOne, EnvStep, ProcStep;
    if EnvStep(s, s') {
      EnvStepKeepsInv(s, s');
    } else {
      var id :| ProcStep(s, s', id);
      if id !in s.procs {
        SpawnKeepsInv(s, s', id);
      } else {
        match s.procs[id]
        case Downer(_, _) => DownerStepKeepsInv(s, s', id);
        case Starter(cfg, pc) =>
          if pc.WaitLock? || pc.Exit? {
            LockStepKeepsInv(s, s', id, cfg, pc);
          } else {
            RunStepKeepsInv(s, s', id, cfg, pc);
          }
      }
    }
  }

  // What others do while one run holds its lock

  lemma RelyRefl(k: Key, w: World, downed: set<nat>)
    ensures Rely(k, w, w, downed, downed)
  {
  }

  lemma RelyTrans(k: Key, w0: World, d0: set<nat>, w1: World, d1: set<nat>, w2: World, d2: set<nat>)
    requires WellFormed(w0) && Rely(k, w0, w1, d0, d1) && Rely(k, w1, w2, d1, d2)
    ensures Rely(k, w0, w2, d0, d2)
  {
  }

  // While process id holds the lock of its component, every step of another process and of the
  // environment is one that id relies on.
  lemma OthersAreReliable(s: State, s': State, id: nat, actor: Option<nat>)
    requires Inv(s) && id in s.procs && s.procs[id].Starter? && Holding(s.procs[id].pc)
    requires if actor.Some? then actor.value != id && ProcStep(s, s', actor.value) else EnvStep(s, s')
    ensures Rely(s.procs[id].cfg.key, s.w, s'.w, s.downed, s'.downed)
  {
    var k := s.procs[id].cfg.key;
    if actor.Some? && actor.value in s.procs {
      var id2 := actor.value;
      match s.procs[id2]
      case Downer(scope, d) => DownerIsReliable(s, s', id2, scope, d, k);
      case Starter(cfg, pc) =>
        if !pc.WaitLock? && !pc.Exit? {
          StarterIsReliable(s, s', id2, cfg, pc, id);
        }
    }
  }

  lemma DownerIsReliable(s: State, s': State, id: nat, scope: Scope, d: DownPc, k: Key)
    requires Inv(s) && id in s.procs && s.procs[id] == Downer(scope, d) && ProcStep(s, s', id)
    ensures Rely(k, s.w, s'.w, s.downed, s'.downed)
  {
    assert ProcInv(s, id);
    hide WellFormed, AtMostOne, DownStep, Rely, LockInv, DownedAreGone, DownInv;
    var d' :| DownStep(scope, d, s.w, d', s'.w) && s'.procs == s.procs[id := Downer(scope, d')];
    DownStepKeeps(scope, d, s.w, d', s'.w, s.downed);
  }

  lemma StarterIsReliable(s: State, s': State, id2: nat, cfg: Config, pc: Pc, id: nat)
    requires Inv(s) && id2 in s.procs && s.procs[id2] == Starter(cfg, pc) && !pc.WaitLock? && !pc.Exit?
    requires ProcStep(s, s', id2)
    requires id != id2 && id in s.procs && s.procs[id].Starter? && Holding(s.procs[id].pc)
    ensures Rely(s.procs[id].cfg.key, s.w, s'.w, s.downed, s'.downed)
  {
    hide WellFormed, AtMostOne, RunInv, RunStep, TouchesOnly, Continues, Rely, LockInv, DownedAreGone;
    var pc' :| RunStep(cfg, pc, s.w, pc', s'.w) && s'.procs == s.procs[id2 := Starter(cfg, pc')];
    assert ProcInv(s, id2);
    RunStepStaysHolding(cfg, pc, s.w, pc', s'.w);
    if cfg.key == s.procs[id].cfg.key {
      MutualExclusion(s, id, id2);
    }
    hide Inv, ProcStep, ProcInv;
    InvIsWellFormed(s);
    StepTouchesOnlyItsKey(cfg, pc, s.w, pc', s'.w, s.downed);
    OtherComponentsRely(cfg.key, s.procs[id].cfg.key, s.w, s'.w, s.downed);
  }

  // Whole runs

  ghost predicate Behaviour(run: seq<State>) {
    && |run| > 0
    && Init(run[0])
    && forall i :: 0 <= i < |run| - 1 ==> Step(run[i], run[i + 1])
  }

  lemma {:induction false} BehaviourInv(run: seq<State>, i: nat)
    requires Behaviour(run) && i < |run|
    ensures Inv(run[i])
  {
    if i > 0 {
      BehaviourInv(run, i - 1);
      assert Step(run[i - 1], run[i - 1 + 1]);
      StepKeepsInv(run[i - 1], run[i]);
    } else {
      assert Inv(run[0]);
    }
  }

  // No interleaving ever produces a second pod for a component, and no start run ever takes the
  // "running (handoff)" exit.
  lemma AtMostOnePodPerComponent(run: seq<State>)
    requires Behaviour(run)
    ensures forall i :: 0 <= i < |run| ==> AtMostOne(run[i].w)
    ensures forall i, id, cfg, p, q :: 0 <= i < |run| && id in run[i].procs ==>
              run[i].procs[id] != Starter(cfg, Exit(Handoff(p, q)))
  {
    forall i | 0 <= i < |run|
      ensures Inv(run[i])
    {
      BehaviourInv(run, i);
    }
    forall i, id, cfg, p, q | 0 <= i < |run| && id in run[i].procs
      ensures run[i].procs[id] != Starter(cfg, Exit(Handoff(p, q)))
    {
      assert ProcInv(run[i], id);
    }
  }

  // A run that is about to return normally found or made the component's only pod.  That pod is
  // there unless an unlocked removal took it, and then the component has no pod at all.  With a
  // rollout key the pod carries that key.
  lemma NormalExit(run: seq<State>, i: nat, id: nat, cfg: Config, p: nat)
    requires Behaviour(run) && i < |run| && id in run[i].procs
    requires run[i].procs[id] == Starter(cfg, Exit(Reused(p))) || run[i].procs[id] == Starter(cfg, Exit(Started(p)))
    ensures Sole(run[i].w, cfg.key, p)
    ensures p in run[i].w.pods <==> p !in run[i].downed
    ensures p in run[i].w.pods ==> PodMatches(run[i].w, p, cfg.key)
    ensures p in run[i].w.pods && cfg.rollout != "" ==> run[i].w.pods[p].rollout == Some(cfg.rollout)
    ensures p !in run[i].w.pods ==> NoPod(run[i].w, cfg.key)
  {
    BehaviourInv(run, i);
    assert ProcInv(run[i], id);
  }

  // The "not running" and "unstable" exits leave no pod for the component.
  lemma FailureExit(run: seq<State>, i: nat, id: nat, cfg: Config)
    requires Behaviour(run) && i < |run| && id in run[i].procs
    requires run[i].procs[id] == Starter(cfg, Exit(FailedUnstable))
          || run[i].procs[id] == Starter(cfg, Exit(FailedNotRunning))
    ensures NoPod(run[i].w, cfg.key)
  {
    BehaviourInv(run, i);
    assert ProcInv(run[i], id);
  }

  // Components that nobody works on

  predicate WorksOn(p: Proc, k: Key) {
    match p
    case Starter(cfg, _) => cfg.key == k
    case Downer(scope, _) => Reaches(scope, k)
  }

  ghost predicate Unattended(s: State, k: Key) {
    forall id :: id in s.procs ==> !WorksOn(s.procs[id], k)
  }

  // The pods of k are the same pods, holding the same containers; only container states may differ.
  ghost predicate SameComponent(w: World, w': World, k: Key) {
    && (forall p :: PodMatches(w, p, k) ==> p in w'.pods && w'.pods[p] == w.pods[p])
    && (forall p :: PodMatches(w', p, k) ==> PodMatches(w, p, k))
    && (forall c :: c in w.ctrs && PodMatches(w, w.ctrs[c].pod, k) ==>
          c in w'.ctrs && w'.ctrs[c] == w.ctrs[c].(state := w'.ctrs[c].state))
    && (forall c :: c in w'.ctrs && PodMatches(w', w'.ctrs[c].pod, k) ==>
          c in w.ctrs && w.ctrs[c].pod == w'.ctrs[c].pod)
  }

  lemma OtherKeySameComponent(w: World, w': World, k: Key, k2: Key)
    requires WellFormed(w) && WellFormed(w') && Continues(w, w') && TouchesOnly(w, w', k) && k != k2
    ensures SameComponent(w, w', k2)
  {
  }

  lemma OtherScopeSameComponent(scope: Scope, d: DownPc, w: World, d': DownPc, w': World, k: Key)
    requires WellFormed(w) && DownInv(scope, d, w) && DownStep(scope, d, w, d', w') && !Reaches(scope, k)
    ensures SameComponent(w, w', k)
  {
    match d
    case Next(todo) =>
      if w' != w || d' != Finished {
        var p :| p in todo && w' == StopPod(w, p) && (d' == Finished || d' == Drop(p, todo - {p}));
        assert MayRemove(w, p, scope);
      }
    case Drop(p, todo) => assert MayRemove(w, p, scope);
    case _ =>
  }

  lemma SameComponentTrans(w0: World, w1: World, w2: World, k: Key)
    requires SameComponent(w0, w1, k) && SameComponent(w1, w2, k)
    ensures SameComponent(w0, w2, k)
  {
    forall c | c in w2.ctrs && PodMatches(w2, w2.ctrs[c].pod, k)
      ensures c in w0.ctrs && w0.ctrs[c].pod == w2.ctrs[c].pod
    {
      assert PodMatches(w1, w2.ctrs[c].pod, k);
    }
  }

  lemma UnattendedBefore(s: State, s': State, k: Key)
    requires Step(s, s') && Unattended(s', k)
    ensures Unattended(s, k)
  {
    forall id | id in s.procs
      ensures !WorksOn(s.procs[id], k)
    {
      ActorsStay(s, s', id, k);
    }
  }

  lemma ActorsStay(s: State, s': State, id: nat, k: Key)
    requires Step(s, s') && id in s.procs
    ensures id in s'.procs && WorksOn(s'.procs[id], k) == WorksOn(s.procs[id], k)
  {
    hide ProcStep, WorksOn;
    if !EnvStep(s, s') {
      var actor :| ProcStep(s, s', actor);
      ActorStays(s, s', id, actor, k);
    }
  }

  lemma ActorStays(s: State, s': State, id: nat, actor: nat, k: Key)
    requires ProcStep(s, s', actor) && id in s.procs
    ensures id in s'.procs && WorksOn(s'.procs[id], k) == WorksOn(s.procs[id], k)
  {
    hide RunStep, DownStep, StarterStep;
    if actor in s.procs && s.procs[actor].Starter? {
      StarterStays(s, s', actor, s.procs[actor].cfg, s.procs[actor].pc);
    }
  }

  lemma StarterStays(s: State, s': State, id: nat, cfg: Config, pc: Pc)
    requires StarterStep(s, s', id, cfg, pc)
    ensures exists pc' :: s'.procs == s.procs[id := Starter(cfg, pc')]
  {
    hide RunStep;
  }

  lemma StepSameComponent(s: State, s': State, k: Key)
    requires Inv(s) && Inv(s') && Step(s, s')
    requires Unattended(s, k)
    ensures SameComponent(s.w, s'.w, k)
  {
    hide Inv;
    if !EnvStep(s, s') {
      var id :| ProcStep(s, s', id);
      hide ProcStep, EnvStep, SameComponent;
      if id in s.procs {
        match s.procs[id]
        case Downer(scope, d) => DownerSameComponent(s, s', id, k);
        case Starter(cfg, pc) => StarterSameComponent(s, s', id, k);
      } else {
        SpawnSameComponent(s, s', id, k);
      }
    }
  }

  lemma SpawnSameComponent(s: State, s': State, id: nat, k: Key)
    requires ProcStep(s, s', id) && id !in s.procs
    ensures SameComponent(s.w, s'.w, k)
  {
  }

  lemma DownerSameComponent(s: State, s': State, id: nat, k: Key)
    requires Inv(s) && ProcStep(s, s', id) && id in s.procs && s.procs[id].Downer? && !WorksOn(s.procs[id], k)
    ensures SameComponent(s.w, s'.w, k)
  {
    assert ProcInv(s, id);
    hide AtMostOne, LockInv, DownStep, DownInv, WellFormed, SameComponent, DownedAreGone;
    var scope, d := s.procs[id].scope, s.procs[id].dpc;
    var d' :| DownStep(scope, d, s.w, d', s'.w) && s'.procs == s.procs[id := Downer(scope, d')];
    OtherScopeSameComponent(scope, d, s.w, d', s'.w, k);
  }

  lemma StarterSameComponent(s: State, s': State, id: nat, k: Key)
    requires Inv(s) && Inv(s') && ProcStep(s, s', id) && id in s.procs && s.procs[id].Starter?
    requires !WorksOn(s.procs[id], k)
    ensures SameComponent(s.w, s'.w, k)
  {
    hide AtMostOne, RunStep, RunInv, LockInv, WellFormed, SameComponent, DownedAreGone, Continues, TouchesOnly;
    var cfg, pc := s.procs[id].cfg, s.procs[id].pc;
    if pc.WaitLock? || pc.Exit? {
      NoChangeSameComponent(s.w, k);
    } else {
      var pc' :| RunStep(cfg, pc, s.w, pc', s'.w) && s'.procs == s.procs[id := Starter(cfg, pc')];
      assert ProcInv(s, id);
      hide Inv, ProcInv, ProcStep;
      StepTouchesOnlyItsKey(cfg, pc, s.w, pc', s'.w, s.downed);
      InvIsWellFormed(s);
      InvIsWellFormed(s');
      OtherKeySameComponent(s.w, s'.w, cfg.key, k);
    }
  }

  lemma InvIsWellFormed(s: State)
    requires Inv(s)
    ensures WellFormed(s.w)
  {
  }

  lemma NoChangeSameComponent(w: World, k: Key)
    ensures SameComponent(w, w, k)
  {
  }

  // As long as no start run of k and no unlocked removal that reaches it has appeared, the component
  // keeps exactly the pods and containers it had at the beginning.
  lemma {:induction false} UntouchedComponent(run: seq<State>, k: Key, i: nat)
    requires Behaviour(run) && i < |run| && Unattended(run[i], k)
    ensures SameComponent(run[0].w, run[i].w, k)
  {
    hide Inv, SameComponent, Unattended, Init, Step;
    if i > 0 {
      var s, s' := run[i - 1], run[i - 1 + 1];
      BehaviourInv(run, i - 1);
      BehaviourInv(run, i);
      UnattendedBefore(s, s', k);
      UntouchedComponent(run, k, i - 1);
      StepSameComponent(s, s', k);
      SameComponentTrans(run[0].w, s.w, s'.w, k);
    } else {
      NoChangeSameComponent(run[0].w, k);
    }
  }
}
