/**
  What holds over stretches of a run of scripts/dev/cri_stack.py: what a lock holder can rely on for as long as it
  waits, that its pod stays while no unlocked removal reaches it, and that an older pod does not outlive it.
 */
module CriHistory {
  import opened CriInterleaving
  import opened CriProtocol
  import opened CriWorld
  import opened Options

  // Any number of steps of others

  // A run's own step never leaves it where it was.
  lemma StepMoves(cfg: Config, pc: Pc, w: World, pc': Pc, w': World)
    requires RunStep(cfg, pc, w, pc', w')
    ensures pc' != pc
  {
    hide RunningIn, RunningElsewhere, NoPod;
  }

  lemma OwnTurnMoves(s: State, s': State, id: nat, cfg: Config, pc: Pc)
    requires id in s.procs && s.procs[id] == Starter(cfg, pc) && Holding(pc) && StarterStep(s, s', id, cfg, pc)
    ensures id in s'.procs && s'.procs[id] != s.procs[id]
  {
    hide RunStep;
    if !pc.Exit? {
      var pc' :| RunStep(cfg, pc, s.w, pc', s'.w) && s'.procs == s.procs[id := Starter(cfg, pc')];
      StepMoves(cfg, pc, s.w, pc', s'.w);
    }
  }

  lemma StepWhileHolding(s: State, s': State, id: nat)
    requires Inv(s) && Step(s, s') && id in s.procs && id in s'.procs && s'.procs[id] == s.procs[id]
    requires s.procs[id].Starter? && Holding(s.procs[id].pc)
    ensures Rely(s.procs[id].cfg.key, s.w, s'.w, s.downed, s'.downed)
  {
    hide Inv, EnvStep, Rely, RunStep;
    if EnvStep(s, s') {
      OthersAreReliable(s, s', id, None);
    } else {
      var actor :| ProcStep(s, s', actor);
      if actor != id {
        hide ProcStep;
        OthersAreReliable(s, s', id, Some(actor));
      } else {
        OwnTurnMoves(s, s', id, s.procs[id].cfg, s.procs[id].pc);
      }
    }
  }

  // As long as a run that holds its lock stays where it is, whatever happens is what it relies on.
  lemma {:induction false} OthersThroughout(run: seq<State>, i: nat, j: nat, id: nat)
    requires Behaviour(run) && i <= j < |run|
    requires id in run[i].procs && run[i].procs[id].Starter? && Holding(run[i].procs[id].pc)
    requires forall k :: i <= k <= j ==> id in run[k].procs && run[k].procs[id] == run[i].procs[id]
    ensures Rely(run[i].procs[id].cfg.key, run[i].w, run[j].w, run[i].downed, run[j].downed)
  {
    hide Inv, Step, Init, Rely, WellFormed;
    var k := run[i].procs[id].cfg.key;
    if i == j {
      RelyRefl(k, run[i].w, run[i].downed);
    } else {
      OthersThroughout(run, i, j - 1, id);
      assert Step(run[j - 1], run[j - 1 + 1]);
      BehaviourInv(run, i);
      BehaviourInv(run, j - 1);
      InvIsWellFormed(run[i]);
      StepWhileHolding(run[j - 1], run[j], id);
      RelyTrans(k, run[i].w, run[i].downed, run[j - 1].w, run[j - 1].downed, run[j].w, run[j].downed);
    }
  }

  // The pod of a run

  // The pod that a run means to keep
  function PodOf(pc: Pc): Option<nat> {
    match pc
    case Check(p, _) => Some(p)
    case Create(p) => Some(p)
    case Start(p, _) => Some(p)
    case Poll(p, _, _) => Some(p)
    case Window(p, _, _, _) => Some(p)
    case Debounce(p, _, _, _) => Some(p)
    case Inspect(p, _, _, _) => Some(p)
    case Reported(p, _, _, _, _) => Some(p)
    case Elsewhere(p, _) => Some(p)
    case Exit(Reused(p)) => Some(p)
    case Exit(Started(p)) => Some(p)
    case _ => None
  }

  ghost predicate HasItsPod(cfg: Config, pc: Pc, w: World) {
    PodOf(pc).Some? ==> PodMatches(w, PodOf(pc).value, cfg.key)
  }

  lemma OwnStepKeepsPod(cfg: Config, pc: Pc, w: World, pc': Pc, w': World)
    requires HasItsPod(cfg, pc, w) && RunStep(cfg, pc, w, pc', w')
    requires pc.DropNew? ==> pc.after.DropsPod()
    ensures HasItsPod(cfg, pc', w')
  {
    hide RunningIn, RunningElsewhere, NoPod;
  }

  // No unlocked removal reaches the component.
  ghost predicate Undisturbed(s: State, k: Key) {
    forall id :: id in s.procs && s.procs[id].Downer? ==> !Reaches(s.procs[id].scope, k)
  }

  // A process stays what it is.
  lemma KindStays(s: State, s': State, id: nat)
    requires Step(s, s') && id in s.procs
    ensures id in s'.procs
    ensures s.procs[id].Downer? ==> s'.procs[id].Downer? && s'.procs[id].scope == s.procs[id].scope
    ensures s.procs[id].Starter? ==> s'.procs[id].Starter? && s'.procs[id].cfg == s.procs[id].cfg
  {
    hide RunStep, DownStep;
  }

  lemma UndisturbedBefore(s: State, s': State, k: Key)
    requires Step(s, s') && Undisturbed(s', k)
    ensures Undisturbed(s, k)
  {
    hide Step;
    forall id | id in s.procs && s.procs[id].Downer?
      ensures !Reaches(s.procs[id].scope, k)
    {
      KindStays(s, s', id);
    }
  }

  lemma SameComponentKeepsPod(w: World, w': World, k: Key, p: nat)
    requires SameComponent(w, w', k) && PodMatches(w, p, k)
    ensures PodMatches(w', p, k)
  {
  }

  lemma EnvKeepsPods(s: State, s': State)
    requires EnvStep(s, s')
    ensures s'.w.pods == s.w.pods && s'.procs == s.procs && s'.w.next == s.w.next
  {
  }

  // A step of another process keeps the pod of a run that holds its lock.
  lemma OtherStepKeepsPod(s: State, s': State, id: nat, actor: nat, p: nat)
    requires Inv(s) && Inv(s') && ProcStep(s, s', actor) && actor != id
    requires id in s.procs && s.procs[id].Starter? && Holding(s.procs[id].pc)
    requires Undisturbed(s, s.procs[id].cfg.key) && PodMatches(s.w, p, s.procs[id].cfg.key)
    ensures PodMatches(s'.w, p, s.procs[id].cfg.key)
  {
    hide Inv, SameComponent, RunStep, DownStep;
    var k := s.procs[id].cfg.key;
    if actor in s.procs {
      match s.procs[actor]
      case Downer(_, _) =>
        DownerSameComponent(s, s', actor, k);
        SameComponentKeepsPod(s.w, s'.w, k, p);
      case Starter(cfg, pc) =>
        if cfg.key != k {
          StarterSameComponent(s, s', actor, k);
          SameComponentKeepsPod(s.w, s'.w, k, p);
        } else if Holding(pc) {
          MutualExclusion(s, id, actor);
        } else if pc.Done? {
          var pc' := OwnStep(s, s', actor, cfg, pc);
          RunStepStaysHolding(cfg, pc, s.w, pc', s'.w);
        }
    }
  }

  lemma OtherStepKeepsProc(s: State, s': State, id: nat, actor: nat)
    requires ProcStep(s, s', actor) && actor != id && id in s.procs
    ensures id in s'.procs && s'.procs[id] == s.procs[id]
  {
    hide RunStep, DownStep;
  }

  // A run's own step, from the inside
  lemma OwnStep(s: State, s': State, id: nat, cfg: Config, pc: Pc) returns (pc': Pc)
    requires ProcStep(s, s', id) && id in s.procs && s.procs[id] == Starter(cfg, pc)
    ensures id in s'.procs && s'.procs[id] == Starter(cfg, pc')
    ensures if pc.WaitLock? || pc.Exit? then s'.w == s.w && (pc' == Find || pc'.Done?) else RunStep(cfg, pc, s.w, pc', s'.w)
  {
    hide RunStep;
    if pc.WaitLock? || pc.Exit? {
      pc' := s'.procs[id].pc;
    } else {
      pc' :| RunStep(cfg, pc, s.w, pc', s'.w) && s'.procs == s.procs[id := Starter(cfg, pc')];
    }
  }

  lemma SpawnedIsWaiting(s: State, s': State, id: nat)
    requires Step(s, s') && id !in s.procs && id in s'.procs && s'.procs[id].Starter?
    ensures s'.procs[id].pc == WaitLock
  {
    hide RunStep, DownStep;
  }

  ghost predicate RunHasItsPod(s: State, id: nat)
    requires id in s.procs && s.procs[id].Starter?
  {
    HasItsPod(s.procs[id].cfg, s.procs[id].pc, s.w)
  }

  lemma StepKeepsItsPod(s: State, s': State, id: nat)
    requires Inv(s) && Inv(s') && Step(s, s') && id in s.procs && s.procs[id].Starter? && RunHasItsPod(s, id)
    requires Undisturbed(s, s.procs[id].cfg.key)
    ensures id in s'.procs && s'.procs[id].Starter? && RunHasItsPod(s', id)
  {
    hide Inv, EnvStep, ProcStep, RunStep, Undisturbed;
    var cfg, pc := s.procs[id].cfg, s.procs[id].pc;
    if EnvStep(s, s') {
      EnvKeepsPods(s, s');
    } else {
      var actor :| ProcStep(s, s', actor);
      if actor == id {
        var pc' := OwnStep(s, s', id, cfg, pc);
        ExitsDrop(s, id);
        if !pc.WaitLock? && !pc.Exit? {
          OwnStepKeepsPod(cfg, pc, s.w, pc', s'.w);
        }
      } else {
        OtherStepKeepsProc(s, s', id, actor);
        if PodOf(pc).Some? {
          OtherStepKeepsPod(s, s', id, actor, PodOf(pc).value);
        }
      }
    }
  }

  lemma {:induction false} RunKeepsItsPod(run: seq<State>, i: nat, id: nat)
    requires Behaviour(run) && i < |run| && id in run[i].procs && run[i].procs[id].Starter?
    requires Undisturbed(run[i], run[i].procs[id].cfg.key)
    ensures RunHasItsPod(run[i], id)
  {
    hide Inv, Step, Undisturbed, HasItsPod;
    assert i > 0;
    var s, s' := run[i - 1], run[i - 1 + 1];
    assert Step(s, s');
    hide Behaviour;
    BehaviourInv(run, i - 1);
    BehaviourInv(run, i);
    UndisturbedBefore(s, s', run[i].procs[id].cfg.key);
    if id in s.procs {
      KindStays(s, s', id);
      RunKeepsItsPod(run, i - 1, id);
      StepKeepsItsPod(s, s', id);
    } else {
      SpawnedIsWaiting(s, s', id);
      WaitingHasItsPod(s', id);
    }
  }

  lemma WaitingHasItsPod(s: State, id: nat)
    requires id in s.procs && s.procs[id].Starter? && s.procs[id].pc == WaitLock
    ensures RunHasItsPod(s, id)
  {
  }

  // If no unlocked removal that reaches the component has appeared, a run that is about to return normally leaves
  // the component's pod in the store, with the rollout key if one was given.
  lemma NormalExitLeavesPod(run: seq<State>, i: nat, id: nat, cfg: Config, p: nat)
    requires Behaviour(run) && i < |run| && id in run[i].procs
    requires run[i].procs[id] == Starter(cfg, Exit(Reused(p))) || run[i].procs[id] == Starter(cfg, Exit(Started(p)))
    requires Undisturbed(run[i], cfg.key)
    ensures PodMatches(run[i].w, p, cfg.key) && Sole(run[i].w, cfg.key, p)
    ensures cfg.rollout != "" ==> run[i].w.pods[p].rollout == Some(cfg.rollout)
  {
    hide Behaviour, Undisturbed;
    RunKeepsItsPod(run, i, id);
    NormalExit(run, i, id, cfg, p);
  }

  // Older pods

  // The pod that a run has made
  function NewPodOf(pc: Pc): Option<nat> {
    match pc
    case Check(_, _) => None
    case Exit(Reused(_)) => None
    case StopNew(p, _) => Some(p)
    case DropNew(p, _) => Some(p)
    case _ => PodOf(pc)
  }

  // If the run has made a pod, its identifier is not below n.
  ghost predicate MadeSince(s: State, id: nat, n: nat) {
    n <= s.w.next
    && (id in s.procs && s.procs[id].Starter? && NewPodOf(s.procs[id].pc).Some? ==> NewPodOf(s.procs[id].pc).value >= n)
  }

  lemma OwnStepMakesLater(cfg: Config, pc: Pc, w: World, pc': Pc, w': World, n: nat)
    requires RunStep(cfg, pc, w, pc', w') && n <= w.next
    requires NewPodOf(pc).Some? ==> NewPodOf(pc).value >= n
    requires pc.StopNew? ==> pc.after.DropsPod()
    requires pc.DropNew? ==> pc.after.DropsPod()
    ensures NewPodOf(pc').Some? ==> NewPodOf(pc').value >= n
  {
    hide RunningIn, RunningElsewhere, NoPod;
  }

  lemma NextGrows(s: State, s': State)
    requires Inv(s) && Step(s, s')
    ensures s.w.next <= s'.w.next
  {
    hide Inv, EnvStep, ProcStep, RunStep, DownStep, WellFormed, AtMostOne, RunInv, TouchesOnly;
    if EnvStep(s, s') {
      EnvKeepsPods(s, s');
    } else {
      var actor :| ProcStep(s, s', actor);
      StepContinues(s, s', actor);
    }
  }

  lemma StepContinues(s: State, s': State, actor: nat)
    requires Inv(s) && ProcStep(s, s', actor)
    ensures s.w.next <= s'.w.next
  {
    hide WellFormed, AtMostOne, RunInv, TouchesOnly, RunStep, DownStep, LockInv, DownedAreGone, DownInv, Rely;
    if actor in s.procs {
      assert ProcInv(s, actor);
      match s.procs[actor]
      case Downer(scope, d) =>
        var d' :| DownStep(scope, d, s.w, d', s'.w) && s'.procs == s.procs[actor := Downer(scope, d')];
        DownStepKeeps(scope, d, s.w, d', s'.w, s.downed);
        RelyContinues(s, s', Key("", ""));
      case Starter(cfg, pc) =>
        var pc' := OwnStep(s, s', actor, cfg, pc);
        if !pc.WaitLock? && !pc.Exit? {
          StepTouchesOnlyItsKey(cfg, pc, s.w, pc', s'.w, s.downed);
        }
    }
  }

  lemma ExitsDrop(s: State, id: nat)
    requires Inv(s) && id in s.procs && s.procs[id].Starter?
    ensures s.procs[id].pc.StopNew? ==> s.procs[id].pc.after.DropsPod()
    ensures s.procs[id].pc.DropNew? ==> s.procs[id].pc.after.DropsPod()
  {
    assert ProcInv(s, id);
    hide OwnPod, WellFormed, AtMostOne, LockInv;
  }

  lemma StepMakesLater(s: State, s': State, id: nat, n: nat)
    requires Inv(s) && Step(s, s') && MadeSince(s, id, n)
    ensures MadeSince(s', id, n)
  {
    hide Inv, EnvStep, ProcStep, RunStep;
    NextGrows(s, s');
    if EnvStep(s, s') {
      EnvKeepsPods(s, s');
    } else if id !in s.procs {
      if id in s'.procs && s'.procs[id].Starter? {
        SpawnedIsWaiting(s, s', id);
      }
    } else {
      KindStays(s, s', id);
      var actor :| ProcStep(s, s', actor);
      if actor != id {
        OtherStepKeepsProc(s, s', id, actor);
      } else if s.procs[id].Starter? {
        var cfg, pc := s.procs[id].cfg, s.procs[id].pc;
        var pc' := OwnStep(s, s', id, cfg, pc);
        ExitsDrop(s, id);
        if !pc.WaitLock? && !pc.Exit? {
          OwnStepMakesLater(cfg, pc, s.w, pc', s'.w, n);
        }
      }
    }
  }

  lemma {:induction false} NewPodIsLater(run: seq<State>, i: nat, j: nat, id: nat)
    requires Behaviour(run) && i <= j < |run|
    requires id in run[i].procs && run[i].procs[id].Starter? ==> NewPodOf(run[i].procs[id].pc).None?
    ensures MadeSince(run[j], id, run[i].w.next)
  {
    hide Inv, Step, Init;
    if i < j {
      NewPodIsLater(run, i, j - 1, id);
      assert Step(run[j - 1], run[j - 1 + 1]);
      BehaviourInv(run, j - 1);
      hide MadeSince, Behaviour;
      StepMakesLater(run[j - 1], run[j], id, run[i].w.next);
    }
  }

  // A pod that is there before a start run has made its own, such as one leaked by a failing create or start, is
  // gone when the run leaves, whatever others do meanwhile, unless the run found it running and reused it or was
  // cut short.
  lemma OlderPodIsReplaced(run: seq<State>, i: nat, j: nat, id: nat, cfg: Config, o: Outcome, p: nat)
    requires Behaviour(run) && i <= j < |run|
    requires p in run[i].w.pods
    requires id in run[i].procs && run[i].procs[id].Starter? ==> NewPodOf(run[i].procs[id].pc).None?
    requires id in run[j].procs && run[j].procs[id] == Starter(cfg, Exit(o)) && o != Raised
    ensures o == Reused(p) || !PodMatches(run[j].w, p, cfg.key)
  {
    hide Behaviour, Inv;
    BehaviourInv(run, i);
    BehaviourInv(run, j);
    InvIsWellFormed(run[i]);
    NewPodIsLater(run, i, j, id);
    ExitIsFact(run[j], id);
  }

  lemma ExitIsFact(s: State, id: nat)
    requires Inv(s) && id in s.procs && s.procs[id].Starter? && s.procs[id].pc.Exit?
    ensures ExitFact(s.procs[id].cfg, s.procs[id].pc.outcome, s.w, s.downed)
  {
    assert ProcInv(s, id);
  }
}
