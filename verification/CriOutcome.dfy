/**
  Why a start run of scripts/dev/cri_stack.py ends as it does, whatever other processes and the environment do
  meanwhile: the looks that the run itself made justify its outcome.
 */
module CriOutcome {
  import opened CriWorld
  import opened CriProtocol
  import opened CriTrace
  import opened CriInterleaving
  import opened CriHistory

  // Inside the critical section, before the exit
  predicate InSection(pc: Pc) {
    Holding(pc) && !pc.Exit?
  }

  function MoveOf(s: State, s': State, id: nat): seq<Move> {
    if id in s.procs && id in s'.procs && s.procs[id].Starter? && s'.procs[id].Starter?
       && InSection(s.procs[id].pc) && s'.procs[id].pc != s.procs[id].pc
    then [Move(s.procs[id].pc, s.w, s'.procs[id].pc, s'.w)]
    else []
  }

  // The moves that the process id has made in its critical section by the state i
  function OwnMoves(run: seq<State>, i: nat, id: nat): seq<Move>
    requires i < |run|
  {
    if i == 0 then [] else OwnMoves(run, i - 1, id) + MoveOf(run[i - 1], run[i], id)
  }

  // What one step does to the place of a start run
  ghost predicate Turn(s: State, s': State, cfg: Config, pc: Pc, pc': Pc) {
    || pc' == pc
    || (pc == WaitLock && (pc' == Find || pc' == Done(Raised)))
    || (pc.Exit? && pc' == Done(pc.outcome))
    || (InSection(pc) && RunStep(cfg, pc, s.w, pc', s'.w))
  }

  lemma StepsStayInside(cfg: Config, pc: Pc, w: World, pc': Pc, w': World)
    requires RunStep(cfg, pc, w, pc', w')
    ensures InSection(pc) && !pc'.WaitLock?
  {
    hide RunningIn, RunningElsewhere, NoPod;
  }

  lemma OwnTurn(s: State, s': State, id: nat, cfg: Config, pc: Pc)
    requires id in s.procs && s.procs[id] == Starter(cfg, pc) && StarterStep(s, s', id, cfg, pc)
    ensures id in s'.procs && s'.procs[id].Starter? && s'.procs[id].cfg == cfg
    ensures Turn(s, s', cfg, pc, s'.procs[id].pc)
  {
    hide RunStep;
    if !pc.WaitLock? && !pc.Exit? {
      var pc' :| RunStep(cfg, pc, s.w, pc', s'.w) && s'.procs == s.procs[id := Starter(cfg, pc')];
      StepsStayInside(cfg, pc, s.w, pc', s'.w);
    }
  }

  lemma OthersTurn(s: State, s': State, id: nat, actor: nat)
    requires ProcStep(s, s', actor) && id in s.procs && actor != id
    ensures id in s'.procs && s'.procs[id] == s.procs[id]
  {
    hide RunStep, DownStep;
  }

  lemma StarterTurn(s: State, s': State, id: nat, cfg: Config, pc: Pc)
    requires Step(s, s') && id in s.procs && s.procs[id] == Starter(cfg, pc)
    ensures id in s'.procs && s'.procs[id].Starter? && s'.procs[id].cfg == cfg
    ensures Turn(s, s', cfg, pc, s'.procs[id].pc)
  {
    hide RunStep, DownStep, EnvStep, StarterStep;
    if EnvStep(s, s') {
      EnvKeepsPods(s, s');
    } else {
      var actor :| ProcStep(s, s', actor);
      if actor == id {
        OwnTurn(s, s', id, cfg, pc);
      } else {
        OthersTurn(s, s', id, actor);
      }
    }
  }

  lemma Newcomer(s: State, s': State, id: nat)
    requires Step(s, s') && id in s'.procs && (id in s.procs ==> s.procs[id].Downer?)
    ensures s'.procs[id].Starter? ==> s'.procs[id].pc == WaitLock
  {
    hide RunStep, DownStep, EnvStep;
    if EnvStep(s, s') {
      EnvKeepsPods(s, s');
    }
  }

  ghost predicate Recorded(run: seq<State>, i: nat, id: nat)
    requires i < |run|
  {
    if id in run[i].procs && run[i].procs[id].Starter? then
      var cfg, pc := run[i].procs[id].cfg, run[i].procs[id].pc;
      if pc.WaitLock? then OwnMoves(run, i, id) == [] else pc.Done? || Moves(cfg, OwnMoves(run, i, id), pc)
    else
      OwnMoves(run, i, id) == []
  }

  lemma TurnIsRecorded(run: seq<State>, i: nat, id: nat, cfg: Config, pc: Pc, pc': Pc)
    requires 0 < i < |run| && Recorded(run, i - 1, id) && Turn(run[i - 1], run[i], cfg, pc, pc')
    requires id in run[i - 1].procs && run[i - 1].procs[id] == Starter(cfg, pc)
    requires id in run[i].procs && run[i].procs[id] == Starter(cfg, pc')
    ensures Recorded(run, i, id)
  {
    hide RunStep;
    var before := OwnMoves(run, i - 1, id);
    assert before + [] == before;
    if InSection(pc) && pc' != pc {
      StepsStayInside(cfg, pc, run[i - 1].w, pc', run[i].w);
      MovesOn(cfg, before, Move(pc, run[i - 1].w, pc', run[i].w));
    }
  }

  lemma NewcomerIsRecorded(run: seq<State>, i: nat, id: nat)
    requires 0 < i < |run| && Recorded(run, i - 1, id) && Step(run[i - 1], run[i])
    requires id in run[i - 1].procs ==> run[i - 1].procs[id].Downer?
    ensures Recorded(run, i, id)
  {
    hide Step;
    if id in run[i].procs {
      Newcomer(run[i - 1], run[i], id);
    }
  }

  lemma {:induction false} MovesAreRecorded(run: seq<State>, i: nat, id: nat)
    requires Behaviour(run) && i < |run|
    ensures Recorded(run, i, id)
  {
    hide Moves, Step, MoveOf;
    if i > 0 {
      MovesAreRecorded(run, i - 1, id);
      var s, s' := run[i - 1], run[i];
      assert Step(s, run[i - 1 + 1]);
      if id in s.procs && s.procs[id].Starter? {
        StarterTurn(s, s', id, s.procs[id].cfg, s.procs[id].pc);
        TurnIsRecorded(run, i, id, s.procs[id].cfg, s.procs[id].pc, s'.procs[id].pc);
      } else {
        NewcomerIsRecorded(run, i, id);
      }
    }
  }

  // In every interleaving the run's own looks justify its outcome: a start with a stability window succeeds only after
  // a window that its container stood, and fails as unstable only after two looks and a report.
  lemma OutcomeIsEarned(run: seq<State>, i: nat, id: nat, cfg: Config, o: Outcome)
    requires Behaviour(run) && i < |run| && id in run[i].procs && run[i].procs[id] == Starter(cfg, Exit(o))
    ensures Justified(cfg, OwnMoves(run, i, id), o)
  {
    hide Behaviour, Justified, Moves, OwnMoves;
    MovesAreRecorded(run, i, id);
    OutcomeIsJustified(cfg, OwnMoves(run, i, id), o);
  }
}
