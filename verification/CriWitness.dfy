/**
  Concrete runs of scripts/dev/cri_stack.py in which a start reports success although its component has no pod: an
  unlocked removal, a down-profile or the reset of up-postgres, takes the pod after the last poll saw its container
  running.  There is one for every start and every removal that reaches its component, so that the condition in
  CriHistory.NormalExitLeavesPod cannot be dropped or narrowed.
 */
module CriWitness {
  import opened CriWorld
  import opened CriProtocol
  import opened CriInterleaving

  function Last(run: seq<State>): State
    requires |run| > 0
  {
    run[|run| - 1]
  }

  function Moved(s: State, id: nat, p: Proc, w: World): State {
    s.(w := w, procs := s.procs[id := p], downed := s.downed + (s.w.pods.Keys - w.pods.Keys))
  }

  // Appends one step of the start run 0 inside its critical section.
  lemma Advance(cfg: Config, run: seq<State>, pc: Pc, pc': Pc, w': World) returns (longer: seq<State>)
    requires Behaviour(run) && 0 in Last(run).procs && Last(run).procs[0] == Starter(cfg, pc)
    requires !pc.WaitLock? && !pc.Exit? && RunStep(cfg, pc, Last(run).w, pc', w')
    requires Last(run).w.pods.Keys <= w'.pods.Keys
    ensures Behaviour(longer) && |longer| > 0 && Last(longer) == Moved(Last(run), 0, Starter(cfg, pc'), w')
  {
    var s := Last(run);
    var s' := Moved(s, 0, Starter(cfg, pc'), w');
    assert s'.downed == s.downed;
    longer := run + [s'];
    assert ProcStep(s, s', 0);
    Lengthen(run, s', 0);
  }

  // Appends one step of the removal 1.
  lemma AdvanceDown(scope: Scope, run: seq<State>, d: DownPc, d': DownPc, w': World) returns (longer: seq<State>)
    requires Behaviour(run) && 1 in Last(run).procs && Last(run).procs[1] == Downer(scope, d)
    requires DownStep(scope, d, Last(run).w, d', w')
    ensures Behaviour(longer) && |longer| > 0 && Last(longer) == Moved(Last(run), 1, Downer(scope, d'), w')
  {
    var s' := Moved(Last(run), 1, Downer(scope, d'), w');
    longer := run + [s'];
    assert ProcStep(Last(run), s', 1);
    Lengthen(run, s', 1);
  }

  lemma Lengthen(run: seq<State>, s': State, id: nat)
    requires Behaviour(run) && ProcStep(Last(run), s', id)
    ensures Behaviour(run + [s'])
  {
    hide Init, ProcStep, EnvStep;
    var longer := run + [s'];
    forall i | 0 <= i < |longer| - 1
      ensures Step(longer[i], longer[i + 1])
    {
      if i < |run| - 1 {
        assert Step(run[i], run[i + 1]);
      }
    }
  }

  // Both processes appear and the start run takes the free lock.
  lemma Begin(cfg: Config, scope: Scope) returns (run: seq<State>)
    ensures Behaviour(run) && |run| > 0 && Last(run).w == World(map[], map[], 0) && Last(run).downed == {}
    ensures Last(run).procs == map[0 := Starter(cfg, Find), 1 := Downer(scope, ListPods)]
  {
    var w := World(map[], map[], 0);
    var s0 := State(w, map[], map[], {});
    var s1 := s0.(procs := map[0 := Starter(cfg, WaitLock)]);
    var s2 := s1.(procs := s1.procs[1 := Downer(scope, ListPods)]);
    var s3 := s2.(lock := map[cfg.key := 0], procs := s2.procs[0 := Starter(cfg, Find)]);
    assert AtStart(Starter(cfg, WaitLock)) && AtStart(Downer(scope, ListPods));
    run := [s0];
    Lengthen(run, s1, 0);
    Lengthen(run + [s1], s2, 1);
    assert s3.procs == s2.procs[0 := Starter(cfg, Find)] && s3.lock == s2.lock[cfg.key := 0];
    Lengthen(run + [s1] + [s2], s3, 0);
    run := run + [s1] + [s2] + [s3];
  }

  lemma UpToCreate(cfg: Config, scope: Scope) returns (run: seq<State>)
    ensures Behaviour(run) && |run| > 0 && Last(run).downed == {}
    ensures Last(run).w == World(map[0 := ConfigLabels(cfg)], map[], 1)
    ensures Last(run).procs == map[0 := Starter(cfg, Create(0)), 1 := Downer(scope, ListPods)]
  {
    hide Behaviour;
    run := Begin(cfg, scope);
    var w := Last(run).w;
    run := Advance(cfg, run, Find, Image, w);
    run := Advance(cfg, run, Image, RunSandbox, w);
    run := Advance(cfg, run, RunSandbox, Create(0), RunPod(w, ConfigLabels(cfg)));
  }

  lemma UpToPoll(cfg: Config, scope: Scope) returns (run: seq<State>)
    ensures Behaviour(run) && |run| > 0 && Last(run).downed == {}
    ensures Last(run).w == World(map[0 := ConfigLabels(cfg)], map[1 := Ctr(0, ConfigLabels(cfg), Running)], 2)
    ensures Last(run).procs == map[0 := Starter(cfg, Poll(0, 1, POLLS)), 1 := Downer(scope, ListPods)]
  {
    hide Behaviour;
    run := UpToCreate(cfg, scope);
    var w := CreateCtr(Last(run).w, 0, ConfigLabels(cfg));
    run := Advance(cfg, run, Create(0), Start(0, 1), w);
    w := StartCtr(w, 1);
    run := Advance(cfg, run, Start(0, 1), Poll(0, 1, POLLS), w);
  }

  // Where the start run is after its last look, which sees the container running
  function Seen(cfg: Config): Pc {
    if cfg.seconds > 0 then Window(0, 1, 1000 * cfg.seconds + 200, 1000 * cfg.seconds) else Exit(Started(0))
  }

  lemma RunsThere(cfg: Config, w: World)
    requires w == World(map[0 := ConfigLabels(cfg)], map[1 := Ctr(0, ConfigLabels(cfg), Running)], 2)
    ensures RunningIn(w, 0, cfg.key.component)
  {
    assert CtrIn(w, 1, 0);
  }

  lemma UpToSeen(cfg: Config, scope: Scope) returns (run: seq<State>)
    ensures Behaviour(run) && |run| > 0 && Last(run).downed == {}
    ensures Last(run).w == World(map[0 := ConfigLabels(cfg)], map[1 := Ctr(0, ConfigLabels(cfg), Running)], 2)
    ensures Last(run).procs == map[0 := Starter(cfg, Seen(cfg)), 1 := Downer(scope, ListPods)]
  {
    hide Behaviour, RunningIn, RunningElsewhere;
    run := UpToPoll(cfg, scope);
    var w := Last(run).w;
    RunsThere(cfg, w);
    if cfg.seconds > 0 {
      var entered := Window(0, 1, 0, 1000 * cfg.seconds);
      run := Advance(cfg, run, Poll(0, 1, POLLS), entered, w);
      run := Advance(cfg, run, entered, Seen(cfg), w);
    } else {
      run := Advance(cfg, run, Poll(0, 1, POLLS), Seen(cfg), w);
    }
  }

  // The removal, from its listing to its last command
  lemma Remove(cfg: Config, scope: Scope, run: seq<State>, pc: Pc) returns (longer: seq<State>)
    requires Behaviour(run) && |run| > 0 && Reaches(scope, cfg.key)
    requires Last(run).w == World(map[0 := ConfigLabels(cfg)], map[1 := Ctr(0, ConfigLabels(cfg), Running)], 2)
    requires Last(run).procs == map[0 := Starter(cfg, pc), 1 := Downer(scope, ListPods)]
    ensures Behaviour(longer) && |longer| > 0 && Last(longer).w == World(map[], map[], 2) && 0 in Last(longer).downed
    ensures 0 in Last(longer).procs && Last(longer).procs[0] == Starter(cfg, pc)
  {
    hide Behaviour;
    var w := Last(run).w;
    assert ScopePods(w, scope) == {0};
    longer := AdvanceDown(scope, run, ListPods, Next({0}), w);
    assert {0} - {0} == {};
    longer := AdvanceDown(scope, longer, Next({0}), Drop(0, {}), StopPod(w, 0));
    longer := AdvanceDown(scope, longer, Drop(0, {}), Next({}), DropPod(StopPod(w, 0), 0));
  }

  // For every start and every unlocked removal that reaches its component: a reachable state in which the start is
  // about to return normally and its component has no pod.
  lemma SuccessWithoutPod(cfg: Config, scope: Scope) returns (run: seq<State>)
    requires Reaches(scope, cfg.key)
    ensures Behaviour(run) && |run| > 0
    ensures 0 in Last(run).procs && Last(run).procs[0] == Starter(cfg, Exit(Started(0)))
    ensures NoPod(Last(run).w, cfg.key) && 0 in Last(run).downed
  {
    hide Behaviour;
    run := UpToSeen(cfg, scope);
    run := Remove(cfg, scope, run, Seen(cfg));
    if cfg.seconds > 0 {
      run := Advance(cfg, run, Seen(cfg), Exit(Started(0)), Last(run).w);
    }
  }
}
