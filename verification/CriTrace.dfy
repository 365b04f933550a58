/**
  What the moves of one start run tell about its looks at the store (scripts/dev/cri_stack.py, the polling loop and the
  stability window of _start_component_unlocked), whatever others did to the store between two moves.
 */
module CriTrace {
  import opened Options
  import opened CriWorld
  import opened CriProtocol

  /** One command or listing of a run: where the run was, the store before, where it went, the store after. */
  datatype Move = Move(pc: Pc, w: World, pc': Pc, w': World)

  // All moves of a run, from its first look at the store to where it is now
  ghost predicate Moves(cfg: Config, t: seq<Move>, pc: Pc) {
    && (if t == [] then pc == Find else t[0].pc == Find && t[|t| - 1].pc' == pc)
    && (forall i :: 0 <= i < |t| ==> RunStep(cfg, t[i].pc, t[i].w, t[i].pc', t[i].w'))
    && (forall i {:trigger t[i].pc} :: 0 < i < |t| ==> t[i].pc == t[i - 1].pc')
  }

  lemma MovesOn(cfg: Config, t: seq<Move>, m: Move)
    requires Moves(cfg, t, m.pc) && RunStep(cfg, m.pc, m.w, m.pc', m.w')
    ensures Moves(cfg, t + [m], m.pc')
  {
    hide RunStep;
    var longer := t + [m];
    forall i | 0 <= i < |longer|
      ensures RunStep(cfg, longer[i].pc, longer[i].w, longer[i].pc', longer[i].w')
    {
    }
  }

  // The move before the move i
  lemma Before(cfg: Config, t: seq<Move>, pc: Pc, i: nat)
    requires Moves(cfg, t, pc) && i <= |t|
    requires var at := if i < |t| then t[i].pc else pc; at != Find
    ensures i > 0 && RunStep(cfg, t[i - 1].pc, t[i - 1].w, t[i - 1].pc', t[i - 1].w')
    ensures t[i - 1].pc' == if i < |t| then t[i].pc else pc
  {
    hide RunStep;
  }

  // What was seen

  predicate InWindow(pc: Pc, p: nat, c: nat, deadline: nat) {
    match pc
    case Window(q, d, _, e) => q == p && d == c && e == deadline
    case Debounce(q, d, _, e) => q == p && d == c && e == deadline
    case Inspect(q, d, _, e) => q == p && d == c && e == deadline
    case Reported(q, d, _, e, _) => q == p && d == c && e == deadline
    case _ => false
  }

  ghost predicate SeesRunning(cfg: Config, m: Move, p: nat) {
    RunningIn(m.w, p, cfg.key.component)
  }

  // A look before the deadline that finds the pod p without its container running, a second one at least 500
  // milliseconds later, and a report of `inspect` other than "running", "created" and nothing
  ghost predicate FoundStopped(cfg: Config, t: seq<Move>, i: int, p: nat) {
    && 0 <= i && i + 3 < |t|
    && t[i].pc.Window? && t[i].pc.pod == p && t[i].pc.clock < t[i].pc.deadline && !SeesRunning(cfg, t[i], p)
    && t[i + 1].pc.Debounce? && t[i].pc.clock + 500 <= t[i + 1].pc.clock && !SeesRunning(cfg, t[i + 1], p)
    && t[i + 2].pc.Inspect?
    && t[i + 3].pc.Reported? && CouldReport(t[i + 2].w, t[i].pc.ctr, t[i + 3].pc.report)
    && t[i + 3].pc.report in {Unparsable, Says(Exited), Says(Unknown)}
  }

  // The run enters the window at its move a, after a look that found the container running, and is in it up to its
  // move i.
  ghost predicate Entered(cfg: Config, t: seq<Move>, a: int, i: nat, p: nat, c: nat, deadline: nat) {
    && 0 < a <= i < |t| && cfg.seconds > 0
    && t[a - 1].pc.Poll? && SeesRunning(cfg, t[a - 1], p)
    && t[a].pc.Window? && t[a].pc.clock + 1000 * cfg.seconds == deadline
    && forall k :: a <= k <= i ==> InWindow(t[k].pc, p, c, deadline)
  }

  // A look of the window that found the container running; or a second one did, at least 500 milliseconds later; or
  // `inspect` then reported "running", "created" or nothing
  ghost predicate Excused(cfg: Config, t: seq<Move>, k: nat, p: nat) {
    && k + 1 < |t| && t[k].pc.Window? && t[k].pc.clock < t[k].pc.deadline
    && (|| SeesRunning(cfg, t[k], p)
        || (&& t[k + 1].pc.Debounce? && t[k].pc.clock + 500 <= t[k + 1].pc.clock
            && (|| SeesRunning(cfg, t[k + 1], p)
                || (&& k + 3 < |t| && t[k + 2].pc.Inspect? && t[k + 3].pc.Reported?
                    && CouldReport(t[k + 2].w, t[k].pc.ctr, t[k + 3].pc.report)
                    && t[k + 3].pc.report in {NoOutput, Says(Running), Says(Created)}))))
  }

  // The run entered the window at its move a and left it at its last move, after the deadline; it looked at least
  // once, and no look of the window counted as an exit of the container.
  ghost predicate Stood(cfg: Config, t: seq<Move>, a: int, p: nat) {
    && 0 < a < |t| - 1
    && t[a - 1].pc.Poll? && SeesRunning(cfg, t[a - 1], p)
    && t[a].pc.Window? && t[a].pc.pod == p && t[a].pc.clock < t[a].pc.deadline
    && t[|t| - 1].pc.Window? && t[a].pc.clock + 1000 * cfg.seconds <= t[|t| - 1].pc.clock
    && (forall k :: a <= k < |t| ==> InWindow(t[k].pc, p, t[a].pc.ctr, t[a].pc.deadline))
    && (forall k :: a <= k < |t| - 1 && t[k].pc.Window? ==> Excused(cfg, t, k, p))
  }

  // n looks in a row, the last of them the move before the move i, found no container of the pod p running.
  ghost predicate NotSeen(cfg: Config, t: seq<Move>, i: nat, n: nat, p: nat) {
    && n <= i <= |t|
    && forall k :: i - n <= k < i ==> t[k].pc.Poll? && t[k].pc.pod == p && !SeesRunning(cfg, t[k], p)
  }

  // What the moves of a run tell when it ends with the outcome o
  ghost predicate Justified(cfg: Config, t: seq<Move>, o: Outcome) {
    match o
    case Reused(p) =>
      && t != [] && t[|t| - 1].pc.Check? && t[|t| - 1].pc.pod == p && SeesRunning(cfg, t[|t| - 1], p)
      && !cfg.recreate && (cfg.rollout == "" || t[|t| - 1].pc.rollout == Some(cfg.rollout))
    case Started(p) =>
      if cfg.seconds > 0 then exists a :: Stood(cfg, t, a, p)
      else t != [] && t[|t| - 1].pc.Poll? && SeesRunning(cfg, t[|t| - 1], p)
    case Handoff(p, q) => |t| >= 5 && FoundStopped(cfg, t, |t| - 5, p) && RunningElsewhere(t[|t| - 1].w, cfg.key, p, q)
    case FailedUnstable => |t| >= 7 && t[|t| - 1].pc.DropNew? && FoundStopped(cfg, t, |t| - 7, t[|t| - 1].pc.pod)
    case FailedNotRunning => |t| >= 3 && t[|t| - 1].pc.DropNew? && NotSeen(cfg, t, |t| - 3, 30, t[|t| - 1].pc.pod)
    case Raised => true
  }

  // The move at which a run that is in the window entered it
  lemma {:induction false} Entry(cfg: Config, t: seq<Move>, pc: Pc, i: nat, p: nat, c: nat, deadline: nat) returns (a: int)
    requires Moves(cfg, t, pc) && i < |t| && InWindow(t[i].pc, p, c, deadline)
    ensures Entered(cfg, t, a, i, p, c, deadline)
  {
    hide Moves, RunningIn, RunningElsewhere;
    Before(cfg, t, pc, i);
    if t[i - 1].pc.Poll? {
      a := i;
    } else {
      a := Entry(cfg, t, pc, i - 1, p, c, deadline);
    }
  }

  // Within the window every look is excused.
  lemma LookIsExcused(cfg: Config, t: seq<Move>, pc: Pc, k: nat, p: nat, c: nat, deadline: nat)
    requires Moves(cfg, t, pc) && k < |t| - 1 && t[k].pc.Window? && t[|t| - 1].pc.Window?
    requires forall i :: k <= i < |t| ==> InWindow(t[i].pc, p, c, deadline)
    ensures Excused(cfg, t, k, p)
  {
    hide Moves, RunningIn, RunningElsewhere;
    Before(cfg, t, pc, k + 1);
    assert InWindow(t[k].pc, p, c, deadline) && InWindow(t[k + 1].pc, p, c, deadline);
    if t[k + 1].pc.Debounce? {
      Before(cfg, t, pc, k + 2);
      assert InWindow(t[k + 2].pc, p, c, deadline);
      if t[k + 2].pc.Inspect? {
        Before(cfg, t, pc, k + 3);
        assert InWindow(t[k + 3].pc, p, c, deadline);
        Before(cfg, t, pc, k + 4);
        assert InWindow(t[k + 4].pc, p, c, deadline);
      }
    }
  }

  // A run removes its pod only on the way to a failure.
  lemma RemovalFails(cfg: Config, t: seq<Move>, pc: Pc, i: nat)
    requires Moves(cfg, t, pc) && i < |t| && (t[i].pc.StopNew? || t[i].pc.DropNew?)
    ensures t[i].pc.after.DropsPod()
  {
    hide Moves, RunningIn, RunningElsewhere;
    Before(cfg, t, pc, i);
    if t[i].pc.DropNew? {
      RemovalFails(cfg, t, pc, i - 1);
    }
  }

  lemma SuccessStood(cfg: Config, t: seq<Move>, p: nat)
    requires Moves(cfg, t, Exit(Started(p))) && cfg.seconds > 0
    ensures exists a :: Stood(cfg, t, a, p)
  {
    hide Moves, RunningIn, RunningElsewhere, Excused;
    var pc, n := Exit(Started(p)), |t| - 1;
    Before(cfg, t, pc, |t|);
    if t[n].pc.DropNew? {
      RemovalFails(cfg, t, pc, n);
    }
    var c, deadline := t[n].pc.ctr, t[n].pc.deadline;
    var a := Entry(cfg, t, pc, n, p, c, deadline);
    forall k | a <= k < n && t[k].pc.Window?
      ensures Excused(cfg, t, k, p)
    {
      LookIsExcused(cfg, t, pc, k, p, c, deadline);
    }
    assert Stood(cfg, t, a, p);
  }

  // Without a window the last look saw the container running.
  lemma SuccessSaw(cfg: Config, t: seq<Move>, p: nat)
    requires Moves(cfg, t, Exit(Started(p))) && cfg.seconds == 0
    ensures Justified(cfg, t, Started(p))
  {
    hide Moves, RunningIn, RunningElsewhere;
    var pc, n := Exit(Started(p)), |t| - 1;
    Before(cfg, t, pc, |t|);
    if t[n].pc.DropNew? {
      RemovalFails(cfg, t, pc, n);
    } else if t[n].pc.Window? {
      var _ := Entry(cfg, t, pc, n, t[n].pc.pod, t[n].pc.ctr, t[n].pc.deadline);
    }
  }

  // How a run comes to a look elsewhere
  lemma ElsewhereFoundStopped(cfg: Config, t: seq<Move>, pc: Pc, i: nat)
    requires Moves(cfg, t, pc) && i < |t| && t[i].pc.Elsewhere?
    ensures i >= 4 && FoundStopped(cfg, t, i - 4, t[i].pc.pod)
  {
    hide Moves, RunningIn, RunningElsewhere;
    Before(cfg, t, pc, i);
    Before(cfg, t, pc, i - 1);
    Before(cfg, t, pc, i - 2);
    Before(cfg, t, pc, i - 3);
  }

  lemma {:induction false} PollsBefore(cfg: Config, t: seq<Move>, pc: Pc, i: nat)
    requires Moves(cfg, t, pc) && i < |t| && t[i].pc.Poll?
    ensures t[i].pc.left <= 30 && NotSeen(cfg, t, i, 30 - t[i].pc.left, t[i].pc.pod)
  {
    hide Moves, RunningIn, RunningElsewhere;
    Before(cfg, t, pc, i);
    if t[i - 1].pc.Poll? {
      PollsBefore(cfg, t, pc, i - 1);
    }
  }

  lemma FailureFoundStopped(cfg: Config, t: seq<Move>)
    requires Moves(cfg, t, Exit(FailedUnstable))
    ensures Justified(cfg, t, FailedUnstable)
  {
    hide Moves, RunningIn, RunningElsewhere, FoundStopped;
    var pc, n := Exit(FailedUnstable), |t|;
    Before(cfg, t, pc, n);
    Before(cfg, t, pc, n - 1);
    Before(cfg, t, pc, n - 2);
    ElsewhereFoundStopped(cfg, t, pc, n - 3);
  }

  lemma FailureNeverSaw(cfg: Config, t: seq<Move>)
    requires Moves(cfg, t, Exit(FailedNotRunning))
    ensures Justified(cfg, t, FailedNotRunning)
  {
    hide Moves, RunningIn, RunningElsewhere, NotSeen;
    var pc, n := Exit(FailedNotRunning), |t|;
    Before(cfg, t, pc, n);
    Before(cfg, t, pc, n - 1);
    Before(cfg, t, pc, n - 2);
    PollsBefore(cfg, t, pc, n - 3);
  }

  // Every outcome is justified by what the run saw: reuse by a running container with an accepted rollout, success by
  // a window that the container stood, instability by two looks and a report, giving up by thirty looks.
  lemma OutcomeIsJustified(cfg: Config, t: seq<Move>, o: Outcome)
    requires Moves(cfg, t, Exit(o))
    ensures Justified(cfg, t, o)
  {
    hide Moves, RunningIn, RunningElsewhere, FoundStopped, NotSeen, Stood;
    Before(cfg, t, Exit(o), |t|);
    if t[|t| - 1].pc.DropNew? {
      RemovalFails(cfg, t, Exit(o), |t| - 1);
    }
    match o
    case Started(p) => if cfg.seconds > 0 { SuccessStood(cfg, t, p); } else { SuccessSaw(cfg, t, p); }
    case Handoff(p, q) => ElsewhereFoundStopped(cfg, t, Exit(o), |t| - 1);
    case FailedUnstable => FailureFoundStopped(cfg, t);
    case FailedNotRunning => FailureNeverSaw(cfg, t);
    case _ =>
  }
}
