/**
  The start, retry and teardown routines of scripts/dev/cri_stack.py, run against a store that other
  processes keep changing.

  Between two commands of a start run the store may change in any way the holder of the component
  lock relies on (CriInterleaving.Rely); every command the run issues is checked to be a step of the
  protocol in CriProtocol.  Listings, the image check, runp, create and start may fail, which cuts the
  run short.  The clock only moves forward.
 */
module CriStack {
  import opened Options
  import opened CriWorld
  import opened CriProtocol
  import opened CriInterleaving
  import opened CriTrace

  datatype Event = Event(action: string, reason: string)

  // How the calls of _record_event relate to the outcome: at most one "recreate" entry, then the
  // entry that names the outcome; a run that was cut short leaves no such entry.
  predicate LogFits(cfg: Config, o: Outcome, log: seq<Event>) {
    match o
    case Reused(_) => log == [Event("reuse", if cfg.rollout != "" then "rollout-match" else "already-running")]
    case Started(_) => EndsWith(log, Event("start", "running"))
    case Handoff(_, _) => EndsWith(log, Event("start", "running-handoff"))
    case FailedUnstable => EndsWith(log, Event("start", "failed-unstable"))
    case FailedNotRunning => EndsWith(log, Event("start", "failed-not-running"))
    case Raised => RecreateOnly(log)
  }

  predicate RecreateOnly(log: seq<Event>) {
    |log| <= 1 && (|log| == 1 ==> log[0].action == "recreate")
  }

  predicate EndsWith(log: seq<Event>, e: Event) {
    |log| > 0 && log[|log| - 1] == e && RecreateOnly(log[..|log| - 1])
  }

  // What the run has logged when it goes on to make a pod: nothing if it found none, and otherwise why it removed the
  // pod that its second look examined.
  ghost predicate ReasonFits(cfg: Config, t: seq<Move>, log: seq<Event>) {
    && |t| > 0
    && if t[0].pc' == Image then log == []
       else
         && |t| > 1 && t[1].pc.Check?
         && log == [Event("recreate",
                          if cfg.recreate then "explicit-recreate"
                          else if !SeesRunning(cfg, t[1], t[1].pc.pod) then "container-not-running"
                          else if t[1].pc.rollout == None || t[1].pc.rollout == Some("") then "rollout-missing"
                          else "rollout-changed")]
  }

  class Stack {
    var w: World
    ghost var downed: set<nat>
    // The moves of the current start run
    ghost var trace: seq<Move>

    ghost predicate Ok()
      reads this
    {
      WellFormed(w) && AtMostOne(w) && DownedAreGone(w, downed)
    }

    ghost predicate At(cfg: Config, pc: Pc)
      reads this
    {
      Ok() && RunInv(cfg, pc, w, downed) && Moves(cfg, trace, pc)
    }

    lemma ExitIsJustified(cfg: Config, o: Outcome)
      requires At(cfg, Exit(o))
      ensures Justified(cfg, trace, o) && Ok() && ExitFact(cfg, o, w, downed)
    {
      hide Moves, Justified, ExitFact, Ok;
      OutcomeIsJustified(cfg, trace, o);
    }

    // Any number of steps of other processes and of the environment, while the lock of cfg.key is held; that they
    // amount to Rely is CriHistory.OthersThroughout.
    method Others(ghost cfg: Config, ghost pc: Pc)
      requires At(cfg, pc)
      modifies this
      ensures At(cfg, pc) && Rely(cfg.key, old(w), w, old(downed), downed) && trace == old(trace)
    {
      RelyRefl(cfg.key, w, downed);
    }

    // Any number of steps of others while no lock is held.
    method Anyone()
      requires Ok()
      modifies this
      ensures Ok() && Continues(old(w), w) && old(downed) <= downed && trace == old(trace)
    {
    }

    // _find_pod: the first pod of a listing, in any order, that carries both labels.
    method FindPod(k: Key) returns (found: Option<nat>)
      ensures found.Some? ==> PodMatches(w, found.value, k)
      ensures found.None? ==> NoPod(w, k)
    {
      var todo := w.pods.Keys;
      while todo != {}
        invariant todo <= w.pods.Keys
        invariant forall p :: p in w.pods && p !in todo ==> !Matches(w.pods[p], k)
        decreases todo
      {
        var p :| p in todo;
        todo := todo - {p};
        if w.pods[p].profile != Some(k.profile) {
          continue;
        }
        if w.pods[p].component != Some(k.component) {
          continue;
        }
        return Some(p);
      }
      return None;
    }

    // _component_running_container, over a listing in any order.
    method ComponentRunning(pod: nat, component: string) returns (running: bool)
      ensures running <==> RunningIn(w, pod, component)
    {
      var unlabelledRunning, hasLabels := false, false;
      var todo := w.ctrs.Keys;
      while todo != {}
        invariant todo <= w.ctrs.Keys
        invariant unlabelledRunning ==> exists c :: CtrIn(w, c, pod) && w.ctrs[c].state == Running
        invariant hasLabels ==> HasComponentLabel(w, pod)
        invariant forall c :: CtrIn(w, c, pod) && c !in todo ==>
                    && (w.ctrs[c].labels.component.Some? ==> hasLabels)
                    && (w.ctrs[c].state == Running ==>
                          && w.ctrs[c].labels.component != Some(component)
                          && (w.ctrs[c].labels.component.None? ==> unlabelledRunning))
        decreases todo
      {
        var c :| c in todo;
        todo := todo - {c};
        var item := w.ctrs[c];
        if item.pod != pod {
          continue;
        }
        assert CtrIn(w, c, pod);
        if item.labels.component.Some? {
          hasLabels := true;
        }
        if item.labels.component != Some(component) {
          if item.state == Running && item.labels.component.None? {
            unlabelledRunning := true;
          }
          continue;
        }
        if item.state == Running {
          return true;
        }
      }
      return unlabelledRunning && !hasLabels;
    }

    // _component_running_elsewhere, over a listing in any order.
    method ComponentRunningElsewhere(k: Key, exclude: nat) returns (found: Option<nat>)
      ensures found.Some? ==> RunningElsewhere(w, k, exclude, found.value)
      ensures found.None? ==> forall q :: !RunningElsewhere(w, k, exclude, q)
    {
      var todo := w.ctrs.Keys;
      while todo != {}
        invariant todo <= w.ctrs.Keys
        invariant forall c :: c in w.ctrs && c !in todo && w.ctrs[c].pod != exclude && w.ctrs[c].state == Running ==>
                    !Matches(w.ctrs[c].labels, k)
        decreases todo
      {
        var c :| c in todo;
        todo := todo - {c};
        var item := w.ctrs[c];
        if !Matches(item.labels, k) || item.pod == exclude {
          continue;
        }
        if item.state == Running {
          assert CtrIn(w, c, item.pod);
          return Some(item.pod);
        }
      }
      return None;
    }

    // Performs one command or listing of the run and then lets the others act.
    method Perform(ghost cfg: Config, ghost pc: Pc, ghost pc': Pc, w': World)
      requires At(cfg, pc) && RunStep(cfg, pc, w, pc', w')
      modifies this
      ensures At(cfg, pc') && Rely(cfg.key, w', w, old(downed), downed)
      ensures trace == old(trace) + [Move(pc, old(w), pc', w')]
    {
      hide Moves;
      StepTouchesOnlyItsKey(cfg, pc, w, pc', w', downed);
      StepKeepsRunInv(cfg, pc, w, pc', w', downed);
      StepKeepsAtMostOne(cfg, pc, w, pc', w', downed);
      DownedStayGone(w, w', downed);
      MovesOn(cfg, trace, Move(pc, w, pc', w'));
      trace := trace + [Move(pc, w, pc', w')];
      w := w';
      Others(cfg, pc');
    }

    // One listing, after which the run is at pc'.
    method Look(ghost cfg: Config, ghost pc: Pc, ghost pc': Pc)
      requires At(cfg, pc) && RunStep(cfg, pc, w, pc', w)
      modifies this
      ensures old(downed) <= downed
      ensures At(cfg, pc') && trace == old(trace) + [Move(pc, old(w), pc', old(w))]
    {
      hide At, RunStep;
      Perform(cfg, pc, pc', w);
    }

    // A command of the run raises, before or after it took effect.
    method Raise(ghost cfg: Config, ghost pc: Pc, w': World) returns (o: Outcome)
      requires At(cfg, pc) && RunStep(cfg, pc, w, Exit(Raised), w')
      modifies this
      ensures old(downed) <= downed
      ensures o == Raised && At(cfg, Exit(o))
    {
      hide At, RunStep;
      Perform(cfg, pc, Exit(Raised), w');
      o := Raised;
    }

    // _remove_pod on the pod found at the beginning.
    method RemoveOld(ghost cfg: Config, p: nat)
      requires At(cfg, StopOld(p))
      modifies this
      ensures old(downed) <= downed
      ensures At(cfg, Image) && old(trace) <= trace
    {
      hide At, StopPod, DropPod;
      Perform(cfg, StopOld(p), DropOld(p), StopPod(w, p));
      Perform(cfg, DropOld(p), Image, DropPod(w, p));
    }

    // _remove_pod on the pod this run made.
    method RemoveNew(ghost cfg: Config, p: nat, o: Outcome)
      requires At(cfg, StopNew(p, o))
      modifies this
      ensures old(downed) <= downed
      ensures At(cfg, Exit(o))
    {
      hide At, StopPod, DropPod;
      Perform(cfg, StopNew(p, o), DropNew(p, o), StopPod(w, p));
      Perform(cfg, DropNew(p, o), Exit(o), DropPod(w, p));
    }

    // Up to the removal of an existing pod.
    method ReuseOrRemove(cfg: Config) returns (reused: Option<Outcome>, log: seq<Event>)
      requires At(cfg, Find) && trace == []
      modifies this
      ensures old(downed) <= downed
      ensures reused.None? ==> At(cfg, Image) && RecreateOnly(log) && ReasonFits(cfg, trace, log)
      ensures reused.Some? ==> At(cfg, Exit(reused.value)) && LogFits(cfg, reused.value, log)
      ensures reused.Some? ==> (reused.value.Reused? && !cfg.recreate) || reused.value.Raised?
    {
      hide At, RunningIn, Moves;
      log := [];
      var listingFails := *;
      if listingFails {
        var o := Raise(cfg, Find, w);
        return Some(o), log;
      }
      var existing := FindPod(cfg.key);
      if existing.None? {
        Look(cfg, Find, Image);
        return None, log;
      }
      var p := existing.value;
      var current := w.pods[p].rollout;
      Look(cfg, Find, Check(p, current));
      listingFails := *;
      if listingFails {
        var o := Raise(cfg, Check(p, current), w);
        return Some(o), log;
      }
      var running := ComponentRunning(p, cfg.key.component);
      if running && !cfg.recreate {
        if cfg.rollout != "" {
          if current == Some(cfg.rollout) {
            Look(cfg, Check(p, current), Exit(Reused(p)));
            return Some(Reused(p)), [Event("reuse", "rollout-match")];
          }
          var changed := current.Some? && current.value != "";
          log := [Event("recreate", if changed then "rollout-changed" else "rollout-missing")];
        } else {
          Look(cfg, Check(p, current), Exit(Reused(p)));
          return Some(Reused(p)), [Event("reuse", "already-running")];
        }
      } else {
        log := [Event("recreate", if cfg.recreate then "explicit-recreate" else "container-not-running")];
      }
      Look(cfg, Check(p, current), StopOld(p));
      RemoveOld(cfg, p);
      reused := None;
    }

    // From the image check to the started container; any command may fail.
    method CreateAndStart(cfg: Config) returns (failed: bool, p: nat, c: nat)
      requires At(cfg, Image)
      modifies this
      ensures old(downed) <= downed
      ensures if failed then At(cfg, Exit(Raised)) else At(cfg, Poll(p, c, POLLS))
    {
      hide At, RunningIn, RunningElsewhere;
      failed, p, c := true, 0, 0;
      var labels := ConfigLabels(cfg);
      var imageMissing, runFails, createFails, startFails, effective := *, *, *, *, *;
      if imageMissing {
        var _ := Raise(cfg, Image, w);
        return;
      }
      Look(cfg, Image, RunSandbox);
      if runFails {
        var _ := Raise(cfg, RunSandbox, if effective then RunPod(w, labels) else w);
        return;
      }
      p := w.next;
      Perform(cfg, RunSandbox, Create(p), RunPod(w, labels));
      if createFails || p !in w.pods {
        var printsNothing := *;
        if printsNothing {
          Look(cfg, Create(p), StopNew(p, Raised));
          RemoveNew(cfg, p, Raised);
        } else {
          var _ := Raise(cfg, Create(p), if effective && p in w.pods then CreateCtr(w, p, labels) else w);
        }
        return;
      }
      c := w.next;
      Perform(cfg, Create(p), Start(p, c), CreateCtr(w, p, labels));
      if startFails || c !in w.ctrs {
        var _ := Raise(cfg, Start(p, c), if effective && c in w.ctrs then StartCtr(w, c) else w);
        return;
      }
      Perform(cfg, Start(p, c), Poll(p, c, POLLS), StartCtr(w, c));
      failed := false;
    }

    // The end of the window when the container has exited: a handoff, or removal and failure
    method GiveUp(cfg: Config, p: nat, c: nat) returns (o: Outcome)
      requires At(cfg, Elsewhere(p, c))
      modifies this
      ensures old(downed) <= downed
      ensures At(cfg, Exit(o)) && (o == FailedUnstable || o.Handoff? || o.Raised?)
    {
      hide At, RunningIn, RunningElsewhere;
      var listingFails := *;
      if listingFails {
        o := Raise(cfg, Elsewhere(p, c), w);
        return;
      }
      var other := ComponentRunningElsewhere(cfg.key, p);
      if other.Some? {
        Look(cfg, Elsewhere(p, c), Exit(Handoff(p, other.value)));
        return Handoff(p, other.value);
      }
      Look(cfg, Elsewhere(p, c), StopNew(p, FailedUnstable));
      RemoveNew(cfg, p, FailedUnstable);
      return FailedUnstable;
    }

    // The second look, half a second after one that found the container stopped, and what follows when it finds the
    // same
    method LookAgain(cfg: Config, p: nat, c: nat, clock: nat, deadline: nat) returns (ended: Option<Outcome>, later: nat)
      requires At(cfg, Debounce(p, c, clock, deadline))
      modifies this
      ensures old(downed) <= downed && clock <= later
      ensures ended.None? ==> At(cfg, Window(p, c, later, deadline))
      ensures ended.Some? ==> At(cfg, Exit(ended.value))
      ensures ended.Some? ==> ended.value == FailedUnstable || ended.value.Handoff? || ended.value.Raised?
    {
      hide At, RunningIn, RunningElsewhere;
      ended, later := None, clock;
      var listingFails := *;
      if listingFails {
        var o := Raise(cfg, Debounce(p, c, clock, deadline), w);
        return Some(o), later;
      }
      var running := ComponentRunning(p, cfg.key.component);
      if running {
        Look(cfg, Debounce(p, c, clock, deadline), Window(p, c, clock, deadline));
        return;
      }
      Look(cfg, Debounce(p, c, clock, deadline), Inspect(p, c, clock, deadline));
      var report := InspectCtr(c);
      Look(cfg, Inspect(p, c, clock, deadline), Reported(p, c, clock, deadline, report));
      if KeepsWaiting(report) {
        later := Sleep(clock, 200);
        Look(cfg, Reported(p, c, clock, deadline, report), Window(p, c, later, deadline));
        return;
      }
      Look(cfg, Reported(p, c, clock, deadline, report), Elsewhere(p, c));
      var o := GiveUp(cfg, p, c);
      ended := Some(o);
    }

    // The stability window: the inner while loop, entered with the container seen running.
    method AwaitStable(cfg: Config, p: nat, c: nat, now: nat) returns (o: Outcome)
      requires At(cfg, Window(p, c, now, now + 1000 * cfg.seconds))
      modifies this
      ensures old(downed) <= downed
      ensures At(cfg, Exit(o)) && (o == Started(p) || o == FailedUnstable || o.Handoff? || o.Raised?)
      ensures Justified(cfg, trace, o)
    {
      hide At, RunningIn, RunningElsewhere, Justified;
      var clock := now;
      var deadline := now + 1000 * cfg.seconds;
      while clock < deadline
        invariant At(cfg, Window(p, c, clock, deadline)) && old(downed) <= downed
        decreases deadline - clock
      {
        var listingFails := *;
        if listingFails {
          o := Raise(cfg, Window(p, c, clock, deadline), w);
          ExitIsJustified(cfg, o);
          return;
        }
        var running := ComponentRunning(p, cfg.key.component);
        if !running {
          var later := Sleep(clock, 500);
          Look(cfg, Window(p, c, clock, deadline), Debounce(p, c, later, deadline));
          clock := later;
          var ended: Option<Outcome>;
          ended, clock := LookAgain(cfg, p, c, clock, deadline);
          if ended.Some? {
            ExitIsJustified(cfg, ended.value);
            return ended.value;
          }
          continue;
        }
        var next := Sleep(clock, 200);
        Look(cfg, Window(p, c, clock, deadline), Window(p, c, next, deadline));
        clock := next;
      }
      Look(cfg, Window(p, c, clock, deadline), Exit(Started(p)));
      o := Started(p);
      ExitIsJustified(cfg, o);
    }

    // The outer loop: thirty looks for a running container.
    method AwaitRunning(cfg: Config, p: nat, c: nat) returns (o: Outcome)
      requires At(cfg, Poll(p, c, POLLS))
      modifies this
      ensures old(downed) <= downed
      ensures At(cfg, Exit(o))
      ensures o == Started(p) || o == FailedUnstable || o == FailedNotRunning || o.Handoff? || o.Raised?
      ensures Justified(cfg, trace, o)
    {
      hide At, RunningIn, RunningElsewhere, Justified;
      var left := POLLS;
      while left > 0
        invariant At(cfg, Poll(p, c, left)) && old(downed) <= downed
      {
        var listingFails := *;
        if listingFails {
          o := Raise(cfg, Poll(p, c, left), w);
          ExitIsJustified(cfg, o);
          return;
        }
        var running := ComponentRunning(p, cfg.key.component);
        if running {
          if cfg.seconds > 0 {
            var now := Sleep(0, 0);
            Look(cfg, Poll(p, c, left), Window(p, c, now, now + 1000 * cfg.seconds));
            o := AwaitStable(cfg, p, c, now);
          } else {
            Look(cfg, Poll(p, c, left), Exit(Started(p)));
            o := Started(p);
            ExitIsJustified(cfg, o);
          }
          return;
        }
        Look(cfg, Poll(p, c, left), Poll(p, c, left - 1));
        left := left - 1;
      }
      Look(cfg, Poll(p, c, 0), StopNew(p, FailedNotRunning));
      RemoveNew(cfg, p, FailedNotRunning);
      o := FailedNotRunning;
      ExitIsJustified(cfg, o);
    }

    // The clock after sleeping at least d milliseconds.
    method Sleep(clock: nat, d: nat) returns (later: nat)
      ensures clock + d <= later
    {
      var late: int := *;
      later := clock + d + if late > 0 then late else 0;
    }

    // crictl inspect: fails, garbles its output, or names the container's state.
    method InspectCtr(c: nat) returns (r: InspectReport)
      ensures CouldReport(w, c, r)
    {
      var fails, garbled := *, *;
      if fails || c !in w.ctrs {
        r := NoOutput;
      } else if garbled {
        r := Unparsable;
      } else {
        r := Says(w.ctrs[c].state);
      }
    }

    // _start_component_unlocked, which runs while the component lock is held.  The handoff outcome
    // does not occur (ExitFact), a failed start leaves no pod, and a normal one leaves only the pod
    // it names.
    method StartComponentUnlocked(cfg: Config) returns (o: Outcome, log: seq<Event>)
      requires Ok()
      modifies this
      ensures old(downed) <= downed
      ensures Ok() && ExitFact(cfg, o, w, downed)
      ensures Justified(cfg, trace, o)
      ensures LogFits(cfg, o, log)
      ensures o.Reused? ==> !cfg.recreate
    {
      hide *;
      o, log := RunStart(cfg);
      ExitIsJustified(cfg, o);
    }

    method BeginTrace(ghost cfg: Config)
      requires Ok()
      modifies this`trace
      ensures At(cfg, Find) && trace == []
    {
      trace := [];
    }

    // Its body, up to the exit
    method RunStart(cfg: Config) returns (o: Outcome, log: seq<Event>)
      requires Ok()
      modifies this
      ensures old(downed) <= downed
      ensures At(cfg, Exit(o)) && LogFits(cfg, o, log)
      ensures o.Reused? ==> !cfg.recreate
    {
      hide At, RunStep;
      BeginTrace(cfg);
      var reused, recreated := ReuseOrRemove(cfg);
      if reused.Some? {
        return reused.value, recreated;
      }
      var failed, p, c := CreateAndStart(cfg);
      if failed {
        return Raised, recreated;
      }
      o := AwaitRunning(cfg, p, c);
      if o.Raised? {
        return o, recreated;
      }
      log := recreated + [Event("start", match o
                                         case Started(_) => "running"
                                         case Handoff(_, _) => "running-handoff"
                                         case FailedUnstable => "failed-unstable"
                                         case _ => "failed-not-running")];
    }

    // _start_component: waiting for the lock, others may do anything.
    method StartComponent(cfg: Config) returns (o: Outcome, log: seq<Event>)
      requires Ok()
      modifies this
      ensures old(downed) <= downed
      ensures Ok() && ExitFact(cfg, o, w, downed)
      ensures Justified(cfg, trace, o)
      ensures LogFits(cfg, o, log)
      ensures o.Reused? ==> !cfg.recreate
    {
      hide *;
      Anyone();
      o, log := StartComponentUnlocked(cfg);
    }

    // The retry loop of _start_envoy.  It starts the component at most twice, the second time only
    // when the listener check failed after a first start without recreation, and it gives up only
    // after a start that raised or a start with recreation.
    method StartEnvoy(cfg: Config) returns (up: bool, outcomes: seq<Outcome>)
      requires Ok()
      modifies this
      ensures Ok()
      ensures 1 <= |outcomes| <= (if cfg.recreate then 1 else 2)
      ensures |outcomes| == 2 ==> outcomes[0].Reused? || outcomes[0].Started?
      ensures |outcomes| == 2 ==> !outcomes[1].Reused?
      ensures up ==> var last := outcomes[|outcomes| - 1]; last.Started? || (last.Reused? && !cfg.recreate)
      ensures Justified(cfg.(recreate := cfg.recreate || |outcomes| == 2, seconds := 2), trace, outcomes[|outcomes| - 1])
      ensures !up && |outcomes| == 1 && !cfg.recreate ==> outcomes[0].Raised? || outcomes[0].FailedUnstable? || outcomes[0].FailedNotRunning?
    {
      hide Justified;
      var attemptedRecreate := cfg.recreate;
      outcomes := [];
      while true
        invariant Ok()
        invariant attemptedRecreate == (cfg.recreate || |outcomes| == 1)
        invariant |outcomes| <= (if cfg.recreate then 0 else 1)
        invariant |outcomes| == 1 ==> outcomes[0].Reused? || outcomes[0].Started?
        decreases !attemptedRecreate
      {
        var o, _ := StartComponent(cfg.(recreate := attemptedRecreate, seconds := 2));
        outcomes := outcomes + [o];
        if !(o.Reused? || o.Started?) {
          return false, outcomes;
        }
        Anyone();
        var listening := *;
        if listening {
          return true, outcomes;
        }
        if attemptedRecreate {
          return false, outcomes;
        }
        attemptedRecreate := true;
      }
    }

    // _remove_pod without the component lock, as down-profile and the reset call it
    method RemoveUnlocked(p: nat)
      requires Ok() && p < w.next
      modifies this
      ensures Ok() && Continues(old(w), w) && old(downed) + {p} <= downed
    {
      Anyone();
      StopPodKeeps(w, p);
      w := StopPod(w, p);
      Anyone();
      DropPodKeeps(w, p);
      downed := downed + {p};
      w := DropPod(w, p);
    }

    // _start_postgres.  With resetData it first removes the component's pod, without the lock: unless the listing
    // fails, no pod that the component had before is left, whatever becomes of the start.
    method StartPostgres(cfg: Config, resetData: bool) returns (o: Outcome)
      requires Ok() && cfg.seconds == 0
      modifies this
      ensures Ok() && (o.Raised? || (ExitFact(cfg, o, w, downed) && Justified(cfg, trace, o)))
      ensures resetData && !o.Raised? ==> forall p :: PodMatches(old(w), p, cfg.key) ==> p !in w.pods
    {
      if resetData {
        var listingFails := *;
        if listingFails {
          return Raised;
        }
        var existing := FindPod(cfg.key);
        if existing.Some? {
          RemoveUnlocked(existing.value);
        }
      }
      var outcome, _ := StartComponent(cfg);
      o := outcome;
    }

    // _down_profile takes no lock.  Unless the listing fails, all pods of the profile are gone at the end, and none
    // of them comes back.
    method DownProfile(profile: string) returns (listed: bool)
      requires Ok()
      modifies this
      ensures Ok()
      ensures !listed ==> w == old(w)
      ensures listed ==> forall p :: p in ScopePods(old(w), Scope(profile, None)) ==> p !in w.pods
    {
      listed := *;
      if !listed {
        return;
      }
      ghost var all := ScopePods(w, Scope(profile, None));
      var todo := ScopePods(w, Scope(profile, None));
      while todo != {}
        invariant Ok() && todo <= all
        invariant forall p :: p in all ==> p < w.next && (p !in todo ==> p in downed)
        decreases todo
      {
        var p :| p in todo;
        todo := todo - {p};
        RemoveUnlocked(p);
      }
    }
  }
}
