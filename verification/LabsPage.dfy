/**
  The routines of docs/static/labs.js as code that updates shared variables.  Each method is proved
  to do to the variables what the function of the same name in StreamTail or StreamFailover says.
 */
module LabsPage {
  import opened Options
  import opened StreamTail
  import opened StreamFailover
  import opened StreamTurns

  /** The variables of one tail (esEvents, esEventsApp, ...) and the browser objects it created. */
  class LiveTail {
    var es: Option<nat>
    var esApp: Option<string>
    var poll: Option<nat>
    var retry: Option<nat>
    var cooldown: int
    var sources: set<nat>
    var intervals: set<nat>
    var timeouts: map<nat, int>
    var next: nat

    function Value(): Tail
      reads this
    {
      Tail(es, esApp, poll, retry, cooldown, sources, intervals, timeouts, next)
    }

    constructor ()
      ensures Value() == IDLE
    {
      es, esApp, poll, retry, cooldown := None, None, None, None, 0;
      sources, intervals, timeouts, next := {}, {}, map[], 0;
    }

    method CloseCurrent()
      modifies this
      ensures Value() == CloseSource(old(Value()))
    {
      if es.Some? {
        sources := sources - {es.value};
        es := None;
      }
    }

    method ClearPoll()
      modifies this
      ensures Value() == StopPoll(old(Value()))
    {
      if poll.Some? {
        intervals := intervals - {poll.value};
        poll := None;
      }
    }

    method BeginPoll()
      modifies this
      ensures Value() == StartPoll(old(Value()))
    {
      if poll.Some? {
        return;
      }
      poll := Some(next);
      intervals := intervals + {next};
      next := next + 1;
    }

    method ClearPendingRetry()
      modifies this
      ensures Value() == ClearRetry(old(Value()))
    {
      if retry.Some? {
        timeouts := timeouts - {retry.value};
        retry := None;
      }
    }

    method Schedule(asked: int, now: nat)
      modifies this
      ensures Value() == ScheduleRetry(old(Value()), asked, now)
    {
      if retry.Some? {
        return;
      }
      var delay := RetryDelay(Value(), asked, now);
      retry := Some(next);
      timeouts := timeouts[next := now + delay];
      next := next + 1;
    }

    method OnSourceError(now: nat, later: nat)
      modifies this
      ensures Value() == OnError(old(Value()), now, later)
      ensures TailInv(old(Value()), now) && now <= later ==> TailInv(Value(), later) && poll.Some? && retry.Some?
    {
      if TailInv(Value(), now) && now <= later {
        OnErrorKeepsInv(Value(), now, later);
      }
      CloseCurrent();
      esApp := None;
      cooldown := now + COOLDOWN_MS;
      BeginPoll();
      Schedule(COOLDOWN_MS, later);
    }

    // startEventsStream and startLogsStream behind their guards.
    method Start(app: string, now: nat, later: nat, throws: bool)
      modifies this
      ensures Value() == Connect(old(Value()), app, now, later, throws)
      ensures TailInv(old(Value()), now) && now <= later ==> TailInv(Value(), later) && (es.Some? || (poll.Some? && retry.Some?))
    {
      if TailInv(Value(), now) && now <= later {
        ConnectKeepsInv(Value(), app, now, later, throws);
      }
      if cooldown != 0 && now < cooldown {
        BeginPoll();
        Schedule(0, later);
        return;
      }
      if es.Some? && esApp == Some(app) {
        return;
      }
      CloseCurrent();
      ClearPoll();
      if throws {
        BeginPoll();
        cooldown := now + COOLDOWN_MS;
        Schedule(COOLDOWN_MS, later);
        return;
      }
      es := Some(next);
      esApp := Some(app);
      sources := sources + {next};
      next := next + 1;
    }

    method Stop(clearApp: bool)
      modifies this
      ensures Value() == StopStream(old(Value()), clearApp)
    {
      CloseCurrent();
      if clearApp {
        esApp := None;
      }
      ClearPendingRetry();
      cooldown := 0;
      ClearPoll();
    }

    method TakeRetry(id: nat)
      modifies this
      ensures Value() == RetryTaken(old(Value()), id)
    {
      timeouts := timeouts - {id};
      retry := None;
    }
  }

  // Stopping the poll first makes no difference.
  lemma StopTwice(p: Page)
    ensures StopBoth(p.(events := StopPoll(p.events))) == StopBoth(p)
  {
  }

  class Labs {
    const events: LiveTail
    const logs: LiveTail
    var disabled: bool
    var errors: nat
    var lastErrorAt: int
    var observe: bool
    var session: bool
    var available: bool
    var app: string

    predicate Valid()
    {
      events != logs
    }

    function Value(): Page
      reads this, events, logs
    {
      Page(events.Value(), logs.Value(), disabled, errors, lastErrorAt, observe, session, available, app)
    }

    constructor ()
      ensures Valid() && fresh(events) && fresh(logs) && Value() == FRESH
    {
      events := new LiveTail();
      logs := new LiveTail();
      disabled, errors, lastErrorAt := false, 0, 0;
      observe, session, available, app := false, false, false, "shell-demo";
    }

    method StartEvents(o: Outside)
      requires Valid()
      modifies this, events, logs
      ensures Value() == StartEventsStream(old(Value()), o)
    {
      if disabled {
        events.BeginPoll();
        return;
      }
      if !session || !available {
        return;
      }
      events.Start(app, o.now, o.later, o.eventsThrow);
    }

    method StartLogs(o: Outside)
      requires Valid()
      modifies this, events, logs
      ensures Value() == StartLogsStream(old(Value()), o)
    {
      if !observe {
        return;
      }
      logs.Start(app, o.now, o.later, o.logsThrow);
    }

    method StopEventsAndLogs()
      requires Valid()
      modifies this, events, logs
      ensures Value() == StopBoth(old(Value()))
    {
      events.Stop(false);
      logs.Stop(true);
    }

    // stopStreams, including its closing call of stopEventsStream.
    method StopAll()
      requires Valid()
      modifies this, events, logs
      ensures Value() == StopStreams(old(Value()))
    {
      logs.CloseCurrent();
      events.CloseCurrent();
      logs.ClearPoll();
      events.ClearPoll();
      logs.ClearPendingRetry();
      events.ClearPendingRetry();
      logs.esApp := None;
      events.esApp := None;
      events.Stop(false);
    }

    method ArmSse(o: Outside)
      requires Valid()
      modifies this, events, logs
      ensures Value() == StreamFailover.ArmSse(old(Value()), o)
    {
      if app == "" || !available || disabled {
        return;
      }
      StartEvents(o);
      StartLogs(o);
    }

    method DisableHtmxSse()
      requires Valid()
      modifies this, events, logs
      ensures Value() == StreamFailover.DisableHtmxSse(old(Value()))
    {
      if disabled {
        return;
      }
      disabled := true;
      events.Stop(false);
      events.BeginPoll();
    }

    method HandleSseError(now: nat)
      requires Valid()
      modifies this, events, logs
      ensures Value() == StreamFailover.HandleSseError(old(Value()), now)
      ensures disabled <==> old(disabled) || (old(errors) > 0 && now - old(lastErrorAt) <= 8000)
      ensures disabled && !old(disabled) ==> events.es.None? && events.poll.Some?
    {
      if disabled {
        return;
      }
      if now - lastErrorAt > SSE_ERROR_WINDOW_MS {
        errors := 0;
      }
      errors := errors + 1;
      lastErrorAt := now;
      if errors >= SSE_ERROR_THRESHOLD {
        DisableHtmxSse();
      }
    }

    // What startSession does once the server has answered.
    method OpenServerSession(name: string, o: Outside)
      requires Valid()
      modifies this, events, logs
      ensures Value() == Take(old(Value()), ServerSession(name), o)
    {
      hide StreamFailover.ArmSse, StopBoth, StopPoll;
      session, app := true, name;
      disabled, errors, lastErrorAt := false, 0, 0;
      ghost var p := Value();
      events.ClearPoll();
      StopEventsAndLogs();
      StopTwice(p);
      ArmSse(o);
    }

    // The timeout callback of scheduleEventsRetry.
    method RetryEvents(id: nat, o: Outside)
      requires Valid()
      modifies this, events, logs
      ensures Value() == Take(old(Value()), EventsRetry(id), o)
    {
      hide StreamFailover.StartEventsStream;
      events.TakeRetry(id);
      if events.es.None? && session && available && !disabled {
        StartEvents(o);
      }
    }

    // The click handler of the tail button, which reads "Start" exactly while nothing is observed.
    method ToggleTail(turn: Turn, o: Outside)
      requires Valid() && (turn == ObserveOn || turn == ObserveOff)
      modifies this, events, logs
      ensures Value() == Take(old(Value()), turn, o)
    {
      hide StreamFailover.StartEventsStream, StreamFailover.StartLogsStream, StopStreams;
      if !session {
        return;
      }
      if turn == ObserveOn && !observe {
        observe := true;
        StartLogs(o);
        StartEvents(o);
      } else if turn == ObserveOff && observe {
        observe := false;
        StopAll();
      }
    }

    // One event-loop turn, at the boundaries of which both tails are in order.
    method Handle(turn: Turn, o: Outside)
      requires Valid() && Enabled(Value(), turn, o.now) && PageInv(Value(), o.now) && o.now <= o.later
      modifies this, events, logs
      ensures Value() == Take(old(Value()), turn, o)
      ensures PageInv(Value(), o.later)
      ensures Ends(old(Value()), turn) ==> Silent(Value().events) && Silent(Value().logs)
    {
      hide *;
      TurnKeepsInv(Value(), turn, o);
      if Ends(Value(), turn) {
        EndingTurn(Value(), turn, o);
      }
      Dispatch(turn, o);
    }

    // The callback of a turn
    method Dispatch(turn: Turn, o: Outside)
      requires Valid() && Enabled(Value(), turn, o.now)
      modifies this, events, logs
      ensures Value() == Take(old(Value()), turn, o)
    {
      hide Connect, FallBack, OnError, StopStream, StreamFailover.ArmSse, StreamFailover.HandleSseError,
        StreamFailover.StartEventsStream, StreamFailover.StartLogsStream, StopBoth, StopStreams,
        CloseSource, StopPoll, StartPoll, ClearRetry, ScheduleRetry, RetryDelay, StreamFailover.DisableHtmxSse;
      match turn
      case EventsError(_) => events.OnSourceError(o.now, o.later);
      case LogsError(_) => logs.OnSourceError(o.now, o.later);
      case EventsRetry(id) => RetryEvents(id, o);
      case LogsRetry(id) =>
        logs.TakeRetry(id);
        StartLogs(o);
      case Arm => ArmSse(o);
      case ObserveOn => ToggleTail(ObserveOn, o);
      case ObserveOff => ToggleTail(ObserveOff, o);
      case HtmxSseError => HandleSseError(o.now);
      case ServerSession(name) => OpenServerSession(name, o);
      case LocalSession(name) =>
        if !available {
          session, app := true, name;
          StopEventsAndLogs();
        }
      case SessionCleared =>
        session, app := false, "shell-demo";
        StopEventsAndLogs();
      case SessionReset => session, app := false, "shell-demo";
      case Availability(up) => available := up;
      case AppNamed(name) => app := name;
      case SwitchApi =>
        StopEventsAndLogs();
        if session {
          ArmSse(o);
        }
    }
  }
}
