/**
  The page behind docs/static/labs.js: two live tails, the session state that guards them, and the
  event-loop turns that change both.
 */
module StreamFailover {
  import opened Options
  import opened StreamTail

  const SSE_ERROR_WINDOW_MS: int := 8000
  const SSE_ERROR_THRESHOLD: nat := 2

  datatype Page = Page(events: Tail, logs: Tail, disabled: bool, errors: nat, lastErrorAt: int,
                       observe: bool, session: bool, available: bool, app: string)

  /** What a turn reads from outside: the clock, twice, and whether `new EventSource` throws. */
  datatype Outside = Outside(now: nat, later: nat, eventsThrow: bool, logsThrow: bool)

  datatype Turn =
    | EventsError(id: nat)
    | LogsError(id: nat)
    | EventsRetry(id: nat)
    | LogsRetry(id: nat)
    | Arm
    | ObserveOn
    | ObserveOff
    | HtmxSseError
    | ServerSession(name: string)
    | LocalSession(name: string)
    | SessionCleared
    | SessionReset
    | Availability(up: bool)
    | AppNamed(name: string)
    | SwitchApi

  const FRESH := Page(IDLE, IDLE, false, 0, 0, false, false, false, "shell-demo")

  // The routines of the script

  function StartEventsStream(p: Page, o: Outside): Page {
    if p.disabled then p.(events := StartPoll(p.events))
    else if !p.session || !p.available then p
    else p.(events := Connect(p.events, p.app, o.now, o.later, o.eventsThrow))
  }

  function StartLogsStream(p: Page, o: Outside): Page {
    if !p.observe then p else p.(logs := Connect(p.logs, p.app, o.now, o.later, o.logsThrow))
  }

  function StopBoth(p: Page): Page {
    p.(events := StopStream(p.events, false), logs := StopStream(p.logs, true))
  }

  // stopStreams: unlike stopLogsStream it leaves the cooldown of the logs alone.
  function StopStreams(p: Page): Page {
    var logs := StopPoll(ClearRetry(CloseSource(p.logs))).(esApp := None);
    p.(events := StopStream(p.events, true), logs := logs)
  }

  function ArmSse(p: Page, o: Outside): Page {
    if p.app == "" || !p.available || p.disabled then p else StartLogsStream(StartEventsStream(p, o), o)
  }

  function DisableHtmxSse(p: Page): Page {
    if p.disabled then p
    else p.(disabled := true, events := StartPoll(StopStream(p.events, false)))
  }

  function HandleSseError(p: Page, now: nat): Page {
    if p.disabled then p
    else
      var errors := if now - p.lastErrorAt > SSE_ERROR_WINDOW_MS then 1 else p.errors + 1;
      var q := p.(errors := errors, lastErrorAt := now);
      if errors >= SSE_ERROR_THRESHOLD then DisableHtmxSse(q) else q
  }

  // Turns

  // A closed source fires no event, and a timeout fires once, not before it is due.
  predicate Enabled(p: Page, turn: Turn, now: nat) {
    match turn
    case EventsError(id) => id in p.events.sources
    case LogsError(id) => id in p.logs.sources
    case EventsRetry(id) => id in p.events.timeouts && p.events.timeouts[id] <= now
    case LogsRetry(id) => id in p.logs.timeouts && p.logs.timeouts[id] <= now
    case _ => true
  }

  function Take(p: Page, turn: Turn, o: Outside): Page {
    match turn
    case EventsError(_) => p.(events := OnError(p.events, o.now, o.later))
    case LogsError(_) => p.(logs := OnError(p.logs, o.now, o.later))
    case EventsRetry(id) =>
      var q := p.(events := RetryTaken(p.events, id));
      if q.events.es.None? && q.session && q.available && !q.disabled then StartEventsStream(q, o) else q
    case LogsRetry(id) => StartLogsStream(p.(logs := RetryTaken(p.logs, id)), o)
    case Arm => ArmSse(p, o)
    case ObserveOn =>
      if !p.session || p.observe then p else StartEventsStream(StartLogsStream(p.(observe := true), o), o)
    case ObserveOff => if !p.session || !p.observe then p else StopStreams(p.(observe := false))
    case HtmxSseError => HandleSseError(p, o.now)
    case ServerSession(name) =>
      ArmSse(StopBoth(p.(session := true, app := name, disabled := false, errors := 0, lastErrorAt := 0)), o)
    case LocalSession(name) => if p.available then p else StopBoth(p.(session := true, app := name))
    case SessionCleared => StopBoth(p.(session := false, app := "shell-demo"))
    case SessionReset => p.(session := false, app := "shell-demo")  // stops nothing
    case Availability(up) => p.(available := up)
    case AppNamed(name) => p.(app := name)
    case SwitchApi => var q := StopBoth(p); if q.session then ArmSse(q, o) else q
  }

  // Invariant

  predicate PageInv(p: Page, now: nat) {
    TailInv(p.events, now) && TailInv(p.logs, now) && (p.disabled ==> p.events.es.None?)
  }

  // One start of the events tail.
  lemma StartEventsKeepsInv(p: Page, o: Outside)
    requires TailInv(p.events, o.now) && (p.disabled ==> p.events.es.None?) && o.now <= o.later
    ensures var q := StartEventsStream(p, o);
      && TailInv(q.events, o.later) && (q.disabled ==> q.events.es.None?)
      && (Active(p.events) ==> Active(q.events))
      && (p.session && p.available && !p.disabled ==> Active(q.events) && (q.events.es.Some? || q.events.retry.Some?))
  {
    if !p.disabled && p.session && p.available {
      ConnectKeepsInv(p.events, p.app, o.now, o.later, o.eventsThrow);
    }
  }

  lemma StartLogsKeepsInv(p: Page, o: Outside)
    requires TailInv(p.logs, o.now) && o.now <= o.later
    ensures TailInv(StartLogsStream(p, o).logs, o.later)
    ensures Active(p.logs) ==> Active(StartLogsStream(p, o).logs)
  {
    if p.observe {
      ConnectKeepsInv(p.logs, p.app, o.now, o.later, o.logsThrow);
    }
  }

  // Turns that stop a tail on purpose; disableHtmxSse is not among them, as it keeps polling.
  predicate Stops(turn: Turn) {
    turn.ObserveOff? || turn.ServerSession? || turn.LocalSession? || turn.SessionCleared? || turn.SwitchApi?
  }

  lemma TurnKeepsEvents(p: Page, turn: Turn, o: Outside)
    requires PageInv(p, o.now) && o.now <= o.later && Enabled(p, turn, o.now)
    ensures TailInv(Take(p, turn, o).events, o.later)
    ensures Take(p, turn, o).disabled ==> Take(p, turn, o).events.es.None?
    ensures turn.EventsError? || (Active(p.events) && !Stops(turn)) ==> Active(Take(p, turn, o).events)
  {
    hide Connect, FallBack, StartEventsStream, StartLogsStream, ArmSse, OnError, StopStream, TailInv, RetryTaken,
      HandleSseError, StopPoll, ClearRetry, CloseSource;
    TailInvLater(p.events, o.now, o.later);
    match turn
    case EventsError(_) => OnErrorKeepsInv(p.events, o.now, o.later);
    case EventsRetry(id) =>
      RetryTakenKeepsInv(p.events, id, o.now, o.later);
      StartEventsKeepsInv(p.(events := RetryTaken(p.events, id)), o);
    case Arm => ArmKeepsEvents(p, o);
    case ObserveOn =>
      StartLogsLeavesEvents(p.(observe := true), o);
      StartEventsKeepsInv(StartLogsStream(p.(observe := true), o), o);
    case ObserveOff => StopStreamKeepsInv(p.events, true, o.later);
    case HtmxSseError => SseErrorKeepsEvents(p, o.now, o.later);
    case ServerSession(name) =>
      StopStreamKeepsInv(p.events, false, o.now);
      ArmKeepsEvents(StopBoth(p.(session := true, app := name, disabled := false, errors := 0, lastErrorAt := 0)), o);
    case LocalSession(_) => StopStreamKeepsInv(p.events, false, o.later);
    case SessionCleared => StopStreamKeepsInv(p.events, false, o.later);
    case SwitchApi =>
      StopStreamKeepsInv(p.events, false, o.now);
      StopStreamKeepsInv(p.events, false, o.later);
      ArmKeepsEvents(StopBoth(p), o);
    case LogsRetry(id) => StartLogsLeavesEvents(p.(logs := RetryTaken(p.logs, id)), o);
    case _ =>
  }

  lemma RetryTakenKeepsInv(t: Tail, id: nat, now: nat, later: nat)
    requires TailInv(t, now) && id in t.timeouts && now <= later
    ensures TailInv(RetryTaken(t, id), now) && TailInv(RetryTaken(t, id), later)
    ensures RetryTaken(t, id).es == t.es && RetryTaken(t, id).poll == t.poll
  {
  }

  lemma SseErrorKeepsEvents(p: Page, now: nat, later: nat)
    requires PageInv(p, now) && now <= later
    ensures TailInv(HandleSseError(p, now).events, later)
    ensures HandleSseError(p, now).disabled ==> HandleSseError(p, now).events.es.None?
    ensures Active(p.events) ==> Active(HandleSseError(p, now).events)
  {
    StopStreamKeepsInv(p.events, false, now);
    hide StopStream;
    TailInvLater(p.events, now, later);
    assert TailInv(StartPoll(StopStream(p.events, false)), later);
  }

  lemma StartLogsLeavesEvents(p: Page, o: Outside)
    ensures StartLogsStream(p, o) == p.(logs := StartLogsStream(p, o).logs)
  {
  }

  lemma StartEventsLeavesLogs(p: Page, o: Outside)
    ensures StartEventsStream(p, o) == p.(events := StartEventsStream(p, o).events)
  {
  }

  lemma ArmKeepsEvents(p: Page, o: Outside)
    requires TailInv(p.events, o.now) && (p.disabled ==> p.events.es.None?) && o.now <= o.later
    ensures TailInv(ArmSse(p, o).events, o.later)
    ensures ArmSse(p, o).disabled ==> ArmSse(p, o).events.es.None?
    ensures Active(p.events) ==> Active(ArmSse(p, o).events)
  {
    StartEventsKeepsInv(p, o);
    StartLogsLeavesEvents(StartEventsStream(p, o), o);
    TailInvLater(p.events, o.now, o.later);
  }

  lemma ArmKeepsLogs(p: Page, o: Outside)
    requires TailInv(p.logs, o.now) && o.now <= o.later
    ensures TailInv(ArmSse(p, o).logs, o.later)
    ensures Active(p.logs) ==> Active(ArmSse(p, o).logs)
  {
    StartEventsLeavesLogs(p, o);
    StartLogsKeepsInv(StartEventsStream(p, o), o);
    TailInvLater(p.logs, o.now, o.later);
  }

  lemma TurnKeepsLogs(p: Page, turn: Turn, o: Outside)
    requires PageInv(p, o.now) && o.now <= o.later && Enabled(p, turn, o.now)
    ensures TailInv(Take(p, turn, o).logs, o.later)
    ensures turn.LogsError? || (Active(p.logs) && !Stops(turn)) ==> Active(Take(p, turn, o).logs)
  {
    hide Connect, FallBack, StartEventsStream, StartLogsStream, ArmSse, OnError, StopStream, TailInv, RetryTaken,
      StopPoll, ClearRetry, CloseSource, StartPoll, HandleSseError;
    TailInvLater(p.logs, o.now, o.later);
    match turn
    case LogsError(_) => OnErrorKeepsInv(p.logs, o.now, o.later);
    case LogsRetry(id) =>
      RetryTakenKeepsInv(p.logs, id, o.now, o.later);
      StartLogsKeepsInv(p.(logs := RetryTaken(p.logs, id)), o);
    case Arm => ArmKeepsLogs(p, o);
    case ObserveOn =>
      StartLogsKeepsInv(p.(observe := true), o);
      StartEventsLeavesLogs(StartLogsStream(p.(observe := true), o), o);
    case ObserveOff => StopStreamsKeepsLogs(p.(observe := false), o.later);
    case HtmxSseError => SseErrorLeavesLogs(p, o.now);
    case ServerSession(name) =>
      RestartKeepsLogs(p.(session := true, app := name, disabled := false, errors := 0, lastErrorAt := 0), o);
    case LocalSession(_) => StopStreamKeepsInv(p.logs, true, o.later);
    case SessionCleared => StopStreamKeepsInv(p.logs, true, o.later);
    case SwitchApi => RestartKeepsLogs(p, o);
    case EventsRetry(id) => StartEventsLeavesLogs(p.(events := RetryTaken(p.events, id)), o);
    case _ =>
  }

  lemma RestartKeepsLogs(p: Page, o: Outside)
    requires TailInv(p.logs, o.now) && o.now <= o.later
    ensures TailInv(StopBoth(p).logs, o.later) && TailInv(ArmSse(StopBoth(p), o).logs, o.later)
  {
    hide StopStream, ArmSse, TailInv;
    StopStreamKeepsInv(p.logs, true, o.now);
    TailInvLater(StopStream(p.logs, true), o.now, o.later);
    ArmKeepsLogs(StopBoth(p), o);
  }

  lemma SseErrorLeavesLogs(p: Page, now: nat)
    ensures HandleSseError(p, now).logs == p.logs
  {
    hide StopStream, StartPoll;
  }

  lemma StopStreamsKeepsLogs(p: Page, now: nat)
    requires TailInv(p.logs, now)
    ensures TailInv(StopStreams(p).logs, now)
  {
  }

  lemma TurnKeepsInv(p: Page, turn: Turn, o: Outside)
    requires PageInv(p, o.now) && o.now <= o.later && Enabled(p, turn, o.now)
    ensures PageInv(Take(p, turn, o), o.later)
  {
    hide Take, TailInv;
    TurnKeepsEvents(p, turn, o);
    TurnKeepsLogs(p, turn, o);
  }

  // Whole runs

  datatype Tick = Tick(turn: Turn, o: Outside)

  // pages[i] is the page before tick i; time never goes back, neither within a turn nor between turns.
  ghost predicate Run(pages: seq<Page>, ticks: seq<Tick>) {
    && |pages| == |ticks| + 1
    && pages[0] == FRESH
    && (forall i :: 0 <= i < |ticks| ==> ticks[i].o.now <= ticks[i].o.later)
    && (forall i, j :: 0 <= i < j < |ticks| ==> ticks[i].o.later <= ticks[j].o.now)
    && (forall i :: 0 <= i < |ticks| ==>
          && Enabled(pages[i], ticks[i].turn, ticks[i].o.now)
          && pages[i + 1] == Take(pages[i], ticks[i].turn, ticks[i].o))
  }

  lemma {:induction false} RunInv(pages: seq<Page>, ticks: seq<Tick>, i: nat)
    requires Run(pages, ticks) && i <= |ticks|
    ensures PageInv(pages[i], if i == 0 then 0 else ticks[i - 1].o.later)
    ensures i < |ticks| ==> PageInv(pages[i], ticks[i].o.now)
  {
    hide Take, Enabled;
    if i > 0 {
      RunInv(pages, ticks, i - 1);
      assert pages[i - 1 + 1] == Take(pages[i - 1], ticks[i - 1].turn, ticks[i - 1].o);
      TurnKeepsInv(pages[i - 1], ticks[i - 1].turn, ticks[i - 1].o);
    }
  }

  // At every turn boundary of every run: at most one event source and at most one pending retry per
  // tail, and never a source together with a poll interval.  The browser holds nothing the script
  // has lost track of.
  lemma OneChannelPerTail(pages: seq<Page>, ticks: seq<Tick>, i: nat)
    requires Run(pages, ticks) && i <= |ticks|
    ensures forall t :: t in [pages[i].events, pages[i].logs] ==>
      && |t.sources| <= 1 && |t.intervals| <= 1 && |t.timeouts| <= 1
      && (t.sources == {} || t.intervals == {})
      && (t.sources != {} <==> t.es.Some?) && (t.intervals != {} <==> t.poll.Some?)
      && (t.timeouts != map[] <==> t.retry.Some?)
  {
    RunInv(pages, ticks, i);
    forall t | t in [pages[i].events, pages[i].logs]
      ensures |t.sources| <= 1 && |t.intervals| <= 1 && |t.timeouts| <= 1
      ensures t.timeouts != map[] <==> t.retry.Some?
    {
      assert t.timeouts.Keys == if t.retry.Some? then {t.retry.value} else {};
      assert |t.timeouts| == |t.timeouts.Keys|;
    }
  }

  // From an error of the events stream on, exactly one of stream and poll is active at every turn
  // boundary until a turn stops the tail on purpose.
  lemma {:induction false} EventsKeepFlowing(pages: seq<Page>, ticks: seq<Tick>, i: nat, j: nat)
    requires Run(pages, ticks) && i < j <= |ticks| && ticks[i].turn.EventsError?
    requires forall k :: i < k < j ==> !Stops(ticks[k].turn)
    ensures pages[j].events.es.Some? <==> pages[j].events.poll.None?
  {
    hide Take, Enabled;
    assert pages[j - 1 + 1] == Take(pages[j - 1], ticks[j - 1].turn, ticks[j - 1].o);
    RunInv(pages, ticks, j - 1);
    RunInv(pages, ticks, j);
    TurnKeepsEvents(pages[j - 1], ticks[j - 1].turn, ticks[j - 1].o);
    if i < j - 1 {
      EventsKeepFlowing(pages, ticks, i, j - 1);
    }
  }

  lemma {:induction false} LogsKeepFlowing(pages: seq<Page>, ticks: seq<Tick>, i: nat, j: nat)
    requires Run(pages, ticks) && i < j <= |ticks| && ticks[i].turn.LogsError?
    requires forall k :: i < k < j ==> !Stops(ticks[k].turn)
    ensures pages[j].logs.es.Some? <==> pages[j].logs.poll.None?
  {
    hide Take, Enabled;
    assert pages[j - 1 + 1] == Take(pages[j - 1], ticks[j - 1].turn, ticks[j - 1].o);
    RunInv(pages, ticks, j - 1);
    RunInv(pages, ticks, j);
    TurnKeepsLogs(pages[j - 1], ticks[j - 1].turn, ticks[j - 1].o);
    if i < j - 1 {
      LogsKeepFlowing(pages, ticks, i, j - 1);
    }
  }

  // When the retry of a polling events tail fires, the tail either has a stream afterwards or goes
  // on polling; in the latter case another retry is pending exactly when a session is open, the
  // orchestrator is available and streaming is not disabled.  Otherwise nothing will retry.
  lemma RetryGoesOnIff(pages: seq<Page>, ticks: seq<Tick>, i: nat)
    requires Run(pages, ticks) && i < |ticks| && ticks[i].turn.EventsRetry? && pages[i].events.poll.Some?
    ensures var p := pages[i + 1];
      && (p.events.es.Some? <==> p.events.poll.None?)
      && (p.events.es.None? ==> (p.events.retry.Some? <==> p.session && p.available && !p.disabled))
  {
    RunInv(pages, ticks, i);
    RunInv(pages, ticks, i + 1);
    var p, o, id := pages[i], ticks[i].o, ticks[i].turn.id;
    var q := p.(events := RetryTaken(p.events, id));
    assert TailInv(q.events, o.now);
    hide Connect;
    StartEventsKeepsInv(q, o);
  }

  // The log tail likewise: another retry is pending exactly while the logs are observed.
  lemma LogsRetryGoesOnIff(pages: seq<Page>, ticks: seq<Tick>, i: nat)
    requires Run(pages, ticks) && i < |ticks| && ticks[i].turn.LogsRetry? && pages[i].logs.poll.Some?
    ensures var p := pages[i + 1];
      && (p.logs.es.Some? <==> p.logs.poll.None?)
      && (p.logs.es.None? ==> (p.logs.retry.Some? <==> p.observe))
  {
    RunInv(pages, ticks, i);
    RunInv(pages, ticks, i + 1);
    var p, o := pages[i], ticks[i].o;
    var q := p.(logs := RetryTaken(p.logs, ticks[i].turn.id));
    assert TailInv(q.logs, o.now);
    hide Connect;
    StartLogsKeepsInv(q, o);
    if q.observe {
      ConnectKeepsInv(q.logs, q.app, o.now, o.later, o.logsThrow);
    }
  }

  // Stream errors of the page's htmx panel

  // Tick i is an error of the panel at most a window before tick j, and no session has been opened since.
  predicate RecentError(ticks: seq<Tick>, i: nat, j: nat) {
    && i < j < |ticks| && ticks[i].turn.HtmxSseError?
    && ticks[j].o.now - ticks[i].o.now <= 8000
    && forall k :: i < k < j ==> !ticks[k].turn.ServerSession?
  }

  // What the error counter remembers after tick i, as long as no session is opened
  lemma {:induction false} ErrorIsRemembered(pages: seq<Page>, ticks: seq<Tick>, i: nat, j: nat)
    requires Run(pages, ticks) && i < j <= |ticks| && ticks[i].turn.HtmxSseError?
    requires forall k :: i < k < j ==> !ticks[k].turn.ServerSession?
    ensures pages[j].disabled || (pages[j].errors > 0 && ticks[i].o.now <= pages[j].lastErrorAt)
  {
    hide Take, Enabled;
    if i + 1 < j {
      ErrorIsRemembered(pages, ticks, i, j - 1);
    }
    assert pages[j - 1 + 1] == Take(pages[j - 1], ticks[j - 1].turn, ticks[j - 1].o);
    TurnCounts(pages[j - 1], ticks[j - 1].turn, ticks[j - 1].o);
  }

  // Only errors of the panel and new sessions touch the counter.
  lemma TurnCounts(p: Page, turn: Turn, o: Outside)
    ensures var q := Take(p, turn, o);
      match turn
      case HtmxSseError =>
        if p.disabled then q.disabled && q.errors == p.errors && q.lastErrorAt == p.lastErrorAt
        else
          && q.lastErrorAt == o.now && q.errors > 0
          && (q.disabled <==> p.errors > 0 && o.now - p.lastErrorAt <= SSE_ERROR_WINDOW_MS)
      case ServerSession(_) => !q.disabled && q.errors == 0
      case _ => q.disabled == p.disabled && q.errors == p.errors && q.lastErrorAt == p.lastErrorAt
  {
    hide Connect, StopStream, StopPoll, StartPoll, ClearRetry, CloseSource, OnError, RetryTaken;
  }

  // The counter's error is one of the run's.
  lemma {:induction false} RememberedIsError(pages: seq<Page>, ticks: seq<Tick>, j: nat)
    requires Run(pages, ticks) && j <= |ticks| && pages[j].errors > 0
    ensures exists i: nat :: i < j && IsErrorAt(ticks, i, j, pages[j].lastErrorAt)
  {
    hide Take, Enabled;
    assert pages[0].errors == 0;
    var p, turn := pages[j - 1], ticks[j - 1].turn;
    assert pages[j - 1 + 1] == Take(p, turn, ticks[j - 1].o);
    TurnCounts(p, turn, ticks[j - 1].o);
    if turn.HtmxSseError? && !p.disabled {
      assert IsErrorAt(ticks, j - 1, j, pages[j].lastErrorAt);
    } else {
      RememberedIsError(pages, ticks, j - 1);
      var i: nat :| i < j - 1 && IsErrorAt(ticks, i, j - 1, p.lastErrorAt);
      assert IsErrorAt(ticks, i, j, pages[j].lastErrorAt);
    }
  }

  predicate IsErrorAt(ticks: seq<Tick>, i: nat, j: nat, time: int) {
    && i < j <= |ticks| && ticks[i].turn.HtmxSseError? && ticks[i].o.now == time
    && forall k :: i < k < j ==> !ticks[k].turn.ServerSession?
  }

  // An error of the panel pauses streaming just when an earlier one lies within the window, with no session opened
  // in between; from then on the events are polled.
  lemma TwoErrorsPauseStreaming(pages: seq<Page>, ticks: seq<Tick>, j: nat)
    requires Run(pages, ticks) && j < |ticks| && ticks[j].turn.HtmxSseError? && !pages[j].disabled
    ensures pages[j + 1].disabled <==> exists i: nat :: RecentError(ticks, i, j)
    ensures pages[j + 1].disabled ==> pages[j + 1].events.es.None? && pages[j + 1].events.poll.Some?
  {
    hide Enabled;
    TurnCounts(pages[j], ticks[j].turn, ticks[j].o);
    if i: nat :| RecentError(ticks, i, j) {
      ErrorIsRemembered(pages, ticks, i, j);
    }
    if pages[j + 1].disabled {
      RememberedIsError(pages, ticks, j);
      var i: nat :| i < j && IsErrorAt(ticks, i, j, pages[j].lastErrorAt);
      assert RecentError(ticks, i, j);
      PausedIsPolled(pages[j], ticks[j].o);
    }
  }

  lemma PausedIsPolled(p: Page, o: Outside)
    requires !p.disabled && Take(p, HtmxSseError, o).disabled
    ensures Take(p, HtmxSseError, o).events.es.None? && Take(p, HtmxSseError, o).events.poll.Some?
  {
  }

  // While streaming is paused no turn but a new session opens an event source.
  lemma {:induction false} PausedStaysPaused(pages: seq<Page>, ticks: seq<Tick>, i: nat, j: nat)
    requires Run(pages, ticks) && i <= j <= |ticks| && pages[i].disabled
    requires forall k :: i <= k < j ==> !ticks[k].turn.ServerSession?
    ensures pages[j].disabled && pages[j].events.es.None?
  {
    hide Take, Enabled;
    RunInv(pages, ticks, j);
    if i < j {
      PausedStaysPaused(pages, ticks, i, j - 1);
      assert pages[j - 1 + 1] == Take(pages[j - 1], ticks[j - 1].turn, ticks[j - 1].o);
      TurnCounts(pages[j - 1], ticks[j - 1].turn, ticks[j - 1].o);
    }
  }
}
