/**
  What single turns do to the browser objects in every run of docs/static/labs.js: what a stopping turn stops, when a
  stream is opened, and that none is opened while a failure cools down.
 */
module StreamTurns {
  import opened Options
  import opened StreamTail
  import opened StreamFailover

  // The browser holds nothing for the tail.
  predicate Silent(t: Tail) {
    t.sources == {} && t.intervals == {} && t.timeouts == map[]
  }

  lemma StoppedIsSilent(t: Tail, clearApp: bool, now: nat)
    requires TailInv(t, now)
    ensures Silent(StopStream(t, clearApp)) && StopStream(t, clearApp).cooldown == 0 && StopStream(t, clearApp).next == t.next
    ensures StopStream(t, clearApp).es.None? && StopStream(t, clearApp).poll.None? && StopStream(t, clearApp).retry.None?
  {
    assert t.timeouts.Keys == if t.retry.Some? then {t.retry.value} else {};
  }

  lemma StopStreamsIsSilent(p: Page, now: nat)
    requires TailInv(p.events, now) && TailInv(p.logs, now)
    ensures Silent(StopStreams(p).events) && Silent(StopStreams(p).logs)
    ensures StopStreams(p).observe == p.observe
  {
    StoppedIsSilent(p.events, true, now);
    StoppedIsSilent(p.logs, true, now);
  }

  // Turns that stop both tails and start neither
  predicate Ends(p: Page, turn: Turn) {
    || turn.SessionCleared?
    || (turn.LocalSession? && !p.available)
    || (turn.ObserveOff? && p.session && p.observe)
  }

  lemma EndingTurn(p: Page, turn: Turn, o: Outside)
    requires PageInv(p, o.now) && Ends(p, turn)
    ensures Silent(Take(p, turn, o).events) && Silent(Take(p, turn, o).logs)
    ensures turn.SessionCleared? ==> !Take(p, turn, o).session && Take(p, turn, o).app == "shell-demo"
    ensures turn.LocalSession? ==> Take(p, turn, o).session && Take(p, turn, o).app == turn.name
    ensures turn.ObserveOff? ==> !Take(p, turn, o).observe
  {
    hide StopStream, StopStreams, TailInv;
    StoppedIsSilent(p.events, false, o.now);
    StoppedIsSilent(p.logs, true, o.now);
    StopStreamsIsSilent(p.(observe := false), o.now);
  }

  // The end of a session, a local session without an orchestrator, and the end of the observation stop both tails: no
  // source, no interval and no timeout is left.
  lemma StoppingLeavesNothing(pages: seq<Page>, ticks: seq<Tick>, i: nat)
    requires Run(pages, ticks) && i < |ticks|
    requires || ticks[i].turn.SessionCleared?
             || (ticks[i].turn.LocalSession? && !pages[i].available)
             || (ticks[i].turn.ObserveOff? && pages[i].session && pages[i].observe)
    ensures forall t :: t in [pages[i + 1].events, pages[i + 1].logs] ==>
              t.sources == {} && t.intervals == {} && t.timeouts == map[]
    ensures ticks[i].turn.SessionCleared? ==> !pages[i + 1].session && pages[i + 1].app == "shell-demo"
    ensures ticks[i].turn.LocalSession? ==> pages[i + 1].session && pages[i + 1].app == ticks[i].turn.name
    ensures ticks[i].turn.ObserveOff? ==> !pages[i + 1].observe
  {
    hide Take, Enabled;
    RunInv(pages, ticks, i);
    EndingTurn(pages[i], ticks[i].turn, ticks[i].o);
  }

  // Where these turns have no effect, they change nothing.
  lemma IdleTurns(pages: seq<Page>, ticks: seq<Tick>, i: nat)
    requires Run(pages, ticks) && i < |ticks|
    requires || (ticks[i].turn.LocalSession? && pages[i].available)
             || (ticks[i].turn.ObserveOff? && !(pages[i].session && pages[i].observe))
             || (ticks[i].turn.ObserveOn? && (!pages[i].session || pages[i].observe))
             || (ticks[i].turn.HtmxSseError? && pages[i].disabled)
    ensures pages[i + 1] == pages[i]
  {
    hide Enabled;
  }

  // Nothing that the browser held for the tail is left, whatever is new.
  predicate Renewed(t: Tail, t': Tail) {
    t.sources !! t'.sources && t.intervals !! t'.intervals && t.timeouts.Keys !! t'.timeouts.Keys
  }

  // All that the browser holds for the tail is at least n.
  predicate NewSince(t: Tail, n: nat) {
    && (forall x :: x in t.sources ==> n <= x) && (forall x :: x in t.intervals ==> n <= x)
    && (forall x :: x in t.timeouts ==> n <= x)
  }

  lemma ConnectMakesNew(t: Tail, app: string, o: Outside, throws: bool)
    requires Silent(t)
    ensures NewSince(Connect(t, app, o.now, o.later, throws), t.next)
  {
  }

  lemma ArmMakesNew(p: Page, o: Outside)
    requires Silent(p.events) && Silent(p.logs)
    ensures NewSince(ArmSse(p, o).events, p.events.next) && NewSince(ArmSse(p, o).logs, p.logs.next)
  {
    hide Connect;
    ConnectMakesNew(p.events, p.app, o, o.eventsThrow);
    ConnectMakesNew(p.logs, p.app, o, o.logsThrow);
    assert NewSince(p.events, p.events.next) && NewSince(p.logs, p.logs.next);
  }

  lemma NewIsRenewed(t: Tail, t': Tail, now: nat)
    requires TailInv(t, now) && NewSince(t', t.next)
    ensures Renewed(t, t')
  {
  }

  // A new session and a switch of the interface leave no source, interval or timeout from before the turn.
  lemma SwitchingLeavesNothingOld(pages: seq<Page>, ticks: seq<Tick>, i: nat)
    requires Run(pages, ticks) && i < |ticks| && (ticks[i].turn.ServerSession? || ticks[i].turn.SwitchApi?)
    ensures Renewed(pages[i].events, pages[i + 1].events) && Renewed(pages[i].logs, pages[i + 1].logs)
  {
    hide StopStream, ArmSse, TailInv, Enabled, Renewed, NewSince, Silent;
    RunInv(pages, ticks, i);
    var p, o, turn := pages[i], ticks[i].o, ticks[i].turn;
    StoppedIsSilent(p.events, false, o.now);
    StoppedIsSilent(p.logs, true, o.now);
    var begun :=
      if turn.ServerSession? then p.(session := true, app := turn.name, disabled := false, errors := 0, lastErrorAt := 0) else p;
    var stopped := StopBoth(begun);
    ArmMakesNew(stopped, o);
    SilentIsNew(stopped.events, p.events.next);
    SilentIsNew(stopped.logs, p.logs.next);
    NewIsRenewed(p.events, pages[i + 1].events, o.now);
    NewIsRenewed(p.logs, pages[i + 1].logs, o.now);
  }

  lemma SilentIsNew(t: Tail, n: nat)
    requires Silent(t)
    ensures NewSince(t, n)
  {
  }

  // Opening a stream

  // Connecting leaves a stream open exactly if no failure is cooling down and it is open already for the same
  // application or the source can be opened.
  lemma ConnectOpensIff(t: Tail, app: string, o: Outside, throws: bool)
    requires TailInv(t, o.now)
    ensures var t' := Connect(t, app, o.now, o.later, throws);
      && (t'.es.Some? <==> t.cooldown <= o.now && (!throws || (t.es.Some? && t.esApp == Some(app))))
      && (t'.es.Some? ==> t'.esApp == Some(app))
  {
  }

  // A session that the server opens while the orchestrator is available streams its events at once, unless the source
  // cannot be opened; then it polls and retries after thirty seconds.
  lemma SessionStreamsIff(pages: seq<Page>, ticks: seq<Tick>, i: nat)
    requires Run(pages, ticks) && i < |ticks| && ticks[i].turn.ServerSession?
    ensures var p, t := pages[i + 1], pages[i + 1].events;
      && p.session && p.app == ticks[i].turn.name && !p.disabled && p.errors == 0
      && (t.es.Some? <==> p.available && p.app != "" && !ticks[i].o.eventsThrow)
      && (t.es.Some? ==> t.esApp == Some(p.app) && t.poll.None? && t.retry.None?)
      && (t.es.None? && p.available && p.app != "" ==>
            && t.poll.Some? && t.retry.Some? && t.retry.value in t.timeouts
            && t.timeouts[t.retry.value] == ticks[i].o.later + 30000)
  {
    hide StopStream, TailInv, Enabled, Connect, StartLogsStream;
    RunInv(pages, ticks, i);
    var p, o := pages[i], ticks[i].o;
    StoppedIsSilent(p.events, false, o.now);
    var q := StopBoth(p.(session := true, app := ticks[i].turn.name, disabled := false, errors := 0, lastErrorAt := 0));
    ConnectAfterStop(q.events, q.app, o, o.eventsThrow);
    StartLogsLeavesEvents(StartEventsStream(q, o), o);
  }

  lemma ConnectAfterStop(t: Tail, app: string, o: Outside, throws: bool)
    requires Silent(t) && t.cooldown == 0 && t.es.None? && t.poll.None? && t.retry.None?
    ensures var t' := Connect(t, app, o.now, o.later, throws);
      && (t'.es.Some? <==> !throws)
      && (t'.es.Some? ==> t'.esApp == Some(app) && t'.poll.None? && t'.retry.None?)
      && (t'.es.None? ==>
            && t'.poll.Some? && t'.retry.Some? && t'.retry.value in t'.timeouts
            && t'.timeouts[t'.retry.value] == o.later + 30000)
  {
  }

  // The retry of a polling events tail opens a stream exactly if a session is open, the orchestrator is available,
  // streaming is not paused, the cooldown is over and the source can be opened.
  lemma RetryStreamsIff(pages: seq<Page>, ticks: seq<Tick>, i: nat)
    requires Run(pages, ticks) && i < |ticks| && ticks[i].turn.EventsRetry? && pages[i].events.es.None?
    ensures var p := pages[i];
      pages[i + 1].events.es.Some? <==>
        p.session && p.available && !p.disabled && p.events.cooldown <= ticks[i].o.now && !ticks[i].o.eventsThrow
  {
    hide TailInv, Connect;
    RunInv(pages, ticks, i);
    var p, o, id := pages[i], ticks[i].o, ticks[i].turn.id;
    RetryTakenKeepsInv(p.events, id, o.now, o.later);
    ConnectOpensIff(RetryTaken(p.events, id), p.app, o, o.eventsThrow);
  }

  lemma LogsRetryStreamsIff(pages: seq<Page>, ticks: seq<Tick>, i: nat)
    requires Run(pages, ticks) && i < |ticks| && ticks[i].turn.LogsRetry? && pages[i].logs.es.None?
    ensures var p := pages[i];
      pages[i + 1].logs.es.Some? <==> p.observe && p.logs.cooldown <= ticks[i].o.now && !ticks[i].o.logsThrow
  {
    hide TailInv, Connect;
    RunInv(pages, ticks, i);
    var p, o, id := pages[i], ticks[i].o, ticks[i].turn.id;
    RetryTakenKeepsInv(p.logs, id, o.now, o.later);
    ConnectOpensIff(RetryTaken(p.logs, id), p.app, o, o.logsThrow);
  }

  // Arming, observing and switching start the tails whose guards are open.
  lemma StartingTurns(pages: seq<Page>, ticks: seq<Tick>, i: nat)
    requires Run(pages, ticks) && i < |ticks|
    ensures var p, q, turn := pages[i], pages[i + 1], ticks[i].turn;
      && (turn.Arm? || (turn.SwitchApi? && p.session) ==>
            if p.available && !p.disabled && p.app != "" then
              (p.session ==> Active(q.events)) && (p.observe ==> Active(q.logs))
            else turn.Arm? ==> q == p)
      && (turn.ObserveOn? && p.session && !p.observe ==>
            q.observe && Active(q.logs) && (p.available && !p.disabled ==> Active(q.events)))
  {
    hide StopStream, TailInv, Enabled, Connect, StartEventsStream, StartLogsStream;
    RunInv(pages, ticks, i);
    var p, o := pages[i], ticks[i].o;
    StopStreamKeepsInv(p.events, false, o.now);
    StopStreamKeepsInv(p.logs, true, o.now);
    Starts(p, o);
    Starts(StopBoth(p), o);
    var q := p.(observe := true);
    StartLogsLeavesEvents(q, o);
    Starts(q, o);
    StartEventsKeepsInv(StartLogsStream(q, o), o);
    StartEventsLeavesLogs(StartLogsStream(q, o), o);
  }

  lemma Starts(p: Page, o: Outside)
    requires TailInv(p.events, o.now) && TailInv(p.logs, o.now) && (p.disabled ==> p.events.es.None?) && o.now <= o.later
    ensures p.observe ==> Active(StartLogsStream(p, o).logs)
    ensures p.available && !p.disabled && p.app != "" ==>
              && (p.session ==> Active(ArmSse(p, o).events)) && (p.observe ==> Active(ArmSse(p, o).logs))
  {
    hide TailInv, Connect;
    StartEventsKeepsInv(p, o);
    StartEventsLeavesLogs(p, o);
    StartLogsLeavesEvents(StartEventsStream(p, o), o);
    if p.observe {
      ConnectKeepsInv(p.logs, p.app, o.now, o.later, o.logsThrow);
    }
  }

  // Cooling down

  // The tail has no stream, and none may be opened before the time `until`.
  predicate Cooling(p: Page, until: int) {
    p.events.es.None? && (p.disabled || until <= p.events.cooldown)
  }

  lemma TurnKeepsCooling(p: Page, turn: Turn, o: Outside, until: int)
    requires Cooling(p, until) && o.now < until <= o.now + 30000 && !Stops(turn)
    ensures Cooling(Take(p, turn, o), until)
  {
    hide StopStream, StartLogsStream;
    if turn.LogsRetry? {
      StartLogsLeavesEvents(p.(logs := RetryTaken(p.logs, turn.id)), o);
    } else if turn.ObserveOn? {
      StartLogsLeavesEvents(p.(observe := true), o);
    } else if turn.Arm? {
      StartLogsLeavesEvents(StartEventsStream(p, o), o);
    } else if turn.HtmxSseError? {
      DisabledHasNoStream(p, o.now);
    }
  }

  lemma DisabledHasNoStream(p: Page, now: nat)
    ensures var q := HandleSseError(p, now);
      if q.disabled && !p.disabled then q.events.es.None? else q.events == p.events
  {
  }

  lemma {:induction false} CoolingLasts(pages: seq<Page>, ticks: seq<Tick>, i: nat, j: nat)
    requires Run(pages, ticks) && i < j <= |ticks| && ticks[i].turn.EventsError?
    requires forall k :: i < k < j ==> !Stops(ticks[k].turn)
    requires i + 1 == j || ticks[j - 1].o.now < ticks[i].o.now + 30000
    ensures Cooling(pages[j], ticks[i].o.now + 30000)
  {
    hide Take, Enabled, Cooling;
    assert pages[j - 1 + 1] == Take(pages[j - 1], ticks[j - 1].turn, ticks[j - 1].o);
    if i + 1 == j {
      ErrorCools(pages[i], ticks[i].turn, ticks[i].o);
    } else {
      CoolingLasts(pages, ticks, i, j - 1);
      TurnKeepsCooling(pages[j - 1], ticks[j - 1].turn, ticks[j - 1].o, ticks[i].o.now + 30000);
    }
  }

  lemma ErrorCools(p: Page, turn: Turn, o: Outside)
    requires turn.EventsError?
    ensures Cooling(Take(p, turn, o), o.now + 30000)
  {
  }

  // After an error of the events stream no stream is opened for thirty seconds, unless a turn stops the tail first.
  lemma NoStreamInCooldown(pages: seq<Page>, ticks: seq<Tick>, i: nat, j: nat)
    requires Run(pages, ticks) && i < j <= |ticks| && ticks[i].turn.EventsError?
    requires forall k :: i < k < j ==> !Stops(ticks[k].turn)
    requires ticks[j - 1].o.now < ticks[i].o.now + 30000
    ensures pages[j].events.es.None?
  {
    hide Run, Take, Enabled;
    CoolingLasts(pages, ticks, i, j);
  }
}
