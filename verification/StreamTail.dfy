/**
  The live tails of docs/static/labs.js as values: what each routine makes of the variables of one
  tail and of the browser objects it holds.  Both tails, events and logs, follow the same pattern.
 */
module StreamTail {
  import opened Options

  const COOLDOWN_MS: int := 30000

  /**
    One tail.  `es`, `esApp`, `poll`, `retry` and `cooldown` are the script's variables; `sources`,
    `intervals` and `timeouts` are the browser's open event sources, running intervals and pending
    timeouts (with the time they are due).  Identifiers below `next` have been used.
   */
  datatype Tail = Tail(es: Option<nat>, esApp: Option<string>, poll: Option<nat>, retry: Option<nat>, cooldown: int,
                       sources: set<nat>, intervals: set<nat>, timeouts: map<nat, int>, next: nat)

  const IDLE := Tail(None, None, None, None, 0, {}, {}, map[], 0)

  function CloseSource(t: Tail): Tail {
    if t.es.None? then t else t.(es := None, sources := t.sources - {t.es.value})
  }

  function StopPoll(t: Tail): Tail {
    if t.poll.None? then t else t.(poll := None, intervals := t.intervals - {t.poll.value})
  }

  function StartPoll(t: Tail): Tail {
    if t.poll.Some? then t else t.(poll := Some(t.next), intervals := t.intervals + {t.next}, next := t.next + 1)
  }

  function ClearRetry(t: Tail): Tail {
    if t.retry.None? then t else t.(retry := None, timeouts := t.timeouts - {t.retry.value})
  }

  // The delay a retry gets: the one asked for, or what is left of the cooldown, or a full cooldown.
  function RetryDelay(t: Tail, asked: int, now: nat): int {
    var delay := if asked != 0 then asked else if t.cooldown > now then t.cooldown - now else COOLDOWN_MS;
    if delay > 0 then delay else 0
  }

  function ScheduleRetry(t: Tail, asked: int, now: nat): Tail {
    if t.retry.Some? then t
    else t.(retry := Some(t.next), timeouts := t.timeouts[t.next := now + RetryDelay(t, asked, now)], next := t.next + 1)
  }

  // After a failure: cool down, poll meanwhile, and try again later.
  function FallBack(t: Tail, now: nat, later: nat): Tail {
    ScheduleRetry(StartPoll(t.(cooldown := now + COOLDOWN_MS)), COOLDOWN_MS, later)
  }

  // The onerror callback of an event source.
  function OnError(t: Tail, now: nat, later: nat): Tail {
    FallBack(CloseSource(t).(esApp := None), now, later)
  }

  // The part of startEventsStream and startLogsStream behind their guards.
  function Connect(t: Tail, app: string, now: nat, later: nat, throws: bool): Tail {
    if t.cooldown != 0 && now < t.cooldown then ScheduleRetry(StartPoll(t), 0, later)
    else if t.es.Some? && t.esApp == Some(app) then t
    else
      var u := StopPoll(CloseSource(t));
      if throws then FallBack(u, now, later)
      else u.(es := Some(u.next), esApp := Some(app), sources := u.sources + {u.next}, next := u.next + 1)
  }

  // stopEventsStream keeps esApp, stopLogsStream clears it.
  function StopStream(t: Tail, clearApp: bool): Tail {
    var u := StopPoll(ClearRetry(CloseSource(t)).(cooldown := 0));
    if clearApp then u.(esApp := None) else u
  }

  // A due retry has been taken off the browser's list; the callback clears the variable.
  function RetryTaken(t: Tail, id: nat): Tail {
    t.(retry := None, timeouts := t.timeouts - {id})
  }

  // The invariant of one tail at the boundary of an event-loop turn

  // The browser's set is exactly what the variable names, and that identifier has been used.
  predicate Holds(o: Option<nat>, s: set<nat>, next: nat) {
    s == (if o.Some? then {o.value} else {}) && (o.Some? ==> o.value < next)
  }

  // The browser objects are exactly the ones the script holds; stream and poll exclude each other;
  // an open stream means that no cooldown is running.
  predicate TailInv(t: Tail, now: nat) {
    && Holds(t.es, t.sources, t.next) && Holds(t.poll, t.intervals, t.next) && Holds(t.retry, t.timeouts.Keys, t.next)
    && !(t.es.Some? && t.poll.Some?)
    && (t.es.Some? ==> t.cooldown <= now)
  }

  predicate Active(t: Tail) {
    t.es.Some? || t.poll.Some?
  }

  lemma TailInvLater(t: Tail, now: nat, later: nat)
    requires TailInv(t, now) && now <= later
    ensures TailInv(t, later)
  {
  }

  lemma FallBackKeepsInv(t: Tail, now: nat, later: nat)
    requires TailInv(t, now) && t.es.None? && now <= later
    ensures TailInv(FallBack(t, now, later), later) && FallBack(t, now, later).es.None?
    ensures FallBack(t, now, later).poll.Some? && FallBack(t, now, later).retry.Some?
  {
    var u := StartPoll(t.(cooldown := now + COOLDOWN_MS));
    assert TailInv(u, later);
    assert u.retry.None? ==> u.timeouts == map[];
  }

  lemma OnErrorKeepsInv(t: Tail, now: nat, later: nat)
    requires TailInv(t, now) && now <= later
    ensures TailInv(OnError(t, now, later), later) && OnError(t, now, later).es.None?
    ensures OnError(t, now, later).poll.Some? && OnError(t, now, later).retry.Some?
  {
    assert TailInv(CloseSource(t).(esApp := None), now);
    hide TailInv;
    FallBackKeepsInv(CloseSource(t).(esApp := None), now, later);
  }

  lemma ConnectKeepsInv(t: Tail, app: string, now: nat, later: nat, throws: bool)
    requires TailInv(t, now) && now <= later
    ensures TailInv(Connect(t, app, now, later, throws), later)
    ensures Active(Connect(t, app, now, later, throws))
    ensures Connect(t, app, now, later, throws).es.Some? || Connect(t, app, now, later, throws).retry.Some?
  {
    if t.cooldown != 0 && now < t.cooldown {
      var u := StartPoll(t);
      assert TailInv(u, later);
      assert u.retry.None? ==> u.timeouts == map[];
    } else if !(t.es.Some? && t.esApp == Some(app)) {
      var u := StopPoll(CloseSource(t));
      assert TailInv(u, now);
      if throws {
        FallBackKeepsInv(u, now, later);
      }
    }
  }

  lemma StopStreamKeepsInv(t: Tail, clearApp: bool, now: nat)
    requires TailInv(t, now)
    ensures TailInv(StopStream(t, clearApp), now)
    ensures !Active(StopStream(t, clearApp)) && StopStream(t, clearApp).retry.None?
  {
  }
}
