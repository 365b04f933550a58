/**
  A concrete run of docs/static/labs.js in which the event tail falls back to polling, the session is reset, and
  the one pending retry then fires without effect: the tail goes on polling and nothing will try a stream again.
 */
module StreamWitness {
  import opened Options
  import opened StreamFailover
  import opened StreamTail

  const TICKS: seq<Tick> := [
    Tick(Availability(true), Outside(0, 0, false, false)),
    Tick(ServerSession("demo"), Outside(1, 1, true, false)),
    Tick(SessionReset, Outside(2, 2, false, false)),
    Tick(EventsRetry(1), Outside(40000, 40000, false, false))]

  const POLLING := IDLE.(poll := Some(0), retry := Some(1), cooldown := 30001, intervals := {0}, timeouts := map[1 := 30001], next := 2)

  const PAGES: seq<Page> := [
    FRESH,
    FRESH.(available := true),
    FRESH.(available := true, session := true, app := "demo", events := POLLING),
    FRESH.(available := true, events := POLLING),
    FRESH.(available := true, events := POLLING.(retry := None, timeouts := map[]))]

  lemma RetryWithoutSuccessor()
    ensures Run(PAGES, TICKS)
    ensures TICKS[3].turn.EventsRetry?
    ensures var t := PAGES[4].events; t.es.None? && t.poll.Some? && t.retry.None? && t.timeouts == map[]
  {
    OpenedSession();
    RetryFires();
  }

  // Opening the source throws, so the new session starts out polling.
  lemma OpenedSession()
    ensures PAGES[2] == Take(PAGES[1], ServerSession("demo"), Outside(1, 1, true, false))
  {
    var p := PAGES[1].(session := true, app := "demo", disabled := false, errors := 0, lastErrorAt := 0);
    assert StopBoth(p) == p;
    assert StartPoll(IDLE.(cooldown := 30001)) == IDLE.(cooldown := 30001, poll := Some(0), intervals := {0}, next := 1);
  }

  lemma RetryFires()
    ensures PAGES[4] == Take(PAGES[3], EventsRetry(1), Outside(40000, 40000, false, false))
  {
    assert POLLING.timeouts - {1} == map[];
  }
}
