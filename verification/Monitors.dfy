/**
  Two polling loops, each against a specification over windows of its observations: the steady wait of
  scripts/bench/wait_rollout_steady.py and the ingress wait of scripts/dev/ha_core_node_smoke.py.

  The observations are any finite sequence; an observation says whether the deadline had passed after it.
 */
module Monitors {
  import opened Numbers
  import opened Options

  // The steady sample

  // A pod or a container of a listing; matched says that it belongs to the app, and an empty string that the
  // listing gives no identifier or no revision.
  datatype Pod = Pod(id: string, matched: bool, revision: string)
  datatype Ctr = Ctr(id: string, pod: string, matched: bool, revision: string)

  datatype Sample = Sample(revisions: set<string>, appPresent: bool, live: nat, orphans: nat)

  predicate IsSteady(s: Sample) {
    s.appPresent && |s.revisions| == 1 && s.orphans == 0
  }

  function LivePods(pods: seq<Pod>): set<string> {
    set p | p in pods && p.id != "" :: p.id
  }

  function Revisions(pods: seq<Pod>, ctrs: seq<Ctr>): set<string> {
    (set p | p in pods && p.matched && p.revision != "" :: p.revision)
    + (set c | c in ctrs && c.matched && c.revision != "" :: c.revision)
  }

  // The containers of the app whose pod is not listed
  function Orphans(pods: seq<Pod>, ctrs: seq<Ctr>): set<string> {
    set c | c in ctrs && c.matched && c.id != "" && (c.pod == "" || c.pod !in LivePods(pods)) :: c.id
  }

  function LiveCount(ctrs: seq<Ctr>): nat {
    if ctrs == [] then 0 else LiveCount(ctrs[..|ctrs| - 1]) + if ctrs[|ctrs| - 1].matched then 1 else 0
  }

  predicate Present(pods: seq<Pod>, ctrs: seq<Ctr>) {
    (exists p :: p in pods && p.matched && p.id != "") || (exists c :: c in ctrs && c.matched)
  }

  lemma OneMorePod(pods: seq<Pod>, pod: Pod)
    ensures LivePods(pods + [pod]) == LivePods(pods) + if pod.id != "" then {pod.id} else {}
    ensures Revisions(pods + [pod], []) == Revisions(pods, []) + if pod.matched && pod.revision != "" then {pod.revision} else {}
    ensures Present(pods + [pod], []) <==> Present(pods, []) || (pod.matched && pod.id != "")
  {
    assert pod in pods + [pod];
  }

  // The loop over the pods
  method ScanPods(pods: seq<Pod>) returns (podIds: set<string>, livePods: set<string>, revisions: set<string>)
    ensures livePods == LivePods(pods) && revisions == Revisions(pods, [])
    ensures podIds != {} <==> Present(pods, [])
  {
    hide LivePods, Revisions, Present;
    podIds, livePods, revisions := {}, {}, {};
    NoPods();
    assert pods[..0] == [];
    for i := 0 to |pods|
      invariant livePods == LivePods(pods[..i]) && revisions == Revisions(pods[..i], [])
      invariant podIds != {} <==> Present(pods[..i], [])
    {
      var pod := pods[i];
      OneMorePod(pods[..i], pod);
      assert pods[..i + 1] == pods[..i] + [pod];
      if pod.id != "" {
        livePods := livePods + {pod.id};
      }
      if pod.matched {
        if pod.id != "" {
          podIds := podIds + {pod.id};
          assert pod.id in podIds;
        }
        if pod.revision != "" {
          revisions := revisions + {pod.revision};
        }
      }
    }
    assert pods[..|pods|] == pods;
  }

  lemma NoPods()
    ensures LivePods([]) == {} && Revisions([], []) == {} && !Present([], [])
  {
  }

  lemma NoCtrs(pods: seq<Pod>)
    ensures Orphans(pods, []) == {} && LiveCount([]) == 0
  {
  }

  lemma OneMoreCtr(pods: seq<Pod>, ctrs: seq<Ctr>, c: Ctr)
    ensures Revisions(pods, ctrs + [c]) == Revisions(pods, ctrs) + if c.matched && c.revision != "" then {c.revision} else {}
    ensures Present(pods, ctrs + [c]) <==> Present(pods, ctrs) || c.matched
    ensures LiveCount(ctrs + [c]) == LiveCount(ctrs) + if c.matched then 1 else 0
  {
    assert c in ctrs + [c];
    assert (ctrs + [c])[..|ctrs|] == ctrs;
  }

  lemma OneMoreOrphan(pods: seq<Pod>, ctrs: seq<Ctr>, c: Ctr)
    ensures Orphans(pods, ctrs + [c])
         == Orphans(pods, ctrs)
            + if c.matched && c.id != "" && (c.pod == "" || c.pod !in LivePods(pods)) then {c.id} else {}
  {
    hide LivePods;
    assert c in ctrs + [c];
  }

  // parse_cri_sample
  method ParseCriSample(pods: seq<Pod>, ctrs: seq<Ctr>) returns (s: Sample)
    ensures s == Sample(Revisions(pods, ctrs), Present(pods, ctrs), LiveCount(ctrs), |Orphans(pods, ctrs)|)
  {
    hide LivePods, Revisions, Present, Orphans, LiveCount;
    var podIds, livePods, revisions := ScanPods(pods);
    var orphanIds: set<string>, live := {}, 0;
    NoCtrs(pods);
    assert ctrs[..0] == [];
    for i := 0 to |ctrs|
      invariant revisions == Revisions(pods, ctrs[..i]) && orphanIds == Orphans(pods, ctrs[..i])
      invariant live == LiveCount(ctrs[..i])
      invariant podIds != {} || live > 0 <==> Present(pods, ctrs[..i])
    {
      var ctr := ctrs[i];
      OneMoreCtr(pods, ctrs[..i], ctr);
      OneMoreOrphan(pods, ctrs[..i], ctr);
      assert ctrs[..i + 1] == ctrs[..i] + [ctr];
      if !ctr.matched {
        continue;
      }
      live := live + 1;
      if ctr.revision != "" {
        revisions := revisions + {ctr.revision};
      }
      if ctr.pod != "" {
        podIds := podIds + {ctr.pod};
      }
      if ctr.pod != "" && ctr.pod in livePods {
        continue;
      }
      if ctr.id != "" {
        orphanIds := orphanIds + {ctr.id};
      }
    }
    assert ctrs[..|ctrs|] == ctrs;
    s := Sample(revisions, podIds != {} || live > 0, live, |orphanIds|);
  }

  // A matched item names a revision, and no other revision is named.
  ghost predicate OnlyRevision(pods: seq<Pod>, ctrs: seq<Ctr>, revision: string) {
    && revision != ""
    && ((exists p :: p in pods && p.matched && p.revision == revision)
        || exists c :: c in ctrs && c.matched && c.revision == revision)
    && (forall p :: p in pods && p.matched && p.revision != "" ==> p.revision == revision)
    && (forall c :: c in ctrs && c.matched && c.revision != "" ==> c.revision == revision)
  }

  // The pod of a container is listed.
  ghost predicate Housed(pods: seq<Pod>, c: Ctr) {
    c.pod != "" && exists p :: p in pods && p.id == c.pod
  }

  lemma OneElement(s: set<string>)
    ensures |s| == 1 <==> exists x :: s == {x}
  {
    if |s| == 1 {
      var x :| x in s;
      assert |s - {x}| == 0;
      assert s == {x};
    }
  }

  lemma OneRevision(pods: seq<Pod>, ctrs: seq<Ctr>)
    ensures |Revisions(pods, ctrs)| == 1 <==> exists r :: OnlyRevision(pods, ctrs, r)
  {
    var all := Revisions(pods, ctrs);
    OneElement(all);
    if x :| all == {x} {
      assert x in all;
      forall p | p in pods && p.matched && p.revision != ""
        ensures p.revision == x
      {
        assert p.revision in all;
      }
      forall c | c in ctrs && c.matched && c.revision != ""
        ensures c.revision == x
      {
        assert c.revision in all;
      }
      assert OnlyRevision(pods, ctrs, x);
    }
    if r :| OnlyRevision(pods, ctrs, r) {
      assert r in all;
      assert all == {r};
    }
  }

  lemma NoOrphans(pods: seq<Pod>, ctrs: seq<Ctr>)
    ensures |Orphans(pods, ctrs)| == 0 <==> forall c :: c in ctrs && c.matched && c.id != "" ==> Housed(pods, c)
  {
    forall c | c in ctrs && c.matched && c.id != ""
      ensures Housed(pods, c) <==> !(c.pod == "" || c.pod !in LivePods(pods))
    {
    }
    if |Orphans(pods, ctrs)| == 0 {
      assert Orphans(pods, ctrs) == {};
      forall c | c in ctrs && c.matched && c.id != ""
        ensures Housed(pods, c)
      {
        assert c.id !in Orphans(pods, ctrs);
      }
    } else {
      var x :| x in Orphans(pods, ctrs);
    }
  }

  // The sample of two listings is steady if and only if the app is there, exactly one revision is named, and every
  // container of the app is in a listed pod.
  lemma SteadyMeans(pods: seq<Pod>, ctrs: seq<Ctr>)
    ensures IsSteady(Sample(Revisions(pods, ctrs), Present(pods, ctrs), LiveCount(ctrs), |Orphans(pods, ctrs)|)) <==>
              && ((exists p :: p in pods && p.matched && p.id != "") || exists c :: c in ctrs && c.matched)
              && (exists r :: OnlyRevision(pods, ctrs, r))
              && forall c :: c in ctrs && c.matched && c.id != "" ==> Housed(pods, c)
  {
    hide Revisions, Orphans, OnlyRevision, Housed;
    OneRevision(pods, ctrs);
    NoOrphans(pods, ctrs);
  }

  // The steady wait

  // sample is None when collecting it fails.
  datatype Poll = Poll(sample: Option<Sample>, late: bool)

  datatype SteadyOutcome = Steady(at: nat) | TimedOut(at: nat) | Crashed(at: nat) | Waiting

  predicate Ready(poll: Poll, needApp: bool) {
    poll.sample.Some? && IsSteady(poll.sample.value) && (needApp ==> poll.sample.value.appPresent)
  }

  // The k polls up to poll i are all ready.
  ghost predicate SteadyWindow(polls: seq<Poll>, i: nat, k: nat, needApp: bool) {
    i < |polls| && k <= i + 1 && forall j :: i + 1 - k <= j <= i ==> Ready(polls[j], needApp)
  }

  // How poll i ends the wait, if it does
  ghost function SteadyStop(polls: seq<Poll>, i: nat, k: nat, needApp: bool): Option<SteadyOutcome>
    requires i < |polls|
  {
    if polls[i].sample.None? then Some(Crashed(i))
    else if SteadyWindow(polls, i, k, needApp) then Some(Steady(i))
    else if polls[i].late then Some(TimedOut(i))
    else None
  }

  // hits counts the ready polls that end the first n polls.
  ghost predicate Hits(polls: seq<Poll>, n: nat, hits: nat, needApp: bool) {
    && hits <= n <= |polls|
    && (forall j :: n - hits <= j < n ==> Ready(polls[j], needApp))
    && (hits < n ==> !Ready(polls[n - hits - 1], needApp))
  }

  lemma HitsAreWindow(polls: seq<Poll>, i: nat, hits: nat, k: nat, needApp: bool)
    requires i < |polls| && Hits(polls, i + 1, hits, needApp) && k > 0
    ensures hits >= k <==> SteadyWindow(polls, i, k, needApp)
  {
    hide Ready;
  }

  lemma WindowIsSteady(polls: seq<Poll>, i: nat, k: nat, needApp: bool)
    requires SteadyWindow(polls, i, k, needApp)
    ensures forall j :: i + 1 - k <= j <= i ==>
              && polls[j].sample.Some? && polls[j].sample.value.appPresent
              && |polls[j].sample.value.revisions| == 1 && polls[j].sample.value.orphans == 0
  {
  }

  // The loop of main: it ends at the first poll that ends it, and well at the first window of ready polls.
  method WaitSteady(polls: seq<Poll>, stablePolls: int, needApp: bool) returns (r: SteadyOutcome)
    ensures r.Waiting? ==> forall i :: 0 <= i < |polls| ==> SteadyStop(polls, i, Max(stablePolls, 1), needApp).None?
    ensures !r.Waiting? ==>
              && r.at < |polls| && SteadyStop(polls, r.at, Max(stablePolls, 1), needApp) == Some(r)
              && forall i :: 0 <= i < r.at ==> SteadyStop(polls, i, Max(stablePolls, 1), needApp).None?
    ensures r.Steady? ==>
              && Max(stablePolls, 1) <= r.at + 1
              && forall j :: r.at + 1 - Max(stablePolls, 1) <= j <= r.at ==>
                   && polls[j].sample.Some? && polls[j].sample.value.appPresent
                   && |polls[j].sample.value.revisions| == 1 && polls[j].sample.value.orphans == 0
  {
    hide SteadyWindow, IsSteady;
    var stableHits := 0;
    var i := 0;
    while i < |polls|
      invariant 0 <= i <= |polls| && Hits(polls, i, stableHits, needApp)
      invariant forall j :: 0 <= j < i ==> SteadyStop(polls, j, Max(stablePolls, 1), needApp).None?
    {
      if polls[i].sample.None? {
        return Crashed(i);
      }
      var sample := polls[i].sample.value;
      var ready := IsSteady(sample);
      if needApp && !sample.appPresent {
        ready := false;
      }
      if ready {
        stableHits := stableHits + 1;
        HitsAreWindow(polls, i, stableHits, Max(stablePolls, 1), needApp);
        if stableHits >= Max(stablePolls, 1) {
          WindowIsSteady(polls, i, Max(stablePolls, 1), needApp);
          return Steady(i);
        }
      } else {
        stableHits := 0;
        HitsAreWindow(polls, i, stableHits, Max(stablePolls, 1), needApp);
      }
      if polls[i].late {
        return TimedOut(i);
      }
      i := i + 1;
    }
    r := Waiting;
  }

  // The ingress wait

  // One probe: the status and whether the body has the expected text, or None when it fails.
  // A probe that expects no text counts as having it.
  datatype Probe = Probe(answer: Option<(nat, bool)>, late: bool)

  datatype IngressOutcome = Served(at: nat) | Terminal(at: nat) | Expired(at: nat) | Probing

  const STREAK := 5

  predicate IsTerminal(status: nat) {
    status == 404 || status == 502 || status == 503
  }

  predicate Serves(p: Probe, expected: nat) {
    p.answer.Some? && p.answer.value.0 == expected && p.answer.value.1
  }

  // The terminal status that a probe met, if it is not the expected one
  function TerminalStatus(p: Probe, expected: nat): Option<nat> {
    if p.answer.Some? && p.answer.value.0 != expected && IsTerminal(p.answer.value.0) then Some(p.answer.value.0) else None
  }

  // The five probes up to probe i met the same terminal status.
  ghost predicate TerminalWindow(probes: seq<Probe>, i: nat, expected: nat) {
    && i < |probes| && STREAK <= i + 1
    && TerminalStatus(probes[i], expected).Some?
    && forall j :: i + 1 - STREAK <= j <= i ==> TerminalStatus(probes[j], expected) == TerminalStatus(probes[i], expected)
  }

  ghost function IngressStop(probes: seq<Probe>, i: nat, expected: nat): Option<IngressOutcome>
    requires i < |probes|
  {
    if Serves(probes[i], expected) then Some(Served(i))
    else if TerminalWindow(probes, i, expected) then Some(Terminal(i))
    else if probes[i].late then Some(Expired(i))
    else None
  }

  // The last streak of the first n probes met the terminal status, and the probe before them did not.
  ghost predicate Streak(probes: seq<Probe>, n: nat, streak: nat, status: Option<nat>, expected: nat) {
    && streak <= n <= |probes|
    && (streak > 0 <==> status.Some?)
    && (forall j :: n - streak <= j < n ==> TerminalStatus(probes[j], expected) == status)
    && (streak == 0 && n > 0 ==> TerminalStatus(probes[n - 1], expected).None?)
    && (0 < streak < n ==> TerminalStatus(probes[n - streak - 1], expected) != status)
  }

  lemma StreakIsWindow(probes: seq<Probe>, i: nat, streak: nat, status: Option<nat>, expected: nat)
    requires i < |probes| && Streak(probes, i + 1, streak, status, expected)
    ensures streak >= STREAK <==> TerminalWindow(probes, i, expected)
  {
    hide TerminalStatus;
  }

  lemma WindowIsTerminal(probes: seq<Probe>, i: nat, expected: nat)
    requires TerminalWindow(probes, i, expected)
    ensures i >= 4 && probes[i].answer.Some? && probes[i].answer.value.0 in {404, 502, 503} - {expected}
    ensures forall j :: i - 4 <= j <= i ==>
              probes[j].answer.Some? && probes[j].answer.value.0 == probes[i].answer.value.0
  {
  }

  // wait_for_ingress_response: it aborts exactly when five probes in a row have met one terminal status.
  method WaitForIngress(probes: seq<Probe>, expected: nat) returns (r: IngressOutcome)
    ensures r.Probing? ==> forall i :: 0 <= i < |probes| ==> IngressStop(probes, i, expected).None?
    ensures !r.Probing? ==>
              && r.at < |probes| && IngressStop(probes, r.at, expected) == Some(r)
              && forall i :: 0 <= i < r.at ==> IngressStop(probes, i, expected).None?
    ensures r.Terminal? ==>
              && r.at >= 4 && probes[r.at].answer.Some? && probes[r.at].answer.value.0 in {404, 502, 503} - {expected}
              && forall j :: r.at - 4 <= j <= r.at ==>
                   probes[j].answer.Some? && probes[j].answer.value.0 == probes[r.at].answer.value.0
    ensures r.Served? ==> probes[r.at].answer == Some((expected, true))
  {
    hide TerminalWindow, IsTerminal;
    var status: Option<nat>, streak := None, 0;
    var i := 0;
    while i < |probes|
      invariant 0 <= i <= |probes| && Streak(probes, i, streak, status, expected)
      invariant forall j :: 0 <= j < i ==> IngressStop(probes, j, expected).None?
    {
      if probes[i].answer.Some? {
        var (code, hasText) := probes[i].answer.value;
        if code == expected {
          if hasText {
            return Served(i);
          }
          status, streak := None, 0;
        } else if IsTerminal(code) {
          if status == Some(code) {
            streak := streak + 1;
          } else {
            status, streak := Some(code), 1;
          }
          StreakIsWindow(probes, i, streak, status, expected);
          if streak >= STREAK {
            WindowIsTerminal(probes, i, expected);
            return Terminal(i);
          }
        } else {
          status, streak := None, 0;
        }
      } else {
        status, streak := None, 0;
      }
      StreakIsWindow(probes, i, streak, status, expected);
      if probes[i].late {
        return Expired(i);
      }
      i := i + 1;
    }
    r := Probing;
  }
}
