/**
  The label canonicaliser of scripts/bench/label_backfill.py: a label is a head and a stage; the head is rebuilt
  from what is known about the backend.

  Digits are the ASCII digits.
 */
module Labels {
  import opened Options
  import opened Text

  // Stages

  predicate Digits(s: string) {
    s != "" && forall i :: 0 <= i < |s| ==> '0' <= s[i] <= '9'
  }

  predicate IsEnding(s: string) {
    s == "-during" || s == "-during-warm" || s == "-post"
  }

  predicate RolloutAt(s: string, k: nat) {
    8 < k <= |s| && s[..8] == "rollout-" && Digits(s[8..k]) && IsEnding(s[k..])
  }

  predicate IsStage(s: string) {
    || s == "idle"
    || (|s| > 5 && s[..5] == "pods-" && Digits(s[5..]))
    || exists k: nat :: k <= |s| && RolloutAt(s, k)
  }

  // The end of a label is a stage, perhaps with a line break after it, which the end of the pattern allows.
  function StageOf(s: string): Option<string> {
    if IsStage(s) then Some(s)
    else if s != "" && s[|s| - 1] == '\n' && IsStage(s[..|s| - 1]) then Some(s[..|s| - 1])
    else None
  }

  predicate StageAt(text: string, i: nat) {
    i < |text| && text[i] == '-' && StageOf(text[i + 1..]).Some?
  }

  // The first place from i on where a stage begins
  function FindStage(text: string, i: nat): (r: Option<nat>)
    requires i <= |text|
    ensures r.Some? ==> i <= r.value && StageAt(text, r.value) && forall j: nat :: i <= j < r.value ==> !StageAt(text, j)
    ensures r.None? ==> forall j: nat :: i <= j ==> !StageAt(text, j)
    decreases |text| - i
  {
    if i == |text| then None else if StageAt(text, i) then Some(i) else FindStage(text, i + 1)
  }

  // _split_label_stage
  function Split(text: string): (string, string) {
    match FindStage(text, 0)
    case None => (text, "")
    case Some(i) => (text[..i], StageOf(text[i + 1..]).value)
  }

  // A stage begins with one of three words, and with no digit.
  lemma StageBegins(s: string)
    requires IsStage(s)
    ensures |s| >= 4 && (s[0] == 'i' || s[0] == 'p' || s[0] == 'r')
    ensures s[0] == 'i' ==> s == "idle"
    ensures s[0] == 'p' ==> s[1] == 'o' && s[2] == 'd'
    ensures s[|s| - 1] != '\n'
  {
    if |s| > 5 && s[..5] == "pods-" {
      assert s[..5][0] == s[0] && s[..5][1] == s[1] && s[..5][2] == s[2];
      if Digits(s[5..]) {
        assert s[5..][|s| - 6] == s[|s| - 1];
      }
    }
    if k: nat :| k <= |s| && RolloutAt(s, k) {
      assert s[..8][0] == s[0];
      assert s[k..][|s| - k - 1] == s[|s| - 1];
    }
  }

  lemma RolloutChars(t: string, k: nat)
    requires RolloutAt(t, k)
    ensures forall i :: 0 <= i < 8 ==> t[i] == "rollout-"[i]
    ensures forall i :: 8 <= i < k ==> '0' <= t[i] <= '9'
    ensures forall i :: k <= i < |t| ==> t[i] == t[k..][i - k]
  {
    assert forall i :: 0 <= i < 8 ==> t[i] == t[..8][i];
    assert forall i :: 8 <= i < k ==> t[i] == t[8..k][i - 8];
  }

  // What follows a dash inside a stage is no stage.
  lemma RolloutIsSuffixFree(t: string, k: nat, p: nat)
    requires RolloutAt(t, k) && p < |t| && t[p] == '-'
    ensures !IsStage(t[p + 1..])
  {
    RolloutChars(t, k);
    var s := t[p + 1..];
    assert forall i :: 0 <= i < |s| ==> s[i] == t[p + 1 + i];
    assert p == 7 || p == k || p == k + 7;
    if IsStage(s) {
      StageBegins(s);
    }
  }

  lemma PodsDash(t: string, p: nat)
    requires |t| > 5 && t[..5] == "pods-" && Digits(t[5..]) && p < |t| && t[p] == '-'
    ensures p == 4 && '0' <= t[5] <= '9'
  {
    assert forall i :: 0 <= i < 5 ==> t[i] == t[..5][i];
    assert forall i :: 5 <= i < |t| ==> t[i] == t[5..][i - 5];
  }

  lemma StageIsSuffixFree(t: string, p: nat)
    requires IsStage(t) && p < |t| && t[p] == '-'
    ensures !IsStage(t[p + 1..])
  {
    if |t| > 5 && t[..5] == "pods-" && Digits(t[5..]) {
      PodsDash(t, p);
      if IsStage(t[5..]) {
        StageBegins(t[5..]);
      }
    } else if t != "idle" {
      var k: nat :| k <= |t| && RolloutAt(t, k);
      RolloutIsSuffixFree(t, k, p);
    }
  }

  // A head and a stage are found again in their label, whatever the head is.
  lemma SplitOfJoin(head: string, stage: string)
    requires IsStage(stage)
    ensures Split(head + "-" + stage) == (head, stage)
  {
    var text, n := head + "-" + stage, |head|;
    hide IsStage;
    StageBegins(stage);
    assert text[n] == '-' && text[n + 1..] == stage && text[|text| - 1] == stage[|stage| - 1];
    assert StageAt(text, n) && text[..n] == head;
    forall j: nat | j < n
      ensures !StageAt(text, j)
    {
      if StageAt(text, j) {
        var t := text[j + 1..];
        assert t[|t| - 1] == text[|text| - 1];
        assert t[n - j - 1] == '-' && t[n - j..] == stage;
        StageIsSuffixFree(t, n - j - 1);
      }
    }
  }

  // A label with a stage is its head, a dash and its stage, perhaps with a line break that is then dropped.
  lemma SplitRejoins(text: string)
    ensures var (head, stage) := Split(text);
      if stage == "" then head == text
      else IsStage(stage) && (text == head + "-" + stage || text == head + "-" + stage + "\n")
  {
    hide IsStage, StageOf;
    var r := FindStage(text, 0);
    if r.Some? {
      var rest := text[r.value + 1..];
      StageHere(rest);
      StageIsNotEmpty(StageOf(rest).value);
      assert text == text[..r.value] + "-" + rest;
    }
  }

  lemma StageHere(rest: string)
    requires StageOf(rest).Some?
    ensures IsStage(StageOf(rest).value) && (rest == StageOf(rest).value || rest == StageOf(rest).value + "\n")
  {
    hide IsStage;
  }

  lemma StageIsNotEmpty(s: string)
    ensures IsStage(s) ==> s != ""
  {
    if IsStage(s) {
      StageBegins(s);
    }
  }

  // Splitting loses nothing just when no line break follows the stage.
  lemma SplitLosesNothingIff(text: string)
    requires Split(text).1 != ""
    ensures text == Split(text).0 + "-" + Split(text).1 <==> text[|text| - 1] != '\n'
  {
    SplitRejoins(text);
    StageBegins(Split(text).1);
    hide Split, IsStage;
    var stage := Split(text).1;
    var joined := Split(text).0 + "-" + stage;
    assert joined[|joined| - 1] == stage[|stage| - 1];
    assert (joined + "\n")[|joined|] == '\n';
  }

  // A label that ends in a line break comes back without it.
  lemma LineBreakIsDropped()
    ensures Split("x-idle\n") == ("x", "idle")
    ensures "x" + "-" + "idle" != "x-idle\n"
  {
    var text := "x-idle\n";
    assert text[2..] == "idle\n" && "idle\n"[..4] == "idle" && text[..1] == "x";
    assert IsStage("idle");
    if IsStage("idle\n") {
      StageBegins("idle\n");
    }
    hide IsStage;
    assert StageAt(text, 1) && !StageAt(text, 0);
  }

  // Markers

  predicate At(s: string, marker: string, i: nat) {
    i + |marker| <= |s| && s[i..i + |marker|] == marker
  }

  // str.find
  function Find(s: string, marker: string, i: nat): (r: Option<nat>)
    requires i <= |s|
    ensures r.Some? ==> i <= r.value && At(s, marker, r.value) && forall j: nat :: i <= j < r.value ==> !At(s, marker, j)
    ensures r.None? ==> forall j: nat :: i <= j ==> !At(s, marker, j)
    decreases |s| - i
  {
    if At(s, marker, i) then Some(i) else if i == |s| then None else Find(s, marker, i + 1)
  }

  // _stamp_prefix
  function StampPrefix(head: string, markers: seq<string>): string {
    if markers == [] then head
    else
      match Find(head, markers[0], 0)
      case Some(i) => head[..i]
      case None => StampPrefix(head, markers[1..])
  }

  // A marker begins with a plus sign and has no other.
  predicate IsMarker(marker: string) {
    |marker| > 1 && marker[0] == '+' && forall i :: 0 < i < |marker| ==> marker[i] != '+'
  }

  ghost predicate Free(s: string, marker: string) {
    forall i: nat :: !At(s, marker, i)
  }

  lemma AtIsCharacters(s: string, marker: string, i: nat)
    ensures At(s, marker, i) <==> i + |marker| <= |s| && forall j :: 0 <= j < |marker| ==> s[i + j] == marker[j]
  {
    if i + |marker| <= |s| {
      var part := s[i..i + |marker|];
      assert forall j :: 0 <= j < |marker| ==> part[j] == s[i + j];
    }
  }

  // After a stamp without the marker, the marker is found where it was put.
  lemma StampIsFound(stamp: string, marker: string, rest: string, more: seq<string>)
    requires IsMarker(marker) && Free(stamp, marker)
    ensures StampPrefix(stamp + marker + rest, [marker] + more) == stamp
  {
    var s, n := stamp + marker + rest, |stamp|;
    assert s[n..n + |marker|] == marker;
    assert At(s, marker, n);
    assert s[n] == '+';
    forall j: nat | j < n
      ensures !At(s, marker, j)
    {
      AtIsCharacters(s, marker, j);
      AtIsCharacters(stamp, marker, j);
    }
    assert s[..n] == stamp;
  }

  lemma PrefixIsFree(head: string, marker: string, n: nat)
    requires n <= |head| && forall j: nat :: j < n ==> !At(head, marker, j)
    requires |marker| > 0
    ensures Free(head[..n], marker)
  {
    forall j: nat
      ensures !At(head[..n], marker, j)
    {
      AtIsCharacters(head, marker, j);
      AtIsCharacters(head[..n], marker, j);
    }
  }

  // What stands before the first marker found is free of the first marker.
  lemma {:induction false} StampIsFree(head: string, marker: string, markers: seq<string>)
    requires |marker| > 0 && ((markers == [] || markers[0] != marker) ==> Free(head, marker))
    ensures Free(StampPrefix(head, markers), marker)
  {
    if markers != [] {
      match Find(head, markers[0], 0)
      case Some(i) => PrefixIsFree(head, marker, i);
      case None => StampIsFree(head, marker, markers[1..]);
    }
  }

  // The head of a label of the CRI backend

  const CRI := "+cri"
  const TAIL := "+containerd"

  // "+containerd", with at most one segment before it
  predicate RestFits(rest: string) {
    || rest == TAIL
    || (|rest| > |TAIL| + 1 && rest[0] == '+' && rest[|rest| - |TAIL|..] == TAIL && '+' !in rest[1..|rest| - |TAIL|])
  }

  // The pattern's end also allows a line break.
  predicate RestEnds(rest: string) {
    RestFits(rest) || (rest != "" && rest[|rest| - 1] == '\n' && RestFits(rest[..|rest| - 1]))
  }

  // The first q characters are a prefix that the pattern can take: at least one character, no line break, "+cri".
  predicate PrefixAt(head: string, q: nat) {
    5 <= q <= |head| && At(head, CRI, q - 4) && '\n' !in head[..q - 4] && RestEnds(head[q..])
  }

  // The longest prefix of at most q characters, which is the one that the pattern takes
  function LongestPrefix(head: string, q: nat): (r: Option<nat>)
    ensures r.Some? ==> r.value <= q && PrefixAt(head, r.value) && forall j: nat :: r.value < j <= q ==> !PrefixAt(head, j)
    ensures r.None? ==> forall j: nat :: j <= q ==> !PrefixAt(head, j)
  {
    hide PrefixAt;
    if PrefixAt(head, q) then Some(q) else if q == 0 then None else LongestPrefix(head, q - 1)
  }

  function OciPart(oci: string): string {
    if oci == "" then "" else "+" + oci
  }

  function CriHead(head: string, oci: string): string {
    match LongestPrefix(head, |head|)
    case Some(q) => head[..q] + OciPart(oci) + TAIL
    case None => StampPrefix(head, [CRI]) + CRI + OciPart(oci) + TAIL
  }

  // The label

  datatype Facts = Facts(backend: string, mode: string, rootless: bool, cgroups: string)

  // The head that _normalize_label builds, None for a backend it does not know
  function NewHead(head: string, facts: Facts, oci: string): Option<string> {
    if facts.mode == "k3s" then Some(StampPrefix(head, ["+k3d", "+docker"]) + "+k3d" + OciPart(oci))
    else if facts.backend == "docker" then Some(StampPrefix(head, ["+docker"]) + "+docker" + (OciPart(oci) + "+k1nd"))
    else if facts.backend == "cri" then Some(CriHead(head, oci))
    else if facts.backend == "podman" then
      Some(StampPrefix(head, ["+podman"]) + "+podman"
           + (OciPart(oci) + "+" + (if facts.rootless then "rootless" else "priv") + "+"
              + (if facts.cgroups == "" then "cg2" else facts.cgroups)))
    else None
  }

  // _normalize_label
  function Normalize(text: string, facts: Facts, oci: string): string {
    var (head, stage) := Split(text);
    if stage == "" || NewHead(head, facts, oci).None? then text else NewHead(head, facts, oci).value + "-" + stage
  }

  // Normalising keeps the stage, for every backend, mode and runtime.
  lemma StageIsKept(text: string, facts: Facts, oci: string)
    ensures Split(Normalize(text, facts, oci)).1 == Split(text).1
  {
    hide NewHead, Split, IsStage;
    SplitRejoins(text);
    var (head, stage) := Split(text);
    if stage != "" && NewHead(head, facts, oci).Some? {
      SplitOfJoin(NewHead(head, facts, oci).value, stage);
    }
  }

  // A marker head is rebuilt into itself.
  lemma MarkerHeadIsStable(head: string, marker: string, rest: string, more: seq<string>)
    requires IsMarker(marker)
    ensures var h := StampPrefix(head, [marker] + more) + marker + rest; StampPrefix(h, [marker] + more) + marker + rest == h
  {
    hide StampPrefix;
    StampIsFree(head, marker, [marker] + more);
    StampIsFound(StampPrefix(head, [marker] + more), marker, rest, more);
  }

  // What the pattern sees in a head that was just built

  function Built(x: string, oci: string): string {
    x + CRI + OciPart(oci) + TAIL
  }

  predicate Plain(oci: string) {
    '+' !in oci && oci != "cri"
  }

  lemma BuiltRest(x: string, oci: string)
    ensures At(Built(x, oci), CRI, |x|)
    ensures Built(x, oci)[|x| + 4..] == OciPart(oci) + TAIL
    ensures Built(x, oci)[..|x|] == x
  {
  }

  lemma OciRestFits(oci: string)
    ensures RestEnds(OciPart(oci) + TAIL) <==> '+' !in oci
  {
    var rest := OciPart(oci) + TAIL;
    assert rest[|rest| - |TAIL|..] == TAIL;
    assert rest[|rest| - 1] == TAIL[10];
    if oci != "" {
      assert rest[1..|rest| - |TAIL|] == oci;
    }
  }

  lemma PrefixAtBuilt(x: string, oci: string)
    ensures PrefixAt(Built(x, oci), |x| + 4) <==> x != "" && '\n' !in x && '+' !in oci
  {
    hide At, RestEnds;
    BuiltRest(x, oci);
    OciRestFits(oci);
  }

  // A later marker lies after the one that was put in.
  lemma LaterMarker(x: string, oci: string, p: nat)
    requires |x| < p && At(Built(x, oci), CRI, p)
    ensures p >= |x| + 4 && At(OciPart(oci) + TAIL, CRI, p - |x| - 4)
  {
    BuiltRest(x, oci);
    hide Built, OciPart;
    var h, rest := Built(x, oci), OciPart(oci) + TAIL;
    AtIsCharacters(h, CRI, p);
    AtIsCharacters(h, CRI, |x|);
    assert h[|x| + 1] == CRI[1] && h[|x| + 2] == CRI[2] && h[|x| + 3] == CRI[3] && h[p] == CRI[0];
    assert forall j :: 0 <= j < |rest| ==> rest[j] == h[|x| + 4 + j];
    AtIsCharacters(rest, CRI, p - |x| - 4);
  }

  lemma DropTwice(s: string, a: nat, b: nat)
    requires a + b <= |s|
    ensures s[a..][b..] == s[a + b..]
  {
  }

  // No longer prefix fits when the runtime's name is plain.
  lemma NoLongerPrefix(x: string, oci: string, q: nat)
    requires Plain(oci) && |x| + 4 < q
    ensures !PrefixAt(Built(x, oci), q)
  {
    hide Built, OciPart, RestEnds, At;
    var h := Built(x, oci);
    if 5 <= q <= |h| && At(h, CRI, q - 4) {
      LaterMarker(x, oci, q - 4);
      PlainRest(oci, q - |x| - 8);
      BuiltRest(x, oci);
      DropTwice(h, |x| + 4, q - |x| - 4);
    }
  }

  // Where a plain runtime's name begins with the marker's letters, what follows does not begin with a plus sign.
  lemma PlainRest(oci: string, i: nat)
    requires Plain(oci) && At(OciPart(oci) + TAIL, CRI, i)
    ensures i + 4 <= |OciPart(oci) + TAIL|
    ensures !RestEnds((OciPart(oci) + TAIL)[i + 4..])
  {
    var rest := OciPart(oci) + TAIL;
    AtIsCharacters(rest, CRI, i);
    assert rest[i] == CRI[0] && rest[i + 1] == CRI[1] && rest[i + 2] == CRI[2] && rest[i + 3] == CRI[3];
    TailIsPlain(oci);
    if i == 0 && oci != "" {
      assert rest[1..1 + |oci|] == oci;
      ThreeLetters(oci);
      RestBegins(rest[4..]);
      assert rest[4..][0] == rest[4];
    }
  }

  lemma ThreeLetters(oci: string)
    ensures |oci| == 3 && oci[0] == 'c' && oci[1] == 'r' && oci[2] == 'i' ==> oci == "cri"
  {
  }

  lemma RestBegins(rest: string)
    ensures RestEnds(rest) ==> rest != "" && rest[0] == '+'
  {
  }

  // In what follows the marker, plus signs stand at the beginning and before the tail only.
  lemma TailIsPlain(oci: string)
    requires Plain(oci)
    ensures var rest := OciPart(oci) + TAIL;
      forall j :: 0 <= j < |rest| && rest[j] == '+' ==> j == 0 || j == |OciPart(oci)|
    ensures var rest := OciPart(oci) + TAIL; rest[|OciPart(oci)| + 2] == 'o'
  {
    var rest, n := OciPart(oci) + TAIL, |OciPart(oci)|;
    assert forall j :: n <= j < |rest| ==> rest[j] == TAIL[j - n];
    assert forall j :: 1 <= j < n ==> rest[j] == oci[j - 1];
  }

  // A CRI head that was built for one runtime is rebuilt for another, if x is a prefix that the pattern took or a
  // stamp.
  lemma BuiltIsRebuilt(x: string, was: string, oci: string)
    requires Plain(was)
    requires (x != "" && '\n' !in x) || Free(x, CRI)
    ensures CriHead(Built(x, was), oci) == Built(x, oci)
  {
    hide PrefixAt, Free, OciPart, StampPrefix;
    var h := Built(x, was);
    forall q: nat | |x| + 4 < q
      ensures !PrefixAt(h, q)
    {
      NoLongerPrefix(x, was, q);
    }
    PrefixAtBuilt(x, was);
    if PrefixAt(h, |x| + 4) {
      assert h[..|x| + 4] == x + CRI;
    } else {
      forall q: nat
        ensures !PrefixAt(h, q)
      {
        if q < |x| + 4 {
          NoEarlierPrefix(x, was, q);
        }
      }
      StampIsFound(x, CRI, OciPart(was) + TAIL, []);
      assert x + CRI + (OciPart(was) + TAIL) == h;
      assert [CRI] + [] == [CRI];
    }
  }

  // Inside what was built, the marker does not begin before the place where it was put.
  lemma NoEarlierMarker(x: string, rest: string, j: nat)
    requires Free(x, CRI) && j < |x|
    ensures !At(x + CRI + rest, CRI, j)
  {
    var h := x + CRI + rest;
    assert !At(x, CRI, j);
    AtIsCharacters(h, CRI, j);
    AtIsCharacters(x, CRI, j);
    assert forall i :: 0 <= i < |x| ==> h[i] == x[i];
    assert h[|x|] == '+' && CRI[1] != '+' && CRI[2] != '+' && CRI[3] != '+';
  }

  lemma NoEarlierPrefix(x: string, oci: string, q: nat)
    requires Free(x, CRI) && q < |x| + 4
    ensures !PrefixAt(Built(x, oci), q)
  {
    hide Free, RestEnds, OciPart, At;
    if 5 <= q {
      NoEarlierMarker(x, OciPart(oci) + TAIL, q - 4);
      assert x + CRI + (OciPart(oci) + TAIL) == Built(x, oci);
    }
  }

  lemma CriHeadIsStable(head: string, oci: string)
    requires Plain(oci)
    ensures CriHead(CriHead(head, oci), oci) == CriHead(head, oci)
  {
    hide PrefixAt, Free, OciPart, StampPrefix, Plain;
    match LongestPrefix(head, |head|)
    case Some(q) =>
      PrefixIsBuilt(head, q);
      assert head[..q] + OciPart(oci) + TAIL == Built(head[..q - 4], oci);
      BuiltIsRebuilt(head[..q - 4], oci, oci);
    case None =>
      StampIsFree(head, CRI, [CRI]);
      BuiltIsRebuilt(StampPrefix(head, [CRI]), oci, oci);
  }

  lemma PrefixIsBuilt(head: string, q: nat)
    requires PrefixAt(head, q)
    ensures 5 <= q <= |head| && head[..q] == head[..q - 4] + CRI
    ensures head[..q - 4] != "" && '\n' !in head[..q - 4]
  {
    hide RestEnds;
    assert head[..q] == head[..q - 4] + head[q - 4..q];
  }

  // Normalising twice is normalising once: for the CRI backend when the runtime's name is plain, and for all
  // others whatever its name is.
  lemma NormalizeIdempotent(text: string, facts: Facts, oci: string)
    requires facts.mode != "k3s" && facts.backend == "cri" ==> Plain(oci)
    ensures Normalize(Normalize(text, facts, oci), facts, oci) == Normalize(text, facts, oci)
  {
    hide NewHead, Split, IsStage;
    SplitRejoins(text);
    var (head, stage) := Split(text);
    if stage != "" && NewHead(head, facts, oci).Some? {
      SplitOfJoin(NewHead(head, facts, oci).value, stage);
      NewHeadIsStable(head, facts, oci);
    }
  }

  lemma NewHeadIsStable(head: string, facts: Facts, oci: string)
    requires facts.mode != "k3s" && facts.backend == "cri" ==> Plain(oci)
    requires NewHead(head, facts, oci).Some?
    ensures NewHead(NewHead(head, facts, oci).value, facts, oci) == NewHead(head, facts, oci)
  {
    hide StampPrefix, CriHead, OciPart, Plain;
    if facts.mode == "k3s" {
      assert ["+k3d"] + ["+docker"] == ["+k3d", "+docker"];
      MarkerHeadIsStable(head, "+k3d", OciPart(oci), ["+docker"]);
    } else if facts.backend == "docker" {
      assert ["+docker"] + [] == ["+docker"];
      MarkerHeadIsStable(head, "+docker", OciPart(oci) + "+k1nd", []);
    } else if facts.backend == "cri" {
      CriHeadIsStable(head, oci);
    } else {
      assert ["+podman"] + [] == ["+podman"];
      MarkerHeadIsStable(head, "+podman",
                         OciPart(oci) + "+" + (if facts.rootless then "rootless" else "priv") + "+"
                         + (if facts.cgroups == "" then "cg2" else facts.cgroups), []);
    }
  }

  // The condition is needed

  const WITNESS_HEAD := "x+cri+y+cri+z+containerd"
  const WITNESS := "x+cri+y+cri"

  lemma WitnessHead(oci: string)
    ensures CriHead(WITNESS_HEAD, oci) == WITNESS + OciPart(oci) + TAIL
  {
    hide PrefixAt;
    WitnessPrefix();
    forall q: nat | 11 < q
      ensures !PrefixAt(WITNESS_HEAD, q)
    {
      NoLaterPrefix(q);
    }
    assert WITNESS_HEAD[..11] == WITNESS;
  }

  lemma NoLaterPrefix(q: nat)
    requires 11 < q
    ensures !PrefixAt(WITNESS_HEAD, q)
  {
    hide RestEnds, At;
    NoLaterWitness(q);
    CriIsThere(WITNESS_HEAD, q - 4);
  }

  lemma CriIsThere(s: string, i: nat)
    ensures At(s, CRI, i) ==> i + 4 <= |s| && s[i] == '+' && s[i + 1] == 'c' && s[i + 2] == 'r'
  {
    if At(s, CRI, i) {
      var part := s[i..i + 4];
      assert part == CRI && part[0] == s[i] && part[1] == s[i + 1] && part[2] == s[i + 2];
    }
  }

  lemma WitnessPrefix()
    ensures PrefixAt(WITNESS_HEAD, 11)
  {
    hide RestEnds;
    WitnessRest();
    assert WITNESS_HEAD[7..11] == CRI;
    assert WITNESS_HEAD[..7] == "x+cri+y";
  }

  lemma WitnessRest()
    ensures RestEnds(WITNESS_HEAD[11..])
  {
    var rest := "+z" + TAIL;
    assert WITNESS_HEAD[11..] == rest;
    assert rest[|rest| - |TAIL|..] == TAIL && rest[1..|rest| - |TAIL|] == "z";
  }

  lemma NoLaterWitness(q: nat)
    requires 11 < q
    ensures !(q <= |WITNESS_HEAD| && WITNESS_HEAD[q - 4] == '+' && WITNESS_HEAD[q - 3] == 'c' && WITNESS_HEAD[q - 2] == 'r')
  {
  }

  lemma WitnessGrows(oci: string)
    requires !Plain(oci)
    ensures CriHead(CriHead(WITNESS_HEAD, oci), oci) != CriHead(WITNESS_HEAD, oci)
  {
    WitnessHead(oci);
    WitnessIsBuilt(oci);
    WitnessGrowsAgain(oci);
  }

  lemma WitnessIsBuilt(oci: string)
    ensures WITNESS + OciPart(oci) + TAIL == Built("x+cri+y", oci)
    ensures |Built("x+cri+y", oci)| == 11 + |OciPart(oci)| + |TAIL|
  {
  }

  // The longest prefix is not the one that was taken before.
  lemma WitnessPrefixMoves(oci: string)
    requires !Plain(oci)
    ensures LongestPrefix(Built("x+cri+y", oci), |Built("x+cri+y", oci)|) != Some(11)
  {
    hide Built, PrefixAt, OciPart;
    if oci == "cri" {
      LongerPrefix();
    } else {
      PrefixAtBuilt("x+cri+y", oci);
    }
  }

  lemma WitnessGrowsAgain(oci: string)
    requires !Plain(oci)
    ensures |CriHead(Built("x+cri+y", oci), oci)| != |Built("x+cri+y", oci)|
  {
    hide Built, PrefixAt, OciPart, StampPrefix, Plain, LongestPrefix;
    WitnessIsBuilt(oci);
    WitnessPrefixMoves(oci);
    WitnessStamp(oci);
  }

  lemma LongerPrefix()
    ensures |Built("x+cri+y", "cri")| >= 15 && PrefixAt(Built("x+cri+y", "cri"), 15)
  {
    var h := Built("x+cri+y", "cri");
    assert h == "x+cri+y+cri+cri+containerd";
    assert h[11..15] == CRI && h[..11] == WITNESS && h[15..] == TAIL;
  }

  lemma WitnessStamp(oci: string)
    ensures StampPrefix(Built("x+cri+y", oci), [CRI]) == "x"
  {
    assert Free("x", CRI);
    var rest := "+y" + CRI + OciPart(oci) + TAIL;
    assert Built("x+cri+y", oci) == "x" + CRI + rest;
    assert [CRI] + [] == [CRI];
    StampIsFound("x", CRI, rest, []);
  }

  ghost predicate AlwaysIdempotent(facts: Facts, oci: string) {
    forall text: string :: Normalize(Normalize(text, facts, oci), facts, oci) == Normalize(text, facts, oci)
  }

  // For the CRI backend every label is normalised once and for all just when the runtime's name has no plus sign
  // and is not "cri".
  lemma CriIdempotentIff(facts: Facts, oci: string)
    requires facts.mode != "k3s" && facts.backend == "cri"
    ensures AlwaysIdempotent(facts, oci) <==> Plain(oci)
  {
    hide Normalize, Plain;
    if Plain(oci) {
      forall text: string
        ensures Normalize(Normalize(text, facts, oci), facts, oci) == Normalize(text, facts, oci)
      {
        NormalizeIdempotent(text, facts, oci);
      }
    } else {
      WitnessIsNotIdempotent(facts, oci);
    }
  }

  lemma WitnessIsNotIdempotent(facts: Facts, oci: string)
    requires facts.mode != "k3s" && facts.backend == "cri" && !Plain(oci)
    ensures var text := WITNESS_HEAD + "-" + "idle";
      Normalize(Normalize(text, facts, oci), facts, oci) != Normalize(text, facts, oci)
  {
    hide Split, CriHead, Plain;
    assert IsStage("idle");
    hide IsStage;
    SplitOfJoin(WITNESS_HEAD, "idle");
    var h := CriHead(WITNESS_HEAD, oci);
    SplitOfJoin(h, "idle");
    WitnessGrows(oci);
    SameEnding(h, CriHead(h, oci));
  }

  lemma SameEnding(a: string, b: string)
    ensures a + "-" + "idle" == b + "-" + "idle" ==> a == b
  {
    if a + "-" + "idle" == b + "-" + "idle" {
      assert |a| == |b|;
      assert (a + "-" + "idle")[..|a|] == a && (b + "-" + "idle")[..|a|] == b;
    }
  }

  // What labels become

  // The stages: idle, a number of pods, and the two phases of a rollout
  lemma StagesRead(digits: string)
    requires Digits(digits)
    ensures IsStage("idle") && IsStage("pods-" + digits)
    ensures forall e :: e in ["-during", "-during-warm", "-post"] ==> IsStage("rollout-" + digits + e)
  {
    assert ("pods-" + digits)[..5] == "pods-" && ("pods-" + digits)[5..] == digits;
    forall e | e in ["-during", "-during-warm", "-post"]
      ensures IsStage("rollout-" + digits + e)
    {
      var s := "rollout-" + digits + e;
      assert s[..8] == "rollout-" && s[8..8 + |digits|] == digits && s[8 + |digits|..] == e;
      assert RolloutAt(s, 8 + |digits|);
    }
  }

  lemma StagesOnly(s: string)
    requires IsStage(s)
    ensures s == "idle" || exists d :: Digits(d) && (s == "pods-" + d || IsRolloutOf(s, d))
  {
    hide Digits, IsRolloutOf;
    if |s| > 5 && s[..5] == "pods-" && Digits(s[5..]) {
      assert s == "pods-" + s[5..];
    } else if s != "idle" {
      var k: nat :| k <= |s| && RolloutAt(s, k);
      RolloutParts(s, k);
    }
  }

  lemma RolloutParts(s: string, k: nat)
    requires RolloutAt(s, k)
    ensures Digits(s[8..k]) && IsRolloutOf(s, s[8..k])
  {
    hide Digits;
    assert s == "rollout-" + s[8..k] + s[k..];
  }

  predicate IsRolloutOf(s: string, d: string) {
    s == "rollout-" + d + "-during" || s == "rollout-" + d + "-during-warm" || s == "rollout-" + d + "-post"
  }

  // Whatever followed the backend's marker, the label comes out with the stamp before it, the marker, the runtime,
  // the backend's own ending and the stage.
  lemma LabelsAreCanonical(stamp: string, rest: string, stage: string, facts: Facts, oci: string)
    requires IsStage(stage)
    ensures facts.mode == "k3s" && Free(stamp, "+k3d") ==>
              Normalize(stamp + "+k3d" + rest + "-" + stage, facts, oci) == stamp + "+k3d" + OciPart(oci) + "-" + stage
    ensures facts.mode != "k3s" && facts.backend == "docker" && Free(stamp, "+docker") ==>
              Normalize(stamp + "+docker" + rest + "-" + stage, facts, oci) == stamp + "+docker" + (OciPart(oci) + "+k1nd") + "-" + stage
    ensures facts.mode != "k3s" && facts.backend == "podman" && Free(stamp, "+podman") ==>
              Normalize(stamp + "+podman" + rest + "-" + stage, facts, oci)
              == stamp + "+podman" + (OciPart(oci) + "+" + (if facts.rootless then "rootless" else "priv") + "+"
                                      + (if facts.cgroups == "" then "cg2" else facts.cgroups)) + "-" + stage
  {
    hide IsStage, Split, StampPrefix, CriHead, OciPart, Free;
    StageIsNotEmpty(stage);
    if facts.mode == "k3s" && Free(stamp, "+k3d") {
      SplitOfJoin(stamp + "+k3d" + rest, stage);
      StampIsFound(stamp, "+k3d", rest, ["+docker"]);
      assert ["+k3d"] + ["+docker"] == ["+k3d", "+docker"];
    } else if facts.backend == "docker" && Free(stamp, "+docker") {
      SplitOfJoin(stamp + "+docker" + rest, stage);
      StampIsFound(stamp, "+docker", rest, []);
      assert ["+docker"] + [] == ["+docker"];
    } else if facts.backend == "podman" && Free(stamp, "+podman") {
      SplitOfJoin(stamp + "+podman" + rest, stage);
      StampIsFound(stamp, "+podman", rest, []);
      assert ["+podman"] + [] == ["+podman"];
    }
  }

  // A canonical label of the CRI backend changes its runtime and nothing else.
  lemma CriLabelChangesRuntime(stamp: string, was: string, stage: string, facts: Facts, oci: string)
    requires IsStage(stage) && facts.mode != "k3s" && facts.backend == "cri" && Plain(was)
    requires (stamp != "" && '\n' !in stamp) || Free(stamp, "+cri")
    ensures Normalize(stamp + "+cri" + OciPart(was) + "+containerd" + "-" + stage, facts, oci)
         == stamp + "+cri" + OciPart(oci) + "+containerd" + "-" + stage
  {
    hide IsStage, Split, CriHead, OciPart, Free, Plain;
    StageIsNotEmpty(stage);
    SplitOfJoin(Built(stamp, was), stage);
    BuiltIsRebuilt(stamp, was, oci);
  }
}
