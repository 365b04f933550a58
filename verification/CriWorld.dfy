/**
  The container runtime as the stack scripts see it (scripts/dev/cri_stack.py): a store of pod
  sandboxes and containers with labels, read by listing and changed by five commands.
 */
module CriWorld {

  import opened Options

  /** The three labels that the scripts read. */
  datatype Labels = Labels(profile: Option<string>, component: Option<string>, rollout: Option<string>)

  datatype CtrState = Created | Running | Exited | Unknown

  datatype Ctr = Ctr(pod: nat, labels: Labels, state: CtrState)

  /** Identifiers below `next` have been handed out and are never handed out again. */
  datatype World = World(pods: map<nat, Labels>, ctrs: map<nat, Ctr>, next: nat)

  datatype Key = Key(profile: string, component: string)

  predicate Matches(l: Labels, k: Key) {
    l.profile == Some(k.profile) && l.component == Some(k.component)
  }

  // Listings

  predicate CtrIn(w: World, c: nat, pod: nat) {
    c in w.ctrs && w.ctrs[c].pod == pod
  }

  ghost predicate HasComponentLabel(w: World, pod: nat) {
    exists c :: CtrIn(w, c, pod) && w.ctrs[c].labels.component.Some?
  }

  // What _component_running_container answers: a running container with the component's label, or,
  // while no container of the pod carries any component label, a running unlabelled one.
  ghost predicate RunningIn(w: World, pod: nat, component: string) {
    || (exists c :: CtrIn(w, c, pod) && w.ctrs[c].state == Running && w.ctrs[c].labels.component == Some(component))
    || (&& !HasComponentLabel(w, pod)
        && exists c :: CtrIn(w, c, pod) && w.ctrs[c].state == Running)
  }

  // What _component_running_elsewhere can answer.
  ghost predicate RunningElsewhere(w: World, k: Key, exclude: nat, pod: nat) {
    exists c :: CtrIn(w, c, pod) && pod != exclude && w.ctrs[c].state == Running && Matches(w.ctrs[c].labels, k)
  }

  // Commands

  function StopPod(w: World, pod: nat): World {
    w.(ctrs := map c | c in w.ctrs ::
      if w.ctrs[c].pod == pod && w.ctrs[c].state == Running then w.ctrs[c].(state := Exited) else w.ctrs[c])
  }

  function DropPod(w: World, pod: nat): World {
    w.(pods := w.pods - {pod}, ctrs := map c | c in w.ctrs && w.ctrs[c].pod != pod :: w.ctrs[c])
  }

  function RunPod(w: World, l: Labels): World {
    w.(pods := w.pods[w.next := l], next := w.next + 1)
  }

  function CreateCtr(w: World, pod: nat, l: Labels): World {
    w.(ctrs := w.ctrs[w.next := Ctr(pod, l, Created)], next := w.next + 1)
  }

  function StartCtr(w: World, c: nat): World
    requires c in w.ctrs
  {
    w.(ctrs := w.ctrs[c := w.ctrs[c].(state := Running)])
  }

  // Consistency of the store

  ghost predicate GoodCtr(w: World, c: Ctr) {
    && c.pod in w.pods
    && forall k :: Matches(c.labels, k) ==> Matches(w.pods[c.pod], k)
  }

  ghost predicate WellFormed(w: World) {
    && (forall p :: p in w.pods ==> p < w.next)
    && (forall c :: c in w.ctrs ==> c < w.next && GoodCtr(w, w.ctrs[c]))
  }

  // Every pod of the component is the pod p.
  ghost predicate Sole(w: World, k: Key, p: nat) {
    forall q :: q in w.pods && Matches(w.pods[q], k) ==> q == p
  }

  ghost predicate NoPod(w: World, k: Key) {
    forall q :: q in w.pods ==> !Matches(w.pods[q], k)
  }

  ghost predicate AtMostOne(w: World) {
    forall p, q, k :: p in w.pods && q in w.pods && Matches(w.pods[p], k) && Matches(w.pods[q], k) ==> p == q
  }

  // Pods keep their labels and containers their pod; new pods and containers have fresh identifiers.
  ghost predicate Continues(w: World, w': World) {
    && w.next <= w'.next
    && (forall p :: p in w'.pods ==> if p in w.pods then w'.pods[p] == w.pods[p] else w.next <= p)
    && (forall c :: c in w'.ctrs ==> if c in w.ctrs then w'.ctrs[c].pod == w.ctrs[c].pod else w.next <= c)
  }

  // The only pods that appear or vanish belong to k, and so do the pods of all containers that
  // appear, vanish or change.
  ghost predicate TouchesOnly(w: World, w': World, k: Key) {
    && (forall p :: p in w.pods && p !in w'.pods ==> Matches(w.pods[p], k))
    && (forall p :: p in w'.pods && p !in w.pods ==> Matches(w'.pods[p], k))
    && (forall c :: c in w.ctrs && (c in w'.ctrs ==> w'.ctrs[c] != w.ctrs[c]) ==> PodMatches(w, w.ctrs[c].pod, k))
    && (forall c :: c in w'.ctrs && c !in w.ctrs ==> PodMatches(w, w'.ctrs[c].pod, k))
  }

  predicate PodMatches(w: World, p: nat, k: Key) {
    p in w.pods && Matches(w.pods[p], k)
  }

  lemma StopPodKeeps(w: World, pod: nat)
    requires WellFormed(w)
    ensures WellFormed(StopPod(w, pod)) && Continues(w, StopPod(w, pod))
    ensures forall k :: (pod in w.pods ==> Matches(w.pods[pod], k)) ==> TouchesOnly(w, StopPod(w, pod), k)
  {
  }

  lemma DropPodKeeps(w: World, pod: nat)
    requires WellFormed(w)
    ensures WellFormed(DropPod(w, pod)) && Continues(w, DropPod(w, pod))
    ensures forall k :: (pod in w.pods ==> Matches(w.pods[pod], k)) ==> TouchesOnly(w, DropPod(w, pod), k)
  {
  }

  lemma RunPodKeeps(w: World, l: Labels, k: Key)
    requires WellFormed(w) && Matches(l, k)
    ensures WellFormed(RunPod(w, l)) && Continues(w, RunPod(w, l)) && TouchesOnly(w, RunPod(w, l), k)
  {
  }

  lemma CreateCtrKeeps(w: World, pod: nat, l: Labels, k: Key)
    requires WellFormed(w) && PodMatches(w, pod, k) && Matches(l, k)
    ensures WellFormed(CreateCtr(w, pod, l)) && Continues(w, CreateCtr(w, pod, l))
    ensures TouchesOnly(w, CreateCtr(w, pod, l), k)
  {
  }

  lemma StartCtrKeeps(w: World, c: nat, k: Key)
    requires WellFormed(w) && c in w.ctrs && PodMatches(w, w.ctrs[c].pod, k)
    ensures WellFormed(StartCtr(w, c)) && Continues(w, StartCtr(w, c)) && TouchesOnly(w, StartCtr(w, c), k)
  {
  }
}
