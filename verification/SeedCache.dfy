/**
  The seed-cache refresh of scripts/dev/f0n_nvidia_validate.py: classify the guest's images, build a bundle of
  those it lacks, make room on the guest, rebuild in full when making room purged the guest, import, and
  classify again.

  What the commands answer is an Environment: any answers at all, unless Honest says otherwise.
 */
module SeedCache {
  import opened Options
  import opened ImageRefs
  import opened SeedPlan

  // The image list of a built bundle and the size of its file, 0 when there is none.
  datatype Bundle = Bundle(images: seq<Image>, size: int)

  datatype Report = Report(availBefore: nat, availAfter: nat, purged: bool)

  // One clean-up command: its exit, its report if the output has one, and what it leaves in the guest.
  datatype Sweep = Sweep(exitOk: bool, report: Option<Report>, left: Guest)

  datatype Environment = Environment(
    metadata: Groups -> Option<seq<Image>>,
    build: (nat, Groups) -> Option<Bundle>,
    inspectBefore: bool,
    inspectAfter: bool,
    hostshare: bool,
    sweep: (seq<string>, int, Guest) -> Sweep,
    copyOk: bool,
    load: (Bundle, Guest) -> Option<Guest>)

  // A bundle names what its manifest names; a clean-up changes no image, and one that reports no purge lost only
  // the images it was told to remove; an import sets each bundled reference to its expected identifier.
  ghost predicate Honest(env: Environment) {
    && (forall n: nat, m: Groups :: env.build(n, m).Some? ==> Covers(env.build(n, m).value.images, m))
    && (forall refs: seq<string>, room: int, g: Guest :: Swept(g, env.sweep(refs, room, g).left))
    && (forall refs: seq<string>, room: int, g: Guest, r: string ::
          r in g && r !in refs && env.sweep(refs, room, g).report.Some? && !env.sweep(refs, room, g).report.value.purged
          ==> r in env.sweep(refs, room, g).left)
    && (forall b: Bundle, g: Guest :: env.load(b, g).Some? ==> Imported(b.images, g, env.load(b, g).value))
  }

  datatype Stage = Metadata | Inspection | Build | Space | Copy | Import

  datatype Verdict = Ready | Insufficient | Failed(stage: Stage)

  // The record of _cleanup_guest_seed_staging
  datatype Cleanup = Cleanup(ok: bool, removed: seq<string>, availBefore: Option<nat>, availAfter: Option<nat>,
                             purged: bool, requiredFree: Option<int>)

  const SKIPPED := Cleanup(true, [], None, None, false, None)

  // Every command succeeds.
  ghost predicate AlwaysAnswers(env: Environment) {
    && (forall m: Groups :: env.metadata(m).Some?)
    && (forall n: nat, m: Groups :: env.build(n, m).Some?)
    && env.inspectBefore && env.inspectAfter && env.copyOk
    && (forall refs: seq<string>, room: int, g: Guest :: env.sweep(refs, room, g).exitOk)
    && (forall b: Bundle, g: Guest :: env.load(b, g).Some?)
  }

  // The clean-up lost a fresh image only if it reported a purge or nothing at all.
  lemma SweepIsTold(env: Environment, first: seq<Image>, before: Guest, room: int)
    requires Honest(env) && AllNormal(first) && DistinctRefs(first)
    ensures var sweep := env.sweep(OrderedUnique(Select(first, States(RefsOf(first), before), Stale)), room, before);
      && Swept(before, sweep.left)
      && (sweep.report.Some? && !sweep.report.value.purged ==> !Lost(first, before, sweep.left))
  {
    var refs := OrderedUnique(Select(first, States(RefsOf(first), before), Stale));
    var sweep := env.sweep(refs, room, before);
    hide OrderedUnique, Select, States, Swept, Lost, Normal, Imported, Covers;
    if sweep.report.Some? && !sweep.report.value.purged {
      assert forall r :: r in before && r !in refs ==> r in sweep.left;
      StaleIsNotFresh(first, before, sweep.left);
    }
  }

  lemma BuildAnswers(env: Environment, n: nat, manifest: Groups)
    requires Honest(env) && env.build(n, manifest).Some?
    ensures Covers(env.build(n, manifest).value.images, manifest)
  {
  }

  lemma LoadAnswers(env: Environment, bundle: Bundle, guest: Guest)
    requires Honest(env) && env.load(bundle, guest).Some?
    ensures Imported(bundle.images, guest, env.load(bundle, guest).value)
  {
  }

  lemma KeptAll(guest: Guest)
    ensures Swept(guest, guest)
  {
  }

  lemma AchievedBy(required: seq<Image>, bundled: seq<Image>, first: seq<Image>, before: Guest, full: bool,
                   kept: Guest, after: Guest)
    requires Achieves(required, bundled, first, before, full) && Swept(before, kept) && Imported(bundled, kept, after)
    ensures AllFresh(required, after) <==> full || !Lost(first, before, kept)
  {
  }

  // The guest and the record after one clean-up command
  predicate SweptBy(sweep: Sweep, guest: Guest, cleanup: Cleanup) {
    && guest == sweep.left
    && cleanup.purged == (sweep.report.Some? && sweep.report.value.purged)
    && cleanup.availAfter == (if sweep.report.Some? then Some(sweep.report.value.availAfter) else None)
  }

  lemma FirstChoice(env: Environment, n: nat, groups: Groups, first: seq<Image>, expected: map<string, Image>,
                    before: Guest, bundle: Bundle)
    requires Prepared(groups, first, expected)
    requires env.build(n, ManifestOf(Filter(groups, Needed(first, before)))) == Some(bundle)
    ensures var now := expected + Index(Merged(bundle.images));
      && Keyed(now)
      && SameNames(Resolve(now, first), first) && AllNormal(Resolve(now, first))
      && (Honest(env) ==>
            Achieves(Resolve(now, first), bundle.images, first, before, false) && Holds(bundle.images, first, before, false))
  {
    assert Keyed(expected) && AllNormal(first);
    hide *;
    MoreKeyed(expected, bundle.images);
    ResolvedNames(expected + Index(Merged(bundle.images)), first);
    ResolvedIsNormal(expected + Index(Merged(bundle.images)), first);
    if Honest(env) {
      BuildAnswers(env, n, ManifestOf(Filter(groups, Needed(first, before))));
      FirstBundleAchieves(groups, first, expected, before, bundle.images);
      FirstBundleHolds(groups, first, expected, before, bundle.images);
    }
  }

  lemma FullChoice(env: Environment, n: nat, groups: Groups, first: seq<Image>, expected: map<string, Image>,
                   required: seq<Image>, before: Guest, bundle: Bundle)
    requires first == Required(groups) && SameNames(required, first) && AllNormal(required) && Keyed(expected)
    requires env.build(n, ManifestOf(groups)) == Some(bundle)
    ensures var now := expected + Index(Merged(bundle.images));
      && SameNames(Resolve(now, required), first) && AllNormal(Resolve(now, required))
      && (Honest(env) ==>
            Achieves(Resolve(now, required), bundle.images, first, before, true) && Holds(bundle.images, first, before, true))
  {
    hide Merged, Required, ManifestOf, Index, Resolve, Honest, Achieves, Holds, Keyed;
    MoreKeyed(expected, bundle.images);
    ResolvedNames(expected + Index(Merged(bundle.images)), required);
    ResolvedIsNormal(expected + Index(Merged(bundle.images)), required);
    if Honest(env) {
      BuildAnswers(env, n, ManifestOf(groups));
      FullBundleAchieves(groups, first, expected, required, before, bundle.images);
      FullBundleHolds(groups, first, before, bundle.images);
    }
  }

  lemma SameNamesDistinct(a: seq<Image>, b: seq<Image>)
    requires SameNames(a, b) && DistinctRefs(b)
    ensures DistinctRefs(a) && RefsOf(a) == RefsOf(b)
  {
  }

  lemma NamesOfItself(a: seq<Image>)
    ensures SameNames(a, a)
  {
  }

  lemma NothingLost(first: seq<Image>, guest: Guest)
    ensures !Lost(first, guest, guest)
  {
    hide NormalizeId;
  }

  lemma InspectionAnswers(env: Environment)
    ensures AlwaysAnswers(env) ==> env.inspectBefore
  {
  }

  class SeedRun {
    var guest: Guest
    var groups: Groups
    var required: seq<Image>
    var expectedByRef: map<string, Image>
    var manifest: Groups
    var builds: nat
    var bundle: Option<Bundle>
    var cleanup: Cleanup
    var copied: Option<Bundle>
    var first: seq<Image>  // the requirements as the metadata run left them
    ghost var kept: Guest        // what the guest held when the import began

    // _rewrite_seed_manifest_images
    method WriteManifest(groups: Groups)
      modifies this`manifest
      ensures manifest == ManifestOf(groups)
    {
      hide Merged;
      var bootstrap := OrderedUniqueSeedImages(groups.bootstrap);
      var core := OrderedUniqueSeedImages(groups.core);
      var edge := OrderedUniqueSeedImages(groups.edge);
      manifest := Groups(bootstrap, core, edge);
    }

    // Resolves the expected identifiers of the required images.
    method Prepare(env: Environment, bootstrap: seq<Image>, core: seq<Image>) returns (ok: bool)
      modifies this`manifest, this`groups, this`required, this`expectedByRef
      ensures ok ==> Prepared(groups, required, expectedByRef)
      ensures ok ==> forall r :: HasRef(required, r) <==> r in Refs(bootstrap) || r in Refs(core)
      ensures AlwaysAnswers(env) ==> ok
    {
      hide Merged, Refs, Normal, ManifestOf, ResolveGroups, HasRef, Prepared;
      var ordered := OrderedUniqueSeedImages(bootstrap);
      var coreImages := OrderedUniqueSeedImages(core);
      var start := Groups(ordered, coreImages, []);
      StartingGroups(bootstrap, core);
      WriteManifest(start);
      var answer := env.metadata(manifest);
      if answer.None? {
        return false;
      }
      var expectedImages := OrderedUniqueSeedImages(answer.value);
      IndexIsKeyed(answer.value);
      expectedByRef := Index(expectedImages);
      groups := ResolveGroups(expectedByRef, start);
      PreparedGroups(expectedByRef, start);
      required := OrderedUniqueSeedImages(groups.All());
      WriteManifest(groups);
      return true;
    }

    // build_validation_seed_bundle
    method BuildBundle(env: Environment, current: Groups) returns (ok: bool)
      modifies this`manifest, this`builds, this`bundle, this`expectedByRef, this`required
      ensures manifest == ManifestOf(current)
      ensures ok ==> bundle.Some? && env.build(old(builds), manifest) == bundle
      ensures ok ==> expectedByRef == old(expectedByRef) + Index(Merged(bundle.value.images))
      ensures ok ==> required == Resolve(expectedByRef, old(required))
      ensures !ok ==> bundle == old(bundle)
      ensures AlwaysAnswers(env) ==> ok
    {
      hide Merged, ManifestOf, Resolve;
      WriteManifest(current);
      var answer := env.build(builds, manifest);
      builds := builds + 1;
      if answer.None? {
        return false;
      }
      bundle := answer;
      var built := OrderedUniqueSeedImages(bundle.value.images);
      if built != [] {
        expectedByRef := expectedByRef + Index(built);
      }
      assert expectedByRef == old(expectedByRef) + Index(built);
      required := Resolve(expectedByRef, required);
      return true;
    }

    // _cleanup_guest_seed_staging; its list of obsolete images is empty by NothingIsObsolete.
    method CleanUp(env: Environment, stale: seq<string>, room: int)
      modifies this`guest, this`cleanup
      ensures var sweep := env.sweep(OrderedUnique(stale), room, old(guest));
        && guest == sweep.left
        && cleanup.removed == OrderedUnique(stale)
        && cleanup.purged == (sweep.report.Some? && sweep.report.value.purged)
        && cleanup.availBefore == (if sweep.report.Some? then Some(sweep.report.value.availBefore) else None)
        && cleanup.availAfter == (if sweep.report.Some? then Some(sweep.report.value.availAfter) else None)
        && cleanup.requiredFree == Some(room)
        && (cleanup.ok <==> sweep.exitOk && (cleanup.availAfter.Some? ==> room <= cleanup.availAfter.value))
    {
      hide OrderedUnique;
      var targeted := OrderedUniqueOf(stale);
      var sweep := env.sweep(targeted, room, guest);
      guest := sweep.left;
      var availBefore, availAfter, purged := None, None, false;
      if sweep.report.Some? {
        availBefore := Some(sweep.report.value.availBefore);
        availAfter := Some(sweep.report.value.availAfter);
        purged := sweep.report.value.purged;
      }
      var ok := sweep.exitOk;
      if ok && availAfter.Some? && availAfter.value < room {
        ok := false;
      }
      cleanup := Cleanup(ok, targeted, availBefore, availAfter, purged, Some(room));
    }

    // If the free space is known, the bundle that was copied fits into it twice, with one gibibyte to spare.
    ghost predicate Fits()
      reads this
    {
      copied.Some? && cleanup.availAfter.Some? ==>
        2 * (if copied.value.size < 0 then 0 else copied.value.size) + 1073741824 <= cleanup.availAfter.value
    }

    // The bundle on disk is what the run wants to import next: of everything after a reported purge, of the
    // needed images otherwise.
    ghost predicate Chosen(env: Environment, before: Guest)
      reads this
    {
      && bundle.Some?
      && manifest == ManifestOf(if cleanup.purged then groups else Filter(groups, Needed(first, before)))
      && SameNames(required, first) && AllNormal(required)
      && (Honest(env) ==>
            && Achieves(required, bundle.value.images, first, before, cleanup.purged)
            && Holds(bundle.value.images, first, before, cleanup.purged))
    }

    // The short fall of free space that makes a run fail.
    ghost predicate SpaceIsShort()
      reads this
    {
      && bundle.Some? && cleanup.availAfter.Some?
      && cleanup.availAfter.value < 2 * (if bundle.value.size < 0 then 0 else bundle.value.size) + 1073741824
    }

    // The first build: a bundle of the missing and stale images.
    method BuildNeeded(env: Environment, refresh: seq<string>) returns (ok: bool)
      requires Prepared(groups, required, expectedByRef) && first == required && !cleanup.purged
      requires Names(refresh) == Needed(first, guest)
      modifies this`manifest, this`builds, this`bundle, this`expectedByRef, this`required
      ensures ok ==> Chosen(env, guest) && Keyed(expectedByRef)
      ensures !ok ==> bundle == old(bundle)
      ensures AlwaysAnswers(env) ==> ok
    {
      hide Prepared, Needed, Filter, ManifestOf, Resolve, Merged, Honest, Achieves, Holds, SameNames, Keyed, Index, AllNormal, AlwaysAnswers;
      ok := BuildBundle(env, Filter(groups, Names(refresh)));
      if ok {
        FirstChoice(env, old(builds), groups, first, old(expectedByRef), guest, bundle.value);
      }
    }

    // The build after a purge: a bundle of everything.
    method BuildAll(env: Environment, ghost before: Guest) returns (ok: bool)
      requires Keyed(expectedByRef) && first == Required(groups) && cleanup.purged
      requires SameNames(required, first) && AllNormal(required)
      modifies this`manifest, this`builds, this`bundle, this`expectedByRef, this`required
      ensures ok ==> Chosen(env, before)
      ensures AlwaysAnswers(env) ==> ok
    {
      hide Required, Needed, Filter, ManifestOf, Resolve, Merged, Honest, Achieves, Holds, SameNames, Keyed, Index, AllNormal, AlwaysAnswers;
      ok := BuildBundle(env, groups);
      if ok {
        FullChoice(env, old(builds), groups, first, old(expectedByRef), old(required), before, bundle.value);
      }
    }

    // The branch that copies the bundle to the guest.
    method CopyBundle(env: Environment, ghost before: Guest, stale: seq<string>) returns (failed: Option<Stage>)
      requires Chosen(env, before) && !cleanup.purged && copied.None?
      requires Keyed(expectedByRef) && first == Required(groups)
      modifies this`guest, this`required, this`expectedByRef, this`manifest, this`builds, this`bundle, this`cleanup, this`copied
      ensures failed.None? ==> Chosen(env, before) && copied == bundle && copied.Some?
      ensures failed.None? ==>
                cleanup.requiredFree == Some(2 * (if bundle.value.size < 0 then 0 else bundle.value.size) + 1073741824)
      ensures cleanup.purged ==> cleanup.availAfter.Some?
      ensures Fits()
      ensures var room := 2 * (if old(bundle).value.size < 0 then 0 else old(bundle).value.size) + 1073741824;
        SweptBy(env.sweep(OrderedUnique(stale), room, old(guest)), guest, cleanup)
      ensures AlwaysAnswers(env) && failed.Some? ==> failed.value == Space && SpaceIsShort()
    {
      hide Required, Needed, Filter, ManifestOf, Resolve, Merged, Honest, Achieves, Holds, Keyed, Index, AllNormal, OrderedUnique;
      var room := RequiredSpace(bundle.value.size);
      CleanUp(env, stale, room);
      assert SweptBy(env.sweep(OrderedUnique(stale), room, old(guest)), guest, cleanup);
      if !cleanup.ok {
        return Some(Space);
      }
      if cleanup.purged {
        var ok := BuildAll(env, before);
        if !ok {
          return Some(Build);
        }
        room := RequiredSpace(bundle.value.size);
        cleanup := cleanup.(requiredFree := Some(room));
        if cleanup.availAfter.Some? && cleanup.availAfter.value < room {
          cleanup := cleanup.(ok := false);
          return Some(Space);
        }
      }
      if !env.copyOk {
        return Some(Copy);
      }
      copied := bundle;
      return None;
    }

    // Imports the chosen bundle and classifies again.
    method Finish(env: Environment, ghost before: Guest) returns (v: Verdict)
      requires Chosen(env, before) && DistinctRefs(first)
      modifies this`guest, this`kept
      ensures kept == old(guest) && v != Failed(Space)
      ensures v.Failed? || (v.Ready? <==> AllFresh(required, guest))
      ensures Honest(env) && Swept(before, kept) && !v.Failed? ==> (v.Ready? <==> cleanup.purged || !Lost(first, before, kept))
      ensures AlwaysAnswers(env) ==> !v.Failed?
    {
      hide Needed, Filter, ManifestOf, Resolve, Honest, Achieves, Holds, AllNormal, DistinctRefs, Lost, Swept, AllFresh,
        States, Select, SameNames, Imported;
      kept := guest;
      var loaded := env.load(bundle.value, guest);
      if loaded.None? {
        return Failed(Import);
      }
      guest := loaded.value;
      if Honest(env) && Swept(before, kept) {
        LoadAnswers(env, bundle.value, kept);
        AchievedBy(required, bundle.value.images, first, before, cleanup.purged, kept, guest);
      }
      if !env.inspectAfter {
        return Failed(Inspection);
      }
      var states := States(RefsOf(first), guest);
      var missing, stale, _ := Classify(required, states);
      SameNamesDistinct(required, first);
      NothingNeeded(required, guest);
      return if missing == [] && stale == [] then Ready else Insufficient;
    }

    // What the guest lacks
    method ClassifyBefore() returns (refresh: seq<string>, stale: seq<string>)
      requires AllNormal(first) && DistinctRefs(first)
      ensures Names(refresh) == Needed(first, guest)
      ensures refresh == [] <==> AllFresh(first, guest)
      ensures stale == Select(first, States(RefsOf(first), guest), Stale)
    {
      hide Needed, AllFresh, Select, States, DistinctRefs, AllNormal, OrderedUnique, Names;
      var states := States(RefsOf(first), guest);
      var missing, gone, _ := Classify(first, states);
      stale := gone;
      refresh := OrderedUniqueOf(missing + stale);
      CollectedAreNeeded(first, guest);
      CollectedIsEmpty(missing, stale, refresh);
      NothingNeeded(first, guest);
    }

    // The record is that of one clean-up command, which left the guest with what kept holds.
    ghost predicate SweptOnce(env: Environment, before: Guest, kept: Guest)
      reads this
    {
      exists refs: seq<string>, room: int :: SweptBy(env.sweep(refs, room, before), kept, cleanup)
    }

    // Nothing that was fresh has gone unless a clean-up gave no report or reported a purge.
    ghost predicate KeepsFresh(before: Guest)
      reads this
    {
      && Swept(before, guest)
      && (Lost(first, before, guest) ==> cleanup.purged || (copied.Some? && cleanup.availAfter.None?))
    }

    // Brings the bundle within the guest's reach.
    method Transfer(env: Environment, stale: seq<string>) returns (failed: Option<Stage>)
      requires bundle.Some? && Chosen(env, guest) && cleanup == SKIPPED && copied.None?
      requires Keyed(expectedByRef) && first == Required(groups) && AllNormal(first) && DistinctRefs(first)
      requires stale == Select(first, States(RefsOf(first), guest), Stale)
      modifies this`guest, this`required, this`expectedByRef, this`manifest, this`builds, this`bundle, this`cleanup, this`copied
      ensures failed.None? ==> Chosen(env, old(guest)) && copied == if env.hostshare then None else bundle
      ensures failed.None? && Honest(env) ==> KeepsFresh(old(guest))
      ensures cleanup.purged ==> cleanup.availAfter.Some?
      ensures (env.hostshare && failed.None? && guest == old(guest) && cleanup == SKIPPED) || SweptOnce(env, old(guest), guest)
      ensures Fits()
      ensures AlwaysAnswers(env) && failed.Some? ==> failed.value == Space && SpaceIsShort()
    {
      hide Chosen, Honest, AllNormal, DistinctRefs, Lost, Swept, States, Select, Required, Keyed, OrderedUnique, AlwaysAnswers;
      if env.hostshare {
        KeptAll(guest);
        NothingLost(first, guest);
        return None;
      }
      failed := CopyBundle(env, old(guest), stale);
      ghost var room := 2 * (if old(bundle).value.size < 0 then 0 else old(bundle).value.size) + 1073741824;
      if Honest(env) {
        SweepIsTold(env, first, old(guest), room);
      }
    }

    // _ensure_guest_validation_seed_cache
    method EnsureSeedCache(env: Environment, bootstrap: seq<Image>, core: seq<Image>) returns (v: Verdict)
      modifies this
      ensures v.Ready? ==> AllFresh(required, guest)
      ensures !v.Failed? ==> forall r :: HasRef(required, r) <==> r in Refs(bootstrap) || r in Refs(core)
      ensures !v.Failed? ==> SameNames(required, first)
      ensures !v.Failed? ==> (bundle.None? <==> AllFresh(first, old(guest)))
      ensures !v.Failed? && bundle.None? ==> v.Ready? && guest == old(guest) && builds == 0
      ensures !v.Failed? && bundle.Some? ==>
                manifest == ManifestOf(if cleanup.purged then groups else Filter(groups, Needed(first, old(guest))))
      ensures Honest(env) && !v.Failed? && bundle.Some? ==>
                Holds(bundle.value.images, first, old(guest), cleanup.purged)
      ensures !v.Failed? && bundle.Some? ==> copied == if env.hostshare then None else bundle
      ensures Fits()
      ensures Honest(env) && !v.Failed? && bundle.Some? ==>
                (v.Insufficient? <==> copied.Some? && cleanup.availAfter.None? && Lost(first, old(guest), kept))
      ensures AlwaysAnswers(env) && v.Failed? ==> v == Failed(Space) && SpaceIsShort()
      ensures (copied.Some? && !v.Failed?) || v == Failed(Space) ==> SweptOnce(env, old(guest), kept)
    {
      hide Needed, Filter, ManifestOf, Honest, Achieves, Holds, AllNormal, DistinctRefs, Lost, Swept, AllFresh,
        States, Select, SameNames, Required, Keyed, Settled, HasRef, Refs, AlwaysAnswers, Names, RequiredSpace, SweptBy;
      bundle, copied, cleanup, builds := None, None, SKIPPED, 0;
      var ok := Prepare(env, bootstrap, core);
      if !ok {
        return Failed(Metadata);
      }
      first := required;
      if !env.inspectBefore {
        InspectionAnswers(env);
        return Failed(Inspection);
      }
      var refresh, stale := ClassifyBefore();
      if refresh == [] {
        NamesOfItself(required);
        return Ready;
      }
      ok := BuildNeeded(env, refresh);
      if !ok {
        return Failed(Build);
      }
      var failed := Transfer(env, stale);
      kept := guest;
      if failed.Some? {
        return Failed(failed.value);
      }
      v := Finish(env, old(guest));
      SameNamesSameRefs(required, first);
    }
  }

  // Every command succeeds, but the clean-up finds no room, removes every image and prints no report that the
  // run can read.
  function SilentPurge(): (env: Environment)
    ensures !env.hostshare
  {
    Environment(
      (m: Groups) => Some([]),
      (n: nat, m: Groups) => Some(Bundle(m.All(), 0)),
      true, true, false,
      (refs: seq<string>, room: int, g: Guest) => Sweep(true, None, map[]),
      true,
      (b: Bundle, g: Guest) => Some(Loaded(b.images, g)))
  }

  // What a faithful import leaves
  function Loaded(bundled: seq<Image>, g: Guest): (r: Guest)
    ensures Imported(bundled, g, r)
  {
    hide Refs, NormalizeRef, NormalizeId;
    var r := map x | x in g.Keys + Names(Refs(bundled)) :: if x in Refs(bundled) then FirstKnown(bundled, x) else g[x];
    assert Imported(bundled, g, r) by {
      MergedFacts(bundled);
      hide Normal;
      forall i | 0 <= i < |Merged(bundled)| && Merged(bundled)[i].expected.Some? && Merged(bundled)[i].ref in r
        ensures NormalizeId(r[Merged(bundled)[i].ref]) == Merged(bundled)[i].expected
      {
        MergedEntry(bundled, i);
        FirstKnownIsFirst(bundled, Merged(bundled)[i].ref);
      }
    }
    r
  }

  lemma SilentPurgeIsHonest()
    ensures Honest(SilentPurge()) && AlwaysAnswers(SilentPurge())
  {
    hide Imported, Refs, Loaded;
  }

  const HELD := "docker.io/a"
  const LACKED := "docker.io/b"

  lemma ExampleRefs()
    ensures HELD in Refs([Image(HELD, None), Image(LACKED, None)])
    ensures LACKED in Refs([Image(HELD, None), Image(LACKED, None)])
  {
    hide NormalizeRef, Refs;
    ExampleIsNormal();
    var images := [Image(HELD, None), Image(LACKED, None)];
    RefsAreNormal(images);
    assert images[0].ref == HELD && images[1].ref == LACKED;
  }

  lemma ExampleIsNormal()
    ensures NormalizeRef(HELD) == HELD != "" && NormalizeRef(LACKED) == LACKED != ""
  {
    hide NormalizeRef;
    PrefixedIsNormal("a");
    PrefixedIsNormal("b");
    assert HELD == "docker.io/" + "a" && LACKED == "docker.io/" + "b";
  }

  lemma ExampleIsLost(first: seq<Image>)
    requires HasRef(first, HELD) && HasRef(first, LACKED)
    ensures !AllFresh(first, map[HELD := None])
    ensures Lost(first, map[HELD := None], map[])
  {
    NoIdIsNormal();
    hide NormalizeId;
    assert HELD[10] != LACKED[10];
    var i :| 0 <= i < |first| && first[i].ref == HELD;
    var j :| 0 <= j < |first| && first[j].ref == LACKED;
    assert FreshIn(first[i], map[HELD := None]);
    assert !FreshIn(first[j], map[HELD := None]);
  }

  lemma SilentSweep(refs: seq<string>, room: int, g: Guest, kept: Guest, cleanup: Cleanup)
    requires SweptBy(SilentPurge().sweep(refs, room, g), kept, cleanup)
    ensures kept == map[] && cleanup.availAfter.None?
  {
  }

  // A run whose every command succeeds can still end with required images missing.
  method UnreportedPurge() returns (v: Verdict)
    ensures v == Insufficient
  {
    hide Merged, Refs, Required, Needed, ManifestOf, Filter, Honest, AlwaysAnswers, SilentPurge, HasRef, AllFresh, Lost,
      SweptBy;
    var run := new SeedRun;
    run.guest := map[HELD := None];
    SilentPurgeIsHonest();
    ExampleRefs();
    v := run.EnsureSeedCache(SilentPurge(), [Image(HELD, None), Image(LACKED, None)], []);
    if !v.Failed? {
      SameNamesSameRefs(run.required, run.first);
      ExampleIsLost(run.first);
    }
    if run.copied.Some? || v == Failed(Space) {
      ghost var refs: seq<string>, room: int :| SweptBy(SilentPurge().sweep(refs, room, map[HELD := None]), run.kept, run.cleanup);
      SilentSweep(refs, room, map[HELD := None], run.kept, run.cleanup);
    }
  }
}
