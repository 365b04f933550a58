/**
  What the seed-cache refresh of scripts/dev/f0n_nvidia_validate.py decides, on values: which images a guest
  lacks, what a bundle must hold, how much room it needs, and what importing it achieves.
 */
module SeedPlan {
  import opened Options
  import opened Sequences
  import opened ImageRefs
  import opened Text

  // What the guest's image store holds: the identifier, if it reports one, of every present reference.
  type Guest = map<string, Option<string>>

  datatype Groups = Groups(bootstrap: seq<Image>, core: seq<Image>, edge: seq<Image>) {
    function All(): seq<Image> {
      bootstrap + core + edge
    }
  }

  datatype ImageState = ImageState(present: bool, id: Option<string>)

  datatype Standing = Missing | Stale | Fresh

  const HEADROOM := 1024 * 1024 * 1024
  const MULTIPLIER := 2

  function RequiredSpace(size: int): int {
    (if size < 0 then 0 else size) * MULTIPLIER + HEADROOM
  }

  // _guest_image_states
  function States(refs: seq<string>, guest: Guest): map<string, ImageState> {
    map r | r in set i | 0 <= i < |refs| && Strip(refs[i]) != "" :: NormalizeRef(refs[i])
      :: ImageState(r in guest, if r in guest then NormalizeId(guest[r]) else None)
  }

  function StandingOf(image: Image, states: map<string, ImageState>): Standing {
    if image.ref !in states || !states[image.ref].present then Missing
    else
      var id, expected := NormalizeId(states[image.ref].id), NormalizeId(image.expected);
      if expected.Some? && id.Some? && id != expected then Stale else Fresh
  }

  // The references of the images with that standing, in order.
  function Select(images: seq<Image>, states: map<string, ImageState>, standing: Standing): seq<string> {
    if images == [] then []
    else
      var last := images[|images| - 1];
      Select(images[..|images| - 1], states, standing)
      + (if StandingOf(last, states) == standing then [last.ref] else [])
  }

  // _classify_guest_seed_images
  method Classify(images: seq<Image>, states: map<string, ImageState>)
    returns (missing: seq<string>, stale: seq<string>, good: seq<string>)
    ensures missing == Select(images, states, Missing)
    ensures stale == Select(images, states, Stale)
    ensures good == Select(images, states, Fresh)
  {
    hide NormalizeId;
    missing, stale, good := [], [], [];
    var i := 0;
    while i < |images|
      invariant 0 <= i <= |images|
      invariant missing == Select(images[..i], states, Missing)
      invariant stale == Select(images[..i], states, Stale)
      invariant good == Select(images[..i], states, Fresh)
    {
      var image := images[i];
      assert images[..i + 1][..i] == images[..i];
      var state := if image.ref in states then states[image.ref] else ImageState(false, None);
      var id, expected := NormalizeId(state.id), NormalizeId(image.expected);
      if !state.present {
        missing := missing + [image.ref];
      } else if expected.Some? && id.Some? && id != expected {
        stale := stale + [image.ref];
      } else {
        good := good + [image.ref];
      }
      i := i + 1;
    }
    assert images[..i] == images;
  }

  // The guest has the image, and nothing says that it is another one.
  predicate FreshIn(image: Image, guest: Guest) {
    && image.ref in guest
    && var id, expected := NormalizeId(guest[image.ref]), NormalizeId(image.expected);
    (expected.None? || id.None? || id == expected)
  }

  predicate AllFresh(images: seq<Image>, guest: Guest) {
    forall i :: 0 <= i < |images| ==> FreshIn(images[i], guest)
  }

  function RefsOf(images: seq<Image>): (refs: seq<string>)
    ensures |refs| == |images| && forall i :: 0 <= i < |images| ==> refs[i] == images[i].ref
  {
    seq(|images|, i requires 0 <= i < |images| => images[i].ref)
  }

  predicate AllNormal(images: seq<Image>) {
    forall i :: 0 <= i < |images| ==> Normal(images[i])
  }

  lemma StatesOfNormal(images: seq<Image>, guest: Guest, i: nat)
    requires AllNormal(images) && i < |images|
    ensures images[i].ref in States(RefsOf(images), guest)
    ensures States(RefsOf(images), guest)[images[i].ref]
         == ImageState(images[i].ref in guest, if images[i].ref in guest then NormalizeId(guest[images[i].ref]) else None)
  {
    assert Normal(images[i]);
    NormalIsNotBlank(images[i].ref);
    hide NormalizeRef, NormalizeId, Strip;
    assert RefsOf(images)[i] == images[i].ref;
  }

  lemma NormalIsNotBlank(ref: string)
    requires ref != "" && NormalizeRef(ref) == ref
    ensures Strip(ref) != ""
  {
  }

  // Every image has one standing, and it is fresh just when the guest has it and no identifier contradicts.
  lemma StandingIsFresh(images: seq<Image>, guest: Guest, i: nat)
    requires AllNormal(images) && i < |images|
    ensures (StandingOf(images[i], States(RefsOf(images), guest)) == Fresh) <==> FreshIn(images[i], guest)
    ensures (StandingOf(images[i], States(RefsOf(images), guest)) == Missing) <==> images[i].ref !in guest
  {
    StatesOfNormal(images, guest, i);
    if images[i].ref in guest {
      NormalizeIdIdempotent(guest[images[i].ref]);
    }
    hide NormalizeRef, NormalizeId, Strip, States;
  }

  lemma {:induction false} Selected(images: seq<Image>, states: map<string, ImageState>, standing: Standing, r: string)
    ensures r in Select(images, states, standing)
       <==> exists i :: 0 <= i < |images| && images[i].ref == r && StandingOf(images[i], states) == standing
  {
    hide StandingOf;
    if images != [] {
      var n := |images| - 1;
      Selected(images[..n], states, standing, r);
      assert forall i :: 0 <= i < n ==> images[..n][i] == images[i];
      if images[n].ref == r && StandingOf(images[n], states) == standing {
      } else if r in Select(images[..n], states, standing) {
        var i :| 0 <= i < n && images[..n][i].ref == r && StandingOf(images[..n][i], states) == standing;
        assert images[i].ref == r;
      }
    }
  }

  // The references to refresh: those of the images that are not fresh.
  lemma NeededExactly(images: seq<Image>, guest: Guest, i: nat)
    requires AllNormal(images) && DistinctRefs(images) && i < |images|
    ensures var states := States(RefsOf(images), guest);
      images[i].ref in Select(images, states, Missing) || images[i].ref in Select(images, states, Stale)
      <==> !FreshIn(images[i], guest)
  {
    var states := States(RefsOf(images), guest);
    StandingIsFresh(images, guest, i);
    Selected(images, states, Missing, images[i].ref);
    Selected(images, states, Stale, images[i].ref);
    hide NormalizeRef, NormalizeId, Strip, States, StandingOf, FreshIn, Select;
  }

  lemma NeededAreRequired(images: seq<Image>, states: map<string, ImageState>, standing: Standing, r: string)
    requires r in Select(images, states, standing)
    ensures HasRef(images, r)
  {
    Selected(images, states, standing, r);
  }

  // _ordered_unique
  function OrderedUnique(refs: seq<string>): seq<string> {
    Distinct(Stripped(refs))
  }

  function Stripped(refs: seq<string>): seq<string> {
    if refs == [] then []
    else
      var last := Strip(refs[|refs| - 1]);
      Stripped(refs[..|refs| - 1]) + (if last == "" then [] else [last])
  }

  // What the loop of _ordered_unique has gathered
  ghost predicate Collected(refs: seq<string>, seen: set<string>, ordered: seq<string>) {
    ordered == OrderedUnique(refs) && forall r :: r in seen <==> r in ordered
  }

  lemma CollectMore(refs: seq<string>, seen: set<string>, ordered: seq<string>, image: string)
    requires Collected(refs, seen, ordered)
    ensures var ref := Strip(image);
      if ref == "" || ref in seen then Collected(refs + [image], seen, ordered)
      else Collected(refs + [image], seen + {ref}, ordered + [ref])
  {
    hide Strip, Distinct;
    var ref := Strip(image);
    assert (refs + [image])[..|refs|] == refs;
    assert Stripped(refs) + [] == Stripped(refs);
    DistinctSnoc(Stripped(refs), ref);
  }

  lemma NothingCollected()
    ensures Collected([], {}, [])
  {
  }

  method OrderedUniqueOf(refs: seq<string>) returns (ordered: seq<string>)
    ensures ordered == OrderedUnique(refs)
  {
    hide Strip, OrderedUnique;
    var seen: set<string> := {};
    ordered := [];
    NothingCollected();
    assert refs[..0] == [];
    for i := 0 to |refs|
      invariant Collected(refs[..i], seen, ordered)
    {
      CollectMore(refs[..i], seen, ordered, refs[i]);
      assert refs[..i + 1] == refs[..i] + [refs[i]];
      var ref := Strip(refs[i]);
      if ref == "" || ref in seen {
        continue;
      }
      seen := seen + {ref};
      ordered := ordered + [ref];
    }
    assert refs[..|refs|] == refs;
  }

  lemma {:induction false} StrippedHas(refs: seq<string>, r: string)
    requires forall i :: 0 <= i < |refs| ==> refs[i] != "" && Trimmed(refs[i])
    ensures r in Stripped(refs) <==> r in refs
  {
    if refs != [] {
      var n := |refs| - 1;
      StrippedHas(refs[..n], r);
      StripTrims(refs[n]);
      hide Trimmed, Strip;
      assert refs == refs[..n] + [refs[n]];
    }
  }

  lemma OrderedUniqueHas(refs: seq<string>, r: string)
    requires forall i :: 0 <= i < |refs| ==> refs[i] != "" && Trimmed(refs[i])
    ensures r in OrderedUnique(refs) <==> r in refs
  {
    StrippedHas(refs, r);
    DistinctIsDistinct(Stripped(refs));
  }

  lemma NormalIsTrimmed(ref: string)
    requires NormalizeRef(ref) == ref
    ensures Trimmed(ref)
  {
    StripTrims(ref);
    hide Strip, Trimmed;
    var raw := Strip(ref);
    if raw != "" && ref != raw {
      Prefixed(raw);
    }
  }

  // A reference that was given a prefix ends as it did before.
  lemma Prefixed(raw: string)
    requires raw != "" && Trimmed(raw)
    ensures Trimmed("docker.io/library/" + raw) && Trimmed("docker.io/" + raw)
  {
    assert ("docker.io/" + raw)[0] == 'd' && ("docker.io/library/" + raw)[0] == 'd';
    assert ("docker.io/" + raw)[|"docker.io/" + raw| - 1] == raw[|raw| - 1];
    assert ("docker.io/library/" + raw)[|"docker.io/library/" + raw| - 1] == raw[|raw| - 1];
  }

  // _filter_seed_image_groups
  function Kept(images: seq<Image>, keep: set<string>): seq<Image> {
    if images == [] then []
    else
      var last := images[|images| - 1];
      Kept(images[..|images| - 1], keep) + (if last.ref in keep then [last] else [])
  }

  function Filter(groups: Groups, keep: set<string>): Groups {
    Groups(Kept(groups.bootstrap, keep), Kept(groups.core, keep), Kept(groups.edge, keep))
  }

  lemma {:induction false} KeptIs(images: seq<Image>, keep: set<string>)
    ensures forall x :: x in Kept(images, keep) <==> x in images && x.ref in keep
  {
    if images != [] {
      var n := |images| - 1;
      KeptIs(images[..n], keep);
      assert images == images[..n] + [images[n]];
    }
  }

  lemma FilterIs(groups: Groups, keep: set<string>)
    ensures forall x :: x in Filter(groups, keep).All() <==> x in groups.All() && x.ref in keep
  {
    KeptIs(groups.bootstrap, keep);
    KeptIs(groups.core, keep);
    KeptIs(groups.edge, keep);
  }

  // The manifest that is written for the groups
  function ManifestOf(groups: Groups): Groups {
    Groups(Merged(groups.bootstrap), Merged(groups.core), Merged(groups.edge))
  }

  // _required_seed_images
  function Required(groups: Groups): seq<Image> {
    Merged(groups.All())
  }

  // The images a list names, as a dictionary; a later entry wins.
  function Index(images: seq<Image>): (m: map<string, Image>)
    ensures forall r :: r in m ==> m[r].ref == r && m[r] in images
    ensures forall i :: 0 <= i < |images| ==> images[i].ref in m
  {
    if images == [] then map[]
    else
      var n := |images| - 1;
      assert forall i :: 0 <= i < n ==> images[..n][i] == images[i];
      Index(images[..n])[images[n].ref := images[n]]
  }

  function Lookup(expected: map<string, Image>, image: Image): Image {
    if image.ref in expected then expected[image.ref] else image
  }

  function Resolve(expected: map<string, Image>, images: seq<Image>): (r: seq<Image>)
    ensures |r| == |images| && forall i :: 0 <= i < |images| ==> r[i] == Lookup(expected, images[i])
  {
    seq(|images|, i requires 0 <= i < |images| => Lookup(expected, images[i]))
  }

  function ResolveGroups(expected: map<string, Image>, groups: Groups): Groups {
    Groups(Resolve(expected, groups.bootstrap), Resolve(expected, groups.core), Resolve(expected, groups.edge))
  }

  // A dictionary of normal images under their own references.
  ghost predicate Keyed(expected: map<string, Image>) {
    forall r :: r in expected ==> expected[r].ref == r && Normal(expected[r])
  }

  lemma IndexIsKeyed(images: seq<Image>)
    ensures Keyed(Index(Merged(images)))
    ensures forall r :: r in Index(Merged(images)) <==> r in Refs(images)
  {
    MergedFacts(images);
    hide Normal, Merged, Refs;
    IndexNames(Merged(images));
  }

  lemma IndexNames(items: seq<Image>)
    requires AllNormal(items)
    ensures Keyed(Index(items))
    ensures forall r :: r in Index(items) <==> HasRef(items, r)
  {
    hide Normal;
    forall r | r in Index(items)
      ensures Normal(Index(items)[r]) && HasRef(items, r)
    {
      var i :| 0 <= i < |items| && items[i] == Index(items)[r];
      assert items[i].ref == r;
    }
    forall r | HasRef(items, r)
      ensures r in Index(items)
    {
      var i :| 0 <= i < |items| && items[i].ref == r;
    }
  }

  // No entry of the list would be changed by the dictionary.
  ghost predicate Settled(expected: map<string, Image>, images: seq<Image>) {
    forall i :: 0 <= i < |images| ==> Lookup(expected, images[i]) == images[i]
  }

  // Merging a list of looked-up images gives looked-up images.
  lemma MergedIsSettled(expected: map<string, Image>, images: seq<Image>)
    requires Keyed(expected) && AllNormal(images) && Settled(expected, images)
    ensures Settled(expected, Merged(images))
  {
    MergedFacts(images);
    RefsAreNormal(images);
    forall i | 0 <= i < |Merged(images)|
      ensures Lookup(expected, Merged(images)[i]) == Merged(images)[i]
    {
      MergedEntryIsSettled(expected, images, i);
    }
  }

  lemma MergedEntryIsSettled(expected: map<string, Image>, images: seq<Image>, i: nat)
    requires Keyed(expected) && AllNormal(images) && Settled(expected, images) && i < |Merged(images)|
    ensures Lookup(expected, Merged(images)[i]) == Merged(images)[i]
  {
    var r := Merged(images)[i].ref;
    if r in expected {
      MergedEntry(images, i);
      FirstKnownIsFirst(images, r);
      hide NormalizeRef, NormalizeId, Merged, FirstKnown;
      if FirstKnown(images, r).Some? {
        var k :| 0 <= k < |images| && IsFirstKnown(images, r, k);
        assert Normal(images[k]) && images[k].ref == r;
      } else {
        var k :| 0 <= k < |images| && NormalizeRef(images[k].ref) == r;
        assert Normal(images[k]) && images[k].ref == r;
        assert NormalizeId(images[k].expected).None?;
      }
    }
  }

  lemma MergedEntry(images: seq<Image>, i: nat)
    requires i < |Merged(images)|
    ensures Merged(images)[i].expected == FirstKnown(images, Merged(images)[i].ref)
    ensures Mentions(images, Merged(images)[i].ref)
  {
    DistinctIsDistinct(Refs(images));
    RefsAreNormal(images);
    assert Distinct(Refs(images))[i] in Distinct(Refs(images));
  }

  // Importing a bundle

  // The guest after an import: every bundled reference has the identifier the bundle promises, if it promises
  // one, and nothing else has changed.
  ghost predicate Imported(bundled: seq<Image>, before: Guest, after: Guest) {
    && (forall r :: r in after <==> r in before || r in Refs(bundled))
    && (forall r :: r in before && r !in Refs(bundled) ==> after[r] == before[r])
    && (forall i :: 0 <= i < |Merged(bundled)| && Merged(bundled)[i].expected.Some? && Merged(bundled)[i].ref in after
          ==> NormalizeId(after[Merged(bundled)[i].ref]) == Merged(bundled)[i].expected)
  }

  lemma BundledIsFresh(expected: map<string, Image>, image: Image, bundled: seq<Image>, before: Guest, after: Guest)
    requires Imported(bundled, before, after) && image.ref in Refs(bundled)
    ensures FreshIn(Lookup(expected + Index(Merged(bundled)), image), after)
  {
    IndexIsKeyed(bundled);
    var items := Merged(bundled);
    var built := Index(items)[image.ref];
    var i :| 0 <= i < |items| && items[i] == built;
    MergedFacts(bundled);
    hide NormalizeRef, Merged, Refs;
    assert Normal(items[i]);
  }

  // An image outside the bundle is as fresh as it was, if it was not lost on the way.
  lemma UnbundledStaysAsItWas(expected: map<string, Image>, image: Image, bundled: seq<Image>, before: Guest, after: Guest)
    requires Imported(bundled, before, after) && image.ref !in Refs(bundled)
    requires Lookup(expected, image) == image
    ensures Lookup(expected + Index(Merged(bundled)), image) == image
    ensures FreshIn(image, after) <==> FreshIn(image, before)
  {
    IndexIsKeyed(bundled);
    hide NormalizeRef, NormalizeId, Merged, Refs;
  }

  // A bundle of every required reference makes the guest ready, whatever it held before.
  lemma FullImportRefreshes(expected: map<string, Image>, required: seq<Image>, bundled: seq<Image>,
                            before: Guest, after: Guest)
    requires Imported(bundled, before, after)
    requires forall i :: 0 <= i < |required| ==> required[i].ref in Refs(bundled)
    ensures AllFresh(Resolve(expected + Index(Merged(bundled)), required), after)
  {
    hide *;
    forall i | 0 <= i < |required|
      ensures FreshIn(Resolve(expected + Index(Merged(bundled)), required)[i], after)
    {
      BundledIsFresh(expected, required[i], bundled, before, after);
    }
    FreshOneByOne(Resolve(expected + Index(Merged(bundled)), required), after);
  }

  lemma FreshOneByOne(images: seq<Image>, guest: Guest)
    requires forall i :: 0 <= i < |images| ==> FreshIn(images[i], guest)
    ensures AllFresh(images, guest)
  {
    hide FreshIn;
  }

  // The clean-up may lose images but changes none.
  ghost predicate Swept(before: Guest, after: Guest) {
    forall r :: r in after ==> r in before && after[r] == before[r]
  }

  // A fresh image of the list was lost.
  ghost predicate Lost(images: seq<Image>, before: Guest, after: Guest) {
    exists i :: 0 <= i < |images| && FreshIn(images[i], before) && images[i].ref !in after
  }

  lemma FreshAfterSweep(image: Image, before: Guest, after: Guest)
    requires Swept(before, after)
    ensures FreshIn(image, after) <==> FreshIn(image, before) && image.ref in after
  {
    hide NormalizeId;
  }

  // A bundle of the stale and missing references makes the guest ready unless a fresh one was lost on the way.
  lemma PartialImportRefreshes(expected: map<string, Image>, required: seq<Image>, bundled: seq<Image>,
                               first: Guest, before: Guest, after: Guest)
    requires Swept(first, before) && Imported(bundled, before, after) && Settled(expected, required)
    requires forall i :: 0 <= i < |required| ==> (required[i].ref in Refs(bundled) <==> !FreshIn(required[i], first))
    ensures AllFresh(Resolve(expected + Index(Merged(bundled)), required), after) <==> !Lost(required, first, before)
  {
    hide FreshIn, Refs, Merged, Imported, Swept, Lookup;
    var now := Resolve(expected + Index(Merged(bundled)), required);
    forall i | 0 <= i < |required|
      ensures FreshIn(now[i], after) <==> !(FreshIn(required[i], first) && required[i].ref !in before)
    {
      if required[i].ref in Refs(bundled) {
        BundledIsFresh(expected, required[i], bundled, before, after);
      } else {
        UnbundledStaysAsItWas(expected, required[i], bundled, before, after);
        FreshAfterSweep(required[i], first, before);
      }
    }
  }

  // What a manifest covers

  lemma {:induction false} RefsOfConcat(a: seq<Image>, b: seq<Image>, r: string)
    ensures r in Refs(a + b) <==> r in Refs(a) || r in Refs(b)
  {
    hide NormalizeRef, NormalizeId, FirstKnown;
    if b == [] {
      assert a + b == a;
    } else {
      var n := |b| - 1;
      RefsOfConcat(a, b[..n], r);
      assert a + b == (a + b[..n]) + [b[n]];
      Snoc(a + b[..n], b[n]);
      assert b == b[..n] + [b[n]];
      Snoc(b[..n], b[n]);
      hide Refs;
    }
  }

  lemma RefsOfAll(groups: Groups, r: string)
    ensures r in Refs(groups.All()) <==> r in Refs(groups.bootstrap) || r in Refs(groups.core) || r in Refs(groups.edge)
  {
    hide Refs;
    RefsOfConcat(groups.bootstrap + groups.core, groups.edge, r);
    RefsOfConcat(groups.bootstrap, groups.core, r);
  }

  lemma NormalRefs(images: seq<Image>, r: string)
    requires AllNormal(images)
    ensures r in Refs(images) <==> HasRef(images, r)
  {
    hide NormalizeRef, Refs;
    RefsOfNormal(images);
    if HasRef(images, r) {
      var i :| 0 <= i < |images| && images[i].ref == r;
      assert Refs(images)[i] == r;
    }
  }

  lemma MergedCovers(images: seq<Image>, r: string)
    ensures r in Refs(Merged(images)) <==> r in Refs(images)
  {
    hide Refs, Merged, Normal, HasRef;
    MergedFacts(images);
    NormalRefs(Merged(images), r);
  }

  // The manifest of the groups names the references that the groups name.
  lemma ManifestCovers(groups: Groups, r: string)
    ensures r in Refs(ManifestOf(groups).All()) <==> r in Refs(groups.All())
  {
    hide Refs, Merged;
    RefsOfAll(ManifestOf(groups), r);
    RefsOfAll(groups, r);
    MergedCovers(groups.bootstrap, r);
    MergedCovers(groups.core, r);
    MergedCovers(groups.edge, r);
  }

  lemma FilteredRefs(groups: Groups, keep: set<string>, r: string)
    requires AllNormal(groups.All())
    ensures r in Refs(Filter(groups, keep).All()) <==> r in Refs(groups.All()) && r in keep
  {
    hide Refs, Filter, Normal;
    FilterIs(groups, keep);
    var all, kept := groups.All(), Filter(groups, keep).All();
    assert AllNormal(kept) by {
      forall i | 0 <= i < |kept|
        ensures Normal(kept[i])
      {
        assert kept[i] in kept;
        var j :| 0 <= j < |all| && all[j] == kept[i];
      }
    }
    NormalRefs(all, r);
    NormalRefs(kept, r);
    SameRefs(all, kept, keep, r);
  }

  lemma SameRefs(all: seq<Image>, kept: seq<Image>, keep: set<string>, r: string)
    requires forall x :: x in kept <==> x in all && x.ref in keep
    ensures HasRef(kept, r) <==> HasRef(all, r) && r in keep
  {
    if HasRef(kept, r) {
      var i :| 0 <= i < |kept| && kept[i].ref == r;
      assert kept[i] in kept;
      var j :| 0 <= j < |all| && all[j] == kept[i];
    }
    if HasRef(all, r) && r in keep {
      var j :| 0 <= j < |all| && all[j].ref == r;
      assert all[j] in kept;
    }
  }

  // What the metadata run leaves behind: groups, requirements and expectations that agree.
  ghost predicate Prepared(groups: Groups, required: seq<Image>, expected: map<string, Image>) {
    && AllNormal(groups.All())
    && required == Required(groups)
    && AllNormal(required) && DistinctRefs(required)
    && Keyed(expected)
    && Settled(expected, required)
  }

  lemma ResolvedIsNormal(expected: map<string, Image>, images: seq<Image>)
    requires Keyed(expected) && AllNormal(images)
    ensures AllNormal(Resolve(expected, images)) && Settled(expected, Resolve(expected, images))
  {
    hide Normal;
  }

  lemma ResolvedRefs(expected: map<string, Image>, images: seq<Image>, r: string)
    requires Keyed(expected) && AllNormal(images)
    ensures r in Refs(Resolve(expected, images)) <==> r in Refs(images)
  {
    hide Normal, Refs;
    ResolvedIsNormal(expected, images);
    NormalRefs(images, r);
    NormalRefs(Resolve(expected, images), r);
    var now := Resolve(expected, images);
    assert forall i :: 0 <= i < |now| ==> now[i].ref == images[i].ref;
  }

  lemma ResolvedGroups(expected: map<string, Image>, groups: Groups)
    requires Keyed(expected) && AllNormal(groups.All())
    ensures ResolveGroups(expected, groups).All() == Resolve(expected, groups.All())
  {
    hide Normal;
  }

  // The groups after the metadata run are prepared, and name the references that they named before.
  lemma PreparedGroups(expected: map<string, Image>, groups: Groups)
    requires Keyed(expected) && AllNormal(groups.All())
    ensures var now := ResolveGroups(expected, groups); Prepared(now, Required(now), expected)
    ensures forall r :: HasRef(Required(ResolveGroups(expected, groups)), r) <==> r in Refs(groups.All())
  {
    hide Normal, Refs, Merged, HasRef, Resolve;
    var now := Resolve(expected, groups.All());
    ResolvedGroups(expected, groups);
    ResolvedIsNormal(expected, groups.All());
    MergedIsSettled(expected, now);
    MergedFacts(now);
    forall r
      ensures HasRef(Merged(now), r) <==> r in Refs(groups.All())
    {
      ResolvedRefs(expected, groups.All(), r);
    }
  }

  // The groups that the run starts from: the seed manifest's bootstrap images and the workload's images.
  lemma StartingGroups(bootstrap: seq<Image>, core: seq<Image>)
    ensures AllNormal(Groups(Merged(bootstrap), Merged(core), []).All())
    ensures forall r :: r in Refs(Groups(Merged(bootstrap), Merged(core), []).All()) <==> r in Refs(bootstrap) || r in Refs(core)
  {
    MergedFacts(bootstrap);
    MergedFacts(core);
    assert forall r :: r !in Refs([]);
    hide Normal, Refs, Merged, HasRef, NormalizeRef;
    forall r
      ensures r in Refs(Groups(Merged(bootstrap), Merged(core), []).All()) <==> r in Refs(bootstrap) || r in Refs(core)
    {
      RefsOfAll(Groups(Merged(bootstrap), Merged(core), []), r);
      MergedCovers(bootstrap, r);
      MergedCovers(core, r);
    }
  }

  function Names(refs: seq<string>): (names: set<string>)
    ensures forall r :: r in names <==> r in refs
  {
    set r | r in refs
  }

  // The references in the first bundle's manifest
  function Needed(required: seq<Image>, guest: Guest): set<string> {
    var states := States(RefsOf(required), guest);
    Names(Select(required, states, Missing)) + Names(Select(required, states, Stale))
  }

  // A bundle that names what its manifest names
  ghost predicate Covers(bundled: seq<Image>, manifest: Groups) {
    forall r :: r in Refs(bundled) <==> r in Refs(manifest.All())
  }

  lemma RequiredIsNamed(groups: Groups, i: nat)
    requires i < |Required(groups)|
    ensures Required(groups)[i].ref in Refs(groups.All())
  {
    MergedFacts(groups.All());
    hide Merged, Refs, Normal;
    assert HasRef(Required(groups), Required(groups)[i].ref);
  }

  // The first bundle holds exactly the required references that are missing or stale.
  lemma FirstBundleIsNeeded(groups: Groups, required: seq<Image>, expected: map<string, Image>, guest: Guest,
                            bundled: seq<Image>)
    requires Prepared(groups, required, expected)
    requires Covers(bundled, ManifestOf(Filter(groups, Needed(required, guest))))
    ensures forall i :: 0 <= i < |required| ==> (required[i].ref in Refs(bundled) <==> !FreshIn(required[i], guest))
    ensures forall r :: r in Refs(bundled) ==> HasRef(required, r)
  {
    hide Refs, Merged, Normal, FreshIn, Filter, ManifestOf, Select, HasRef, States;
    var keep := Needed(required, guest);
    forall i | 0 <= i < |required|
      ensures required[i].ref in Refs(bundled) <==> !FreshIn(required[i], guest)
    {
      var r := required[i].ref;
      ManifestCovers(Filter(groups, keep), r);
      FilteredRefs(groups, keep, r);
      RequiredIsNamed(groups, i);
      NeededExactly(required, guest, i);
    }
    forall r | r in Refs(bundled)
      ensures HasRef(required, r)
    {
      ManifestCovers(Filter(groups, keep), r);
      FilteredRefs(groups, keep, r);
      MergedFacts(groups.All());
    }
  }

  lemma FullBundleIsRequired(groups: Groups, required: seq<Image>, bundled: seq<Image>)
    requires required == Required(groups) && Covers(bundled, ManifestOf(groups))
    ensures forall i :: 0 <= i < |required| ==> required[i].ref in Refs(bundled)
  {
    hide Refs, Merged, ManifestOf;
    forall i | 0 <= i < |required|
      ensures required[i].ref in Refs(bundled)
    {
      ManifestCovers(groups, required[i].ref);
      RequiredIsNamed(groups, i);
    }
  }

  lemma NothingIsObsolete(required: seq<Image>, guest: Guest)
    requires AllNormal(required)
    ensures forall r :: r in States(RefsOf(required), guest) ==> r in RefsOf(required)
  {
    forall r | r in States(RefsOf(required), guest)
      ensures r in RefsOf(required)
    {
      var refs := RefsOf(required);
      var i :| 0 <= i < |refs| && Strip(refs[i]) != "" && NormalizeRef(refs[i]) == r;
      hide NormalizeRef, Strip;
      assert Normal(required[i]) && refs[i] == r;
    }
  }

  // Nothing is selected for refreshing just when all is fresh.
  lemma NothingNeeded(required: seq<Image>, guest: Guest)
    requires AllNormal(required) && DistinctRefs(required)
    ensures AllFresh(required, guest)
       <==> var states := States(RefsOf(required), guest);
            Select(required, states, Missing) == [] && Select(required, states, Stale) == []
  {
    hide Normal, FreshIn, Select, States, HasRef;
    var states := States(RefsOf(required), guest);
    forall i | 0 <= i < |required|
      ensures required[i].ref in Select(required, states, Missing) || required[i].ref in Select(required, states, Stale)
         <==> !FreshIn(required[i], guest)
    {
      NeededExactly(required, guest, i);
    }
    if Select(required, states, Missing) != [] {
      var r := Select(required, states, Missing)[0];
      NeededIsStale(required, guest, Missing, r);
    }
    if Select(required, states, Stale) != [] {
      var r := Select(required, states, Stale)[0];
      NeededIsStale(required, guest, Stale, r);
    }
  }

  lemma NeededIsStale(required: seq<Image>, guest: Guest, standing: Standing, r: string)
    requires AllNormal(required) && standing != Fresh && r in Select(required, States(RefsOf(required), guest), standing)
    ensures !AllFresh(required, guest)
  {
    var states := States(RefsOf(required), guest);
    Selected(required, states, standing, r);
    hide Normal, FreshIn, Select, States, StandingOf;
    var i :| 0 <= i < |required| && required[i].ref == r && StandingOf(required[i], states) == standing;
    StandingIsFresh(required, guest, i);
  }

  // The references to refresh, as the run collects them
  lemma CollectedAreNeeded(required: seq<Image>, guest: Guest)
    requires AllNormal(required)
    ensures var states := States(RefsOf(required), guest);
      var refresh := OrderedUnique(Select(required, states, Missing) + Select(required, states, Stale));
      Names(refresh) == Needed(required, guest) == Names(Select(required, states, Missing)) + Names(Select(required, states, Stale))
  {
    hide Select, States, OrderedUnique;
    var states := States(RefsOf(required), guest);
    var both := Select(required, states, Missing) + Select(required, states, Stale);
    forall i | 0 <= i < |both|
      ensures both[i] != "" && Trimmed(both[i])
    {
      if i < |Select(required, states, Missing)| {
        SelectedIsTrimmed(required, states, Missing, both[i]);
      } else {
        SelectedIsTrimmed(required, states, Stale, both[i]);
      }
    }
    forall r
      ensures r in OrderedUnique(both) <==> r in both
    {
      OrderedUniqueHas(both, r);
    }
  }

  lemma SelectedIsTrimmed(required: seq<Image>, states: map<string, ImageState>, standing: Standing, r: string)
    requires AllNormal(required) && r in Select(required, states, standing)
    ensures r != "" && Trimmed(r)
  {
    hide Select, States, NormalizeRef, NormalizeId, Trimmed;
    NeededAreRequired(required, states, standing, r);
    var i :| 0 <= i < |required| && required[i].ref == r;
    assert Normal(required[i]);
    NormalIsTrimmed(r);
  }

  lemma CollectedIsEmpty(missing: seq<string>, stale: seq<string>, refresh: seq<string>)
    requires Names(refresh) == Names(missing) + Names(stale)
    ensures refresh == [] <==> missing == [] && stale == []
  {
    if missing + stale != [] {
      var r := (missing + stale)[0];
      assert r in Names(refresh);
    }
    if refresh != [] {
      assert refresh[0] in Names(refresh);
    }
  }

  predicate SameNames(a: seq<Image>, b: seq<Image>) {
    |a| == |b| && forall i :: 0 <= i < |a| ==> a[i].ref == b[i].ref
  }

  lemma ResolvedNames(expected: map<string, Image>, images: seq<Image>)
    requires Keyed(expected)
    ensures SameNames(Resolve(expected, images), images)
  {
    hide Normal;
  }

  lemma SameNamesSameRefs(a: seq<Image>, b: seq<Image>)
    requires SameNames(a, b)
    ensures forall r :: HasRef(a, r) <==> HasRef(b, r)
  {
    forall r
      ensures HasRef(a, r) <==> HasRef(b, r)
    {
      if HasRef(a, r) {
        var i :| 0 <= i < |a| && a[i].ref == r;
        assert b[i].ref == r;
      }
      if HasRef(b, r) {
        var i :| 0 <= i < |b| && b[i].ref == r;
        assert a[i].ref == r;
      }
    }
  }

  lemma MoreKeyed(expected: map<string, Image>, bundled: seq<Image>)
    requires Keyed(expected)
    ensures Keyed(expected + Index(Merged(bundled)))
  {
    IndexIsKeyed(bundled);
    hide Normal, Merged, Index;
  }

  // A full bundle holds every required reference, another one exactly those that are not fresh; neither holds any other.
  ghost predicate Holds(bundled: seq<Image>, first: seq<Image>, before: Guest, full: bool) {
    && (forall i :: 0 <= i < |first| ==> (first[i].ref in Refs(bundled) <==> full || !FreshIn(first[i], before)))
    && (forall r :: r in Refs(bundled) ==> HasRef(first, r))
  }

  lemma FullBundleHolds(groups: Groups, first: seq<Image>, before: Guest, bundled: seq<Image>)
    requires first == Required(groups) && Covers(bundled, ManifestOf(groups))
    ensures Holds(bundled, first, before, true)
  {
    FullBundleIsRequired(groups, first, bundled);
    hide Refs, Merged, ManifestOf, FreshIn, HasRef, Normal;
    forall r | r in Refs(bundled)
      ensures HasRef(first, r)
    {
      ManifestCovers(groups, r);
      MergedFacts(groups.All());
    }
  }

  lemma FirstBundleHolds(groups: Groups, first: seq<Image>, expected: map<string, Image>, before: Guest, bundled: seq<Image>)
    requires Prepared(groups, first, expected)
    requires Covers(bundled, ManifestOf(Filter(groups, Needed(first, before))))
    ensures Holds(bundled, first, before, false)
  {
    hide Prepared, Covers, Refs, FreshIn, HasRef, Filter, ManifestOf, Needed;
    FirstBundleIsNeeded(groups, first, expected, before, bundled);
  }

  // Importing the bundle, into a guest that may have lost images since it was first inspected, leaves every
  // requirement met; a bundle that is not full does so exactly when no fresh image was lost.
  ghost predicate Achieves(required: seq<Image>, bundled: seq<Image>, first: seq<Image>, before: Guest, full: bool) {
    forall kept: Guest, after: Guest :: Swept(before, kept) && Imported(bundled, kept, after)
      ==> (AllFresh(required, after) <==> full || !Lost(first, before, kept))
  }

  lemma FirstBundleAchieves(groups: Groups, first: seq<Image>, expected: map<string, Image>, before: Guest, bundled: seq<Image>)
    requires Prepared(groups, first, expected)
    requires Covers(bundled, ManifestOf(Filter(groups, Needed(first, before))))
    ensures Achieves(Resolve(expected + Index(Merged(bundled)), first), bundled, first, before, false)
  {
    FirstBundleIsNeeded(groups, first, expected, before, bundled);
    assert Settled(expected, first);
    hide *;
    forall kept: Guest, after: Guest | Swept(before, kept) && Imported(bundled, kept, after)
      ensures AllFresh(Resolve(expected + Index(Merged(bundled)), first), after) <==> !Lost(first, before, kept)
    {
      PartialImportRefreshes(expected, first, bundled, before, kept, after);
    }
    AchievesPartly(Resolve(expected + Index(Merged(bundled)), first), bundled, first, before);
  }

  lemma AchievesPartly(required: seq<Image>, bundled: seq<Image>, first: seq<Image>, before: Guest)
    requires forall kept: Guest, after: Guest :: Swept(before, kept) && Imported(bundled, kept, after)
               ==> (AllFresh(required, after) <==> !Lost(first, before, kept))
    ensures Achieves(required, bundled, first, before, false)
  {
    hide Swept, Imported, AllFresh, Lost;
  }

  lemma FullBundleAchieves(groups: Groups, first: seq<Image>, expected: map<string, Image>, required: seq<Image>,
                           before: Guest, bundled: seq<Image>)
    requires first == Required(groups) && SameNames(required, first)
    requires Covers(bundled, ManifestOf(groups))
    ensures Achieves(Resolve(expected + Index(Merged(bundled)), required), bundled, first, before, true)
  {
    FullBundleIsRequired(groups, first, bundled);
    assert forall i :: 0 <= i < |required| ==> required[i].ref == first[i].ref;
    hide *;
    forall kept: Guest, after: Guest | Swept(before, kept) && Imported(bundled, kept, after)
      ensures AllFresh(Resolve(expected + Index(Merged(bundled)), required), after)
    {
      FullImportRefreshes(expected, required, bundled, kept, after);
    }
    AchievesFully(Resolve(expected + Index(Merged(bundled)), required), bundled, first, before);
  }

  lemma AchievesFully(required: seq<Image>, bundled: seq<Image>, first: seq<Image>, before: Guest)
    requires forall kept: Guest, after: Guest :: Swept(before, kept) && Imported(bundled, kept, after)
               ==> AllFresh(required, after)
    ensures Achieves(required, bundled, first, before, true)
  {
    hide Swept, Imported, AllFresh, Lost;
  }

  // Removing only what is stale loses no fresh image.
  lemma StaleIsNotFresh(first: seq<Image>, before: Guest, after: Guest)
    requires AllNormal(first) && DistinctRefs(first)
    requires forall r :: r in before && r !in OrderedUnique(Select(first, States(RefsOf(first), before), Stale)) ==> r in after
    ensures !Lost(first, before, after)
  {
    hide Select, States, OrderedUnique, Normal, FreshIn;
    var states := States(RefsOf(first), before);
    var stale := Select(first, states, Stale);
    forall i | 0 <= i < |stale|
      ensures stale[i] != "" && Trimmed(stale[i])
    {
      SelectedIsTrimmed(first, states, Stale, stale[i]);
    }
    forall i | 0 <= i < |first| && FreshIn(first[i], before)
      ensures first[i].ref in after
    {
      NeededExactly(first, before, i);
      OrderedUniqueHas(stale, first[i].ref);
      FreshIsPresent(first[i], before);
    }
  }

  lemma FreshIsPresent(image: Image, guest: Guest)
    requires FreshIn(image, guest)
    ensures image.ref in guest
  {
  }
}
