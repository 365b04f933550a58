/**
  Image references, image identifiers and seed lists of scripts/dev/f0n_nvidia_validate.py.
 */
module ImageRefs {
  import opened Options
  import opened Sequences
  import opened Text

  // References

  // The part before the first occurrence of c, or all of s.
  function Before(s: string, c: char): string {
    if s == "" || s[0] == c then "" else [s[0]] + Before(s[1..], c)
  }

  function CountChar(s: string, c: char): nat {
    if s == "" then 0 else (if s[0] == c then 1 else 0) + CountChar(s[1..], c)
  }

  // _normalize_image_ref
  function NormalizeRef(image: string): string {
    var raw := Strip(image);
    if raw == "" then raw
    else if '/' !in raw then "docker.io/library/" + raw
    else
      var host := Before(raw, '/');
      if '.' in host || ':' in host then raw
      else if CountChar(raw, '/') == 1 then "docker.io/" + raw
      else raw
  }

  lemma {:induction false} BeforeSplit(head: string, c: char, tail: string)
    requires c !in head
    ensures Before(head + [c] + tail, c) == head
  {
    var s := head + [c] + tail;
    if head != "" {
      assert s[1..] == head[1..] + [c] + tail;
      BeforeSplit(head[1..], c, tail);
    }
  }

  // A reference that names a registry host with a dot, trimmed, is left alone.
  lemma PrefixedIsNormal(tail: string)
    requires tail != "" && !IsSpace(tail[|tail| - 1])
    ensures NormalizeRef("docker.io/" + tail) == "docker.io/" + tail
  {
    var raw := "docker.io/" + tail;
    assert raw[0] == 'd' && raw[|raw| - 1] == tail[|tail| - 1];
    StripTrims(raw);
    assert raw == "docker.io" + ['/'] + tail;
    BeforeSplit("docker.io", '/', tail);
    assert raw[9] == '/';
    assert "docker.io"[6] == '.';
  }

  lemma NormalizeRefIdempotent(image: string)
    ensures NormalizeRef(NormalizeRef(image)) == NormalizeRef(image)
  {
    var raw := Strip(image);
    StripTrims(image);
    StripTrims(raw);
    if raw != "" {
      if '/' !in raw {
        assert "docker.io/library/" + raw == "docker.io/" + ("library/" + raw);
        PrefixedIsNormal("library/" + raw);
      } else {
        PrefixedIsNormal(raw);
      }
    }
  }

  lemma {:induction false} NoneOf(s: string, c: char)
    ensures CountChar(s, c) == 0 <==> c !in s
  {
    if s != "" {
      NoneOf(s[1..], c);
      assert s == [s[0]] + s[1..];
    }
  }

  lemma {:induction false} CountAfter(head: string, c: char, tail: string)
    requires c !in head
    ensures CountChar(head + [c] + tail, c) == 1 + CountChar(tail, c)
  {
    var s := head + [c] + tail;
    if head == "" {
      assert s[1..] == tail;
    } else {
      assert s[1..] == head[1..] + [c] + tail;
      CountAfter(head[1..], c, tail);
    }
  }

  // A name without a slash is one of Docker's official images.
  lemma PlainNameReads(name: string)
    requires Trimmed(name) && name != "" && '/' !in name
    ensures NormalizeRef(name) == "docker.io/library/" + name
  {
    StripTrims(name);
  }

  // Of a first part and the rest: a first part with a dot or a colon is a registry; without one, two parts are an
  // account's image on Docker's registry, and more than two are left alone.
  lemma PartsRead(host: string, rest: string)
    requires '/' !in host && Trimmed(host + "/" + rest)
    ensures NormalizeRef(host + "/" + rest) ==
              if '.' in host || ':' in host || '/' in rest then host + "/" + rest else "docker.io/" + host + "/" + rest
  {
    var raw := host + "/" + rest;
    StripTrims(raw);
    assert raw == host + ['/'] + rest && raw[|host|] == '/';
    BeforeSplit(host, '/', rest);
    CountAfter(host, '/', rest);
    NoneOf(rest, '/');
    assert "docker.io/" + raw == "docker.io/" + host + "/" + rest;
  }

  // Identifiers

  predicate IsHex64(s: string) {
    |s| == 64 && forall i :: 0 <= i < |s| ==> '0' <= s[i] <= '9' || 'a' <= s[i] <= 'f'
  }

  const SHA256 := "sha256:"

  // _normalize_image_id, with ASCII case folding
  function NormalizeId(id: Option<string>): Option<string> {
    var value := Strip(if id.Some? then id.value else "");
    var lowered := Lower(value);
    if value == "" then None
    else if |lowered| == 71 && lowered[..7] == SHA256 && IsHex64(lowered[7..]) then Some(lowered)
    else if IsHex64(lowered) then Some(SHA256 + lowered)
    else None
  }

  // "sha256:" and 64 lower-case hexadecimal digits
  predicate IsNormalId(v: string) {
    |v| == 71 && v[..7] == SHA256 && IsHex64(v[7..])
  }

  lemma NormalIdIsLower(v: string)
    requires IsNormalId(v)
    ensures Lower(v) == v
    ensures Trimmed(v)
  {
    assert v[0] == v[..7][0] && v[70] == v[7..][63];
    forall i | 0 <= i < |v|
      ensures LowerChar(v[i]) == v[i]
    {
      if i < 7 {
        assert v[i] == v[..7][i] == SHA256[i];
      } else {
        assert v[i] == v[7..][i - 7];
      }
    }
  }

  lemma NormalIdStays(v: string)
    requires IsNormalId(v)
    ensures NormalizeId(Some(v)) == Some(v)
  {
    NormalIdIsLower(v);
    StripTrims(v);
    hide IsHex64, Lower, Trimmed, Strip;
  }

  lemma NormalizeIdIsNormal(id: Option<string>)
    ensures NormalizeId(id).Some? ==> IsNormalId(NormalizeId(id).value)
  {
    hide IsHex64, Lower, Strip;
    var lowered := Lower(Strip(if id.Some? then id.value else ""));
    if IsHex64(lowered) {
      HexLength(lowered);
      assert (SHA256 + lowered)[..7] == SHA256 && (SHA256 + lowered)[7..] == lowered;
    }
  }

  lemma HexLength(s: string)
    requires IsHex64(s)
    ensures |s| == 64
  {
  }

  // Sixty-four hexadecimal digits in either case, with or without the prefix, are an identifier.
  lemma HexIsId(digits: string)
    requires IsHex64(Lower(digits))
    ensures NormalizeId(Some(digits)) == Some("sha256:" + Lower(digits))
  {
    HexIsTrimmed(digits);
    StripTrims(digits);
    hide IsHex64, Strip;
  }

  lemma HexIsTrimmed(digits: string)
    requires IsHex64(Lower(digits))
    ensures Trimmed(digits) && |digits| == 64 && Lower(digits)[..7] != SHA256
  {
    var d := Lower(digits);
    assert d[0] == LowerChar(digits[0]) && d[63] == LowerChar(digits[63]);
    assert SHA256[0] == 's' && d[..7][0] == d[0] != 's';
  }

  lemma NoIdIsNormal()
    ensures NormalizeId(None).None?
  {
    StripTrims("");
  }

  lemma NormalizeIdIdempotent(id: Option<string>)
    ensures NormalizeId(NormalizeId(id)) == NormalizeId(id)
  {
    hide NormalizeId, IsNormalId;
    NoIdIsNormal();
    NormalizeIdIsNormal(id);
    if NormalizeId(id).Some? {
      NormalIdStays(NormalizeId(id).value);
    }
  }

  // Seed lists

  datatype Image = Image(ref: string, expected: Option<string>)

  function Refs(items: seq<Image>): seq<string> {
    if items == [] then []
    else
      var ref := NormalizeRef(items[|items| - 1].ref);
      Refs(items[..|items| - 1]) + (if ref == "" then [] else [ref])
  }

  // The first known identifier that the list gives for ref.
  function FirstKnown(items: seq<Image>, ref: string): Option<string> {
    if items == [] then None
    else
      var earlier, last := FirstKnown(items[..|items| - 1], ref), items[|items| - 1];
      if earlier.Some? then earlier else if NormalizeRef(last.ref) == ref then NormalizeId(last.expected) else None
  }

  function MergedImages(items: seq<Image>, refs: seq<string>): (r: seq<Image>)
    ensures |r| == |refs| && forall i :: 0 <= i < |refs| ==> r[i] == Image(refs[i], FirstKnown(items, refs[i]))
  {
    seq(|refs|, i requires 0 <= i < |refs| => Image(refs[i], FirstKnown(items, refs[i])))
  }

  // The value of _ordered_unique_seed_images.
  function Merged(items: seq<Image>): seq<Image> {
    MergedImages(items, Distinct(Refs(items)))
  }

  lemma {:induction false} RefsAreNormal(items: seq<Image>)
    ensures forall r :: r in Refs(items) ==> r != "" && NormalizeRef(r) == r
    ensures forall i :: 0 <= i < |items| && NormalizeRef(items[i].ref) != "" ==> NormalizeRef(items[i].ref) in Refs(items)
    ensures forall r :: r in Refs(items) ==> Mentions(items, r)
  {
    hide NormalizeRef;
    if items != [] {
      var n := |items| - 1;
      var ref := NormalizeRef(items[n].ref);
      RefsAreNormal(items[..n]);
      NormalizeRefIdempotent(items[n].ref);
      forall i | 0 <= i < |items| && NormalizeRef(items[i].ref) != ""
        ensures NormalizeRef(items[i].ref) in Refs(items)
      {
        if i < n {
          assert items[..n][i] == items[i];
          assert NormalizeRef(items[i].ref) in Refs(items[..n]);
        }
      }
      forall r | r in Refs(items)
        ensures r != "" && NormalizeRef(r) == r && Mentions(items, r)
      {
        if r in Refs(items[..n]) {
          MentionsMore(items, n, r);
        } else {
          assert r == ref && NormalizeRef(items[n].ref) == r;
        }
      }
    }
  }

  // Some entry of the list is about r.
  ghost predicate Mentions(items: seq<Image>, r: string) {
    exists i :: 0 <= i < |items| && NormalizeRef(items[i].ref) == r
  }

  lemma MentionsMore(items: seq<Image>, n: nat, r: string)
    requires n <= |items| && Mentions(items[..n], r)
    ensures Mentions(items, r)
  {
    hide NormalizeRef;
    var i :| 0 <= i < n && NormalizeRef(items[..n][i].ref) == r;
    assert items[i] == items[..n][i];
  }

  lemma {:induction false} FirstKnownIsFirst(items: seq<Image>, ref: string)
    ensures NormalizeId(FirstKnown(items, ref)) == FirstKnown(items, ref)
    ensures FirstKnown(items, ref).None? <==>
              forall i :: 0 <= i < |items| && NormalizeRef(items[i].ref) == ref ==> NormalizeId(items[i].expected).None?
    ensures FirstKnown(items, ref).Some? ==> exists i :: 0 <= i < |items| && IsFirstKnown(items, ref, i)
  {
    NoIdIsNormal();
    hide NormalizeRef, NormalizeId;
    if items != [] {
      var n := |items| - 1;
      FirstKnownIsFirst(items[..n], ref);
      NormalizeIdIdempotent(items[n].expected);
      assert forall i :: 0 <= i < n ==> items[..n][i] == items[i];
      if FirstKnown(items[..n], ref).Some? {
        var i :| 0 <= i < n && IsFirstKnown(items[..n], ref, i);
        assert IsFirstKnown(items, ref, i);
      } else if FirstKnown(items, ref).Some? {
        assert IsFirstKnown(items, ref, n);
      }
    }
  }

  // Entry i is the first one for ref that knows an identifier, and the list gives that identifier.
  ghost predicate IsFirstKnown(items: seq<Image>, ref: string, i: nat) {
    && i < |items|
    && NormalizeRef(items[i].ref) == ref
    && NormalizeId(items[i].expected).Some?
    && NormalizeId(items[i].expected) == FirstKnown(items, ref)
    && forall j :: 0 <= j < i && NormalizeRef(items[j].ref) == ref ==> NormalizeId(items[j].expected).None?
  }

  predicate DistinctRefs(items: seq<Image>) {
    forall i, j :: 0 <= i < j < |items| ==> items[i].ref != items[j].ref
  }

  predicate Normal(image: Image) {
    image.ref != "" && NormalizeRef(image.ref) == image.ref && NormalizeId(image.expected) == image.expected
  }

  predicate HasRef(items: seq<Image>, ref: string) {
    exists i :: 0 <= i < |items| && items[i].ref == ref
  }

  // The merged list has distinct, normalised references that cover exactly the non-empty
  // references of the input.
  lemma MergedFacts(items: seq<Image>)
    ensures DistinctRefs(Merged(items))
    ensures forall i :: 0 <= i < |Merged(items)| ==> Normal(Merged(items)[i])
    ensures forall r :: HasRef(Merged(items), r) <==> r in Refs(items)
  {
    var refs := Distinct(Refs(items));
    DistinctIsDistinct(Refs(items));
    RefsAreNormal(items);
    forall i | 0 <= i < |Merged(items)|
      ensures Normal(Merged(items)[i])
    {
      assert refs[i] in refs;
      FirstKnownIsFirst(items, refs[i]);
    }
    forall r
      ensures HasRef(Merged(items), r) <==> r in Refs(items)
    {
      if r in Refs(items) {
        assert r in refs;
        var i :| 0 <= i < |refs| && refs[i] == r;
        assert Merged(items)[i].ref == r;
      }
      if HasRef(Merged(items), r) {
        var i :| 0 <= i < |Merged(items)| && Merged(items)[i].ref == r;
        assert refs[i] in refs;
      }
    }
  }

  // They come in the order in which they first occur in the input.
  lemma MergedKeepsOrder(items: seq<Image>, i: nat, j: nat)
    requires i < j < |Merged(items)|
    ensures Merged(items)[i].ref in Refs(items) && Merged(items)[j].ref in Refs(items)
    ensures FirstIndex(Refs(items), Merged(items)[i].ref) < FirstIndex(Refs(items), Merged(items)[j].ref)
  {
    DistinctKeepsOrder(Refs(items), i, j);
  }

  lemma {:induction false} RefsOfNormal(items: seq<Image>)
    requires forall i :: 0 <= i < |items| ==> Normal(items[i])
    ensures |Refs(items)| == |items| && forall i :: 0 <= i < |items| ==> Refs(items)[i] == items[i].ref
  {
    hide NormalizeRef, NormalizeId;
    if items != [] {
      RefsOfNormal(items[..|items| - 1]);
    }
  }

  lemma {:induction false} FirstKnownOfDistinct(items: seq<Image>, i: nat)
    requires (forall k :: 0 <= k < |items| ==> Normal(items[k])) && DistinctRefs(items) && i < |items|
    ensures FirstKnown(items, items[i].ref) == items[i].expected
  {
    hide NormalizeRef, NormalizeId;
    var n := |items| - 1;
    if i < n {
      FirstKnownOfDistinct(items[..n], i);
      assert items[..n][i] == items[i];
      assert items[n].ref != items[i].ref;
    } else {
      AbsentIsUnknown(items[..n], items[i].ref);
    }
  }

  lemma {:induction false} AbsentIsUnknown(items: seq<Image>, ref: string)
    requires forall k :: 0 <= k < |items| ==> NormalizeRef(items[k].ref) != ref
    ensures FirstKnown(items, ref).None?
  {
    hide NormalizeRef, NormalizeId;
    if items != [] {
      AbsentIsUnknown(items[..|items| - 1], ref);
    }
  }

  // A list without duplicates or unnormalised entries is merged into itself.
  lemma MergedOfNormal(items: seq<Image>)
    requires (forall k :: 0 <= k < |items| ==> Normal(items[k])) && DistinctRefs(items)
    ensures Merged(items) == items
  {
    RefsOfNormal(items);
    DistinctOfDistinct(Refs(items));
    forall i | 0 <= i < |items|
      ensures Merged(items)[i] == items[i]
    {
      FirstKnownOfDistinct(items, i);
    }
  }

  lemma MergedIdempotent(items: seq<Image>)
    ensures Merged(Merged(items)) == Merged(items)
  {
    MergedFacts(items);
    MergedOfNormal(Merged(items));
  }

  lemma Snoc(items: seq<Image>, x: Image)
    ensures Refs(items + [x]) == Refs(items) + (if NormalizeRef(x.ref) == "" then [] else [NormalizeRef(x.ref)])
    ensures forall r :: FirstKnown(items + [x], r)
              == if FirstKnown(items, r).Some? then FirstKnown(items, r)
                 else if NormalizeRef(x.ref) == r then NormalizeId(x.expected) else None
  {
    assert (items + [x])[..|items|] == items;
  }

  lemma UnseenIsUnknown(items: seq<Image>, ref: string)
    requires ref !in Distinct(Refs(items)) && ref != ""
    ensures FirstKnown(items, ref).None?
  {
    DistinctIsDistinct(Refs(items));
    RefsAreNormal(items);
    AbsentIsUnknown(items, ref);
  }

  // What the loop of _ordered_unique_seed_images has gathered from the items seen so far.
  ghost predicate Gathered(seen: seq<Image>, merged: map<string, Image>, orderedRefs: seq<string>) {
    && orderedRefs == Distinct(Refs(seen))
    && (forall r :: r in merged <==> r in orderedRefs)
    && forall r :: r in merged ==> merged[r] == Image(r, FirstKnown(seen, r))
  }

  lemma GatherMore(seen: seq<Image>, merged: map<string, Image>, orderedRefs: seq<string>, x: Image)
    requires Gathered(seen, merged, orderedRefs)
    ensures var ref, current := NormalizeRef(x.ref), Image(NormalizeRef(x.ref), NormalizeId(x.expected));
      if ref == "" then Gathered(seen + [x], merged, orderedRefs)
      else if ref !in merged then Gathered(seen + [x], merged[ref := current], orderedRefs + [ref])
      else if merged[ref].expected.None? && current.expected.Some? then Gathered(seen + [x], merged[ref := current], orderedRefs)
      else Gathered(seen + [x], merged, orderedRefs)
  {
    Snoc(seen, x);
    RefsAreNormal(seen);
    DistinctIsDistinct(Refs(seen));
    hide NormalizeRef, NormalizeId, Refs, FirstKnown, Distinct;
    var ref := NormalizeRef(x.ref);
    assert Refs(seen) + [] == Refs(seen);
    if ref != "" {
      DistinctSnoc(Refs(seen), ref);
      if ref !in merged {
        UnseenIsUnknown(seen, ref);
      }
    }
  }

  lemma AllGathered(images: seq<Image>, merged: map<string, Image>, orderedRefs: seq<string>)
    requires Gathered(images, merged, orderedRefs)
    ensures |Merged(images)| == |orderedRefs|
    ensures forall k :: 0 <= k < |orderedRefs| ==>
              orderedRefs[k] in merged && merged[orderedRefs[k]] == Merged(images)[k]
  {
    assert forall k :: 0 <= k < |orderedRefs| ==> orderedRefs[k] in orderedRefs;
  }

  // One turn of the loop: the entry x joins what was gathered from the entries seen before it.
  method MergeOne(ghost seen: seq<Image>, merged: map<string, Image>, orderedRefs: seq<string>, x: Image)
    returns (merged': map<string, Image>, orderedRefs': seq<string>)
    requires Gathered(seen, merged, orderedRefs)
    ensures Gathered(seen + [x], merged', orderedRefs')
  {
    hide *;
    GatherMore(seen, merged, orderedRefs, x);
    merged', orderedRefs' := merged, orderedRefs;
    var ref := NormalizeRef(x.ref);
    var current := Image(ref, NormalizeId(x.expected));
    if ref == "" {
      return;
    }
    if ref !in merged {
      merged' := merged[ref := current];
      orderedRefs' := orderedRefs + [ref];
      return;
    }
    if merged[ref].expected.None? && current.expected.Some? {
      merged' := merged[ref := current];
    }
  }

  lemma NothingGathered()
    ensures Gathered([], map[], [])
  {
  }

  // _ordered_unique_seed_images
  method OrderedUniqueSeedImages(images: seq<Image>) returns (ordered: seq<Image>)
    ensures ordered == Merged(images)
  {
    hide *;
    NothingGathered();
    var merged: map<string, Image> := map[];
    var orderedRefs: seq<string> := [];
    ghost var seen: seq<Image> := [];
    var i := 0;
    while i < |images|
      invariant 0 <= i <= |images| && seen == images[..i]
      invariant Gathered(seen, merged, orderedRefs)
    {
      merged, orderedRefs := MergeOne(seen, merged, orderedRefs, images[i]);
      seen := seen + [images[i]];
      i := i + 1;
    }
    assert seen == images;
    AllGathered(images, merged, orderedRefs);
    ordered := seq(|orderedRefs|, k requires 0 <= k < |orderedRefs| => merged[orderedRefs[k]]);
  }
}
