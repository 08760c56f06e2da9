/** The precedence-ordered merge of option hashes (`Utilities::DeepMerge`).

    Sources are given highest precedence first. Ordinary top-level keys take the
    whole value of the first source defining them; the `header`, `footer` and
    `body` branches are merged key by key; inside `footer`, `numbering_options`
    and `style` are merged one level deeper still.

    The methods follow the Ruby loops; the functions `Overlay`, `Branches`,
    `Nested`, `MergeForKey` and `Merged` specify them over the sources in
    precedence order, and `Winner` is an independent "first source that defines
    the key" reference the lemmas relate them to. */
module DeepMerge {
  import opened Values

  const HeaderKey: Key := "header"
  const FooterKey: Key := "footer"
  const BodyKey: Key := "body"

  /** The footer keys that are merged one level deeper. */
  const FooterNestedKeys: seq<Key> := ["numbering_options", "style"]

  // ---------------------------------------------------------------------------
  // Sequences

  /** `s.reverse` */
  function Reverse<T>(s: seq<T>): (r: seq<T>)
    ensures |r| == |s|
  {
    if |s| == 0 then [] else [s[|s| - 1]] + Reverse(s[..|s| - 1])
  }

  /** Reversal puts the element at `i` at the mirrored index. */
  lemma {:induction false} ReverseAt<T>(s: seq<T>, i: nat)
    requires i < |s|
    ensures Reverse(s)[i] == s[|s| - 1 - i]
  {
    if i > 0 {
      ReverseAt(s[..|s| - 1], i - 1);
    }
  }

  /** Reversing twice gives back the original order. */
  lemma {:induction false} ReverseInvolutive<T>(s: seq<T>)
    ensures Reverse(Reverse(s)) == s
  {
    var r := Reverse(s);
    forall i | 0 <= i < |s|
      ensures Reverse(r)[i] == s[i]
    {
      ReverseAt(r, i);
      ReverseAt(s, |s| - 1 - i);
    }
  }

  /** Reversal keeps the same elements. */
  lemma ReverseMembers<T>(s: seq<T>)
    ensures forall x :: x in Reverse(s) <==> x in s
  {
    forall x | x in Reverse(s)
      ensures x in s
    {
      var i :| 0 <= i < |s| && Reverse(s)[i] == x;
      ReverseAt(s, i);
    }
    forall x | x in s
      ensures x in Reverse(s)
    {
      var i :| 0 <= i < |s| && s[i] == x;
      ReverseAt(s, |s| - 1 - i);
    }
  }

  /** Appending one element to the application order puts it first in precedence order. */
  lemma ReversePrefixStep<T>(s: seq<T>, i: nat)
    requires i < |s|
    ensures Reverse(s[..i + 1]) == [s[i]] + Reverse(s[..i])
  {
    assert s[..i + 1][..i] == s[..i];
  }

  // ---------------------------------------------------------------------------
  // Specification functions, sources in precedence order (highest first)

  /** `merged.merge!(h)` over every source, lowest precedence first. */
  function Overlay(srcs: seq<Options>): Options {
    if |srcs| == 0 then map[] else Overlay(srcs[1..]) + srcs[0]
  }

  /** The value of `k` in the first (highest-precedence) source that defines it. */
  function Winner(srcs: seq<Options>, k: Key): Option<Value> {
    if |srcs| == 0 then None
    else if k in srcs[0] then Some(srcs[0][k])
    else Winner(srcs[1..], k)
  }

  /** The branch `h[key]` when it holds a hash, and `{}` otherwise (a falsy branch is skipped). */
  function BranchOf(h: Options, key: Key): Options {
    if key in h && h[key].Hash? then h[key].entries else map[]
  }

  /** The nested hash `h[key][k]`, or `{}` when the branch or the nested value is falsy. */
  function NestedOf(h: Options, key: Key, k: Key): Options {
    var b := BranchOf(h, key);
    if k in b && b[k].Hash? then b[k].entries else map[]
  }

  function Branches(srcs: seq<Options>, key: Key): (r: seq<Options>)
    ensures |r| == |srcs|
  {
    if |srcs| == 0 then [] else [BranchOf(srcs[0], key)] + Branches(srcs[1..], key)
  }

  function Nested(srcs: seq<Options>, key: Key, k: Key): (r: seq<Options>)
    ensures |r| == |srcs|
  {
    if |srcs| == 0 then [] else [NestedOf(srcs[0], key, k)] + Nested(srcs[1..], key, k)
  }

  /** What `merge_for_key_and_nested_keys` returns: the branch merged key by key, and
      each listed nested key merged key by key on top of it. The listed keys are
      present only once some source has been seen, because the Ruby loop creates
      them while visiting the first source. */
  function MergeForKey(srcs: seq<Options>, key: Key, keys: seq<Key>): Options {
    Overlay(Branches(srcs, key)) + (if |srcs| == 0 then map[] else NestedMerges(srcs, key, keys))
  }

  /** Each listed nested key, mapped to the key-by-key merge of that nested hash. */
  function NestedMerges(srcs: seq<Options>, key: Key, keys: seq<Key>): Options {
    map k | k in keys :: Hash(Overlay(Nested(srcs, key, k)))
  }

  /** The accumulated nested hashes of the Ruby loop, as option values. */
  function AsHashes(temp: map<Key, Options>): Options {
    map k | k in temp :: Hash(temp[k])
  }

  /** What `merge_options` returns. */
  function Merged(srcs: seq<Options>): Options {
    Overlay(srcs)
      [FooterKey := Hash(MergeForKey(srcs, FooterKey, FooterNestedKeys))]
      [HeaderKey := Hash(MergeForKey(srcs, HeaderKey, []))]
      [BodyKey := Hash(MergeForKey(srcs, BodyKey, []))]
  }

  /** The shape the Ruby code needs in one source: a truthy branch is a hash, and so
      is a truthy listed nested value (otherwise `merge!` raises TypeError). */
  predicate ShapedFor(h: Options, key: Key, keys: seq<Key>) {
    && (key in h && Truthy(h[key]) ==> h[key].Hash?)
    && forall k | k in keys :: k in BranchOf(h, key) && Truthy(BranchOf(h, key)[k]) ==> BranchOf(h, key)[k].Hash?
  }

  predicate WellShaped(h: Options) {
    ShapedFor(h, FooterKey, FooterNestedKeys) && ShapedFor(h, HeaderKey, []) && ShapedFor(h, BodyKey, [])
  }

  // ---------------------------------------------------------------------------
  // The merge as the Ruby code performs it. `hashes` below are in the order the
  // loops visit them: lowest precedence first, after `reverse!`.

  /** `merge_options(*hashes)` */
  method MergeOptions(hashes: seq<Options>) returns (merged: Options)
    requires forall h | h in hashes :: WellShaped(h)
    ensures merged == Merged(hashes)
  {
    var ordered := Reverse(hashes);
    ReverseInvolutive(hashes);
    ReverseMembers(hashes);
    var footer := MergeFooter(ordered);
    var header := MergeHeader(ordered);
    var body := MergeBody(ordered);
    merged := MergeAll(ordered);
    merged := merged[FooterKey := Hash(footer)][HeaderKey := Hash(header)][BodyKey := Hash(body)];
  }

  /** `hashes.each { |h| merged.merge!(h) }`, lowest precedence first. */
  method MergeAll(ordered: seq<Options>) returns (merged: Options)
    ensures merged == Overlay(Reverse(ordered))
  {
    merged := map[];
    var i := 0;
    while i < |ordered|
      invariant 0 <= i <= |ordered|
      invariant merged == Overlay(Reverse(ordered[..i]))
    {
      ReversePrefixStep(ordered, i);
      assert ([ordered[i]] + Reverse(ordered[..i]))[1..] == Reverse(ordered[..i]);
      merged := merged + ordered[i];
      i := i + 1;
    }
    assert ordered[..i] == ordered;
  }

  /** `merge_footer(*hashes)` */
  method MergeFooter(hashes: seq<Options>) returns (r: Options)
    requires forall h | h in hashes :: ShapedFor(h, FooterKey, FooterNestedKeys)
    ensures r == MergeForKey(Reverse(hashes), FooterKey, FooterNestedKeys)
  {
    r := MergeForKeyAndNestedKeys(FooterKey, FooterNestedKeys, hashes);
  }

  /** `merge_header(*hashes)` */
  method MergeHeader(hashes: seq<Options>) returns (r: Options)
    requires forall h | h in hashes :: ShapedFor(h, HeaderKey, [])
    ensures r == MergeForKey(Reverse(hashes), HeaderKey, [])
  {
    r := MergeForKeyAndNestedKeys(HeaderKey, [], hashes);
  }

  /** `merge_body(*hashes)` */
  method MergeBody(hashes: seq<Options>) returns (r: Options)
    requires forall h | h in hashes :: ShapedFor(h, BodyKey, [])
    ensures r == MergeForKey(Reverse(hashes), BodyKey, [])
  {
    r := MergeForKeyAndNestedKeys(BodyKey, [], hashes);
  }

  /** `merge_for_key_and_nested_keys(key, keys, *hashes)` */
  method MergeForKeyAndNestedKeys(key: Key, keys: seq<Key>, hashes: seq<Options>) returns (r: Options)
    requires forall h | h in hashes :: ShapedFor(h, key, keys)
    ensures r == MergeForKey(Reverse(hashes), key, keys)
  {
    var temp: map<Key, Options> := map[];
    var merged: Options := map[];
    ghost var seen: seq<Options> := [];
    var i := 0;
    while i < |hashes|
      invariant 0 <= i <= |hashes|
      invariant seen == Reverse(hashes[..i])
      invariant merged == Overlay(Branches(seen, key))
      invariant temp.Keys == if i == 0 then {} else set k | k in keys
      invariant forall k | k in temp :: temp[k] == Overlay(Nested(seen, key, k))
    {
      var h := hashes[i];
      ReversePrefixStep(hashes, i);
      temp := MergeNestedKeys(temp, h, key, keys, seen);
      OverlayStep(h, seen, key, keys);
      if key in h && Truthy(h[key]) {
        merged := merged + h[key].entries;
      }
      seen := [h] + seen;
      i := i + 1;
    }
    assert hashes[..i] == hashes;
    r := merged + AsHashes(temp);
    FinishMerge(merged, temp, seen, key, keys);
  }

  /** The inner `keys.each` loop of `merge_for_key_and_nested_keys`: folds one
      source's listed nested hashes into the accumulated ones. */
  method MergeNestedKeys(temp: map<Key, Options>, h: Options, key: Key, keys: seq<Key>, ghost seen: seq<Options>)
    returns (t: map<Key, Options>)
    requires ShapedFor(h, key, keys)
    requires forall k | k in temp :: temp[k] == Overlay(Nested(seen, key, k))
    requires forall k | k in keys && k !in temp :: Overlay(Nested(seen, key, k)) == map[]
    ensures forall k :: k in t <==> k in temp || k in keys
    ensures forall k | k in t && k in keys :: t[k] == Overlay(Nested(seen, key, k)) + NestedOf(h, key, k)
    ensures forall k | k in t && k !in keys :: t[k] == temp[k]
  {
    t := temp;
    var j := 0;
    while j < |keys|
      invariant 0 <= j <= |keys|
      invariant forall k :: k in t <==> k in temp || k in keys[..j]
      invariant forall k | k in t && k in keys[..j] :: t[k] == Overlay(Nested(seen, key, k)) + NestedOf(h, key, k)
      invariant forall k | k in t && k !in keys[..j] :: t[k] == temp[k]
    {
      var k := keys[j];
      ghost var t0 := t;
      ghost var lower := Overlay(Nested(seen, key, k));
      ghost var c := NestedOf(h, key, k);
      NestedContribution(h, key, keys, k);
      if k !in t {
        t := t[k := map[]];
      }
      assert t[k] == lower || t[k] == lower + c;
      if key in h && Truthy(h[key]) && k in h[key].entries && Truthy(h[key].entries[k]) {
        MergeTwice(lower, c);
        t := t[k := t[k] + h[key].entries[k].entries];
      } else {
        MergeEmpty(lower);
      }
      assert t[k] == lower + c;
      NestedKeysStep(temp, t0, t, h, key, keys, seen, j);
      j := j + 1;
    }
    assert keys[..j] == keys;
  }

  /** One turn of the inner loop keeps its three invariants. */
  lemma NestedKeysStep(temp: map<Key, Options>, t0: map<Key, Options>, t: map<Key, Options>, h: Options,
                       key: Key, keys: seq<Key>, seen: seq<Options>, j: nat)
    requires j < |keys|
    requires forall k :: k in t0 <==> k in temp || k in keys[..j]
    requires forall k | k in t0 && k in keys[..j] :: t0[k] == Overlay(Nested(seen, key, k)) + NestedOf(h, key, k)
    requires forall k | k in t0 && k !in keys[..j] :: t0[k] == temp[k]
    requires keys[j] in t && t[keys[j]] == Overlay(Nested(seen, key, keys[j])) + NestedOf(h, key, keys[j])
    requires forall k | k != keys[j] :: (k in t <==> k in t0) && (k in t ==> t[k] == t0[k])
    ensures forall k :: k in t <==> k in temp || k in keys[..j + 1]
    ensures forall k | k in t && k in keys[..j + 1] :: t[k] == Overlay(Nested(seen, key, k)) + NestedOf(h, key, k)
    ensures forall k | k in t && k !in keys[..j + 1] :: t[k] == temp[k]
  {
    PrefixStep(keys, j);
    assert forall k :: k in keys[..j + 1] <==> k in keys[..j] || k == keys[j];
  }

  lemma PrefixStep<T>(s: seq<T>, j: nat)
    requires j < |s|
    ensures s[..j + 1] == s[..j] + [s[j]]
  {
  }

  lemma MergeTwice(a: Options, c: Options)
    ensures (a + c) + c == a + c
  {
  }

  lemma MergeEmpty(a: Options)
    ensures a + map[] == a
  {
  }

  /** The accumulated branch and nested hashes assemble into `MergeForKey`. */
  lemma FinishMerge(merged: Options, temp: map<Key, Options>, srcs: seq<Options>, key: Key, keys: seq<Key>)
    requires merged == Overlay(Branches(srcs, key))
    requires temp.Keys == if |srcs| == 0 then {} else set k | k in keys
    requires forall k | k in temp :: temp[k] == Overlay(Nested(srcs, key, k))
    ensures merged + AsHashes(temp) == MergeForKey(srcs, key, keys)
  {
    if |srcs| > 0 {
      assert AsHashes(temp) == NestedMerges(srcs, key, keys);
    } else {
      assert AsHashes(temp) == map[];
    }
  }

  /** What one source adds to a listed nested key, as the Ruby condition tests it. */
  lemma NestedContribution(h: Options, key: Key, keys: seq<Key>, k: Key)
    requires ShapedFor(h, key, keys) && k in keys
    ensures key in h && Truthy(h[key]) && k in h[key].entries && Truthy(h[key].entries[k]) ==>
      h[key].entries[k].Hash? && NestedOf(h, key, k) == h[key].entries[k].entries
    ensures !(key in h && Truthy(h[key]) && k in h[key].entries && Truthy(h[key].entries[k])) ==>
      NestedOf(h, key, k) == map[]
  {
  }

  /** Visiting one more source, which comes first in precedence order. */
  lemma OverlayStep(h: Options, before: seq<Options>, key: Key, keys: seq<Key>)
    requires ShapedFor(h, key, keys)
    ensures Overlay(Branches([h] + before, key)) ==
      if key in h && Truthy(h[key]) then Overlay(Branches(before, key)) + h[key].entries
      else Overlay(Branches(before, key))
    ensures forall k :: Overlay(Nested([h] + before, key, k)) == Overlay(Nested(before, key, k)) + NestedOf(h, key, k)
  {
    assert ([h] + before)[1..] == before;
    assert !(key in h && Truthy(h[key])) ==> BranchOf(h, key) == map[];
  }

  // ---------------------------------------------------------------------------
  // Properties

  /** `Overlay` agrees with the first-source-wins reference. */
  lemma {:induction false} OverlayIsWinner(srcs: seq<Options>, k: Key)
    ensures k in Overlay(srcs) <==> Winner(srcs, k).Some?
    ensures k in Overlay(srcs) ==> Overlay(srcs)[k] == Winner(srcs, k).value
  {
    if |srcs| > 0 {
      OverlayIsWinner(srcs[1..], k);
    }
  }

  /** The winner is the value in the first source that defines the key. */
  lemma {:induction false} WinnerIsFirst(srcs: seq<Options>, k: Key, i: nat)
    requires i < |srcs| && k in srcs[i]
    requires forall j | 0 <= j < i :: k !in srcs[j]
    ensures Winner(srcs, k) == Some(srcs[i][k])
  {
    if i > 0 {
      WinnerIsFirst(srcs[1..], k, i - 1);
    }
  }

  /** There is a winner exactly when some source defines the key. */
  lemma {:induction false} WinnerExists(srcs: seq<Options>, k: Key)
    ensures Winner(srcs, k).Some? <==> exists i | 0 <= i < |srcs| :: k in srcs[i]
  {
    if |srcs| > 0 {
      WinnerExists(srcs[1..], k);
      if k !in srcs[0] && (exists i | 0 <= i < |srcs| :: k in srcs[i]) {
        var i :| 0 <= i < |srcs| && k in srcs[i];
        assert k in srcs[1..][i - 1];
      }
    }
  }

  /** A top-level key other than the three branches takes its whole value from the
      first source that defines it, and is absent when none does. */
  lemma TopLevelPrecedence(srcs: seq<Options>, k: Key)
    requires k != HeaderKey && k != FooterKey && k != BodyKey
    ensures k in Merged(srcs) <==> Winner(srcs, k).Some?
    ensures k in Merged(srcs) ==> Merged(srcs)[k] == Winner(srcs, k).value
  {
    OverlayIsWinner(srcs, k);
  }

  /** The three branches are always present and always hashes. */
  lemma BranchesAlwaysPresent(srcs: seq<Options>)
    ensures HeaderKey in Merged(srcs) && Merged(srcs)[HeaderKey].Hash?
    ensures FooterKey in Merged(srcs) && Merged(srcs)[FooterKey].Hash?
    ensures BodyKey in Merged(srcs) && Merged(srcs)[BodyKey].Hash?
  {
  }

  /** Overlaying only empty hashes gives `{}`. */
  lemma {:induction false} OverlayOfEmpties(srcs: seq<Options>)
    requires forall i | 0 <= i < |srcs| :: srcs[i] == map[]
    ensures Overlay(srcs) == map[]
  {
    if |srcs| > 0 {
      OverlayOfEmpties(srcs[1..]);
    }
  }

  /** When no source supplies a body, the merged body is `{}`. */
  lemma {:induction false} BodyDefaultsToEmpty(srcs: seq<Options>)
    requires forall i | 0 <= i < |srcs| :: BranchOf(srcs[i], BodyKey) == map[]
    ensures Merged(srcs)[BodyKey] == Hash(map[])
  {
    var b := Branches(srcs, BodyKey);
    forall i | 0 <= i < |srcs|
      ensures b[i] == map[]
    {
      BranchesAt(srcs, BodyKey, i);
    }
    OverlayOfEmpties(b);
  }

  lemma {:induction false} BranchesAt(srcs: seq<Options>, key: Key, i: nat)
    requires i < |srcs|
    ensures Branches(srcs, key)[i] == BranchOf(srcs[i], key)
  {
    if i > 0 {
      BranchesAt(srcs[1..], key, i - 1);
    }
  }

  lemma {:induction false} NestedAt(srcs: seq<Options>, key: Key, k: Key, i: nat)
    requires i < |srcs|
    ensures Nested(srcs, key, k)[i] == NestedOf(srcs[i], key, k)
  {
    if i > 0 {
      NestedAt(srcs[1..], key, k, i - 1);
    }
  }

  /** Within `header` and `body`, and for the footer keys that are not merged deeper,
      a second-level key takes the value of the first source whose branch defines it;
      keys missing from higher sources survive from lower ones. */
  lemma BranchPrecedence(srcs: seq<Options>, branch: Key, k: Key)
    requires branch == HeaderKey || branch == BodyKey || (branch == FooterKey && k !in FooterNestedKeys)
    ensures k in Merged(srcs)[branch].entries <==> Winner(Branches(srcs, branch), k).Some?
    ensures k in Merged(srcs)[branch].entries ==>
      Merged(srcs)[branch].entries[k] == Winner(Branches(srcs, branch), k).value
  {
    OverlayIsWinner(Branches(srcs, branch), k);
  }

  /** Header and body get no keys of their own: a key is in the merged branch exactly
      when some source's branch holds it. */
  lemma NoForcedKeys(srcs: seq<Options>, branch: Key, k: Key)
    requires branch == HeaderKey || branch == BodyKey
    ensures k in Merged(srcs)[branch].entries <==> exists i | 0 <= i < |srcs| :: k in BranchOf(srcs[i], branch)
  {
    var b := Branches(srcs, branch);
    OverlayIsWinner(b, k);
    WinnerExists(b, k);
    forall i | 0 <= i < |srcs|
      ensures b[i] == BranchOf(srcs[i], branch)
    {
      BranchesAt(srcs, branch, i);
    }
  }

  /** Once there is any source, the merged footer holds `numbering_options` and
      `style`, each the key-by-key merge of that nested hash over all sources. */
  lemma FooterNestedMerge(srcs: seq<Options>, n: Key)
    requires |srcs| > 0 && n in FooterNestedKeys
    ensures n in Merged(srcs)[FooterKey].entries
    ensures Merged(srcs)[FooterKey].entries[n] == Hash(Overlay(Nested(srcs, FooterKey, n)))
  {
  }

  /** Within `footer.numbering_options` and `footer.style`, each key takes the value
      of the first source whose nested hash defines it. */
  lemma FooterNestedPrecedence(srcs: seq<Options>, n: Key, k: Key)
    requires |srcs| > 0 && n in FooterNestedKeys
    ensures k in Merged(srcs)[FooterKey].entries[n].entries <==> Winner(Nested(srcs, FooterKey, n), k).Some?
    ensures k in Merged(srcs)[FooterKey].entries[n].entries ==>
      Merged(srcs)[FooterKey].entries[n].entries[k] == Winner(Nested(srcs, FooterKey, n), k).value
  {
    FooterNestedMerge(srcs, n);
    OverlayIsWinner(Nested(srcs, FooterKey, n), k);
  }

  /** With no sources at all the footer is `{}`: the nested keys are only created
      while visiting a source. */
  lemma NoSourcesEmptyFooter()
    ensures Merged([])[FooterKey] == Hash(map[])
  {
  }

  /** A source whose `footer.style` (or `footer.numbering_options`) is nil or false
      cannot erase what lower sources supplied there. */
  lemma FalsyNestedCannotErase(srcs: seq<Options>, n: Key)
    requires |srcs| > 1 && n in FooterNestedKeys
    requires FooterKey in srcs[0] && srcs[0][FooterKey].Hash?
    requires n in srcs[0][FooterKey].entries && !Truthy(srcs[0][FooterKey].entries[n])
    ensures Merged(srcs)[FooterKey].entries[n] == Merged(srcs[1..])[FooterKey].entries[n]
  {
    FooterNestedMerge(srcs, n);
    FooterNestedMerge(srcs[1..], n);
    var tail := Nested(srcs[1..], FooterKey, n);
    assert NestedOf(srcs[0], FooterKey, n) == map[];
    assert Nested(srcs, FooterKey, n) == [map[]] + tail;
    assert ([map[]] + tail)[1..] == tail;
    MergeEmpty(Overlay(tail));
  }

  // ---------------------------------------------------------------------------
  // Worked examples

  lemma OverlayOfThree(srcs: seq<Options>)
    requires |srcs| == 3
    ensures Overlay(srcs) == srcs[2] + srcs[1] + srcs[0]
  {
    var t1 := srcs[1..];
    var t2 := t1[1..];
    assert Overlay(t2[1..]) == map[];
    assert Overlay(t2) == map[] + srcs[2];
    assert map[] + srcs[2] == srcs[2];
    assert Overlay(t1) == srcs[2] + srcs[1];
  }

  lemma BranchesOfThree(srcs: seq<Options>, key: Key)
    requires |srcs| == 3
    ensures Overlay(Branches(srcs, key)) == BranchOf(srcs[2], key) + BranchOf(srcs[1], key) + BranchOf(srcs[0], key)
  {
    assert srcs[1..][1..][1..] == [];
    OverlayOfThree(Branches(srcs, key));
    BranchesAt(srcs, key, 0);
    BranchesAt(srcs, key, 1);
    BranchesAt(srcs, key, 2);
  }

  lemma NestedOfThree(srcs: seq<Options>, key: Key, k: Key)
    requires |srcs| == 3
    ensures Overlay(Nested(srcs, key, k)) == NestedOf(srcs[2], key, k) + NestedOf(srcs[1], key, k) + NestedOf(srcs[0], key, k)
  {
    OverlayOfThree(Nested(srcs, key, k));
    NestedAt(srcs, key, k, 0);
    NestedAt(srcs, key, k, 1);
    NestedAt(srcs, key, k, 2);
  }

  /** The merged footer is its branch overlay with the two nested merges on top. */
  lemma FooterAsTwoParts(srcs: seq<Options>)
    requires |srcs| > 0
    ensures MergeForKey(srcs, FooterKey, FooterNestedKeys) == Overlay(Branches(srcs, FooterKey))
      ["numbering_options" := Hash(Overlay(Nested(srcs, FooterKey, "numbering_options")))]
      ["style" := Hash(Overlay(Nested(srcs, FooterKey, "style")))]
  {
    FooterBranchPlusNested(srcs);
    NestedAsTwoKeys(srcs);
  }

  lemma FooterBranchPlusNested(srcs: seq<Options>)
    requires |srcs| > 0
    ensures MergeForKey(srcs, FooterKey, FooterNestedKeys)
      == Overlay(Branches(srcs, FooterKey)) + NestedMerges(srcs, FooterKey, FooterNestedKeys)
  {
  }

  lemma NestedAsTwoKeys(srcs: seq<Options>)
    ensures Overlay(Branches(srcs, FooterKey)) + NestedMerges(srcs, FooterKey, FooterNestedKeys)
      == Overlay(Branches(srcs, FooterKey))
           ["numbering_options" := Hash(Overlay(Nested(srcs, FooterKey, "numbering_options")))]
           ["style" := Hash(Overlay(Nested(srcs, FooterKey, "style")))]
  {
    var b := Overlay(Branches(srcs, FooterKey));
    var nested := NestedMerges(srcs, FooterKey, FooterNestedKeys);
    var n1 := Hash(Overlay(Nested(srcs, FooterKey, "numbering_options")));
    var n2 := Hash(Overlay(Nested(srcs, FooterKey, "style")));
    assert nested.Keys == {"numbering_options", "style"} by {
      assert FooterNestedKeys == ["numbering_options", "style"];
    }
    MapOfTwo(nested, "numbering_options", "style", n1, n2);
    PlusTwoKeys(b, n1, n2);
  }

  lemma MapOfTwo(m: Options, a: Key, b: Key, x: Value, y: Value)
    requires m.Keys == {a, b} && a in m && b in m && m[a] == x && m[b] == y
    ensures m == map[a := x, b := y]
  {
  }

  lemma PlusTwoKeys(b: Options, n1: Value, n2: Value)
    ensures b + map["numbering_options" := n1, "style" := n2] == b["numbering_options" := n1]["style" := n2]
  {
  }

  /** With no listed nested keys the merged branch is the branch overlay. */
  lemma NoNestedKeysMerge(srcs: seq<Options>, key: Key)
    ensures MergeForKey(srcs, key, []) == Overlay(Branches(srcs, key))
  {
    assert NestedMerges(srcs, key, []) == map[];
  }
}
