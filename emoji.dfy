/** Conversion of the legacy recent-emoji lists and emoji colour variants
    (storage_settings_scheme.cpp:877-958) to the current id-keyed form. */
module EmojiMigration {
  import opened Ints

  /** The first UTF-16 pair of a regional-indicator letter, A to Z. */
  predicate IsRegionalIndicator(x: int) {
    0xD83CDDE6 <= x <= 0xD83CDDFF
  }

  /** The ten flags the oldest format stored by their first letter only. */
  predicate IsLegacyFlagKey(k: u64) {
    k in {0xD83CDDEF, 0xD83CDDF0, 0xD83CDDE9, 0xD83CDDE8, 0xD83CDDFA,
          0xD83CDDEB, 0xD83CDDEA, 0xD83CDDEE, 0xD83CDDF7, 0xD83CDDEC}
  }

  /** Lines 887-898: a legacy flag key becomes the full two-letter key whose
      high half is the stored first letter and whose low half is the second:
      J with P, K with R, D with E, C with N, U with S, F with R, E with S,
      I with T, R with U and G with B (the flags JP, KR, DE, CN, US, FR, ES,
      IT, RU, GB); every other key is left as it is. */
  function RemapFlagKey(k: u64): (r: u64)
    ensures IsLegacyFlagKey(k) ==> r / TwoTo32 == k && IsRegionalIndicator(r % TwoTo32)
    ensures !IsLegacyFlagKey(k) ==> r == k
  {
    if k == 0xD83CDDEF then 0xD83CDDEFD83CDDF5
    else if k == 0xD83CDDF0 then 0xD83CDDF0D83CDDF7
    else if k == 0xD83CDDE9 then 0xD83CDDE9D83CDDEA
    else if k == 0xD83CDDE8 then 0xD83CDDE8D83CDDF3
    else if k == 0xD83CDDFA then 0xD83CDDFAD83CDDF8
    else if k == 0xD83CDDEB then 0xD83CDDEBD83CDDF7
    else if k == 0xD83CDDEA then 0xD83CDDEAD83CDDF8
    else if k == 0xD83CDDEE then 0xD83CDDEED83CDDF9
    else if k == 0xD83CDDF7 then 0xD83CDDF7D83CDDFA
    else if k == 0xD83CDDEC then 0xD83CDDECD83CDDE7
    else k
  }

  /** Remapping twice changes nothing more, and distinct legacy flags stay distinct. */
  lemma RemapFlagKeyIdempotentInjective(k: u64, k': u64)
    ensures RemapFlagKey(RemapFlagKey(k)) == RemapFlagKey(k)
    ensures IsLegacyFlagKey(k) && IsLegacyFlagKey(k') && k != k' ==> RemapFlagKey(k) != RemapFlagKey(k')
  {
  }

  /** The oldest recent-emoji list with its 32-bit keys widened and remapped. */
  function RemapAll(v: seq<(u32, u16)>): (w: seq<(u64, u16)>)
    ensures |w| == |v|
    ensures forall i :: 0 <= i < |v| ==> w[i] == (RemapFlagKey(v[i].0), v[i].1)
  {
    seq(|v|, i requires 0 <= i < |v| => (RemapFlagKey(v[i].0), v[i].1))
  }

  /** Lines 914-921 (and 884-903 after remapping): each key is turned into an
      emoji id; entries whose id is empty are dropped. */
  function RecentFromKeys(v: seq<(u64, u16)>, id: u64 -> string): (p: seq<(string, u16)>)
    ensures |p| <= |v|
  {
    if v == [] then []
    else
      var last := v[|v| - 1];
      RecentFromKeys(v[..|v| - 1], id) + (if id(last.0) != "" then [(id(last.0), last.1)] else [])
  }

  /** Conversion distributes over concatenation: the order of the kept
      entries is the order of the stored ones. */
  lemma {:induction false} RecentFromKeysAppend(a: seq<(u64, u16)>, b: seq<(u64, u16)>, id: u64 -> string)
    ensures RecentFromKeys(a + b, id) == RecentFromKeys(a, id) + RecentFromKeys(b, id)
  {
    if b == [] {
      assert a + b == a;
    } else {
      var b' := b[..|b| - 1];
      assert (a + b)[..|a + b| - 1] == a + b';
      RecentFromKeysAppend(a, b', id);
    }
  }

  /** An entry is in the converted list exactly when some stored entry has a
      non-empty id and the same use count. */
  lemma {:induction false} RecentFromKeysMembers(v: seq<(u64, u16)>, id: u64 -> string, e: (string, u16))
    ensures e in RecentFromKeys(v, id) <==>
      e.0 != "" && exists i :: 0 <= i < |v| && id(v[i].0) == e.0 && v[i].1 == e.1
  {
    if v != [] {
      var prefix := v[..|v| - 1];
      RecentFromKeysMembers(prefix, id, e);
      if e.0 != "" && (exists i :: 0 <= i < |v| && id(v[i].0) == e.0 && v[i].1 == e.1) {
        var i :| 0 <= i < |v| && id(v[i].0) == e.0 && v[i].1 == e.1;
        if i < |prefix| {
          assert prefix[i] == v[i];
        }
      }
      if e.0 != "" && (exists i :: 0 <= i < |prefix| && id(prefix[i].0) == e.0 && prefix[i].1 == e.1) {
        var i :| 0 <= i < |prefix| && id(prefix[i].0) == e.0 && prefix[i].1 == e.1;
        assert v[i] == prefix[i];
      }
    }
  }

  lemma RemapAllSnoc(v: seq<(u32, u16)>, i: nat)
    requires i < |v|
    ensures RemapAll(v[..i + 1]) == RemapAll(v[..i]) + [(RemapFlagKey(v[i].0), v[i].1)]
  {
  }

  lemma RecentFromKeysSnoc(v: seq<(u64, u16)>, x: (u64, u16), id: u64 -> string)
    ensures RecentFromKeys(v + [x], id) == RecentFromKeys(v, id) + (if id(x.0) != "" then [(id(x.0), x.1)] else [])
  {
    assert (v + [x])[..|v|] == v;
  }

  /** Lines 883-903: the loop over the oldest recent-emoji list. */
  method ConvertRecentOldOld(v: seq<(u32, u16)>, id: u64 -> string) returns (p: seq<(string, u16)>)
    ensures p == RecentFromKeys(RemapAll(v), id)
  {
    p := [];
    for i := 0 to |v|
      invariant p == RecentFromKeys(RemapAll(v[..i]), id)
    {
      var oldKey := RemapFlagKey(v[i].0);
      var emoji := id(oldKey);
      if emoji != "" {
        p := p + [(emoji, v[i].1)];
      }
      RemapAllSnoc(v, i);
      RecentFromKeysSnoc(RemapAll(v[..i]), (oldKey, v[i].1), id);
    }
    assert v[..|v|] == v;
  }

  /** Lines 914-922: the loop over the 64-bit-keyed recent-emoji list. */
  method ConvertRecentOld(v: seq<(u64, u16)>, id: u64 -> string) returns (p: seq<(string, u16)>)
    ensures p == RecentFromKeys(v, id)
  {
    p := [];
    for i := 0 to |v|
      invariant p == RecentFromKeys(v[..i], id)
    {
      var emoji := id(v[i].0);
      if emoji != "" {
        p := p + [(emoji, v[i].1)];
      }
      assert v[..i + 1] == v[..i] + [v[i]];
      RecentFromKeysSnoc(v[..i], v[i], id);
    }
    assert v[..|v|] == v;
  }

  /** Lines 947-956: legacy colour variants in key order; an entry is inserted
      when its id is non-empty and its colour index is not negative, a later
      entry for the same id replacing an earlier one. */
  function VariantsFromOld(v: seq<(u32, u64)>, id: u64 -> string, color: u64 -> int): map<string, int> {
    if v == [] then map[]
    else
      var m := VariantsFromOld(v[..|v| - 1], id, color);
      var last := v[|v| - 1];
      var emoji := id(last.0);
      if emoji != "" && color(last.1) >= 0 then m[emoji := color(last.1)] else m
  }

  /** Every converted variant has a non-empty id and a non-negative index;
      every stored entry with a non-empty id
      and a non-negative index has its id converted; and the index kept for
      an id is the one of the last such entry. */
  lemma {:induction false} VariantsFromOldSound(v: seq<(u32, u64)>, id: u64 -> string, color: u64 -> int)
    ensures var m := VariantsFromOld(v, id, color);
      (forall s :: s in m ==> s != "" && m[s] >= 0) &&
      (forall j :: 0 <= j < |v| && id(v[j].0) != "" && color(v[j].1) >= 0 ==> id(v[j].0) in m) &&
      (forall j :: (0 <= j < |v| && id(v[j].0) != "" && color(v[j].1) >= 0 &&
                    forall j' :: j < j' < |v| ==> id(v[j'].0) != id(v[j].0) || color(v[j'].1) < 0) ==>
         m[id(v[j].0)] == color(v[j].1))
  {
    if v != [] {
      var prefix := v[..|v| - 1];
      VariantsFromOldSound(prefix, id, color);
      forall j | 0 <= j < |prefix|
        ensures prefix[j] == v[j]
      {
      }
    }
  }

  /** Lines 947-957: the loop that builds the colour-variant map. */
  method ConvertVariantsOld(v: seq<(u32, u64)>, id: u64 -> string, color: u64 -> int)
    returns (variants: map<string, int>)
    ensures variants == VariantsFromOld(v, id, color)
  {
    variants := map[];
    for i := 0 to |v|
      invariant variants == VariantsFromOld(v[..i], id, color)
    {
      var emoji := id(v[i].0);
      if emoji != "" {
        var index := color(v[i].1);
        if index >= 0 {
          variants := variants[emoji := index];
        }
      }
      assert v[..i + 1][..i] == v[..i];
    }
    assert v[..|v|] == v;
  }
}
