/** Decoding of the legacy proxy records of `dbiConnectionType`
    (storage_settings_scheme.cpp:457-537): the proxy sub-record, the
    selected-index correction for skipped entries, and the resolution of the
    selected proxy and the proxy mode. */
module ProxyList {
  import opened Ints
  import opened Stream
  import opened Types

  /** The proxy type a sub-record stores: the legacy connection types, or
      the current type numbers shifted by `kProxyTypeShift`; anything else is
      no proxy at all. */
  function ProxyTypeOf(raw: i32): (t: ProxyType)
    ensures t == NoType <==>
      raw != ConnectionTcpProxy && raw != ConnectionHttpProxy &&
      raw != ProxyTypeShift + 1 && raw != ProxyTypeShift + 2 && raw != ProxyTypeShift + 3
  {
    if raw == ConnectionTcpProxy then Socks5
    else if raw == ConnectionHttpProxy then Http
    else if raw == ProxyTypeShift + Socks5.Raw() then Socks5
    else if raw == ProxyTypeShift + Http.Raw() then Http
    else if raw == ProxyTypeShift + Mtproto.Raw() then Mtproto
    else NoType
  }

  /** Every current proxy type survives being stored shifted and read back. */
  lemma ProxyTypeRoundTrip(t: ProxyType)
    requires t != NoType
    ensures ProxyTypeOf(ProxyTypeShift + t.Raw()) == t
  {
  }

  /** `readProxy`: type, host, port, user and password; the port is stored
      signed and converted to unsigned. */
  function ReadProxy(r: Reader): (res: (Reader, Proxy))
    ensures res.0.fields == r.fields
    ensures res.0.ok ==> r.ok && res.0.pos == r.pos + 5
  {
    var (r1, rawType) := r.TakeI32();
    var (r2, host) := r1.TakeStr();
    var (r3, port) := r2.TakeI32();
    var (r4, user) := r3.TakeStr();
    var (r5, password) := r4.TakeStr();
    (r5, Proxy(ProxyTypeOf(rawType), host, ToUInt32(port), user, password))
  }

  /** `n` sub-records read in a row: exactly `n` proxies come out, and when the
      stream is still good exactly `5 * n` fields were consumed. */
  function ReadProxies(r: Reader, n: nat): (res: (Reader, seq<Proxy>))
    ensures |res.1| == n && res.0.fields == r.fields
    ensures res.0.ok ==> r.ok && res.0.pos == r.pos + 5 * n
  {
    if n == 0 then (r, [])
    else
      var (r1, ps) := ReadProxies(r, n - 1);
      var (r2, p) := ReadProxy(r1);
      (r2, ps + [p])
  }

  /** The proxies the loop appends to `list`: the usable ones, in order. */
  function Kept(ps: seq<Proxy>, valid: Proxy -> bool): (ks: seq<Proxy>)
    ensures |ks| <= |ps|
  {
    if ps == [] then []
    else Kept(ps[..|ps| - 1], valid) + (if valid(ps[|ps| - 1]) then [ps[|ps| - 1]] else [])
  }

  /** Keeping distributes over concatenation, so the kept proxies appear in
      the order they were read. */
  lemma {:induction false} KeptAppend(a: seq<Proxy>, b: seq<Proxy>, valid: Proxy -> bool)
    ensures Kept(a + b, valid) == Kept(a, valid) + Kept(b, valid)
  {
    if b == [] {
      assert a + b == a;
    } else {
      var b' := b[..|b| - 1];
      assert (a + b)[..|a + b| - 1] == a + b';
      KeptAppend(a, b', valid);
    }
  }

  /** A proxy is kept exactly when it is usable. */
  lemma {:induction false} KeptMembers(ps: seq<Proxy>, valid: Proxy -> bool, p: Proxy)
    ensures p in Kept(ps, valid) <==> p in ps && valid(p)
  {
    if ps != [] {
      var prefix := ps[..|ps| - 1];
      KeptMembers(prefix, valid, p);
      assert ps == prefix + [ps[|ps| - 1]];
    }
  }

  /** The correction of the selected index for a skipped sub-record, with the
      comparisons against the number `kept` of proxies kept so far read as
      signed comparisons (see README, Findings). A positive index selects
      an enabled proxy, a negative one a disabled proxy in the oldest format. */
  function SkipAdjust(index: i32, kept: nat): (r: i32)
    ensures index > kept ==> r == index - 1
    ensures index < -(kept as int) ==> r == index + 1
    ensures -(kept as int) <= index <= kept ==> r == index
  {
    if index < -(kept as int) then index + 1
    else if index > kept then index - 1
    else index
  }

  /** The same correction as the C++ text computes it, which is what the
      decoder runs: `-list.size()` and `list.size()` are unsigned 64-bit
      values, so `index` is converted to unsigned before both comparisons;
      `++index` and `--index` wrap on 32 bits, as the hardware does. */
  function SkipAdjustAsWritten(index: i32, kept: nat): i32 {
    if ToSize(index) < ToSize(-(kept as int)) then ToInt32(index + 1)
    else if ToSize(index) > ToSize(kept) then ToInt32(index - 1)
    else index
  }

  /** As written, a non-negative index is incremented by every skipped entry
      once a proxy has been kept, instead of being left alone or decremented. */
  lemma AsWrittenIncrementsNonNegative(index: i32, kept: nat)
    requires index >= 0 && 0 < kept < TwoTo63
    ensures SkipAdjustAsWritten(index, kept) == ToInt32(index + 1)
  {
    assert ToSize(-(kept as int)) == TwoTo64 - kept;
  }

  /** As written, while no proxy has been kept, a negative index is
      decremented, moving it away from the entries instead of towards them. */
  lemma AsWrittenDecrementsNegativeWhenNothingKept(index: i32)
    requires index < 0
    ensures SkipAdjustAsWritten(index, 0) == ToInt32(index - 1)
  {
    assert ToSize(-(0 as int)) == 0;
    assert ToSize(index) == TwoTo64 + index;
  }

  /** The rule as written and the corrected rule agree on one skipped entry
      exactly when, with nothing kept yet, the index is not negative, or, with
      some proxy kept, the index is below the negated number kept. */
  lemma SkipAdjustAgreement(index: i32, kept: nat)
    requires kept < TwoTo63
    ensures SkipAdjustAsWritten(index, kept) == SkipAdjust(index, kept) <==>
            if kept == 0 then index >= 0 else index < -(kept as int)
  {
    var size := if index >= 0 then index else TwoTo64 + index;
    assert ToSize(index) == size;
    assert ToSize(kept) == kept;
    if kept == 0 {
      assert ToSize(-(kept as int)) == 0;
      if index < 0 {
        assert SkipAdjustAsWritten(index, kept) == ToInt32(index - 1);
        assert (ToInt32(index - 1) - (index - 1)) % TwoTo32 == 0;
        assert ToInt32(index - 1) != index + 1;
        assert SkipAdjust(index, kept) == index + 1;
      }
    } else {
      assert ToSize(-(kept as int)) == TwoTo64 - kept;
      if index >= 0 {
        assert SkipAdjustAsWritten(index, kept) == ToInt32(index + 1);
        assert (ToInt32(index + 1) - (index + 1)) % TwoTo32 == 0;
        assert ToInt32(index + 1) != index && ToInt32(index + 1) != index - 1;
      } else if index >= -(kept as int) {
        assert SkipAdjustAsWritten(index, kept) == ToInt32(index - 1);
        assert (ToInt32(index - 1) - (index - 1)) % TwoTo32 == 0;
        assert ToInt32(index - 1) != index;
      }
    }
  }

  /** The selected index after the loop over the sub-records `ps`. */
  function IndexAfter(ps: seq<Proxy>, index: i32, valid: Proxy -> bool): (r: i32)
    ensures (forall j :: 0 <= j < |ps| ==> valid(ps[j])) ==> r == index
  {
    if ps == [] then index
    else
      var prefix := ps[..|ps| - 1];
      var i := IndexAfter(prefix, index, valid);
      if valid(ps[|ps| - 1]) then i else SkipAdjust(i, |Kept(prefix, valid)|)
  }

  /** The selected index after the loop as the C++ text computes it: the
      index the decoder goes on with. */
  function IndexAfterAsWritten(ps: seq<Proxy>, index: i32, valid: Proxy -> bool): (r: i32)
    ensures (forall j :: 0 <= j < |ps| ==> valid(ps[j])) ==> r == index
  {
    if ps == [] then index
    else
      var prefix := ps[..|ps| - 1];
      var i := IndexAfterAsWritten(prefix, index, valid);
      if valid(ps[|ps| - 1]) then i else SkipAdjustAsWritten(i, |Kept(prefix, valid)|)
  }

  /** For a positive selected index `k` whose sub-record is usable, the
      correction keeps `k` pointing at that same proxy: before the loop reaches
      it, `k` has dropped by the number of entries skipped so far; afterwards it
      is the number of proxies kept up to and including it. */
  lemma {:induction false} IndexTracksSelection(ps: seq<Proxy>, k: i32, valid: Proxy -> bool)
    requires k > 0
    requires k <= |ps| ==> valid(ps[k - 1])
    ensures |ps| < k ==> IndexAfter(ps, k, valid) == k - (|ps| - |Kept(ps, valid)|)
    ensures k <= |ps| ==> IndexAfter(ps, k, valid) == |Kept(ps[..k], valid)|
  {
    if ps != [] {
      var prefix := ps[..|ps| - 1];
      var last := ps[|ps| - 1];
      IndexTracksSelection(prefix, k, valid);
      var i := IndexAfter(prefix, k, valid);
      var n := |Kept(prefix, valid)|;
      assert IndexAfter(ps, k, valid) == if valid(last) then i else SkipAdjust(i, n);
      assert |Kept(ps, valid)| == n + (if valid(last) then 1 else 0);
      if |ps| == k {
        assert ps[..k] == ps;
      } else if |ps| > k {
        assert prefix[..k] == ps[..k];
        KeptPrefixShorter(prefix, k, valid);
      }
    }
  }

  /** A prefix keeps no more proxies than the whole. */
  lemma KeptPrefixShorter(ps: seq<Proxy>, m: nat, valid: Proxy -> bool)
    requires m <= |ps|
    ensures |Kept(ps[..m], valid)| <= |Kept(ps, valid)|
  {
    KeptAppend(ps[..m], ps[m..], valid);
    assert ps[..m] + ps[m..] == ps;
  }

  /** Skipping is symmetric in the sign of the index. */
  lemma {:induction false} IndexAfterNegated(ps: seq<Proxy>, k: i32, valid: Proxy -> bool)
    requires k > -TwoTo31
    ensures IndexAfter(ps, -k, valid) as int == -(IndexAfter(ps, k, valid) as int)
  {
    if ps != [] {
      IndexAfterNegated(ps[..|ps| - 1], k, valid);
    }
  }

  /** A usable sub-record at 1-based position `m` is the kept proxy whose
      position is the number of proxies kept up to and including it. */
  lemma KeptAtPosition(ps: seq<Proxy>, m: nat, valid: Proxy -> bool)
    requires 0 < m <= |ps| && valid(ps[m - 1])
    ensures 0 < |Kept(ps[..m], valid)| <= |Kept(ps, valid)|
    ensures Kept(ps, valid)[|Kept(ps[..m], valid)| - 1] == ps[m - 1]
  {
    var head := ps[..m];
    assert head == ps[..m - 1] + [ps[m - 1]];
    KeptAppend(ps[..m - 1], [ps[m - 1]], valid);
    assert [ps[m - 1]][..0] == [];
    KeptAppend(head, ps[m..], valid);
    assert head + ps[m..] == ps;
  }

  /** The intended property of the correction: a selected usable sub-record
      at position `|k|` (1-based) is still the one selected among the kept
      proxies, with the sign of `k` preserved. */
  lemma SelectionSurvivesSkipping(ps: seq<Proxy>, k: i32, valid: Proxy -> bool)
    requires k != 0 && k > -TwoTo31
    requires (if k > 0 then k else -k) <= |ps|
    requires valid(ps[(if k > 0 then k else -k) - 1])
    ensures var i := IndexAfter(ps, k, valid);
            var a: int := if i > 0 then i else -(i as int);
            (i > 0 <==> k > 0) && 0 < a <= |Kept(ps, valid)| && Kept(ps, valid)[a - 1] == ps[(if k > 0 then k else -k) - 1]
  {
    var m: i32 := if k > 0 then k else -k;
    IndexTracksSelection(ps, m, valid);
    if k < 0 {
      IndexAfterNegated(ps, m, valid);
      assert -m == k;
    }
    KeptAtPosition(ps, m as nat, valid);
  }

  /** Lines 489-492, the oldest list format: an index beyond the count
      meant "use the proxy for calls too" and was stored shifted away from zero
      by the count. Overflow on a negative count wraps, as the hardware does. */
  function OldListPrelude(count: i32, index: i32): (res: (i32, i32))
    ensures res.0 == 1 <==> Abs32(index) > count
    ensures res.0 != 1 ==> res == (0, index)
    ensures 0 <= count && index != -TwoTo31 && Abs32(index) > count ==>
      (res.1 > 0 <==> index > 0) && Abs32(res.1) == Abs32(index) - count
  {
    if Abs32(index) > count then (1, ToInt32(index - (if index > 0 then count as int else -(count as int))))
    else (0, index)
  }

  /** Lines 516-520: the selected proxy. */
  function SelectProxy(list: seq<Proxy>, index: int): (p: Proxy)
    ensures 0 < index <= |list| ==> p == list[index - 1]
    ensures !(0 < index <= |list|) ==> p == NoProxy
  {
    if 0 < index <= |list| then list[index - 1] else NoProxy
  }

  /** Lines 522-536: the proxy mode from its raw stored value. */
  function NormaliseSettings(raw: int, selectedUsable: bool): (s: ProxySettings)
    ensures s == Enabled <==> raw == Enabled.Raw() && selectedUsable
    ensures s == Disabled <==> raw == Disabled.Raw()
    ensures s == System <==> raw != Disabled.Raw() && !(raw == Enabled.Raw() && selectedUsable)
  {
    if raw == Enabled.Raw() then (if selectedUsable then Enabled else System)
    else if raw == Disabled.Raw() then Disabled
    else System
  }

  /** What a decoded proxy list leaves behind in the globals. */
  datatype ProxyState = ProxyState(list: seq<Proxy>, selected: Proxy, settings: ProxySettings, forCalls: bool)

  /** Lines 509-536: the selected proxy and the proxy mode once the list is
      read, from the index left by the skip adjustments and the stored mode (in the oldest
      format, "enabled" exactly when the index selects a kept proxy). */
  function SettleSelection(oldFormat: bool, list: seq<Proxy>, index: i32, settings: i32, valid: Proxy -> bool):
    (res: (Proxy, ProxySettings))
  {
    var settings2: int := if oldFormat then (if 0 < index <= |list| then Enabled.Raw() else System.Raw()) else settings;
    var selected := SelectProxy(list, if oldFormat then Abs32(index) else index);
    (selected, NormaliseSettings(settings2, valid(selected)))
  }

  /** Lines 486-537 after the reads: `ps` are the sub-records read,
      `settings` and `calls` the stored values (zero in the old format). The
      selected index is corrected for skipped entries as the C++ text does it
      (`IndexAfterAsWritten`). */
  function ResolveProxyList(oldFormat: bool, count: i32, index: i32, settings: i32, calls: i32,
                            ps: seq<Proxy>, valid: Proxy -> bool): ProxyState
  {
    var (calls1, index1) := if oldFormat then OldListPrelude(count, index) else (calls, index);
    var list := Kept(ps, valid);
    var (selected, mode) := SettleSelection(oldFormat, list, IndexAfterAsWritten(ps, index1, valid), settings, valid);
    ProxyState(list, selected, mode, calls1 == 1)
  }

  /** The list holds only usable proxies; the selected proxy is one of them
      or none; an enabled mode always has a usable selected proxy; and the
      calls flag is the stored calls value being 1. */
  lemma ResolvedProxyListWellFormed(oldFormat: bool, count: i32, index: i32, settings: i32, calls: i32,
                                    ps: seq<Proxy>, valid: Proxy -> bool)
    requires !valid(NoProxy)
    ensures var st := ResolveProxyList(oldFormat, count, index, settings, calls, ps, valid);
            (forall p :: p in st.list ==> valid(p) && p in ps) &&
            (st.selected in st.list || st.selected == NoProxy) &&
            (st.settings == Enabled ==> st.selected in st.list) &&
            (!oldFormat ==> (st.forCalls <==> calls == 1)) &&
            (oldFormat ==> (st.forCalls <==> Abs32(index) > count))
  {
    var list := Kept(ps, valid);
    forall p | p in list
      ensures valid(p) && p in ps
    {
      KeptMembers(ps, valid, p);
    }
  }

  /** In the oldest format the proxy is enabled exactly when the index left
      by the skip corrections selects a kept proxy; a negative index selects its proxy but
      leaves the mode at System. */
  lemma OldFormatEnabledExactlyWhenSelected(count: i32, index: i32, ps: seq<Proxy>, valid: Proxy -> bool)
    ensures var index2 := IndexAfterAsWritten(ps, OldListPrelude(count, index).1, valid);
            var st := ResolveProxyList(true, count, index, 0, 0, ps, valid);
            (st.settings == Enabled <==> 0 < index2 <= |st.list|) &&
            (st.settings != Disabled)
  {
    var index2 := IndexAfterAsWritten(ps, OldListPrelude(count, index).1, valid);
    var list := Kept(ps, valid);
    if 0 < index2 <= |list| {
      KeptMembers(ps, valid, list[index2 - 1]);
    }
  }

  /** The example of a three-entry list whose second entry is unusable and
      whose third is selected. Corrected, the third proxy stays selected at
      index 2; as written, the index becomes 4 and nothing is selected, so a
      stored Enabled mode falls back to System. */
  lemma SkippedMiddleEntry(a: Proxy, b: Proxy, c: Proxy, valid: Proxy -> bool)
    requires valid(a) && !valid(b) && valid(c) && !valid(NoProxy)
    ensures Kept([a, b, c], valid) == [a, c]
    ensures IndexAfter([a, b, c], 3, valid) == 2
    ensures SelectProxy(Kept([a, b, c], valid), IndexAfter([a, b, c], 3, valid)) == c
    ensures IndexAfterAsWritten([a, b, c], 3, valid) == 4
    ensures SelectProxy(Kept([a, b, c], valid), IndexAfterAsWritten([a, b, c], 3, valid)) == NoProxy
    ensures var st := ResolveProxyList(false, 3, 3, Enabled.Raw(), 0, [a, b, c], valid);
            st.selected == NoProxy && st.settings == System
  {
    assert [a, b, c][..2] == [a, b];
    assert [a, b][..1] == [a];
    assert [a][..0] == [];
    assert Kept([a], valid) == [a];
    assert Kept([a, b], valid) == [a];
    assert IndexAfter([a], 3, valid) == 3;
    assert IndexAfter([a, b], 3, valid) == 2;
    assert IndexAfterAsWritten([a], 3, valid) == 3;
    assert ToSize(-1) == TwoTo64 - 1;
    assert IndexAfterAsWritten([a, b], 3, valid) == 4;
  }

  /** The second example, in the oldest list format: two entries, the first
      unusable, the second selected through the negative index -2. As
      written, nothing is kept yet when the first is skipped, so the index
      drifts to -3 and nothing is selected; corrected, it becomes -1 and the
      second proxy stays selected. */
  lemma SkippedFirstEntryOldFormat(b: Proxy, c: Proxy, valid: Proxy -> bool)
    requires !valid(b) && valid(c)
    ensures IndexAfterAsWritten([b, c], -2, valid) == -3
    ensures ResolveProxyList(true, 2, -2, 0, 0, [b, c], valid).selected == NoProxy
    ensures IndexAfter([b, c], -2, valid) == -1
    ensures SelectProxy(Kept([b, c], valid), Abs32(IndexAfter([b, c], -2, valid))) == c
  {
    assert [b, c][..1] == [b];
    assert [b][..0] == [];
    assert Kept([b], valid) == [];
    assert Kept([b, c], valid) == [c];
    assert ToSize(-2) == TwoTo64 - 2;
    assert IndexAfterAsWritten([b], -2, valid) == -3;
    assert IndexAfter([b], -2, valid) == -1;
  }
}
