/** The two proxy blocks: the oldest single-proxy block and the current
    block, which holds either a proxy list or one proxy record. */
module ProxyBlocks {
  import opened Ints
  import opened Stream
  import opened Types
  import opened State
  import opened ProxyList
  import opened SettingsSpec
  import opened DecoderBase

  /** `readProxy` (lines 464-481): one proxy sub-record. */
  method ReadProxyRecord(cursor: Cursor) returns (proxy: Proxy)
    modifies cursor
    ensures (cursor.State(), proxy) == ReadProxy(old(cursor.State()))
  {
    var proxyType := cursor.ReadI32();
    var host := cursor.ReadStr();
    var port := cursor.ReadI32();
    var user := cursor.ReadStr();
    var password := cursor.ReadStr();
    proxy := Proxy(ProxyTypeOf(proxyType), host, ToUInt32(port), user, password);
  }

  /** Lines 494-504: the sub-records of a proxy list; usable proxies are
      kept in order, and each skipped one adjusts the selected index with the
      unsigned comparisons of the C++ text. */
  method ReadProxyListEntries(cursor: Cursor, count: i32, index0: i32, valid: Proxy -> bool)
    returns (list: seq<Proxy>, index: i32, ghost ps: seq<Proxy>)
    modifies cursor
    ensures (cursor.State(), ps) == ReadProxies(old(cursor.State()), if count > 0 then count as nat else 0)
    ensures list == Kept(ps, valid) && index == IndexAfterAsWritten(ps, index0, valid)
  {
    var n: nat := if count > 0 then count as nat else 0;
    ghost var r0 := cursor.State();
    ps := [];
    list, index := [], index0;
    for i := 0 to n
      invariant (cursor.State(), ps) == ReadProxies(r0, i)
      invariant list == Kept(ps, valid) && index == IndexAfterAsWritten(ps, index0, valid)
    {
      var proxy := ReadProxyRecord(cursor);
      assert (ps + [proxy])[..|ps|] == ps;
      ps := ps + [proxy];
      if valid(proxy) {
        list := list + [proxy];
      } else {
        index := AdjustForSkipped(index, |list|);
      }
    }
  }

  /** Lines 499-503: `index < -list.size()` and `index > list.size()`
      compare with the unsigned `size_t`, and `++index`, `--index` work on
      the 32-bit index. */
  method AdjustForSkipped(index: i32, kept: nat) returns (r: i32)
    ensures r == SkipAdjustAsWritten(index, kept)
  {
    if ToSize(index) < ToSize(-(kept as int)) {
      r := ToInt32(index + 1);
    } else if ToSize(index) > ToSize(kept) {
      r := ToInt32(index - 1);
    } else {
      r := index;
    }
  }

  /** Lines 426-455: the oldest proxy block; only the two proxy connection
      types carry a proxy record. */
  method ReadConnectionTypeOld(ghost r0: Reader, ghost w0: World, cursor: Cursor, valid: Proxy -> bool,
                               ctx: Context, app: AppSettings, glob: Globals)
    returns (ok: bool, ghost out: Outcome)
    requires cursor.State() == r0 && WorldOf(ctx, app, glob) == w0
    modifies cursor, glob
    ensures out == ConnectionTypeOldSpec(r0, valid, w0)
    ensures Follows(out, w0, ok, cursor, ctx, app, glob)
  {
    out := ConnectionTypeOldSpec(r0, valid, w0);
    var v := cursor.ReadI32();
    if !cursor.ok { ok := false; return; }
    var proxy := ReadOldProxyRecord(cursor, v);
    if !cursor.ok { ok := false; return; }
    if valid(proxy) {
      glob.SetProxyState([proxy], proxy, Enabled);
    } else {
      glob.SetProxyState([], NoProxy, System);
    }
    ok := true;
  }

  /** Lines 431-443: the proxy record of the oldest proxy block. */
  method ReadOldProxyRecord(cursor: Cursor, v: i32) returns (proxy: Proxy)
    modifies cursor
    ensures (cursor.State(), proxy) == OldProxyRecord(old(cursor.State()), v)
  {
    proxy := NoProxy;
    if v == ConnectionHttpProxy || v == ConnectionTcpProxy {
      var host := cursor.ReadStr();
      var port := cursor.ReadI32();
      var user := cursor.ReadStr();
      var password := cursor.ReadStr();
      proxy := Proxy(if v == ConnectionTcpProxy then Socks5 else Http, host, ToUInt32(port), user, password);
    }
  }

  /** Lines 457-559: the current proxy block. */
  method ReadConnectionType(ghost r0: Reader, ghost w0: World, cursor: Cursor, valid: Proxy -> bool,
                            ctx: Context, app: AppSettings, glob: Globals)
    returns (ok: bool, ghost out: Outcome)
    requires cursor.State() == r0 && WorldOf(ctx, app, glob) == w0
    modifies cursor, glob
    ensures out == ConnectionTypeSpec(r0, valid, w0)
    ensures Follows(out, w0, ok, cursor, ctx, app, glob)
  {
    var connectionType := cursor.ReadI32();
    if !cursor.ok {
      ok, out := false, Failed(cursor.State());
      return;
    }
    if connectionType == ConnectionProxiesListOld || connectionType == ConnectionProxiesList {
      ok, out := ReadProxyList(cursor.State(), w0, cursor, connectionType == ConnectionProxiesListOld, valid, ctx, app, glob);
    } else {
      ok, out := ReadSingleProxy(cursor.State(), w0, cursor, connectionType, valid, ctx, app, glob);
    }
  }

  /** Lines 486-537: a proxy list. */
  method ReadProxyList(ghost r0: Reader, ghost w0: World, cursor: Cursor, oldFormat: bool, valid: Proxy -> bool,
                       ctx: Context, app: AppSettings, glob: Globals)
    returns (ok: bool, ghost out: Outcome)
    requires cursor.State() == r0 && WorldOf(ctx, app, glob) == w0
    modifies cursor, glob
    ensures out == ProxyListSpec(r0, oldFormat, valid, w0)
    ensures Follows(out, w0, ok, cursor, ctx, app, glob)
  {
    var count, index, settings, calls := ReadProxyListHeader(cursor, oldFormat);
    ok, out := ReadProxyListBody(cursor.State(), w0, cursor, oldFormat, count, index, settings, calls, valid,
                                 ctx, app, glob);
  }

  /** Lines 489-537: the proxy list after its header. */
  method ReadProxyListBody(ghost r0: Reader, ghost w0: World, cursor: Cursor, oldFormat: bool,
                           count: i32, index0: i32, settings: i32, calls0: i32, valid: Proxy -> bool,
                           ctx: Context, app: AppSettings, glob: Globals)
    returns (ok: bool, ghost out: Outcome)
    requires cursor.State() == r0 && WorldOf(ctx, app, glob) == w0
    modifies cursor, glob
    ensures out == ProxyListBodySpec(r0, oldFormat, count, index0, settings, calls0, valid, w0)
    ensures Follows(out, w0, ok, cursor, ctx, app, glob)
  {
    out := ProxyListBodySpec(r0, oldFormat, count, index0, settings, calls0, valid, w0);
    var index, calls := index0, calls0;
    if oldFormat {
      var prelude := OldListPrelude(count, index);
      calls, index := prelude.0, prelude.1;
    }
    var list; ghost var ps;
    list, index, ps := ReadProxyListEntries(cursor, count, index, valid);
    if !cursor.ok { ok := false; return; }
    var selected, mode := SettleProxyList(oldFormat, list, index, settings, valid);
    assert ResolveProxyList(oldFormat, count, index0, settings, calls0, ps, valid)
        == ProxyState(list, selected, mode, calls == 1);
    StoreProxyList(glob, list, selected, mode, calls == 1);
    ok := true;
  }

  /** Lines 486-488: the list header. */
  method ReadProxyListHeader(cursor: Cursor, oldFormat: bool) returns (count: i32, index: i32, settings: i32, calls: i32)
    modifies cursor
    ensures (cursor.State(), count, index, settings, calls) == ProxyListHeader(old(cursor.State()), oldFormat)
  {
    count := cursor.ReadI32();
    index := cursor.ReadI32();
    settings, calls := 0, 0;
    if !oldFormat {
      settings := cursor.ReadI32();
      calls := cursor.ReadI32();
    }
  }

  /** Lines 509-535: the four proxy globals a list block sets. */
  method StoreProxyList(glob: Globals, list: seq<Proxy>, selected: Proxy, mode: ProxySettings, forCalls: bool)
    modifies glob
    ensures glob.Value() == old(glob.Value()).(proxiesList := list, selectedProxy := selected,
                                               proxySettings := mode, useProxyForCalls := forCalls)
  {
    glob.SetProxyState(list, selected, mode);
    glob.SetUseProxyForCalls(forCalls);
  }

  /** Lines 509-536: the selected proxy and the proxy mode. */
  method SettleProxyList(oldFormat: bool, list: seq<Proxy>, index0: i32, settings0: i32, valid: Proxy -> bool)
    returns (selected: Proxy, mode: ProxySettings)
    ensures (selected, mode) == SettleSelection(oldFormat, list, index0, settings0, valid)
  {
    var index, settings := index0, settings0;
    if oldFormat {
      settings := if 0 < index <= |list| then Enabled.Raw() else System.Raw();
      index := Abs32(index);
    }
    selected := if 0 < index <= |list| then list[index - 1] else NoProxy;
    if settings == Enabled.Raw() {
      mode := if valid(selected) then Enabled else System;
    } else if settings == Disabled.Raw() {
      mode := Disabled;
    } else {
      mode := System;
    }
  }

  /** Lines 538-557: a single proxy record. */
  method ReadSingleProxy(ghost r0: Reader, ghost w0: World, cursor: Cursor, connectionType: i32, valid: Proxy -> bool,
                         ctx: Context, app: AppSettings, glob: Globals)
    returns (ok: bool, ghost out: Outcome)
    requires cursor.State() == r0 && WorldOf(ctx, app, glob) == w0
    modifies cursor, glob
    ensures out == ProxyRecordSpec(r0, connectionType, valid, w0)
    ensures Follows(out, w0, ok, cursor, ctx, app, glob)
  {
    out := ProxyRecordSpec(r0, connectionType, valid, w0);
    var proxy := ReadProxyRecord(cursor);
    if !cursor.ok { ok := false; return; }
    if valid(proxy) {
      glob.SetProxyState([proxy], proxy,
                         if connectionType == ConnectionTcpProxy || connectionType == ConnectionHttpProxy
                         then Enabled else System);
    } else {
      glob.SetProxyState([], NoProxy, System);
    }
    ok := true;
  }

  /** The proxy blocks, one method each. */
  method ReadProxyBlock(id: ProxyId, ghost r0: Reader, ghost w0: World, cursor: Cursor, valid: Proxy -> bool,
                        ctx: Context, app: AppSettings, glob: Globals)
    returns (ok: bool, ghost out: Outcome)
    requires cursor.State() == r0 && WorldOf(ctx, app, glob) == w0
    modifies cursor, glob
    ensures out == ProxySpec(id, r0, valid, w0)
    ensures Follows(out, w0, ok, cursor, ctx, app, glob)
  {
    match id {
      case ConnectionTypeOld => ok, out := ReadConnectionTypeOld(r0, w0, cursor, valid, ctx, app, glob);
      case ConnectionType => ok, out := ReadConnectionType(r0, w0, cursor, valid, ctx, app, glob);
    }
  }
}
